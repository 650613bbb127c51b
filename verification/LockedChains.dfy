// Recurrence chains in the locked repository: one live job per chain, every slot served once.
module LockedChains {
  import opened Core
  import opened Jobs
  import opened MemoryRepository
  import opened Lifecycle
  import opened Lineages
  import opened StartTimes
  import CronSearch

  /** The places of the jobs a run has created, and the jobs that have created their next run. */
  datatype Family = Family(places: map<JobId, Lineage>, spawned: set<JobId>)

  const NOBODY := Family(map[], {})

  ghost predicate AddsRoot(s: Sys, e: Event)
    requires Enabled(s, e)
  {
    e.Submits? && e.id in Apply(s, e).repo.jobs
  }

  ghost predicate AddsChild(s: Sys, e: Event)
    requires Enabled(s, e)
  {
    e.Recurs? && e.id in Apply(s, e).repo.jobs
  }

  function AddRoot(f: Family, id: JobId): Family {
    f.(places := WithRoot(f.places, id))
  }

  function AddChild(f: Family, parent: JobId, id: JobId): Family
    requires parent in f.places
  {
    Family(WithChild(f.places, parent, id), f.spawned + {parent})
  }

  ghost function Grow(s: Sys, e: Event, f: Family): Family
    requires Enabled(s, e)
  {
    if AddsRoot(s, e) then AddRoot(f, e.id)
    else if AddsChild(s, e) && s.active[e.p].job in f.places then AddChild(f, s.active[e.p].job, e.id)
    else f
  }

  ghost function Grown(s: Sys, events: seq<Event>, f: Family): Family
    requires Admissible(s, events)
    decreases |events|
  {
    if events == [] then f else Grown(Apply(s, events[0]), events[1..], Grow(s, events[0], f))
  }

  // ----- the invariant -----

  /** The job has succeeded and no call has it in hand. */
  ghost predicate Done(s: Sys, id: JobId) {
    && id in s.repo.jobs && s.repo.jobs[id].status == Succeeded
    && (forall p :: p in s.active ==> s.active[p].job != id)
  }

  ghost predicate SpawnersDone(s: Sys, f: Family) {
    forall id :: id in f.spawned ==> Done(s, id)
  }

  /** The job keeps its slot in `run_at`, never runs before it, and has not been started before it. */
  predicate SlotOk(job: JobRecord, clock: Time) {
    && job.runAt.Some? && job.runAt.value <= job.nextRunAt
    && (job.attemptCount >= 1 ==> job.runAt.value <= clock)
  }

  ghost predicate SlotsKept(s: Sys, f: Family) {
    forall id {:trigger Spawned(f.places, id)} :: Spawned(f.places, id) ==>
      id in s.repo.jobs && SlotOk(s.repo.jobs[id], s.clock)
  }

  ghost predicate Chains(s: Sys, f: Family) {
    InOrder(f.places, f.spawned, s.repo.jobs) && SpawnersDone(s, f) && SlotsKept(s, f)
  }

  // ----- steps that add no job -----

  lemma ActiveComesFromClaims(s: Sys, e: Event, id: JobId)
    requires Enabled(s, e) && Done(s, id)
    ensures forall p :: p in Apply(s, e).active ==> Apply(s, e).active[p].job != id
  {
  }

  lemma DoneStays(s: Sys, e: Event, id: JobId)
    requires Inv(s) && Enabled(s, e) && Done(s, id)
    ensures Done(Apply(s, e), id)
  {
    RecordAfter(s, e, id);
    assert !Changes(s, e, id);
    ActiveComesFromClaims(s, e, id);
  }

  lemma SlotStays(s: Sys, e: Event, id: JobId)
    requires Inv(s) && Enabled(s, e) && id in s.repo.jobs && SlotOk(s.repo.jobs[id], s.clock)
    ensures id in Apply(s, e).repo.jobs && SlotOk(Apply(s, e).repo.jobs[id], Apply(s, e).clock)
  {
    RecordAfter(s, e, id);
    if e.Fails? && s.active[e.p].job == id {
      assert ActivityOk(s, s.active[e.p]);
    }
  }

  lemma KeysStay(s: Sys, e: Event)
    requires Enabled(s, e) && !AddsRoot(s, e) && !AddsChild(s, e)
    ensures Apply(s, e).repo.jobs.Keys == s.repo.jobs.Keys
  {
  }

  lemma SlotsKeptStays(s: Sys, e: Event, f: Family)
    requires Inv(s) && Enabled(s, e) && SlotsKept(s, f)
    ensures SlotsKept(Apply(s, e), f)
  {
    forall id | Spawned(f.places, id)
      ensures id in Apply(s, e).repo.jobs && SlotOk(Apply(s, e).repo.jobs[id], Apply(s, e).clock)
    {
      SlotStays(s, e, id);
    }
  }

  lemma SlotsSame(s: Sys, e: Event)
    requires Enabled(s, e)
    ensures SameSlots(s.repo.jobs, Apply(s, e).repo.jobs)
  {
    forall id | id in s.repo.jobs
      ensures id in Apply(s, e).repo.jobs && Apply(s, e).repo.jobs[id].runAt == s.repo.jobs[id].runAt
    {
      RecordAfter(s, e, id);
    }
  }

  lemma SpawnersStayDone(s: Sys, e: Event, f: Family)
    requires Inv(s) && Enabled(s, e) && SpawnersDone(s, f)
    ensures SpawnersDone(Apply(s, e), f)
  {
    forall id | id in f.spawned ensures Done(Apply(s, e), id) {
      DoneStays(s, e, id);
    }
  }

  lemma OrderKept(s: Sys, e: Event, f: Family)
    requires Enabled(s, e) && InOrder(f.places, f.spawned, s.repo.jobs) && !AddsRoot(s, e) && !AddsChild(s, e)
    ensures InOrder(f.places, f.spawned, Apply(s, e).repo.jobs)
  {
    KeysStay(s, e);
    SlotsSame(s, e);
    OrderStays(f.places, f.spawned, s.repo.jobs, Apply(s, e).repo.jobs);
  }

  lemma OtherEventKeepsChains(s: Sys, e: Event, f: Family)
    requires Inv(s) && Enabled(s, e) && Chains(s, f) && !AddsRoot(s, e) && !AddsChild(s, e)
    ensures Chains(Apply(s, e), f)
  {
    SlotsKeptStays(s, e, f);
    SpawnersStayDone(s, e, f);
    OrderKept(s, e, f);
  }

  // ----- steps that add one -----

  lemma RootAdded(s: Sys, e: Event)
    requires Enabled(s, e) && AddsRoot(s, e)
    ensures AddsJob(s.repo.jobs, Apply(s, e).repo.jobs, e.id)
  {
  }

  /** All but the new job is in order already. */
  ghost predicate ButOne(s: Sys, s': Sys, f: Family, id: JobId) {
    && InOrder(f.places, f.spawned, s.repo.jobs) && SpawnersDone(s', f) && SlotsKept(s', f)
    && AddsJob(s.repo.jobs, s'.repo.jobs, id) && SameSlots(s.repo.jobs, s'.repo.jobs)
  }

  lemma RootKeepsSlotsKept(s: Sys, f: Family, id: JobId)
    requires SlotsKept(s, f)
    ensures SlotsKept(s, AddRoot(f, id))
  {
    forall j | Spawned(AddRoot(f, id).places, j) ensures Spawned(f.places, j) {}
  }

  lemma RootKeepsChains(s: Sys, s': Sys, f: Family, id: JobId)
    requires ButOne(s, s', f, id)
    ensures Chains(s', AddRoot(f, id))
  {
    RootKeepsOrder(f.places, f.spawned, s.repo.jobs, s'.repo.jobs, id);
    RootKeepsSlotsKept(s', f, id);
  }

  /** What the event leaves of the chains there were. */
  lemma OldChainsStay(s: Sys, e: Event, f: Family, id: JobId)
    requires Inv(s) && Enabled(s, e) && Chains(s, f) && AddsJob(s.repo.jobs, Apply(s, e).repo.jobs, id)
    ensures ButOne(s, Apply(s, e), f, id)
  {
    SlotsKeptStays(s, e, f);
    SlotsSame(s, e);
    SpawnersStayDone(s, e, f);
  }

  lemma RootEventKeepsChains(s: Sys, e: Event, f: Family)
    requires Inv(s) && Enabled(s, e) && Chains(s, f) && AddsRoot(s, e)
    ensures Chains(Apply(s, e), Grow(s, e, f))
  {
    RootAdded(s, e);
    OldChainsStay(s, e, f, e.id);
    RootKeepsChains(s, Apply(s, e), f, e.id);
  }

  lemma ChildKeepsSlotsKept(s: Sys, f: Family, parent: JobId, id: JobId)
    requires SlotsKept(s, f) && parent in f.places && id in s.repo.jobs && SlotOk(s.repo.jobs[id], s.clock)
    ensures SlotsKept(s, AddChild(f, parent, id))
  {
    forall j | Spawned(AddChild(f, parent, id).places, j) ensures j == id || Spawned(f.places, j) {}
  }

  lemma ChildKeepsSpawners(s: Sys, f: Family, parent: JobId, id: JobId)
    requires SpawnersDone(s, f) && parent in f.places && Done(s, parent)
    ensures SpawnersDone(s, AddChild(f, parent, id))
  {
  }

  /** The new job has a slot of its own, after that of its parent, which is at the head of its chain. */
  ghost predicate Follows(s': Sys, f: Family, parent: JobId, id: JobId) {
    && parent in f.places && parent !in f.spawned && Done(s', parent)
    && id in s'.repo.jobs && SlotOk(s'.repo.jobs[id], s'.clock)
    && (Spawned(f.places, parent) ==> SlotBefore(s'.repo.jobs, parent, id))
  }

  lemma ChildKeepsChains(s: Sys, s': Sys, f: Family, parent: JobId, id: JobId)
    requires ButOne(s, s', f, id) && Follows(s', f, parent, id)
    ensures Chains(s', AddChild(f, parent, id))
  {
    ChildKeepsOrder(f.places, f.spawned, s.repo.jobs, s'.repo.jobs, parent, id);
    ChildKeepsSlotsKept(s', f, parent, id);
    ChildKeepsSpawners(s', f, parent, id);
  }

  /** The parent has been started and is done now, and the child is new, with a slot after the old clock. */
  ghost predicate Child(s: Sys, s': Sys, parent: JobId, id: JobId) {
    && AddsJob(s.repo.jobs, s'.repo.jobs, id)
    && parent in s.repo.jobs && !Done(s, parent) && Done(s', parent) && s.repo.jobs[parent].attemptCount >= 1
    && s'.repo.jobs[parent].runAt == s.repo.jobs[parent].runAt
    && id in s'.repo.jobs && SlotOk(s'.repo.jobs[id], s'.clock) && s.clock < s'.repo.jobs[id].runAt.value
  }

  lemma ChildAdded(s: Sys, e: Event)
    requires Inv(s) && Enabled(s, e) && AddsChild(s, e)
    ensures Child(s, Apply(s, e), s.active[e.p].job, e.id)
  {
    assert ActivityOk(s, s.active[e.p]);
    CronSearch.NextRunIsLater(s.repo.jobs[s.active[e.p].job].recurringCron.value, e.now);
  }

  lemma ChildFollows(s: Sys, s': Sys, f: Family, parent: JobId, id: JobId)
    requires Placed(f.places, s.repo.jobs) && SpawnersDone(s, f) && SlotsKept(s, f)
    requires Child(s, s', parent, id)
    ensures Follows(s', f, parent, id)
  {
  }

  lemma ChildJoins(s: Sys, s': Sys, f: Family, parent: JobId, id: JobId)
    requires Chains(s, f) && ButOne(s, s', f, id) && Child(s, s', parent, id)
    ensures parent in f.places && Chains(s', AddChild(f, parent, id))
  {
    ChildFollows(s, s', f, parent, id);
    ChildKeepsChains(s, s', f, parent, id);
  }

  lemma GrowIsChild(s: Sys, e: Event, f: Family)
    requires Enabled(s, e) && AddsChild(s, e) && s.active[e.p].job in f.places
    ensures Grow(s, e, f) == AddChild(f, s.active[e.p].job, e.id)
  {
  }

  lemma ChildEventAdds(s: Sys, e: Event, f: Family)
    requires Inv(s) && Enabled(s, e) && Chains(s, f) && AddsChild(s, e)
    ensures Child(s, Apply(s, e), s.active[e.p].job, e.id) && ButOne(s, Apply(s, e), f, e.id)
  {
    ChildAdded(s, e);
    OldChainsStay(s, e, f, e.id);
  }

  lemma ChildEventJoins(s: Sys, e: Event, s': Sys, f: Family, parent: JobId)
    requires Inv(s) && Enabled(s, e) && Chains(s, f) && AddsChild(s, e)
    requires s' == Apply(s, e) && parent == s.active[e.p].job
    ensures parent in f.places && Chains(s', AddChild(f, parent, e.id))
  {
    ChildEventAdds(s, e, f);
    ChildJoins(s, s', f, parent, e.id);
  }

  lemma ChildEventKeepsChains(s: Sys, e: Event, s': Sys, f: Family)
    requires Inv(s) && Enabled(s, e) && Chains(s, f) && AddsChild(s, e) && s' == Apply(s, e)
    ensures Chains(s', Grow(s, e, f))
  {
    ChildEventJoins(s, e, s', f, s.active[e.p].job);
    GrowIsChild(s, e, f);
  }

  lemma EventKeepsChains(s: Sys, e: Event, s': Sys, f: Family)
    requires Inv(s) && Enabled(s, e) && Chains(s, f) && s' == Apply(s, e)
    ensures Chains(s', Grow(s, e, f))
  {
    if AddsRoot(s, e) {
      RootEventKeepsChains(s, e, f);
    } else if AddsChild(s, e) {
      ChildEventKeepsChains(s, e, s', f);
    } else {
      OtherEventKeepsChains(s, e, f);
    }
  }

  lemma {:induction false} RunKeepsChains(s: Sys, events: seq<Event>, f: Family)
    requires Inv(s) && Admissible(s, events) && Chains(s, f)
    ensures Chains(Run(s, events), Grown(s, events, f))
    decreases |events|
  {
    if events == [] {
    } else {
      EventKeepsInv(s, events[0]);
      EventKeepsChains(s, events[0], Apply(s, events[0]), f);
      RunKeepsChains(Apply(s, events[0]), events[1..], Grow(s, events[0], f));
    }
  }

  // ----- one chain, one piece of work -----

  lemma WorkSame(s: Sys, e: Event)
    requires Enabled(s, e)
    ensures SameWork(s.repo.jobs, Apply(s, e).repo.jobs)
  {
    forall id | id in s.repo.jobs
      ensures id in Apply(s, e).repo.jobs && WorkOf(Apply(s, e).repo.jobs[id]) == WorkOf(s.repo.jobs[id])
    {
      RecordAfter(s, e, id);
    }
  }

  lemma ChildWork(s: Sys, e: Event)
    requires Enabled(s, e) && AddsChild(s, e)
    ensures s.active[e.p].job in s.repo.jobs && e.id !in s.repo.jobs
    ensures WorkOf(Apply(s, e).repo.jobs[e.id]) == WorkOf(s.repo.jobs[s.active[e.p].job])
  {
  }

  lemma RootEventSharesWork(s: Sys, e: Event, f: Family)
    requires Enabled(s, e) && AddsRoot(s, e) && Placed(f.places, s.repo.jobs)
    requires SharedWork(f.places, Apply(s, e).repo.jobs)
    ensures SharedWork(Grow(s, e, f).places, Apply(s, e).repo.jobs)
  {
    RootAdded(s, e);
    RootSharesWork(f.places, Apply(s, e).repo.jobs, e.id);
  }

  lemma ChildEventSharesWork(s: Sys, e: Event, f: Family)
    requires Enabled(s, e) && AddsChild(s, e) && Placed(f.places, s.repo.jobs)
    requires SharedWork(f.places, Apply(s, e).repo.jobs) && SameWork(s.repo.jobs, Apply(s, e).repo.jobs)
    ensures SharedWork(Grow(s, e, f).places, Apply(s, e).repo.jobs)
  {
    GrowIsChild(s, e, f);
    ChildWork(s, e);
    ChildSharesWork(f.places, Apply(s, e).repo.jobs, s.active[e.p].job, e.id);
  }

  lemma EventSharesWork(s: Sys, e: Event, f: Family)
    requires Enabled(s, e) && Placed(f.places, s.repo.jobs) && SharedWork(f.places, s.repo.jobs)
    ensures SharedWork(Grow(s, e, f).places, Apply(s, e).repo.jobs)
  {
    WorkSame(s, e);
    OldWorkShared(f.places, s.repo.jobs, Apply(s, e).repo.jobs);
    if AddsRoot(s, e) {
      RootEventSharesWork(s, e, f);
    } else if AddsChild(s, e) {
      ChildEventSharesWork(s, e, f);
    }
  }

  lemma {:induction false} RunSharesWork(s: Sys, events: seq<Event>, f: Family)
    requires Inv(s) && Admissible(s, events) && Chains(s, f) && SharedWork(f.places, s.repo.jobs)
    ensures SharedWork(Grown(s, events, f).places, Run(s, events).repo.jobs)
    decreases |events|
  {
    if events == [] {
    } else {
      EventKeepsInv(s, events[0]);
      EventKeepsChains(s, events[0], Apply(s, events[0]), f);
      EventSharesWork(s, events[0], f);
      RunSharesWork(Apply(s, events[0]), events[1..], Grow(s, events[0], f));
    }
  }

  /** All jobs of a chain have the same handler, payload, priority, limits and expression. */
  lemma ChainSharesWork(events: seq<Event>, a: JobId, b: JobId)
    requires Admissible(START, events) && SameChain(Grown(START, events, NOBODY).places, a, b)
    ensures var jobs := Run(START, events).repo.jobs; a in jobs && b in jobs && WorkOf(jobs[a]) == WorkOf(jobs[b])
  {
    StartInv();
    RunKeepsChains(START, events, NOBODY);
    RunSharesWork(START, events, NOBODY);
  }

  lemma OneLiveInChain(s: Sys, f: Family, a: JobId, b: JobId)
    requires Chains(s, f) && SameChain(f.places, a, b) && a in s.repo.jobs && b in s.repo.jobs
    requires IsLive(s.repo.jobs[a].status) && IsLive(s.repo.jobs[b].status)
    ensures a == b
  {
    OneLive(f.places, f.spawned, s.repo.jobs, a, b);
  }

  /** At most one job of a recurrence chain is ever pending or running, also when attempts fail and workers crash. */
  lemma OneLiveJobPerChain(events: seq<Event>, a: JobId, b: JobId)
    requires Admissible(START, events) && SameChain(Grown(START, events, NOBODY).places, a, b)
    requires var jobs := Run(START, events).repo.jobs;
             a in jobs && b in jobs && IsLive(jobs[a].status) && IsLive(jobs[b].status)
    ensures a == b
  {
    StartInv();
    RunKeepsChains(START, events, NOBODY);
    OneLiveInChain(Run(START, events), Grown(START, events, NOBODY), a, b);
  }

  /** The slots of the jobs a chain spawns strictly increase, and no attempt of any of them starts before its slot. */
  lemma SlotsServedOnce(events: seq<Event>, a: JobId, b: JobId)
    requires Admissible(START, events) && SameChain(Grown(START, events, NOBODY).places, a, b)
    requires var places := Grown(START, events, NOBODY).places; 1 <= places[a].generation < places[b].generation
    ensures SlotBefore(Run(START, events).repo.jobs, a, b)
    ensures var jobs, starts := Run(START, events).repo.jobs, StartsOf(START, events, b);
            forall n :: 0 <= n < |starts| ==> jobs[b].runAt.value <= starts[n]
  {
    StartInv();
    RunKeepsChains(START, events, NOBODY);
    forall n | 0 <= n < |StartsOf(START, events, b)|
      ensures Run(START, events).repo.jobs[b].runAt.value <= StartsOf(START, events, b)[n]
    {
      StartsNotBeforeRunAt(events, b, n);
    }
  }
}
