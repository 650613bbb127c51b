// The places of jobs in their recurrence chains and the slots they serve, apart from any repository.
module Lineages {
  import opened Core
  import opened Jobs

  ghost predicate SameChain(places: map<JobId, Lineage>, a: JobId, b: JobId) {
    a in places && b in places && places[a].origin == places[b].origin
  }

  ghost predicate Spawned(places: map<JobId, Lineage>, id: JobId) {
    id in places && places[id].generation >= 1
  }

  /** A chain is named after a job that has a place, and begins with it. */
  ghost predicate Rooted(places: map<JobId, Lineage>) {
    forall id {:trigger places[id]} :: id in places ==>
      places[id].origin in places && (places[id].generation == 0 ==> places[id].origin == id)
  }

  /** Exactly the jobs have places. */
  ghost predicate Placed(places: map<JobId, Lineage>, jobs: map<JobId, JobRecord>) {
    Rooted(places) && forall id :: id in places <==> id in jobs
  }

  /** Only the youngest job of a chain has not spawned yet, and each generation has one job. */
  ghost predicate OneHead(places: map<JobId, Lineage>, spawners: set<JobId>) {
    forall a, b {:trigger SameChain(places, a, b)} :: SameChain(places, a, b) ==>
      && (places[a].generation < places[b].generation ==> a in spawners)
      && (places[a].generation == places[b].generation ==> a == b)
  }

  /** Both jobs have slots, and the first comes before the second. */
  ghost predicate SlotBefore(jobs: map<JobId, JobRecord>, a: JobId, b: JobId) {
    a in jobs && b in jobs && jobs[a].runAt.Some? && jobs[b].runAt.Some? && jobs[a].runAt.value < jobs[b].runAt.value
  }

  /** Within a chain, later generations have strictly later slots. */
  ghost predicate SlotsIncrease(places: map<JobId, Lineage>, jobs: map<JobId, JobRecord>) {
    forall a, b {:trigger SameChain(places, a, b)} ::
      SameChain(places, a, b) && 1 <= places[a].generation < places[b].generation ==> SlotBefore(jobs, a, b)
  }

  /** No record is lost and none changes its slot. */
  ghost predicate SameSlots(jobs: map<JobId, JobRecord>, jobs': map<JobId, JobRecord>) {
    forall id :: id in jobs ==> id in jobs' && jobs'[id].runAt == jobs[id].runAt
  }

  /** The records there are, and one new id. */
  ghost predicate AddsJob(jobs: map<JobId, JobRecord>, jobs': map<JobId, JobRecord>, id: JobId) {
    id !in jobs && forall j :: j in jobs' <==> j in jobs || j == id
  }

  // ----- what changes the places -----

  /** A job that begins a chain of its own. */
  function WithRoot(places: map<JobId, Lineage>, id: JobId): map<JobId, Lineage> {
    places[id := Lineage(id, 0)]
  }

  /** A job that follows another one in its chain. */
  function WithChild(places: map<JobId, Lineage>, parent: JobId, id: JobId): map<JobId, Lineage>
    requires parent in places
  {
    places[id := Lineage(places[parent].origin, places[parent].generation + 1)]
  }

  lemma RootIsPlaced(places: map<JobId, Lineage>, jobs: map<JobId, JobRecord>, jobs': map<JobId, JobRecord>, id: JobId)
    requires Placed(places, jobs) && AddsJob(jobs, jobs', id)
    ensures Placed(WithRoot(places, id), jobs')
  {
  }

  lemma ChildIsPlaced(places: map<JobId, Lineage>, jobs: map<JobId, JobRecord>, jobs': map<JobId, JobRecord>,
        parent: JobId, id: JobId)
    requires Placed(places, jobs) && parent in places && AddsJob(jobs, jobs', id)
    ensures Placed(WithChild(places, parent, id), jobs')
  {
  }

  lemma RootKeepsHeads(places: map<JobId, Lineage>, spawners: set<JobId>, id: JobId)
    requires Rooted(places) && OneHead(places, spawners) && id !in places
    ensures OneHead(WithRoot(places, id), spawners)
  {
    forall a, b | SameChain(WithRoot(places, id), a, b) ensures SameChain(places, a, b) || a == b == id {}
  }

  /** Only the job at the head of its chain has a child added, and it is the head no longer. */
  lemma ChildKeepsHeads(places: map<JobId, Lineage>, spawners: set<JobId>, parent: JobId, id: JobId)
    requires OneHead(places, spawners) && parent in places && parent !in spawners && id !in places
    ensures OneHead(WithChild(places, parent, id), spawners + {parent})
  {
    var places' := WithChild(places, parent, id);
    forall a, b | SameChain(places', a, b)
      ensures places'[a].generation < places'[b].generation ==> a in spawners + {parent}
      ensures places'[a].generation == places'[b].generation ==> a == b
    {
      if a != id && b != id {
        assert SameChain(places, a, b);
      } else if a != id {
        assert SameChain(places, a, parent) && SameChain(places, parent, a);
      } else if b != id {
        assert SameChain(places, b, parent) && SameChain(places, parent, b);
      }
    }
  }

  lemma SlotsStay(places: map<JobId, Lineage>, jobs: map<JobId, JobRecord>, jobs': map<JobId, JobRecord>)
    requires SlotsIncrease(places, jobs) && SameSlots(jobs, jobs')
    ensures SlotsIncrease(places, jobs')
  {
  }

  lemma RootKeepsSlots(places: map<JobId, Lineage>, jobs: map<JobId, JobRecord>, id: JobId)
    requires Rooted(places) && SlotsIncrease(places, jobs) && id !in places
    ensures SlotsIncrease(WithRoot(places, id), jobs)
  {
    forall a, b | SameChain(WithRoot(places, id), a, b) ensures SameChain(places, a, b) || a == b == id {}
  }

  /** The slots still increase when the child of the head comes after the head's own slot. */
  lemma ChildKeepsSlots(places: map<JobId, Lineage>, spawners: set<JobId>, jobs: map<JobId, JobRecord>, parent: JobId,
        id: JobId)
    requires OneHead(places, spawners) && SlotsIncrease(places, jobs)
    requires parent in places && parent !in spawners && id !in places
    requires Spawned(places, parent) ==> SlotBefore(jobs, parent, id)
    ensures SlotsIncrease(WithChild(places, parent, id), jobs)
  {
    var places' := WithChild(places, parent, id);
    forall a, b | SameChain(places', a, b) && 1 <= places'[a].generation < places'[b].generation
      ensures SlotBefore(jobs, a, b)
    {
      if a == id {
        assert SameChain(places, parent, b);
      } else if b == id {
        assert SameChain(places, a, parent) && SameChain(places, parent, a);
      } else {
        assert SameChain(places, a, b);
      }
    }
  }

  // ----- all of it together -----

  /** Every job has its place, each chain one head, and the slots of a chain increase. */
  ghost predicate InOrder(places: map<JobId, Lineage>, spawners: set<JobId>, jobs: map<JobId, JobRecord>) {
    Placed(places, jobs) && OneHead(places, spawners) && SlotsIncrease(places, jobs)
  }

  lemma OrderStays(places: map<JobId, Lineage>, spawners: set<JobId>, jobs: map<JobId, JobRecord>,
        jobs': map<JobId, JobRecord>)
    requires InOrder(places, spawners, jobs) && SameSlots(jobs, jobs') && forall id :: id in jobs' ==> id in jobs
    ensures InOrder(places, spawners, jobs')
  {
    SlotsStay(places, jobs, jobs');
  }

  lemma RootKeepsOrder(places: map<JobId, Lineage>, spawners: set<JobId>, jobs: map<JobId, JobRecord>,
        jobs': map<JobId, JobRecord>, id: JobId)
    requires InOrder(places, spawners, jobs) && AddsJob(jobs, jobs', id) && SameSlots(jobs, jobs')
    ensures InOrder(WithRoot(places, id), spawners, jobs')
  {
    RootIsPlaced(places, jobs, jobs', id);
    RootKeepsHeads(places, spawners, id);
    SlotsStay(places, jobs, jobs');
    RootKeepsSlots(places, jobs', id);
  }

  lemma ChildKeepsOrder(places: map<JobId, Lineage>, spawners: set<JobId>, jobs: map<JobId, JobRecord>,
        jobs': map<JobId, JobRecord>, parent: JobId, id: JobId)
    requires InOrder(places, spawners, jobs) && AddsJob(jobs, jobs', id) && SameSlots(jobs, jobs')
    requires parent in places && parent !in spawners
    requires Spawned(places, parent) ==> SlotBefore(jobs', parent, id)
    ensures InOrder(WithChild(places, parent, id), spawners + {parent}, jobs')
  {
    ChildIsPlaced(places, jobs, jobs', parent, id);
    ChildKeepsHeads(places, spawners, parent, id);
    SlotsStay(places, jobs, jobs');
    ChildKeepsSlots(places, spawners, jobs', parent, id);
  }

  /** When no spawner is live, two live jobs of one chain are the same job. */
  lemma OneLive(places: map<JobId, Lineage>, spawners: set<JobId>, jobs: map<JobId, JobRecord>, a: JobId, b: JobId)
    requires OneHead(places, spawners) && SameChain(places, a, b) && a in jobs && b in jobs
    requires forall id :: id in spawners && id in jobs ==> !IsLive(jobs[id].status)
    requires IsLive(jobs[a].status) && IsLive(jobs[b].status)
    ensures a == b
  {
    assert SameChain(places, b, a);
  }

  // ----- one chain, one piece of work -----

  ghost predicate SharedWork(places: map<JobId, Lineage>, jobs: map<JobId, JobRecord>) {
    forall a, b {:trigger SameChain(places, a, b)} ::
      SameChain(places, a, b) && a in jobs && b in jobs ==> WorkOf(jobs[a]) == WorkOf(jobs[b])
  }

  /** No record changes its work. */
  ghost predicate SameWork(jobs: map<JobId, JobRecord>, jobs': map<JobId, JobRecord>) {
    forall id :: id in jobs ==> id in jobs' && WorkOf(jobs'[id]) == WorkOf(jobs[id])
  }

  lemma OldWorkShared(places: map<JobId, Lineage>, jobs: map<JobId, JobRecord>, jobs': map<JobId, JobRecord>)
    requires Placed(places, jobs) && SharedWork(places, jobs) && SameWork(jobs, jobs')
    ensures SharedWork(places, jobs')
  {
  }

  lemma RootSharesWork(places: map<JobId, Lineage>, jobs: map<JobId, JobRecord>, id: JobId)
    requires Rooted(places) && SharedWork(places, jobs) && id !in places
    ensures SharedWork(WithRoot(places, id), jobs)
  {
    forall a, b | SameChain(WithRoot(places, id), a, b) ensures SameChain(places, a, b) || a == b == id {}
  }

  lemma ChildSharesWork(places: map<JobId, Lineage>, jobs: map<JobId, JobRecord>, parent: JobId, id: JobId)
    requires SharedWork(places, jobs) && parent in places && id !in places && parent in jobs && id in jobs
    requires WorkOf(jobs[id]) == WorkOf(jobs[parent])
    ensures SharedWork(WithChild(places, parent, id), jobs)
  {
    forall a, b | SameChain(WithChild(places, parent, id), a, b) && a in jobs && b in jobs
      ensures WorkOf(jobs[a]) == WorkOf(jobs[b])
    {
      var a', b' := if a == id then parent else a, if b == id then parent else b;
      assert SameChain(places, a', b');
    }
  }
}
