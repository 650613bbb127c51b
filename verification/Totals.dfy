// Sums over job lists, used to count jobs and to bound runs.
module Totals {
  import opened Jobs

  function Total(jobs: seq<JobRecord>, f: JobRecord -> nat): nat {
    if jobs == [] then 0 else f(jobs[0]) + Total(jobs[1..], f)
  }

  lemma {:induction false} TotalOfUpdate(jobs: seq<JobRecord>, i: nat, job: JobRecord, f: JobRecord -> nat)
    requires i < |jobs|
    ensures Total(jobs[i := job], f) + f(jobs[i]) == Total(jobs, f) + f(job)
  {
    var updated := jobs[i := job];
    if i == 0 {
      assert updated[1..] == jobs[1..];
    } else {
      assert updated[1..] == jobs[1..][i - 1 := job];
      TotalOfUpdate(jobs[1..], i - 1, job, f);
    }
  }

  lemma {:induction false} TotalOfConcat(a: seq<JobRecord>, b: seq<JobRecord>, f: JobRecord -> nat)
    ensures Total(a + b, f) == Total(a, f) + Total(b, f)
  {
    if a == [] {
      assert a + b == b;
    } else {
      assert (a + b)[1..] == a[1..] + b;
      TotalOfConcat(a[1..], b, f);
    }
  }
}
