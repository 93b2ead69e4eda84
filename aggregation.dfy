/** The reduction of the per-job status records of one commit to a single
    build status (the `find` calls and the `if` chain in fetchBuildStatus). */
module Aggregation {
  import opened Wrappers

  /** One element of the parsed `statuses` array.  Only its `status` field is
      read; `None` stands for a field that is absent or not a string, which
      `=== 'failed'` and `=== 'success'` never match. */
  /** A number, string or boolean element has no `status`, so it is
      `JobRecord(None)` too. */
  datatype JobRecord = JobRecord(status: Option<string>)

  datatype AggregateStatus = Fail | Success | Unknown

  /** The text the aggregate is resolved and cached under. */
  function Text(a: AggregateStatus): string
  {
    match a
    case Fail => "fail"
    case Success => "success"
    case Unknown => "unknown"
  }

  /** The cached text determines the aggregate it was written from, so the
      cache loses nothing about a fresh result. */
  lemma TextInjective(a: AggregateStatus, b: AggregateStatus)
    requires Text(a) == Text(b)
    ensures a == b
  {
  }

  /** Some record carries exactly the status text `s`. */
  predicate HasStatus(jobs: seq<JobRecord>, s: string)
  {
    exists i :: 0 <= i < |jobs| && jobs[i].status == Some(s)
  }

  /** `statuses.find(build => build.status === wanted)`, as the position of
      the element it returns: the first match, or none. */
  function Find(jobs: seq<JobRecord>, wanted: string): (r: Option<nat>)
    ensures r.None? <==> !HasStatus(jobs, wanted)
    ensures r.Some? ==> r.value < |jobs| && jobs[r.value].status == Some(wanted)
    ensures r.Some? ==> forall j :: 0 <= j < r.value ==> jobs[j].status != Some(wanted)
  {
    if jobs == [] then None
    else if jobs[0].status == Some(wanted) then Some(0)
    else
      match Find(jobs[1..], wanted)
      case None =>
        assert forall i :: 1 <= i < |jobs| ==> jobs[i] == jobs[1..][i - 1];
        None
      case Some(i) => Some(i + 1)
  }

  /** Any failed job gives `fail`; otherwise any successful job gives
      `success`; otherwise (also for no jobs at all) `unknown`. */
  function Aggregate(jobs: seq<JobRecord>): (r: AggregateStatus)
    ensures r == Fail <==> HasStatus(jobs, "failed")
    ensures r == Success <==> !HasStatus(jobs, "failed") && HasStatus(jobs, "success")
    ensures r == Unknown <==> !HasStatus(jobs, "failed") && !HasStatus(jobs, "success")
  {
    var failed := Find(jobs, "failed");
    var succeeded := Find(jobs, "success");
    if failed.Some? then Fail
    else if succeeded.Some? then Success
    else Unknown
  }

  /** The aggregate does not depend on the order of the records. */
  lemma AggregateOrderIndependent(a: seq<JobRecord>, b: seq<JobRecord>)
    requires multiset(a) == multiset(b)
    ensures Aggregate(a) == Aggregate(b)
  {
    forall s | s == "failed" || s == "success"
      ensures HasStatus(a, s) == HasStatus(b, s)
    {
      HasStatusByMultiset(a, b, s);
      HasStatusByMultiset(b, a, s);
    }
  }

  lemma HasStatusByMultiset(a: seq<JobRecord>, b: seq<JobRecord>, s: string)
    requires multiset(a) == multiset(b)
    ensures HasStatus(a, s) ==> HasStatus(b, s)
  {
    if !HasStatus(a, s) { return; }
    var i :| 0 <= i < |a| && a[i].status == Some(s);
    assert a[i] in multiset(b);
    var j :| 0 <= j < |b| && b[j] == a[i];
  }

  /** Precedence of aggregates: fail over success over unknown. */
  function Rank(a: AggregateStatus): nat
  {
    match a
    case Unknown => 0
    case Success => 1
    case Fail => 2
  }

  /** The aggregate of the higher precedence. */
  function Worst(a: AggregateStatus, b: AggregateStatus): (r: AggregateStatus)
    ensures r == a || r == b
    ensures Rank(r) >= Rank(a) && Rank(r) >= Rank(b)
  {
    if Rank(a) >= Rank(b) then a else b
  }

  /** Splitting the records anywhere and combining the two aggregates by
      precedence gives the aggregate of the whole: a failure in either half
      outranks any number of successes in the other. */
  lemma AggregateAppend(a: seq<JobRecord>, b: seq<JobRecord>)
    ensures Aggregate(a + b) == Worst(Aggregate(a), Aggregate(b))
  {
    forall s | s == "failed" || s == "success"
      ensures HasStatus(a + b, s) == (HasStatus(a, s) || HasStatus(b, s))
    {
      if HasStatus(a, s) {
        var i :| 0 <= i < |a| && a[i].status == Some(s);
        assert (a + b)[i] == a[i];
      }
      if HasStatus(b, s) {
        var i :| 0 <= i < |b| && b[i].status == Some(s);
        assert (a + b)[|a| + i] == b[i];
      }
      if HasStatus(a + b, s) {
        var i :| 0 <= i < |a + b| && (a + b)[i].status == Some(s);
        if i < |a| {
          assert a[i] == (a + b)[i];
        } else {
          assert b[i - |a|] == (a + b)[i];
        }
      }
    }
  }
}
