/**
 The persistent forward queue: its job records, the operations on them, and the loops that pause, resume, delete,
 recover, prune and pick jobs.
 */
module ForwardQueue {
  import opened Collections

  type Id(==, !new)
  type Time = int

  datatype Status = Queued | Running | Paused | Retrying | Done | Error

  /**
   A stored job. The last three fields are bookkeeping that the source does not keep: `life` numbers the records ever
   stored, `runs` counts the claims since the record was stored or last resumed, and `aborted` those of them that
   ended without a verdict.
   */
  datatype Job = Job(status: Status, attempts: nat, done: int, total: int, created: Time, startedAt: Option<Time>,
                     finishedAt: Option<Time>, nextAt: Option<Time>, failure: bool, life: nat, runs: nat, aborted: nat)

  datatype Policy = Policy(base: int, maximum: int, retention: int, attempts: nat, history: nat)

  datatype Verdict = Succeeded | Canceled | Failed

  function Fresh(now: Time, life: nat): Job {
    Job(Queued, 0, 0, 1, now, None, None, None, false, life, 0, 0)
  }

  predicate Terminal(j: Job) {
    j.status == Done || j.status == Error
  }

  predicate Pausable(j: Job) {
    j.status == Queued || j.status == Retrying
  }

  function Pause(j: Job): Job {
    j.(status := Paused, nextAt := None)
  }

  predicate Resumable(j: Job) {
    j.status == Paused || j.status == Error || j.status == Retrying
  }

  function Resume(j: Job): Job {
    j.(status := Queued, nextAt := None, failure := false, attempts := 0, finishedAt := None, runs := 0, aborted := 0)
  }

  predicate Claimable(j: Job) {
    j.status == Queued || j.status == Retrying
  }

  function Claim(j: Job, now: Time): Job {
    j.(status := Running, startedAt := Some(now), failure := false, runs := j.runs + 1)
  }

  /** A record left Running by a process that is gone. */
  function Requeue(j: Job): Job {
    j.(status := Queued, startedAt := None, aborted := j.aborted + 1)
  }

  /** What `runJob` makes of its copy of the job once the transport has returned. */
  function Conclude(j: Job, v: Verdict, policy: Policy, now: Time): Job {
    match v
    case Succeeded => j.(status := Done, done := j.total, failure := false, finishedAt := Some(now), nextAt := None)
    case Canceled => j.(status := Queued, startedAt := None, aborted := j.aborted + 1)
    case Failed =>
      var tried := j.(attempts := j.attempts + 1, failure := true, startedAt := None);
      if tried.attempts >= policy.attempts
      then tried.(status := Error, finishedAt := Some(now), nextAt := None)
      else tried.(status := Retrying, nextAt := Some(now + Backoff(policy.base, policy.maximum, tried.attempts)))
  }

  // ---- the delay between attempts ----

  function Doubled(base: int, times: nat): int {
    if times == 0 then base else 2 * Doubled(base, times - 1)
  }

  /** Twice the delay with every attempt, up to the maximum. */
  function Backoff(base: int, maximum: int, attempts: nat): int {
    var delay := Doubled(base, if attempts == 0 then 0 else attempts - 1);
    if delay > maximum then maximum else delay
  }

  lemma {:induction false} DoubledGrows(base: int, m: nat, n: nat)
    requires 0 < base && m <= n
    ensures base <= Doubled(base, m) <= Doubled(base, n)
  {
    if m < n {
      DoubledGrows(base, m, n - 1);
    } else if n > 0 {
      DoubledGrows(base, n - 1, n - 1);
    }
  }

  /** `policy.backoff`: no number on the way exceeds the maximum. The maximum is a whole number of seconds, so even. */
  method BackoffDelay(base: int, maximum: int, attempts: nat) returns (delay: int)
    requires 0 < base <= maximum && maximum % 2 == 0
    ensures delay == Backoff(base, maximum, attempts) && base <= delay <= maximum
  {
    delay := base;
    var attempt := 1;
    while attempt < attempts
      invariant 1 <= attempt && (attempt <= attempts || attempt == 1)
      invariant base <= delay == Doubled(base, attempt - 1) <= maximum
    {
      if delay >= maximum / 2 {
        DoubledGrows(base, attempt, attempts - 1);
        return maximum;
      }
      delay := delay * 2;
      attempt := attempt + 1;
    }
  }

  /** Attempts are spaced ever wider, never beyond the maximum. */
  lemma BackoffGrows(base: int, maximum: int, m: nat, n: nat)
    requires 0 < base <= maximum && m <= n
    ensures base <= Backoff(base, maximum, m) <= Backoff(base, maximum, n) <= maximum
  {
    DoubledGrows(base, if m == 0 then 0 else m - 1, if n == 0 then 0 else n - 1);
    DoubledGrows(base, 0, if m == 0 then 0 else m - 1);
  }

  /** A job that failed and may be retried can be picked again exactly when its delay is over, and the delays grow. */
  lemma RetryWaits(j: Job, policy: Policy, now: Time, later: Time)
    requires 0 < policy.base <= policy.maximum
    requires Conclude(j, Failed, policy, now).status == Retrying
    ensures Eligible(Conclude(j, Failed, policy, now), later) <==> now + Backoff(policy.base, policy.maximum, j.attempts + 1) <= later
    ensures policy.base <= Backoff(policy.base, policy.maximum, j.attempts + 1)
    ensures Backoff(policy.base, policy.maximum, j.attempts) <= Backoff(policy.base, policy.maximum, j.attempts + 1)
  {
    BackoffGrows(policy.base, policy.maximum, j.attempts, j.attempts + 1);
  }

  // ---- the loops over the store ----

  datatype Change = Pausing | Resuming

  predicate Applies(c: Change, j: Job) {
    match c
    case Pausing => Pausable(j)
    case Resuming => Resumable(j)
  }

  function Apply(c: Change, j: Job): Job {
    match c
    case Pausing => Pause(j)
    case Resuming => Resume(j)
  }

  function Recovered(jobs: map<Id, Job>): map<Id, Job> {
    map id | id in jobs :: if jobs[id].status == Running then Requeue(jobs[id]) else jobs[id]
  }

  function TerminalTime(j: Job): Time {
    if j.finishedAt.Some? then j.finishedAt.value else j.created
  }

  /** Queued, or past the delay of its last failure. */
  predicate Eligible(j: Job, now: Time) {
    Claimable(j) && (j.nextAt.Some? ==> j.nextAt.value <= now)
  }

  /** Within the first `n` IDs, one appears where the other has not been seen yet. */
  ghost predicate AppearsFirst(ids: seq<Option<Id>>, n: nat, a: Id, b: Id)
    requires n <= |ids|
  {
    exists p :: 0 <= p < n && ids[p] == Some(a) && Some(b) !in ids[..p]
  }

  /** `uniqueIDs`: each non-empty ID once, in order of first appearance. An ID that trims to nothing is `None`. */
  method UniqueIds(ids: seq<Option<Id>>) returns (out: seq<Id>)
    ensures Distinct(out)
    ensures forall id :: id in out <==> Some(id) in ids
    ensures forall i, j :: 0 <= i < j < |out| ==> AppearsFirst(ids, |ids|, out[i], out[j])
  {
    out := [];
    for i := 0 to |ids|
      invariant Distinct(out)
      invariant forall id :: id in out <==> Some(id) in ids[..i]
      invariant forall k, l :: 0 <= k < l < |out| ==> AppearsFirst(ids, i, out[k], out[l])
    {
      assert ids[..i + 1] == ids[..i] + [ids[i]];
      if ids[i].None? || ids[i].value in out {
        continue;
      }
      out := out + [ids[i].value];
    }
    assert ids[..|ids|] == ids;
  }

  ghost function Named(ids: seq<Option<Id>>): set<Id> {
    set o | o in ids && o.Some? :: o.value
  }

  /** The change has been applied to exactly the given jobs to which it applies. */
  ghost predicate Updated(before: map<Id, Job>, after: map<Id, Job>, ids: set<Id>, c: Change) {
    && after.Keys == before.Keys
    && forall id :: id in after ==> after[id] == if id in ids && Applies(c, before[id]) then Apply(c, before[id]) else before[id]
  }

  ghost function Hits(jobs: map<Id, Job>, ids: set<Id>, c: Change): set<Id> {
    set id | id in ids && id in jobs && Applies(c, jobs[id])
  }

  lemma UpdateStarts(jobs: map<Id, Job>, c: Change)
    ensures Updated(jobs, jobs, {}, c) && Hits(jobs, {}, c) == {}
  {
  }

  lemma UpdateStep(before: map<Id, Job>, after: map<Id, Job>, seen: set<Id>, id: Id, c: Change)
    requires Updated(before, after, seen, c) && id !in seen
    ensures if id in after && Applies(c, after[id])
            then Updated(before, after[id := Apply(c, after[id])], seen + {id}, c) && |Hits(before, seen + {id}, c)| == |Hits(before, seen, c)| + 1
            else Updated(before, after, seen + {id}, c) && Hits(before, seen + {id}, c) == Hits(before, seen, c)
    ensures |seen + {id}| == |seen| + 1
  {
    hide Apply, Applies;
    if id in after && Applies(c, after[id]) {
      assert Hits(before, seen + {id}, c) == Hits(before, seen, c) + {id};
    } else {
      assert Hits(before, seen + {id}, c) == Hits(before, seen, c);
    }
  }

  // ---- the order of finished jobs ----

  ghost function Finished(jobs: map<Id, Job>): set<Id> {
    set id | id in jobs && (jobs[id].status == Done || jobs[id].status == Error)
  }

  ghost predicate ListedBefore(records: seq<Id>, a: Id, b: Id) {
    exists i, j :: 0 <= i < j < |records| && records[i] == a && records[j] == b
  }

  /** By time, then by the order of the records. */
  ghost predicate Precedes(jobs: map<Id, Job>, records: seq<Id>, a: Id, b: Id)
    requires a in jobs && b in jobs
  {
    || TerminalTime(jobs[a]) < TerminalTime(jobs[b])
    || (TerminalTime(jobs[a]) == TerminalTime(jobs[b]) && ListedBefore(records, a, b))
  }

  /** The finished jobs that come before the given one. */
  ghost function Sooner(jobs: map<Id, Job>, records: seq<Id>, id: Id): set<Id>
    requires id in jobs
  {
    set x | x in Finished(jobs) && Precedes(jobs, records, x, id)
  }

  /** After all that finished no later. */
  function Insert(jobs: map<Id, Job>, sorted: seq<Id>, id: Id): seq<Id>
    requires id in jobs && forall x :: x in sorted ==> x in jobs
  {
    if sorted == [] || TerminalTime(jobs[sorted[|sorted| - 1]]) <= TerminalTime(jobs[id]) then sorted + [id]
    else Insert(jobs, sorted[..|sorted| - 1], id) + [sorted[|sorted| - 1]]
  }

  lemma {:induction false} InsertPlaces(jobs: map<Id, Job>, sorted: seq<Id>, id: Id) returns (at: nat)
    requires id in jobs && forall x :: x in sorted ==> x in jobs
    requires forall i, j :: 0 <= i < j < |sorted| ==> TerminalTime(jobs[sorted[i]]) <= TerminalTime(jobs[sorted[j]])
    ensures at <= |sorted| && Insert(jobs, sorted, id) == sorted[..at] + [id] + sorted[at..]
    ensures forall i :: 0 <= i < at ==> TerminalTime(jobs[sorted[i]]) <= TerminalTime(jobs[id])
    ensures forall i :: at <= i < |sorted| ==> TerminalTime(jobs[id]) < TerminalTime(jobs[sorted[i]])
  {
    var n := |sorted| - 1;
    if sorted == [] || TerminalTime(jobs[sorted[n]]) <= TerminalTime(jobs[id]) {
      at := |sorted|;
    } else {
      at := InsertPlaces(jobs, sorted[..n], id);
      assert sorted[..n][..at] == sorted[..at] && sorted[..n][at..] + [sorted[n]] == sorted[at..];
    }
  }

  /** The finished ones of the records, each inserted in turn. */
  function Sorted(jobs: map<Id, Job>, records: seq<Id>): (s: seq<Id>)
    requires forall id :: id in records ==> id in jobs
    ensures forall x :: x in s ==> x in jobs
  {
    if records == [] then []
    else
      var rest, id := Sorted(jobs, records[..|records| - 1]), records[|records| - 1];
      if Terminal(jobs[id]) then InsertMembers(jobs, rest, id); Insert(jobs, rest, id) else rest
  }

  lemma {:induction false} InsertMembers(jobs: map<Id, Job>, sorted: seq<Id>, id: Id)
    requires id in jobs && forall x :: x in sorted ==> x in jobs
    ensures forall x :: x in Insert(jobs, sorted, id) <==> x == id || x in sorted
  {
    if sorted != [] && TerminalTime(jobs[sorted[|sorted| - 1]]) > TerminalTime(jobs[id]) {
      InsertMembers(jobs, sorted[..|sorted| - 1], id);
      assert sorted == sorted[..|sorted| - 1] + [sorted[|sorted| - 1]];
    }
  }

  ghost predicate OrderedBy(jobs: map<Id, Job>, records: seq<Id>, s: seq<Id>)
    requires forall x :: x in s ==> x in jobs
  {
    forall i, j :: 0 <= i < j < |s| ==> Precedes(jobs, records, s[i], s[j])
  }

  lemma {:induction false} SortedIsOrdered(jobs: map<Id, Job>, records: seq<Id>)
    requires Distinct(records) && forall id :: id in records ==> id in jobs
    ensures var s := Sorted(jobs, records);
            && Distinct(s) && OrderedBy(jobs, records, s)
            && (forall x :: x in s <==> x in records && Terminal(jobs[x]))
            && (forall i, j :: 0 <= i < j < |s| ==> TerminalTime(jobs[s[i]]) <= TerminalTime(jobs[s[j]]))
  {
    if records != [] {
      var n := |records| - 1;
      var init, id := records[..n], records[n];
      var rest := Sorted(jobs, init);
      SortedIsOrdered(jobs, init);
      assert records == init + [id] && id !in init;
      if Terminal(jobs[id]) {
        InsertMembers(jobs, rest, id);
        InsertKeepsOrder(jobs, records, rest, id);
      } else {
        StillOrdered(jobs, records, rest);
      }
    }
  }

  lemma StillOrdered(jobs: map<Id, Job>, records: seq<Id>, s: seq<Id>)
    requires records != [] && (forall x :: x in s ==> x in jobs) && OrderedBy(jobs, records[..|records| - 1], s)
    ensures OrderedBy(jobs, records, s)
  {
    hide TerminalTime;
    var init := records[..|records| - 1];
    forall a, b | ListedBefore(init, a, b) ensures ListedBefore(records, a, b) {
      var i, j :| 0 <= i < j < |init| && init[i] == a && init[j] == b;
      assert records[i] == a && records[j] == b;
    }
    hide ListedBefore;
    forall i, j | 0 <= i < j < |s| ensures Precedes(jobs, records, s[i], s[j]) {
      assert Precedes(jobs, init, s[i], s[j]);
    }
  }

  lemma InsertKeepsOrder(jobs: map<Id, Job>, records: seq<Id>, rest: seq<Id>, id: Id)
    requires records != [] && records[|records| - 1] == id && id in jobs && id !in rest
    requires (forall x :: x in rest ==> x in jobs && x in records[..|records| - 1]) && Distinct(rest)
    requires OrderedBy(jobs, records[..|records| - 1], rest)
    requires forall i, j :: 0 <= i < j < |rest| ==> TerminalTime(jobs[rest[i]]) <= TerminalTime(jobs[rest[j]])
    ensures var s := Insert(jobs, rest, id);
            && Distinct(s) && (forall x :: x in s ==> x in jobs) && OrderedBy(jobs, records, s)
            && (forall i, j :: 0 <= i < j < |s| ==> TerminalTime(jobs[s[i]]) <= TerminalTime(jobs[s[j]]))
  {
    StillOrdered(jobs, records, rest);
    var at := InsertPlaces(jobs, rest, id);
    InsertMembers(jobs, rest, id);
    hide Insert;
    ListedLast(jobs, records, rest, id);
    hide ListedBefore;
    PlacedInOrder(jobs, records, rest, id, at);
  }

  lemma ListedLast(jobs: map<Id, Job>, records: seq<Id>, rest: seq<Id>, id: Id)
    requires records != [] && records[|records| - 1] == id
    requires forall x :: x in rest ==> x in records[..|records| - 1]
    ensures forall x :: x in rest ==> ListedBefore(records, x, id)
  {
    forall x | x in rest ensures ListedBefore(records, x, id) {
      var i :| 0 <= i < |records| - 1 && records[..|records| - 1][i] == x;
      assert records[i] == x && records[|records| - 1] == id;
    }
  }

  lemma PlacedInOrder(jobs: map<Id, Job>, records: seq<Id>, rest: seq<Id>, id: Id, at: nat)
    requires id in jobs && id !in rest && at <= |rest| && (forall x :: x in rest ==> x in jobs && ListedBefore(records, x, id))
    requires Distinct(rest) && OrderedBy(jobs, records, rest)
    requires forall i, j :: 0 <= i < j < |rest| ==> TerminalTime(jobs[rest[i]]) <= TerminalTime(jobs[rest[j]])
    requires forall i :: 0 <= i < at ==> TerminalTime(jobs[rest[i]]) <= TerminalTime(jobs[id])
    requires forall i :: at <= i < |rest| ==> TerminalTime(jobs[id]) < TerminalTime(jobs[rest[i]])
    ensures var s := rest[..at] + [id] + rest[at..];
            && Distinct(s) && (forall x :: x in s ==> x in jobs) && OrderedBy(jobs, records, s)
            && (forall i, j :: 0 <= i < j < |s| ==> TerminalTime(jobs[s[i]]) <= TerminalTime(jobs[s[j]]))
  {
    hide TerminalTime, ListedBefore;
  }

  /** In the sorted list, as many finished jobs come before one as its place says. */
  lemma RanksAre(jobs: map<Id, Job>, records: seq<Id>)
    requires Distinct(records) && forall id :: id in records <==> id in jobs
    ensures var s := Sorted(jobs, records);
            && |Finished(jobs)| == |s|
            && forall i :: 0 <= i < |s| ==> |Sooner(jobs, records, s[i])| == i
  {
    var s := Sorted(jobs, records);
    SortedIsOrdered(jobs, records);
    hide Sorted, Terminal;
    assert Finished(jobs) == Members(s[..|s|]);
    PrefixSize(s, |s|);
    forall i | 0 <= i < |s| ensures |Sooner(jobs, records, s[i])| == i {
      SoonerIsPrefix(jobs, records, s, i);
      PrefixSize(s, i);
    }
  }

  lemma {:induction false} PrefixSize(s: seq<Id>, n: nat)
    requires Distinct(s) && n <= |s|
    ensures |Members(s[..n])| == n
  {
    if n > 0 {
      PrefixSize(s, n - 1);
      OneMore(s, n - 1);
      hide Distinct, Members;
    }
  }

  lemma OneMore(s: seq<Id>, n: nat)
    requires Distinct(s) && n < |s|
    ensures Members(s[..n + 1]) == Members(s[..n]) + {s[n]} && s[n] !in Members(s[..n])
  {
    assert s[..n + 1] == s[..n] + [s[n]];
  }

  lemma SoonerIsPrefix(jobs: map<Id, Job>, records: seq<Id>, s: seq<Id>, i: nat)
    requires Distinct(records) && Distinct(s) && i < |s|
    requires (forall x :: x in s ==> x in jobs) && OrderedBy(jobs, records, s)
    requires forall x :: x in jobs && Terminal(jobs[x]) <==> x in s
    ensures Sooner(jobs, records, s[i]) == Members(s[..i])
  {
    hide TerminalTime;
    forall j | i <= j < |s| ensures !Precedes(jobs, records, s[j], s[i]) {
      if i < j {
        assert Precedes(jobs, records, s[i], s[j]);
      }
    }
    forall x | x in Sooner(jobs, records, s[i]) ensures x in s[..i] {
      assert x in s;
      var j :| 0 <= j < |s| && s[j] == x;
      assert j < i;
    }
    forall x | x in s[..i] ensures x in Sooner(jobs, records, s[i]) {
      var j :| 0 <= j < i && s[..i][j] == x;
      assert Precedes(jobs, records, s[j], s[i]);
    }
  }

  class JobStore {
    var jobs: map<Id, Job>

    /** `update`: applies the change wherever it applies, and counts what it did and what it skipped. */
    method Update(ids: seq<Option<Id>>, c: Change) returns (changed: nat, skipped: nat)
      modifies this
      ensures Updated(old(jobs), jobs, Named(ids), c)
      ensures changed == |Hits(old(jobs), Named(ids), c)| && changed + skipped == |Named(ids)|
    {
      hide Updated, Hits, Applies, Apply;
      var unique := UniqueIds(ids);
      changed, skipped := 0, 0;
      ghost var seen: set<Id> := {};
      UpdateStarts(jobs, c);
      for i := 0 to |unique|
        invariant Updated(old(jobs), jobs, seen, c)
        invariant changed == |Hits(old(jobs), seen, c)| && changed + skipped == |seen|
        invariant forall id :: id in seen <==> id in unique[..i]
      {
        var id := unique[i];
        assert unique[..i + 1] == unique[..i] + [id];
        assert id !in unique[..i];
        UpdateStep(old(jobs), jobs, seen, id, c);
        seen := seen + {id};
        if id in jobs && Applies(c, jobs[id]) {
          jobs := jobs[id := Apply(c, jobs[id])];
          changed := changed + 1;
        } else {
          skipped := skipped + 1;
        }
      }
      assert unique[..|unique|] == unique;
      assert seen == Named(ids);
    }

    /** `recoverRunning`. */
    method Recover()
      modifies this
      ensures jobs == Recovered(old(jobs))
      ensures forall id :: id in jobs ==> jobs[id].status != Running
    {
      var ids := jobs.Keys;
      while ids != {}
        invariant ids <= jobs.Keys == old(jobs).Keys
        invariant forall id :: id in jobs ==> jobs[id] == if id in ids then old(jobs)[id] else Recovered(old(jobs))[id]
      {
        var id :| id in ids;
        ids := ids - {id};
        if jobs[id].status == Running {
          jobs := jobs[id := Requeue(jobs[id])];
        }
      }
    }

    /** The selection loop of `pickNext`: the oldest eligible job, the first listed among equals. */
    method PickNext(records: seq<Id>, now: Time) returns (best: Option<Id>)
      requires forall id :: id in records ==> id in jobs
      ensures best.None? ==> forall id :: id in records ==> !Eligible(jobs[id], now)
      ensures best.Some? ==>
                exists i :: && 0 <= i < |records| && records[i] == best.value && Eligible(jobs[best.value], now)
                            && (forall k :: 0 <= k < |records| && Eligible(jobs[records[k]], now) ==>
                                  jobs[best.value].created <= jobs[records[k]].created && (k < i ==> jobs[best.value].created < jobs[records[k]].created))
    {
      best := None;
      ghost var at := 0;
      for i := 0 to |records|
        invariant best.None? ==> forall k :: 0 <= k < i ==> !Eligible(jobs[records[k]], now)
        invariant best.Some? ==> 0 <= at < i && records[at] == best.value && Eligible(jobs[best.value], now)
        invariant best.Some? ==> forall k :: 0 <= k < i && Eligible(jobs[records[k]], now) ==>
                    jobs[best.value].created <= jobs[records[k]].created && (k < at ==> jobs[best.value].created < jobs[records[k]].created)
      {
        var id := records[i];
        if !Eligible(jobs[id], now) {
          continue;
        }
        if best.None? || jobs[id].created < jobs[best.value].created {
          best, at := Some(id), i;
        }
      }
    }

    /** The dropping loop of `pruneTerminal` over the finished jobs, oldest first. */
    method DropOld(terminal: seq<Id>, policy: Policy, now: Time)
      requires Distinct(terminal) && forall id :: id in terminal <==> id in jobs && Terminal(jobs[id])
      requires forall i, j :: 0 <= i < j < |terminal| ==> TerminalTime(jobs[terminal[i]]) <= TerminalTime(jobs[terminal[j]])
      modifies this
      ensures jobs.Keys <= old(jobs).Keys && forall id :: id in jobs ==> jobs[id] == old(jobs)[id]
      ensures forall id :: id in old(jobs) && !Terminal(old(jobs)[id]) ==> id in jobs
      ensures forall i :: 0 <= i < |terminal| ==>
                (terminal[i] in jobs <==> |terminal| - policy.history <= i && now - TerminalTime(old(jobs)[terminal[i]]) <= policy.retention)
    {
      var over := if |terminal| > policy.history then |terminal| - policy.history else 0;
      for i := 0 to |terminal|
        invariant jobs.Keys <= old(jobs).Keys && forall id :: id in jobs ==> jobs[id] == old(jobs)[id]
        invariant forall id :: id in old(jobs) && id !in terminal[..i] ==> id in jobs
        invariant forall k :: 0 <= k < i ==>
                    (terminal[k] in jobs <==> over <= k && now - TerminalTime(old(jobs)[terminal[k]]) <= policy.retention)
      {
        hide TerminalTime, Terminal;
        var id := terminal[i];
        assert terminal[..i + 1] == terminal[..i] + [id];
        assert id !in terminal[..i];
        if i < over || now - TerminalTime(jobs[id]) > policy.retention {
          jobs := jobs - {id};
        }
      }
    }

    /** The collecting of finished jobs and their stable sort, represented by insertion in the order of the records. */
    method SortFinished(records: seq<Id>) returns (terminal: seq<Id>)
      requires forall id :: id in records ==> id in jobs
      ensures terminal == Sorted(jobs, records)
    {
      terminal := [];
      for i := 0 to |records|
        invariant terminal == Sorted(jobs, records[..i])
      {
        assert records[..i + 1][..i] == records[..i];
        if Terminal(jobs[records[i]]) {
          terminal := Insert(jobs, terminal, records[i]);
        }
      }
      assert records[..|records|] == records;
    }

    /**
     `pruneTerminal`: a finished job stays exactly when it is not expired and among the newest `history` of them, by
     time and then by their order in the store.
     */
    method Prune(records: seq<Id>, policy: Policy, now: Time)
      requires Distinct(records) && Members(records) == jobs.Keys
      modifies this
      ensures jobs.Keys <= old(jobs).Keys && forall id :: id in jobs ==> jobs[id] == old(jobs)[id]
      ensures forall id :: id in old(jobs) ==>
                (id in jobs <==>
                  || id !in Finished(old(jobs))
                  || (&& |Finished(old(jobs))| - policy.history <= |Sooner(old(jobs), records, id)|
                      && now - TerminalTime(old(jobs)[id]) <= policy.retention))
    {
      ghost var before := jobs;
      assert forall id :: id in records <==> id in Members(records);
      hide Members;
      var terminal := SortFinished(records);
      SortedIsOrdered(jobs, records);
      RanksAre(jobs, records);
      hide Sorted, Terminal, TerminalTime, Precedes, Sooner, Finished;
      if |terminal| == 0 {
        return;
      }
      DropOld(terminal, policy, now);
      forall id | id in Finished(before)
        ensures id in jobs <==> |Finished(before)| - policy.history <= |Sooner(before, records, id)|
                                && now - TerminalTime(before[id]) <= policy.retention
      {
        var i :| 0 <= i < |terminal| && terminal[i] == id;
        assert |Sooner(before, records, id)| == i;
      }
    }
  }
}
