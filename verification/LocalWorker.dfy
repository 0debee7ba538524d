/**
 The local download worker and its persistent records: attempts claim, stream into and conclude a record while users
 pause, restart and delete it, the process recovers, and progress is read back from disk. Each action is one step of
 the wake-up queue or one store update.
 */
module LocalWorker {
  import opened Collections
  import opened WakeQueue

  type Time = int

  datatype Status = Queued | Active | Paused | Complete | Error | Removed

  /** `epoch` is bookkeeping: it numbers the creations and restarts of all records. */
  datatype Record = Record(status: Status, created: Time, started: Option<Time>, completed: int, total: int, epoch: nat)

  predicate ShouldRun(status: Status) {
    status == Queued || status == Error
  }

  predicate ShouldPauseForShutdown(status: Status) {
    status != Complete && status != Removed && status != Paused
  }

  predicate SameExecution(current: Record, previous: Record) {
    current.created == previous.created && current.started == previous.started
  }

  // ---- what attempts do to records ----

  predicate MayClaim(current: Record, copy: Record) {
    SameExecution(current, copy) && ShouldRun(current.status)
  }

  function Claimed(current: Record, now: Time, total: int, completed: int): Record {
    current.(status := Active, started := Some(now), total := total, completed := completed)
  }

  predicate MayConclude(current: Record, copy: Record) {
    SameExecution(current, copy) && (current.status == Active || ShouldRun(current.status))
  }

  function Completed(current: Record, total: int): Record {
    current.(status := Complete, completed := total, total := total)
  }

  predicate MayFlush(current: Record, copy: Record) {
    current.status == Active && SameExecution(current, copy)
  }

  function Flushed(current: Record, completed: int, total: int): Record {
    current.(completed := completed, total := if current.total <= 0 then total else current.total)
  }

  /** `checkStatus`: whether the writer may go on. */
  predicate MayWrite(current: Option<Record>, copy: Record) {
    current.Some? && SameExecution(current.value, copy) && current.value.status != Paused && current.value.status != Removed
  }

  // ---- what users and the controller do to records ----

  function PausedBy(r: Record): Record {
    if r.status == Complete || r.status == Removed || r.status == Paused then r else r.(status := Paused)
  }

  function StartedBy(r: Record, epoch: nat): Record {
    if r.status == Complete || r.status == Removed then r else r.(status := Queued, started := None, epoch := epoch)
  }

  function MarkedRemoved(r: Record): Record {
    if r.status != Complete then r.(status := Removed) else r
  }

  function Refreshed(r: Record, size: int): Record {
    if r.status == Removed then r
    else
      var seen := if r.total > 0 && size > r.total then r.total else size;
      var s := r.(completed := seen);
      if r.total > 0 && seen >= r.total && r.status != Paused && r.status != Complete then s.(status := Complete) else s
  }

  // ---- the state ----

  datatype Stage = Begun | Loaded(copy: Record) | Streaming(copy: Record) | Ended

  /** `stages` gives the stage of each attempt that the wake-up queue has in progress. */
  datatype State = State(wake: Wake, stages: map<nat, Stage>, records: map<Id, Record>, epochs: nat, now: Time)

  datatype Step =
    | Queueing(a: Action)
    // one attempt
    | Load(k: nat)
    | ClaimRecord(k: nat, total: int, completed: int)
    | Check(k: nat)
    | Flush(k: nat, completed: int, total: int)
    | Finish(k: nat, total: int)
    | Fail(k: nat)
    | Abandon(k: nat)
    // users, the controller, recovery
    | Create(id: Id, total: int)
    | Pause(id: Id)
    | PauseForShutdown(id: Id)
    | Restart(id: Id)
    | MarkRemoved(id: Id)
    | Remove(id: Id)
    | Refresh(id: Id, size: int)
    | Recover(id: Id)

  const NOTHING := State(WakeQueue.EMPTY, map[], map[], 0, 0)

  predicate AttemptStep(a: Step) {
    a.Load? || a.ClaimRecord? || a.Check? || a.Flush? || a.Finish? || a.Fail? || a.Abandon?
  }

  predicate CanStep(s: State, a: Step) {
    match a
    case Queueing(q) => Enabled(s.wake, q) && (q.MarkStopped? ==> q.k in s.stages && s.stages[q.k].Ended?)
    case Load(k) => k in s.stages && s.stages[k].Begun?
    case ClaimRecord(k, _, _) => k in s.stages && s.stages[k].Loaded?
    case Check(k) => k in s.stages && s.stages[k].Streaming?
    case Flush(k, _, _) => k in s.stages && s.stages[k].Streaming?
    case Finish(k, _) => k in s.stages && (s.stages[k].Loaded? || s.stages[k].Streaming?)
    case Fail(k) => k in s.stages && (s.stages[k].Loaded? || s.stages[k].Streaming?)
    case Abandon(k) => k in s.stages && (s.stages[k].Loaded? || s.stages[k].Streaming?)
    case _ => true
  }

  function Lookup(records: map<Id, Record>, id: Id): Option<Record> {
    if id in records then Some(records[id]) else None
  }

  function Put(s: State, id: Id, r: Record): State {
    s.(records := s.records[id := r])
  }

  function To(s: State, k: nat, stage: Stage): State {
    s.(stages := s.stages[k := stage])
  }

  /** One step of the attempt `k` on the record `id`; an absent or foreign record is left alone. */
  function AttemptNext(s: State, a: Step, k: nat, id: Id): State
    requires CanStep(s, a) && AttemptStep(a) && a.k == k
  {
    var current := Lookup(s.records, id);
    match a
    case Load(_) => To(s, k, if current.Some? && ShouldRun(current.value.status) then Loaded(current.value) else Ended)
    case ClaimRecord(_, total, completed) =>
      if current.Some? && MayClaim(current.value, s.stages[k].copy)
      then
        var r := Claimed(current.value, s.now, total, completed);
        To(Put(s, id, r), k, Streaming(r)).(now := s.now + 1)
      else To(s, k, Ended)
    case Check(_) => if MayWrite(current, s.stages[k].copy) then s else To(s, k, Ended)
    case Flush(_, completed, total) =>
      if current.Some? && MayFlush(current.value, s.stages[k].copy) then Put(s, id, Flushed(current.value, completed, total)) else s
    case Finish(_, total) =>
      To(if current.Some? && MayConclude(current.value, s.stages[k].copy) then Put(s, id, Completed(current.value, total)) else s, k, Ended)
    case Fail(_) =>
      To(if current.Some? && MayConclude(current.value, s.stages[k].copy) then Put(s, id, current.value.(status := Error)) else s, k, Ended)
    case Abandon(_) => To(s, k, Ended)
  }

  function UserNext(s: State, a: Step): State
    requires !a.Queueing? && !AttemptStep(a)
  {
    match a
    case Create(id, total) =>
      if id in s.records then s
      else Put(s, id, Record(Queued, s.now, None, 0, total, s.epochs)).(epochs := s.epochs + 1, now := s.now + 1)
    case Pause(id) => if id in s.records then Put(s, id, PausedBy(s.records[id])) else s
    case PauseForShutdown(id) =>
      if id in s.records && ShouldPauseForShutdown(s.records[id].status) then Put(s, id, s.records[id].(status := Paused)) else s
    case Restart(id) => if id in s.records then Put(s, id, StartedBy(s.records[id], s.epochs)).(epochs := s.epochs + 1) else s
    case MarkRemoved(id) => if id in s.records then Put(s, id, MarkedRemoved(s.records[id])) else s
    case Remove(id) => s.(records := s.records - {id})
    case Refresh(id, size) => if id in s.records then Put(s, id, Refreshed(s.records[id], size)) else s
    case Recover(id) => if id in s.records && s.records[id].status == Active then Put(s, id, s.records[id].(status := Queued)) else s
  }

  /** A step of the queue opens the stage of an attempt it begins and drops the stage of one it ends. */
  function QueueNext(s: State, q: Action): State
    requires Enabled(s.wake, q)
  {
    var wake := WakeQueue.Next(s.wake, q);
    s.(wake := wake, stages := map k | k in wake.attempts :: if k in s.stages then s.stages[k] else Begun)
  }

  function Next(s: State, a: Step): State
    requires CanStep(s, a) && (AttemptStep(a) ==> a.k in s.wake.attempts)
  {
    if a.Queueing? then QueueNext(s, a.a)
    else if AttemptStep(a) then AttemptNext(s, a, a.k, s.wake.attempts[a.k])
    else UserNext(s, a)
  }

  // ---- the invariant ----

  /** Stamps and epochs come from counters that have moved on; an active record has a start stamp. */
  predicate RecordFine(s: State, r: Record) {
    && r.created < s.now && (r.started.Some? ==> r.started.value < s.now) && r.epoch < s.epochs
    && (r.status.Active? ==> r.started.Some?)
  }

  predicate Holds(stage: Stage) {
    stage.Loaded? || stage.Streaming?
  }

  /**
   The identity an attempt holds and the creation or restart its record belongs to say the same, but for records
   without a start stamp, which look alike before and after a restart.
   */
  predicate StageFine(s: State, k: nat)
    requires k in s.stages && k in s.wake.attempts
  {
    Holds(s.stages[k]) ==>
      var id, copy := s.wake.attempts[k], s.stages[k].copy;
      && (s.stages[k].Streaming? ==> copy.started.Some?) && RecordFine(s, copy)
      && (id in s.records && s.records[id].epoch == copy.epoch ==> SameExecution(s.records[id], copy))
      && (id in s.records && copy.started.Some? && SameExecution(s.records[id], copy) ==> s.records[id].epoch == copy.epoch)
  }

  ghost predicate Inv(s: State) {
    && Basic(s.wake)
    && s.stages.Keys == s.wake.attempts.Keys
    && (forall id :: id in s.records ==> RecordFine(s, s.records[id]))
    && (forall k :: k in s.stages ==> StageFine(s, k))
  }

  lemma QueueingKeeps(s: State, q: Action)
    requires Inv(s) && Enabled(s.wake, q)
    ensures Inv(QueueNext(s, q))
  {
    StepKeeps(s.wake, q);
    KeepsOwners(s.wake, q);
    hide Basic, Enabled, WakeQueue.Next;
    var t := QueueNext(s, q);
    assert t.stages.Keys == t.wake.attempts.Keys;
    forall k | k in t.stages ensures StageFine(t, k) {
      if k in s.stages {
        hide QueueNext, StageFine;
        StageUnaffected(s, t, k);
      }
    }
  }

  lemma StageUnaffected(s: State, t: State, k: nat)
    requires k in s.stages && k in s.wake.attempts && k in t.stages && k in t.wake.attempts && StageFine(s, k)
    requires t.stages[k] == s.stages[k] && t.wake.attempts[k] == s.wake.attempts[k] && t.epochs == s.epochs && s.now <= t.now
    requires t.records.Keys == s.records.Keys && (s.wake.attempts[k] in s.records ==> t.records[s.wake.attempts[k]] == s.records[s.wake.attempts[k]])
    ensures StageFine(t, k)
  {
  }

  lemma KeepsOwners(w: Wake, q: Action)
    requires Basic(w) && Enabled(w, q)
    ensures forall k :: k in w.attempts && k in WakeQueue.Next(w, q).attempts ==> WakeQueue.Next(w, q).attempts[k] == w.attempts[k]
  {
  }

  lemma AttemptKeeps(s: State, a: Step)
    requires Inv(s) && CanStep(s, a) && AttemptStep(a) && a.k in s.wake.attempts
    ensures Inv(AttemptNext(s, a, a.k, s.wake.attempts[a.k]))
  {
    var id := s.wake.attempts[a.k];
    var t := AttemptNext(s, a, a.k, id);
    AttemptKeepsRecords(s, a, a.k, id);
    OwnStageKept(s, a, a.k, id);
    hide Basic, AttemptNext, CanStep, RecordFine;
    forall k | k in t.stages ensures StageFine(t, k) {
      if k != a.k {
        hide StageFine;
        StageUnaffected(s, t, k);
      }
    }
  }

  lemma OwnStageKept(s: State, a: Step, k: nat, id: Id)
    requires CanStep(s, a) && AttemptStep(a) && a.k == k && k in s.wake.attempts && s.wake.attempts[k] == id
    requires StageFine(s, k) && forall x :: x in s.records ==> RecordFine(s, s.records[x])
    ensures k in AttemptNext(s, a, k, id).stages && k in AttemptNext(s, a, k, id).wake.attempts
    ensures StageFine(AttemptNext(s, a, k, id), k)
  {
  }

  /** An attempt touches its own record alone, and keeps its identity or gives it a start stamp never used before. */
  lemma AttemptKeepsRecords(s: State, a: Step, k: nat, id: Id)
    requires CanStep(s, a) && AttemptStep(a) && a.k == k && forall x :: x in s.records ==> RecordFine(s, s.records[x])
    ensures var t := AttemptNext(s, a, k, id);
            && t.wake == s.wake && t.epochs == s.epochs && s.now <= t.now && t.records.Keys == s.records.Keys
            && t.stages.Keys == s.stages.Keys + {k} && (forall l :: l in s.stages && l != k ==> t.stages[l] == s.stages[l])
            && (forall x :: x in t.records ==> RecordFine(t, t.records[x]) && (x != id ==> t.records[x] == s.records[x]))
  {
  }

  lemma UserKeeps(s: State, a: Step)
    requires Inv(s) && !a.Queueing? && !AttemptStep(a)
    ensures Inv(UserNext(s, a))
  {
    var t := UserNext(s, a);
    UserKeepsRecords(s, a);
    hide Basic, UserNext, RecordFine;
    forall k | k in t.stages ensures StageFine(t, k) {
      assert StageFine(s, k);
      hide StageFine;
      UserKeepsStage(s, a, k);
    }
  }

  lemma UserKeepsRecords(s: State, a: Step)
    requires !a.Queueing? && !AttemptStep(a) && forall x :: x in s.records ==> RecordFine(s, s.records[x])
    ensures var t := UserNext(s, a);
            && t.wake == s.wake && t.stages == s.stages && (forall x :: x in t.records ==> RecordFine(t, t.records[x]))
  {
  }

  lemma UserKeepsStage(s: State, a: Step, k: nat)
    requires !a.Queueing? && !AttemptStep(a) && k in s.stages && k in s.wake.attempts && StageFine(s, k)
    requires forall x :: x in s.records ==> RecordFine(s, s.records[x])
    ensures k in UserNext(s, a).stages && k in UserNext(s, a).wake.attempts && StageFine(UserNext(s, a), k)
  {
  }

  lemma StepKeepsInv(s: State, a: Step)
    requires Inv(s) && CanStep(s, a)
    ensures (AttemptStep(a) ==> a.k in s.wake.attempts) && Inv(Next(s, a))
  {
    hide Basic, WakeQueue.Next, AttemptNext, UserNext, QueueNext, RecordFine, StageFine;
    if a.Queueing? {
      QueueingKeeps(s, a.a);
    } else if AttemptStep(a) {
      AttemptKeeps(s, a);
    } else {
      UserKeeps(s, a);
    }
  }

  // ---- what an attempt, and what a user, may do to a record ----

  /**
   The attempt has the record of a task that was restarted meanwhile before it, and writes to it: it had loaded the
   record while that had no start stamp - never started, or restarted since its last start - and nothing but the two
   stamps tells it from the restarted one.
   */
  predicate Overlooks(s: State, a: Step)
    requires AttemptStep(a) && a.k in s.wake.attempts
  {
    var id := s.wake.attempts[a.k];
    && id in s.records && a.k in s.stages && s.stages[a.k].Loaded?
    && var r, copy := s.records[id], s.stages[a.k].copy;
    && copy.started.None? && r.started.None? && r.created == copy.created && r.epoch != copy.epoch
    && ShouldRun(r.status) && (a.ClaimRecord? || a.Finish? || (a.Fail? && r.status.Queued?))
  }

  /**
   An attempt changes no record but its own, and that only while the record is neither paused nor removed nor complete
   and no restart or re-creation has come between, but for the one case.
   */
  lemma AttemptRespectsUsers(s: State, a: Step, id: Id)
    requires Inv(s) && CanStep(s, a) && AttemptStep(a) && a.k in s.wake.attempts
    ensures Next(s, a).records.Keys == s.records.Keys
    ensures id in s.records && Next(s, a).records[id] != s.records[id] ==>
              && id == s.wake.attempts[a.k] && Holds(s.stages[a.k])
              && s.records[id].status in {Queued, Error, Active}
              && (s.records[id].epoch == s.stages[a.k].copy.epoch || Overlooks(s, a))
              && Next(s, a).records[id].epoch == s.records[id].epoch
  {
    hide Basic;
    assert StageFine(s, a.k);
  }

  /** No step but a restart, or a deletion, ends a pause; nothing but a deletion touches a removed record. */
  lemma PausedStaysPaused(s: State, a: Step, id: Id)
    requires Inv(s) && CanStep(s, a) && (AttemptStep(a) ==> a.k in s.wake.attempts)
    requires id in s.records && id in Next(s, a).records
    ensures s.records[id].status == Paused && a != Restart(id) && a != MarkRemoved(id) ==> Next(s, a).records[id].status == Paused
    ensures s.records[id].status == Removed ==> Next(s, a).records[id] == s.records[id]
    ensures s.records[id].status == Complete && !a.Refresh? ==> Next(s, a).records[id] == s.records[id]
    ensures s.records[id].status == Complete ==> Next(s, a).records[id].status == Complete
  {
    hide Basic;
    if AttemptStep(a) {
      AttemptRespectsUsers(s, a, id);
      hide Next, Inv;
    }
  }

  // ---- whole runs ----

  ghost predicate Run(steps: seq<Step>)
    decreases |steps|, 0
  {
    steps == [] ||
    (var before := steps[..|steps| - 1];
     var a := steps[|steps| - 1];
     && Run(before) && CanStep(After(before), a)
     && (AttemptStep(a) ==> a.k in After(before).wake.attempts))
  }

  ghost function After(steps: seq<Step>): State
    requires Run(steps)
    decreases |steps|, 1
  {
    if steps == [] then NOTHING else Next(After(steps[..|steps| - 1]), steps[|steps| - 1])
  }

  lemma NothingIsFine()
    ensures Inv(NOTHING)
  {
    WakeQueue.EmptyIsFine();
  }

  lemma {:induction false} RunKeepsInv(steps: seq<Step>)
    requires Run(steps)
    ensures Inv(After(steps))
  {
    hide Inv, Next, CanStep;
    if steps == [] {
      NothingIsFine();
    } else {
      RunKeepsInv(steps[..|steps| - 1]);
      StepKeepsInv(After(steps[..|steps| - 1]), steps[|steps| - 1]);
    }
  }

  /** The same over all interleavings of attempts, users, recovery and worker restarts. */
  lemma AttemptsRespectUsers(steps: seq<Step>, a: Step, id: Id)
    requires Run(steps) && Run(steps + [a]) && AttemptStep(a) && id in After(steps).records
    requires a.k in After(steps).wake.attempts
    requires After(steps).records[id].status in {Paused, Removed, Complete}
             || (a.k in After(steps).stages && Holds(After(steps).stages[a.k]) && !Overlooks(After(steps), a)
                 && After(steps).records[id].epoch != After(steps).stages[a.k].copy.epoch)
    ensures id in After(steps + [a]).records && After(steps + [a]).records[id] == After(steps).records[id]
  {
    RunKeepsInv(steps);
    assert (steps + [a])[..|steps|] == steps;
    AttemptRespectsUsers(After(steps), a, id);
  }

  /** A step of an attempt changes a record of another creation or restart exactly in that case. */
  lemma OverlooksExactly(steps: seq<Step>, a: Step)
    requires Run(steps) && Run(steps + [a]) && AttemptStep(a) && a.k in After(steps).wake.attempts
    requires var s := After(steps);
             var id := s.wake.attempts[a.k];
             a.k in s.stages && Holds(s.stages[a.k]) && id in s.records && s.records[id].epoch != s.stages[a.k].copy.epoch
    ensures var s, id := After(steps), After(steps).wake.attempts[a.k];
            && id in After(steps + [a]).records
            && (After(steps + [a]).records[id] != s.records[id] <==> Overlooks(s, a))
  {
    RunKeepsInv(steps);
    assert (steps + [a])[..|steps|] == steps;
    AttemptRespectsUsers(After(steps), a, After(steps).wake.attempts[a.k]);
  }

  /**
   In every run the next check of a writer lets it go on exactly while its record is there, belongs to the creation or
   restart that the attempt has claimed, and is neither paused nor removed.
   */
  lemma CheckStopsWriter(steps: seq<Step>, k: nat)
    requires Run(steps) && CanStep(After(steps), Check(k))
    ensures k in After(steps).wake.attempts
    ensures var s := After(steps);
            var id, copy := s.wake.attempts[k], s.stages[k].copy;
            var goesOn := id in s.records && s.records[id].epoch == copy.epoch
                          && s.records[id].status != Paused && s.records[id].status != Removed;
            Next(s, Check(k)).stages[k] == if goesOn then Streaming(copy) else Ended
  {
    RunKeepsInv(steps);
  }

  lemma Extend(steps: seq<Step>, s: State, a: Step) returns (longer: seq<Step>, t: State)
    requires Run(steps) && After(steps) == s && CanStep(s, a) && (AttemptStep(a) ==> a.k in s.wake.attempts)
    ensures longer == steps + [a] && Run(longer) && After(longer) == t == Next(s, a)
  {
    hide Next, CanStep;
    longer, t := steps + [a], Next(s, a);
    assert longer[..|steps|] == steps;
  }

  /** A task newly created, received from the channel and loaded by its first attempt. */
  function Prepared(id: Id, total: int): State {
    var r := Record(Queued, 0, None, 0, total, 0);
    State(Wake(1, true, false, {}, {id}, [], map[], map[], map[1 := id], Waiting, 2), map[1 := Loaded(r)], map[id := r], 1, 1)
  }

  /** The same task before its ID leaves the channel. */
  function Awaited(id: Id, total: int): State {
    State(Wake(1, true, false, {id}, {}, [id], map[], map[], map[], Waiting, 1), map[], map[id := Record(Queued, 0, None, 0, total, 0)], 1, 1)
  }

  lemma Begin(id: Id, total: int) returns (steps: seq<Step>, s: State)
    ensures Run(steps) && After(steps) == s
    ensures s == State(Wake(1, true, false, {}, {}, [], map[], map[], map[], Waiting, 0), map[], map[id := Record(Queued, 0, None, 0, total, 0)], 1, 1)
  {
    steps, s := Extend([], NOTHING, Create(id, total));
    hide Run, After;
    assert s == State(WakeQueue.EMPTY, map[], map[id := Record(Queued, 0, None, 0, total, 0)], 1, 1);
    StartOfAll(s);
    hide Next;
    steps, s := Extend(steps, s, Queueing(Start));
  }

  lemma StartOfAll(s: State)
    requires s.wake == WakeQueue.EMPTY && s.stages == map[]
    ensures CanStep(s, Queueing(Start))
    ensures Next(s, Queueing(Start)) == s.(wake := Wake(1, true, false, {}, {}, [], map[], map[], map[], Waiting, 0))
  {
  }

  lemma Await(id: Id, total: int) returns (steps: seq<Step>)
    ensures Run(steps) && After(steps) == Awaited(id, total)
  {
    var s;
    steps, s := Begin(id, total);
    hide Run, After;
    steps, s := Extend(steps, s, Queueing(Queue(id)));
    steps, s := Extend(steps, s, Queueing(SendOk(0)));
  }

  lemma Prepare(id: Id, total: int) returns (steps: seq<Step>)
    ensures Run(steps) && After(steps) == Prepared(id, total)
  {
    var s;
    steps := Await(id, total);
    hide Run, After;
    steps, s := Extend(steps, Awaited(id, total), Queueing(Receive));
    steps, s := Extend(steps, s, Queueing(MarkRunning));
    steps, s := Extend(steps, s, Load(1));
  }

  /** A run in which the case arises: a task paused and restarted while its first attempt prepares is failed by it. */
  lemma RestartOverlooked(id: Id, total: int) returns (before: seq<Step>, s: State, after: seq<Step>, t: State)
    ensures after == before + [Pause(id), Restart(id), Fail(1)]
    ensures Run(before + [Pause(id), Restart(id)]) && After(before + [Pause(id), Restart(id)]) == s
    ensures Run(after) && After(after) == t
    ensures 1 in s.wake.attempts && Overlooks(s, Fail(1))
    ensures id in s.records && s.records[id].status == Queued && id in t.records && t.records[id].status == Error
  {
    before := Prepare(id, total);
    hide Run, After;
    var paused;
    paused, s := Extend(before, Prepared(id, total), Pause(id));
    after, s := Extend(paused, s, Restart(id));
    assert after == before + [Pause(id), Restart(id)];
    after, t := Extend(after, s, Fail(1));
  }

  // ---- what becomes of a record ----

  /** The record is still the one the attempt has seen, and is queued, in error or, where that is allowed, active. */
  predicate StillIts(r: Record, copy: Record, active: bool) {
    && r.created == copy.created && r.started == copy.started
    && (r.status == Queued || r.status == Error || (active && r.status == Active))
  }

  /** What a step of an attempt makes of its record, and of the attempt. */
  predicate AttemptMakes(s: State, t: State, a: Step, before: Record, after: Record)
    requires AttemptStep(a) && a.k in s.stages && a.k in t.stages && (Holds(s.stages[a.k]) || a.Load?)
  {
    var stage, now := s.stages[a.k], t.stages[a.k];
    match a
    case ClaimRecord(_, total, completed) =>
      if StillIts(before, stage.copy, false)
      then && after.status == Active && after.started == Some(s.now) && after.total == total && after.completed == completed
           && after.created == before.created && after.epoch == before.epoch && now == Streaming(after) && s.now < t.now
      else after == before && now == Ended
    case Flush(_, completed, total) =>
      && now == stage
      && (if StillIts(before, stage.copy, true) && before.status == Active
          then && after.completed == completed && after.total == (if before.total <= 0 then total else before.total)
               && after.status == Active && after.started == before.started && after.created == before.created && after.epoch == before.epoch
          else after == before)
    case Finish(_, total) =>
      && now == Ended
      && (if StillIts(before, stage.copy, true)
          then && after.status == Complete && after.completed == after.total == total
               && after.started == before.started && after.created == before.created && after.epoch == before.epoch
          else after == before)
    case Fail(_) =>
      && now == Ended
      && (if StillIts(before, stage.copy, true)
          then && after.status == Error && after.completed == before.completed && after.total == before.total
               && after.started == before.started && after.created == before.created && after.epoch == before.epoch
          else after == before)
    case Load(_) =>
      after == before && now == (if before.status == Queued || before.status == Error then Loaded(before) else Ended)
    case Abandon(_) => after == before && now == Ended
    case Check(_) => after == before
  }

  /** What users, recovery and the reading of the disk make of a record. */
  predicate UserMakes(s: State, a: Step, id: Id, before: Record, after: Record) {
    match a
    case Pause(x) => if x == id && before.status != Complete && before.status != Removed then after == before.(status := Paused) else after == before
    case PauseForShutdown(x) => if x == id && before.status != Complete && before.status != Removed then after == before.(status := Paused) else after == before
    case Restart(x) =>
      if x == id && before.status != Complete && before.status != Removed
      then after == before.(status := Queued, started := None, epoch := s.epochs) else after == before
    case MarkRemoved(x) => if x == id && before.status != Complete then after == before.(status := Removed) else after == before
    case Refresh(x, size) =>
      if x == id && before.status != Removed
      then var seen := if before.total > 0 && size > before.total then before.total else size;
           var whole := before.total > 0 && size >= before.total;
           && after.completed == seen && after.total == before.total && after.started == before.started
           && after.created == before.created && after.epoch == before.epoch
           && after.status == (if whole && before.status != Paused then Complete else before.status)
      else after == before
    case Recover(x) => if x == id && before.status == Active then after == before.(status := Queued) else after == before
    case _ => after == before
  }

  lemma AttemptsMean(steps: seq<Step>, a: Step)
    requires Run(steps) && Run(steps + [a]) && AttemptStep(a)
    ensures var s, t := After(steps), After(steps + [a]);
            && a.k in s.wake.attempts && a.k in s.stages && a.k in t.stages && (Holds(s.stages[a.k]) || a.Load?)
            && t.records.Keys == s.records.Keys
            && (forall id :: id in s.records ==>
                  if id == s.wake.attempts[a.k] then AttemptMakes(s, t, a, s.records[id], t.records[id]) else t.records[id] == s.records[id])
            && (s.wake.attempts[a.k] !in s.records && !a.Flush? ==> t.stages[a.k].Ended?)
  {
    assert (steps + [a])[..|steps|] == steps;
    var s, t := After(steps), After(steps + [a]);
    assert CanStep(s, a) && a.k in s.wake.attempts && t == AttemptNext(s, a, a.k, s.wake.attempts[a.k]);
    hide Run, After, AttemptMakes, AttemptNext;
    AttemptMeans(s, a, a.k, s.wake.attempts[a.k]);
  }

  lemma AttemptMeans(s: State, a: Step, k: nat, id: Id)
    requires CanStep(s, a) && AttemptStep(a) && a.k == k
    ensures var t := AttemptNext(s, a, k, id);
            && k in s.stages && k in t.stages && (Holds(s.stages[k]) || a.Load?)
            && t.records.Keys == s.records.Keys
            && (forall x :: x in s.records ==> if x == id then AttemptMakes(s, t, a, s.records[x], t.records[x]) else t.records[x] == s.records[x])
            && (id !in s.records && !a.Flush? ==> t.stages[k].Ended?)
  {
    var t := AttemptNext(s, a, k, id);
    if id in s.records {
      assert s.records[id := s.records[id]] == s.records;
    }
  }

  lemma UsersMean(steps: seq<Step>, a: Step, id: Id)
    requires Run(steps) && Run(steps + [a]) && !AttemptStep(a)
    ensures var s, t := After(steps), After(steps + [a]);
            && (id in s.records && id in t.records ==> UserMakes(s, a, id, s.records[id], t.records[id]))
            && (id in s.records && id !in t.records ==> a == Remove(id))
            && (a == Remove(id) ==> id !in t.records)
            && (id !in s.records && id in t.records ==>
                  a.Create? && a.id == id && t.records[id] == Record(Queued, s.now, None, 0, a.total, s.epochs))
            && (a.Create? && a.id == id ==> id in t.records)
  {
    assert (steps + [a])[..|steps|] == steps;
    var s, t := After(steps), After(steps + [a]);
    if a.Queueing? {
      assert Enabled(s.wake, a.a) && t.records == s.records;
      hide Run, After;
    } else {
      assert t == UserNext(s, a);
      hide Run, After;
      UserMeans(s, a, id);
    }
  }

  lemma UserMeans(s: State, a: Step, id: Id)
    requires !a.Queueing? && !AttemptStep(a)
    ensures var t := UserNext(s, a);
            && (id in s.records && id in t.records ==> UserMakes(s, a, id, s.records[id], t.records[id]))
            && (id in s.records && id !in t.records ==> a == Remove(id))
            && (a == Remove(id) ==> id !in t.records)
            && (id !in s.records && id in t.records ==>
                  a.Create? && a.id == id && t.records[id] == Record(Queued, s.now, None, 0, a.total, s.epochs))
            && (a.Create? && a.id == id ==> id in t.records)
  {
  }

  /** Each status is reached in these ways only. */
  lemma StatusIsEarned(steps: seq<Step>, a: Step, id: Id)
    requires Run(steps) && Run(steps + [a]) && id in After(steps + [a]).records
    requires id in After(steps).records ==> After(steps).records[id].status != After(steps + [a]).records[id].status
    ensures var s, r := After(steps), After(steps + [a]).records[id];
            match r.status
            case Queued => a == Restart(id) || a == Recover(id) || (a.Create? && a.id == id)
            case Active => a.ClaimRecord?
            case Paused => a == Pause(id) || a == PauseForShutdown(id)
            case Complete => a.Finish? || (a.Refresh? && a.id == id && r.total > 0 && a.size >= r.total)
            case Error => a.Fail?
            case Removed => a == MarkRemoved(id)
  {
    if AttemptStep(a) {
      AttemptsMean(steps, a);
    } else {
      UsersMean(steps, a, id);
    }
    hide Run, After;
  }

  /** At any moment an ID has at most one attempt under way, over any number of worker restarts. */
  lemma OneExecution(steps: seq<Step>, k: nat, l: nat)
    requires Run(steps) && k in After(steps).wake.attempts && l in After(steps).wake.attempts
    requires After(steps).wake.attempts[k] == After(steps).wake.attempts[l]
    ensures k == l
  {
    RunKeepsInv(steps);
  }
}
