/**
 The forward queue at work: a single worker claims, forwards and concludes jobs while users enqueue, pause, resume and
 delete them, the process shuts down or crashes, and jobs are enqueued again under an old ID. Each action is one
 critical section of the queue; every interleaving is a list of actions.
 */
module ForwardQueueRuns {
  import opened Collections
  import opened ForwardQueue

  /** `cancelled`: the run's own context has ended. `job` is the worker's copy of the record. */
  datatype Worker =
    | Off
    | Starting
    | Idle
    | Picked(id: Id)
    | Active(id: Id, cancelled: bool)
    | Forwarding(id: Id, cancelled: bool, job: Job)
    | Returned(id: Id, cancelled: bool, job: Job, verdict: Verdict)

  /** `ending`: the context of Serve has ended. `lives` counts the records ever stored. */
  datatype State = State(jobs: map<Id, Job>, worker: Worker, ending: bool, lives: nat, now: Time)

  datatype Action =
    | Tick(to: Time)
    | Enqueue(id: Id)
    | PauseJob(id: Id)
    | ResumeJob(id: Id)
    | Delete(id: Id)
    | Serve
    | Recover
    | End
    | Exit
    | Crash
    | Pick(best: Option<Id>, dropped: set<Id>)
    | Activate
    | ClaimJob
    | ClaimFails
    | Report(done: int)
    | Return(verdict: Verdict)
    | Finish
    | Shutdown

  const EMPTY := State(map[], Off, false, 0, 0)

  predicate Enabled(s: State, a: Action) {
    match a
    case Tick(to) => s.now <= to
    case Serve => s.worker.Off?
    case Recover => s.worker.Starting?
    case Exit => s.ending && (s.worker.Starting? || s.worker.Idle?)
    case Pick(best, dropped) =>
      && s.worker.Idle? && !s.ending
      && (forall id :: id in dropped ==> id in s.jobs && Terminal(s.jobs[id]))
      && (best.Some? ==> best.value in s.jobs && Eligible(s.jobs[best.value], s.now))
      && (best.None? ==> forall id :: id in s.jobs ==> !Eligible(s.jobs[id], s.now))
    case Activate => s.worker.Picked?
    case ClaimJob => s.worker.Active?
    case ClaimFails => s.worker.Active? && (s.worker.cancelled || s.ending)
    case Report(_) => s.worker.Forwarding?
    case Return(_) => s.worker.Forwarding?
    case Finish => s.worker.Returned?
    case Shutdown => s.worker.Returned? && s.ending
    case _ => true
  }

  predicate RunsOn(w: Worker, id: Id) {
    (w.Active? || w.Forwarding? || w.Returned?) && w.id == id
  }

  /** `cancelIfActive`. */
  function Cancel(w: Worker, id: Id): Worker {
    if RunsOn(w, id) then w.(cancelled := true) else w
  }

  function Next(policy: Policy, s: State, a: Action): State
    requires Enabled(s, a)
  {
    match a
    case Tick(to) => s.(now := to)
    case Enqueue(id) => if id in s.jobs then s else s.(jobs := s.jobs[id := Fresh(s.now, s.lives)], lives := s.lives + 1)
    case PauseJob(id) => if id in s.jobs && Pausable(s.jobs[id]) then s.(jobs := s.jobs[id := Pause(s.jobs[id])]) else s
    case ResumeJob(id) => if id in s.jobs && Resumable(s.jobs[id]) then s.(jobs := s.jobs[id := Resume(s.jobs[id])]) else s
    case Delete(id) => if id in s.jobs then s.(jobs := s.jobs - {id}, worker := Cancel(s.worker, id)) else s
    case Serve => s.(worker := Starting, ending := false)
    case Recover => s.(worker := Idle, jobs := Recovered(s.jobs))
    case End => s.(ending := true)
    case Exit => s.(worker := Off)
    case Crash => s.(worker := Off)
    case Pick(best, dropped) => s.(worker := if best.Some? then Picked(best.value) else Idle, jobs := s.jobs - dropped)
    case Activate => s.(worker := Active(s.worker.id, false))
    case ClaimJob =>
      var id := s.worker.id;
      if id in s.jobs && Claimable(s.jobs[id])
      then s.(jobs := s.jobs[id := Claim(s.jobs[id], s.now)], worker := Forwarding(id, s.worker.cancelled, Claim(s.jobs[id], s.now)))
      else s.(worker := Idle)
    case ClaimFails => s.(worker := Idle)
    case Report(done) =>
      var id := s.worker.id;
      if s.worker.cancelled || s.ending || id !in s.jobs || s.jobs[id].status != Running then s
      else s.(jobs := s.jobs[id := s.worker.job.(done := done)])
    case Return(verdict) => s.(worker := Returned(s.worker.id, s.worker.cancelled, s.worker.job, verdict))
    case Finish =>
      var id := s.worker.id;
      if id !in s.jobs || s.jobs[id].status != Running then s.(worker := Idle)
      else s.(worker := Idle, jobs := s.jobs[id := Conclude(s.worker.job, s.worker.verdict, policy, s.now)])
    case Shutdown => s.(worker := Off)
  }

  // ---- the invariant ----

  /** Every claim either ended in a counted failure, was aborted, is under way, or succeeded. */
  predicate Balanced(policy: Policy, j: Job) {
    && j.runs == j.attempts + j.aborted + (if j.status == Running || j.status == Done then 1 else 0)
    && (if j.status == Error then j.attempts == policy.attempts else j.attempts < policy.attempts)
  }

  /** The worker's copy and the stored record differ at most in the progress made. */
  predicate SameRun(copy: Job, stored: Job) {
    copy.(done := stored.done) == stored
  }

  predicate Working(w: Worker) {
    w.Forwarding? || w.Returned?
  }

  /** A record is Running only for the worker's current run, or for a process that is gone. */
  predicate RunningFine(s: State, id: Id)
    requires id in s.jobs
  {
    s.jobs[id].status == Running ==>
      s.worker.Off? || s.worker.Starting? || (Working(s.worker) && s.worker.id == id && SameRun(s.worker.job, s.jobs[id]))
  }

  ghost predicate OneRunning(jobs: map<Id, Job>) {
    forall a, b :: a in jobs && b in jobs && jobs[a].status == Running && jobs[b].status == Running ==> a == b
  }

  ghost predicate Inv(policy: Policy, s: State) {
    && (forall id :: id in s.jobs ==> Balanced(policy, s.jobs[id]) && s.jobs[id].life < s.lives)
    && (forall id :: id in s.jobs ==> RunningFine(s, id))
    && OneRunning(s.jobs)
    && (Working(s.worker) ==> Balanced(policy, s.worker.job) && s.worker.job.status == Running && s.worker.job.life < s.lives)
  }

  lemma StoreStepKeeps(policy: Policy, s: State, a: Action)
    requires policy.attempts > 0 && Inv(policy, s) && Enabled(s, a)
    requires a.Enqueue? || a.PauseJob? || a.ResumeJob? || a.Delete?
    ensures Inv(policy, Next(policy, s, a))
  {
    var t := Next(policy, s, a);
    forall id | id in t.jobs
      ensures Balanced(policy, t.jobs[id]) && t.jobs[id].life < t.lives && RunningFine(t, id)
      ensures t.jobs[id].status == Running ==> id in s.jobs && s.jobs[id].status == Running
    {
      if id in s.jobs {
        assert Balanced(policy, s.jobs[id]) && RunningFine(s, id);
      }
    }
    hide Balanced, RunningFine, Enabled;
  }

  lemma ProcessStepKeeps(policy: Policy, s: State, a: Action)
    requires Inv(policy, s) && Enabled(s, a)
    requires a.Tick? || a.Serve? || a.Recover? || a.End? || a.Exit? || a.Crash? || a.Pick? || a.Activate? || a.ClaimFails? || a.Shutdown?
    ensures Inv(policy, Next(policy, s, a))
  {
    var t := Next(policy, s, a);
    forall id | id in t.jobs ensures Balanced(policy, t.jobs[id]) && t.jobs[id].life < t.lives && RunningFine(t, id) {
      assert Balanced(policy, s.jobs[id]) && RunningFine(s, id);
    }
  }

  lemma RunStepKeeps(policy: Policy, s: State, a: Action)
    requires Inv(policy, s) && Enabled(s, a)
    requires a.ClaimJob? || a.Report? || a.Return? || a.Finish?
    ensures Inv(policy, Next(policy, s, a))
  {
    var t := Next(policy, s, a);
    RunStepKeepsJobs(policy, s, a);
    hide Conclude, Balanced;
    forall x, y | x in t.jobs && y in t.jobs && t.jobs[x].status == Running && t.jobs[y].status == Running ensures x == y {
      assert RunningFine(t, x) && RunningFine(t, y) && RunningFine(s, x) && RunningFine(s, y);
    }
    RunStepKeepsCopy(policy, s, a);
  }

  lemma RunStepKeepsJobs(policy: Policy, s: State, a: Action)
    requires Inv(policy, s) && Enabled(s, a)
    requires a.ClaimJob? || a.Report? || a.Return? || a.Finish?
    ensures var t := Next(policy, s, a);
            forall id :: id in t.jobs ==> Balanced(policy, t.jobs[id]) && t.jobs[id].life < t.lives && RunningFine(t, id)
  {
    var t := Next(policy, s, a);
    if a.Finish? {
      ConcludeBalances(policy, s.worker.job, s.worker.verdict, s.now);
    }
    hide Conclude, OneRunning;
    forall id | id in t.jobs ensures Balanced(policy, t.jobs[id]) && t.jobs[id].life < t.lives && RunningFine(t, id) {
      assert Balanced(policy, s.jobs[id]) && RunningFine(s, id);
    }
  }

  lemma ConcludeBalances(policy: Policy, j: Job, v: Verdict, now: Time)
    requires Balanced(policy, j) && j.status == Running
    ensures Balanced(policy, Conclude(j, v, policy, now)) && Conclude(j, v, policy, now).life == j.life
    ensures Conclude(j, v, policy, now).status != Running
  {
  }

  lemma RunStepKeepsCopy(policy: Policy, s: State, a: Action)
    requires Inv(policy, s) && Enabled(s, a)
    requires a.ClaimJob? || a.Report? || a.Return? || a.Finish?
    ensures var w := Next(policy, s, a).worker;
            Working(w) ==> Balanced(policy, w.job) && w.job.status == Running && w.job.life < Next(policy, s, a).lives
  {
    hide Conclude, OneRunning;
    if a.ClaimJob? && s.worker.id in s.jobs {
      assert Balanced(policy, s.jobs[s.worker.id]);
    }
  }

  lemma StepKeeps(policy: Policy, s: State, a: Action)
    requires policy.attempts > 0 && Inv(policy, s) && Enabled(s, a)
    ensures Inv(policy, Next(policy, s, a))
  {
    hide Inv, Next, Enabled;
    match a {
      case Enqueue(_) => StoreStepKeeps(policy, s, a);
      case PauseJob(_) => StoreStepKeeps(policy, s, a);
      case ResumeJob(_) => StoreStepKeeps(policy, s, a);
      case Delete(_) => StoreStepKeeps(policy, s, a);
      case ClaimJob => RunStepKeeps(policy, s, a);
      case Report(_) => RunStepKeeps(policy, s, a);
      case Return(_) => RunStepKeeps(policy, s, a);
      case Finish => RunStepKeeps(policy, s, a);
      case _ => ProcessStepKeeps(policy, s, a);
    }
  }

  // ---- whole runs ----

  ghost predicate Run(policy: Policy, actions: seq<Action>)
    decreases |actions|, 0
  {
    actions == [] ||
    (var before := actions[..|actions| - 1];
     Run(policy, before) && Enabled(After(policy, before), actions[|actions| - 1]))
  }

  ghost function After(policy: Policy, actions: seq<Action>): State
    requires Run(policy, actions)
    decreases |actions|, 1
  {
    if actions == [] then EMPTY else Next(policy, After(policy, actions[..|actions| - 1]), actions[|actions| - 1])
  }

  lemma {:induction false} RunIsFine(policy: Policy, actions: seq<Action>)
    requires policy.attempts > 0 && Run(policy, actions)
    ensures Inv(policy, After(policy, actions))
  {
    hide Enabled, Next;
    if actions != [] {
      RunIsFine(policy, actions[..|actions| - 1]);
      StepKeeps(policy, After(policy, actions[..|actions| - 1]), actions[|actions| - 1]);
    }
  }

  /** Single flight: at most one job is Running, and while the worker is between jobs none is. */
  lemma SingleFlight(policy: Policy, actions: seq<Action>, x: Id, y: Id)
    requires policy.attempts > 0 && Run(policy, actions)
    requires var jobs := After(policy, actions).jobs; x in jobs && y in jobs && jobs[x].status == Running && jobs[y].status == Running
    ensures x == y
    ensures var w := After(policy, actions).worker; w.Off? || w.Starting? || (Working(w) && w.id == x)
  {
    RunIsFine(policy, actions);
    assert RunningFine(After(policy, actions), x);
  }

  /**
   A run never writes to a record stored after its claim: what a progress report or a conclusion changes is the very
   record that was claimed, and nothing is stored anew or removed.
   */
  lemma StaleRunIsHarmless(policy: Policy, actions: seq<Action>, a: Action, id: Id)
    requires policy.attempts > 0 && Run(policy, actions) && Enabled(After(policy, actions), a) && (a.Report? || a.Finish?)
    ensures var s, t := After(policy, actions), Next(policy, After(policy, actions), a);
            && t.jobs.Keys == s.jobs.Keys
            && (id in s.jobs && t.jobs[id] != s.jobs[id] ==>
                  && id == s.worker.id && s.jobs[id].life == s.worker.job.life == t.jobs[id].life
                  && s.jobs[id].status == Running && !(a.Report? && s.worker.cancelled))
  {
    RunIsFine(policy, actions);
    var s := After(policy, actions);
    hide Run, After, Conclude, OneRunning;
    if id in s.jobs {
      assert RunningFine(s, id);
    }
  }

  /** No action brings a removed record back: whatever is stored was stored before, or is a new record. */
  lemma RemovedStaysRemoved(policy: Policy, actions: seq<Action>, a: Action, id: Id)
    requires policy.attempts > 0 && Run(policy, actions) && Enabled(After(policy, actions), a)
    ensures var s, t := After(policy, actions), Next(policy, After(policy, actions), a);
            id in t.jobs ==>
              || (id in s.jobs && s.jobs[id].life == t.jobs[id].life)
              || (id !in s.jobs && a == Enqueue(id) && t.jobs[id] == Fresh(s.now, s.lives))
  {
    if a.Report? || a.Finish? {
      hide Run, After, Next, Enabled;
      StaleRunIsHarmless(policy, actions, a, id);
    } else {
      hide Run, After, Conclude;
    }
  }

  /** A job that is done stays as it is until it is removed; a paused one is left only by Resume or by its removal. */
  lemma SettledStatus(policy: Policy, actions: seq<Action>, a: Action, id: Id)
    requires policy.attempts > 0 && Run(policy, actions) && Enabled(After(policy, actions), a)
    requires id in After(policy, actions).jobs && id in Next(policy, After(policy, actions), a).jobs
    ensures var s, t := After(policy, actions), Next(policy, After(policy, actions), a);
            && (s.jobs[id].status == Done ==> t.jobs[id] == s.jobs[id])
            && (s.jobs[id].status == Paused && a != ResumeJob(id) ==> t.jobs[id] == s.jobs[id])
            && (s.jobs[id].status == Error && a != ResumeJob(id) ==> t.jobs[id] == s.jobs[id])
  {
  }

  /** Only deletion and pruning remove a record, and pruning removes only finished ones. */
  lemma RemovedOnlyOnPurpose(policy: Policy, actions: seq<Action>, a: Action, id: Id)
    requires Run(policy, actions) && Enabled(After(policy, actions), a)
    requires id in After(policy, actions).jobs && id !in Next(policy, After(policy, actions), a).jobs
    ensures a == Delete(id) || (a.Pick? && Terminal(After(policy, actions).jobs[id]))
  {
  }

  // ---- what becomes of a record ----

  /** What the transport answered last. */
  function LastReturn(actions: seq<Action>): Option<Verdict> {
    if actions == [] then None
    else
      var a := actions[|actions| - 1];
      if a.Return? then Some(a.verdict) else LastReturn(actions[..|actions| - 1])
  }

  lemma {:induction false} VerdictIsReturned(policy: Policy, actions: seq<Action>)
    requires Run(policy, actions) && After(policy, actions).worker.Returned?
    ensures LastReturn(actions) == Some(After(policy, actions).worker.verdict)
  {
    var before, a := actions[..|actions| - 1], actions[|actions| - 1];
    if !a.Return? {
      assert After(policy, before).worker.Returned?;
      VerdictIsReturned(policy, before);
    }
  }

  /** What a conclusion makes of the record, by what the transport answered. */
  predicate Concluded(policy: Policy, before: Job, after: Job, answer: Verdict, now: Time) {
    && (answer == Succeeded <==> after.status == Done)
    && (answer == Canceled <==> after.status == Queued)
    && (answer == Failed <==> after.status == Retrying || after.status == Error)
    && after.attempts == before.attempts + (if answer == Failed then 1 else 0)
    && (answer == Succeeded ==> after.done == before.total && !after.failure && after.finishedAt == Some(now) && after.nextAt == None)
    && (answer == Canceled ==> after.startedAt == None)
    && (answer == Failed ==> after.failure && (after.status == Error <==> before.attempts + 1 >= policy.attempts))
    && (after.status == Error ==> after.finishedAt == Some(now) && after.nextAt == None)
    && (after.status == Retrying ==> after.nextAt.Some? && now + policy.base <= after.nextAt.value <= now + policy.maximum)
    && after.total == before.total && after.created == before.created
  }

  /**
   The end of a run writes its record, if that is still Running, and no other: Done exactly when the transport
   succeeded, queued again exactly when it was cancelled, and with a counted failure exactly when it failed - in error
   exactly when that reaches the limit.
   */
  lemma FinishRecords(policy: Policy, actions: seq<Action>, id: Id)
    requires policy.attempts > 0 && 0 < policy.base <= policy.maximum
    requires Run(policy, actions) && Run(policy, actions + [Finish])
    ensures var s, t := After(policy, actions), After(policy, actions + [Finish]);
            && s.worker.Returned? && LastReturn(actions).Some? && t.jobs.Keys == s.jobs.Keys && t.worker.Idle?
            && (id in s.jobs ==>
                  if id == s.worker.id && s.jobs[id].status == Running
                  then Concluded(policy, s.jobs[id], t.jobs[id], LastReturn(actions).value, s.now)
                  else t.jobs[id] == s.jobs[id])
  {
    RunIsFine(policy, actions);
    assert (actions + [Finish])[..|actions|] == actions;
    VerdictIsReturned(policy, actions);
    var s := After(policy, actions);
    hide Run, After, LastReturn, OneRunning;
    if id in s.jobs && id == s.worker.id && s.jobs[id].status == Running {
      assert RunningFine(s, id);
      BackoffGrows(policy.base, policy.maximum, s.worker.job.attempts + 1, s.worker.job.attempts + 1);
      ConclusionIs(policy, s.worker.job, s.jobs[id], s.worker.verdict, s.now);
    }
  }

  lemma ConclusionIs(policy: Policy, copy: Job, stored: Job, v: Verdict, now: Time)
    requires policy.attempts > 0 && SameRun(copy, stored)
    requires policy.base <= Backoff(policy.base, policy.maximum, copy.attempts + 1) <= policy.maximum
    ensures Concluded(policy, stored, Conclude(copy, v, policy, now), v, now)
  {
  }

  /** What the other actions make of a record. */
  predicate Becomes(s: State, t: State, a: Action, id: Id)
    requires id in s.jobs && id in t.jobs
  {
    var before, after := s.jobs[id], t.jobs[id];
    match a
    case PauseJob(x) =>
      if x == id && (before.status == Queued || before.status == Retrying)
      then after.status == Paused && after == before.(status := Paused, nextAt := None) else after == before
    case ResumeJob(x) =>
      if x == id && (before.status == Paused || before.status == Error || before.status == Retrying)
      then && after.status == Queued && after.attempts == 0 && after.nextAt == None && after.finishedAt == None && !after.failure
           && after.done == before.done && after.total == before.total && after.created == before.created
      else after == before
    case Recover =>
      if before.status == Running
      then && after.status == Queued && after.startedAt == None && after.attempts == before.attempts
           && after.done == before.done && after.nextAt == before.nextAt
      else after == before
    case ClaimJob =>
      if RunsOn(s.worker, id) && (before.status == Queued || before.status == Retrying)
      then && after.status == Running && after.startedAt == Some(s.now) && after.attempts == before.attempts && !after.failure
           && after.done == before.done && t.worker == Forwarding(id, s.worker.cancelled, after)
      else after == before
    case Report(done) =>
      if RunsOn(s.worker, id) && before.status == Running && !s.worker.cancelled && !s.ending
      then after == before.(done := done) else after == before
    case _ => after == before
  }

  lemma ActionsMean(policy: Policy, actions: seq<Action>, a: Action, id: Id)
    requires policy.attempts > 0 && Run(policy, actions) && Run(policy, actions + [a])
    ensures var s, t := After(policy, actions), After(policy, actions + [a]);
            && (id in s.jobs && id in t.jobs && !a.Finish? ==> Becomes(s, t, a, id))
            && (id !in s.jobs && id in t.jobs ==> a == Enqueue(id) && t.jobs[id].status == Queued && t.jobs[id].attempts == 0
                                                  && t.jobs[id].done == 0 && t.jobs[id].created == s.now && !t.jobs[id].failure)
            && (a == Enqueue(id) ==> id in t.jobs)
            && (a == Delete(id) ==> id !in t.jobs && (id in s.jobs && RunsOn(s.worker, id) ==> RunsOn(t.worker, id) && t.worker.cancelled))
  {
    RunIsFine(policy, actions);
    assert (actions + [a])[..|actions|] == actions;
    var s := After(policy, actions);
    var t := After(policy, actions + [a]);
    assert t == Next(policy, s, a);
    hide Run, After;
    ActionStores(policy, s, a, id);
    if id in s.jobs && id in t.jobs && !a.Finish? {
      ActionBecomes(policy, s, a, id);
    }
    hide Next, Inv, Enabled, Becomes;
  }

  lemma ActionStores(policy: Policy, s: State, a: Action, id: Id)
    requires Enabled(s, a)
    ensures var t := Next(policy, s, a);
            && (id !in s.jobs && id in t.jobs ==> a == Enqueue(id) && t.jobs[id].status == Queued && t.jobs[id].attempts == 0
                                                  && t.jobs[id].done == 0 && t.jobs[id].created == s.now && !t.jobs[id].failure)
            && (a == Enqueue(id) ==> id in t.jobs)
            && (a == Delete(id) ==> id !in t.jobs && (id in s.jobs && RunsOn(s.worker, id) ==> RunsOn(t.worker, id) && t.worker.cancelled))
  {
    hide Conclude;
  }

  lemma ActionBecomes(policy: Policy, s: State, a: Action, id: Id)
    requires Inv(policy, s) && Enabled(s, a) && !a.Finish? && id in s.jobs && id in Next(policy, s, a).jobs
    ensures Becomes(s, Next(policy, s, a), a, id)
  {
    hide Conclude, OneRunning, Balanced;
    assert RunningFine(s, id);
  }

  /** Each status is reached in one way only. */
  lemma StatusIsEarned(policy: Policy, actions: seq<Action>, a: Action, id: Id)
    requires policy.attempts > 0 && 0 < policy.base <= policy.maximum && Run(policy, actions) && Run(policy, actions + [a])
    requires id in After(policy, actions + [a]).jobs
    requires id in After(policy, actions).jobs ==> After(policy, actions).jobs[id].status != After(policy, actions + [a]).jobs[id].status
    ensures match After(policy, actions + [a]).jobs[id].status
            case Done => a == Finish && LastReturn(actions) == Some(Succeeded)
            case Error => a == Finish && LastReturn(actions) == Some(Failed)
            case Retrying => a == Finish && LastReturn(actions) == Some(Failed)
            case Running => a == ClaimJob
            case Paused => a == PauseJob(id)
            case Queued => a == Enqueue(id) || a == ResumeJob(id) || a == Recover || (a == Finish && LastReturn(actions) == Some(Canceled))
  {
    ActionsMean(policy, actions, a, id);
    if a == Finish {
      FinishRecords(policy, actions, id);
    }
    hide Run, After, LastReturn, Enabled;
  }

  // ---- the number of runs ----

  /**
   Since it was stored or resumed, a job has been run at most the limit plus the runs that got no verdict. A job in
   error has been run no more often than the limit exactly when every one of its runs got a verdict.
   */
  lemma RunsCounted(policy: Policy, actions: seq<Action>, id: Id)
    requires policy.attempts > 0 && Run(policy, actions) && id in After(policy, actions).jobs
    ensures var j := After(policy, actions).jobs[id];
            && j.runs == j.attempts + j.aborted + (if j.status == Running || j.status == Done then 1 else 0)
            && j.runs <= policy.attempts + j.aborted
            && (j.status == Error <==> j.attempts == policy.attempts)
            && (j.status == Error ==> (j.runs <= policy.attempts <==> j.aborted == 0))
  {
    RunIsFine(policy, actions);
    assert Balanced(policy, After(policy, actions).jobs[id]);
  }

  /** An action that ends a run without a verdict: a transport that reports its own cancellation, or a recovery. */
  predicate Aborting(a: Action) {
    a == Return(Canceled) || a.Recover?
  }

  ghost predicate NeverAborted(s: State) {
    && (forall id :: id in s.jobs ==> s.jobs[id].aborted == 0)
    && (Working(s.worker) ==> s.worker.job.aborted == 0)
    && (s.worker.Returned? ==> s.worker.verdict != Canceled)
  }

  /** Only the first recovery, which finds an empty store or one without interrupted runs, aborts nothing. */
  predicate HarmlessRecovery(s: State, a: Action) {
    a.Recover? && forall id :: id in s.jobs ==> s.jobs[id].status != Running
  }

  lemma AbortFreeStep(policy: Policy, s: State, a: Action)
    requires Enabled(s, a) && NeverAborted(s) && (!Aborting(a) || HarmlessRecovery(s, a))
    ensures NeverAborted(Next(policy, s, a))
  {
    var t := Next(policy, s, a);
    forall id | id in t.jobs ensures t.jobs[id].aborted == 0 {
      assert id in s.jobs ==> s.jobs[id].aborted == 0;
    }
  }

  ghost predicate AbortFree(policy: Policy, actions: seq<Action>)
    requires Run(policy, actions)
  {
    actions == [] ||
    (var before := actions[..|actions| - 1];
     var a := actions[|actions| - 1];
     AbortFree(policy, before) && (!Aborting(a) || HarmlessRecovery(After(policy, before), a)))
  }

  lemma {:induction false} AbortFreeRuns(policy: Policy, actions: seq<Action>)
    requires Run(policy, actions) && AbortFree(policy, actions)
    ensures NeverAborted(After(policy, actions))
  {
    hide Next, Enabled, NeverAborted;
    if actions == [] {
      assert NeverAborted(EMPTY) by { NothingAborted(); }
    } else {
      AbortFreeRuns(policy, actions[..|actions| - 1]);
      AbortFreeStep(policy, After(policy, actions[..|actions| - 1]), actions[|actions| - 1]);
    }
  }

  lemma NothingAborted()
    ensures NeverAborted(EMPTY)
  {
  }

  /** When every run gets a verdict, a job is run at most `attempts` times before it is done or in error. */
  lemma RunsBounded(policy: Policy, actions: seq<Action>, id: Id)
    requires policy.attempts > 0 && Run(policy, actions) && AbortFree(policy, actions) && id in After(policy, actions).jobs
    ensures After(policy, actions).jobs[id].runs <= policy.attempts
  {
    RunsCounted(policy, actions, id);
    AbortFreeRuns(policy, actions);
  }

  /**
   Without that condition the limit does not hold: a transport that returns `context.Canceled` of its own accord has
   the job claimed again without an attempt being counted.
   */
  lemma LimitNeedsVerdicts(policy: Policy, id: Id) returns (actions: seq<Action>)
    requires policy.attempts == 1
    ensures Run(policy, actions) && id in After(policy, actions).jobs
    ensures After(policy, actions).jobs[id].runs == 2 > policy.attempts && After(policy, actions).jobs[id].status == Running
  {
    var s;
    actions, s := Opened(policy, id);
    hide Run, After, Next, Conclude;
    actions, s := Claimed(policy, actions, s, id);
    actions, s := AbortedOnce(policy, actions, s, id);
    actions, s := Claimed(policy, actions, s, id);
  }

  lemma Opened(policy: Policy, id: Id) returns (actions: seq<Action>, s: State)
    ensures Run(policy, actions) && After(policy, actions) == s
    ensures s == State(map[id := Fresh(0, 0)], Idle, false, 1, 0)
  {
    actions, s := Extend(policy, [], EMPTY, Enqueue(id));
    hide Run, After;
    actions, s := Extend(policy, actions, s, Serve);
    actions, s := Extend(policy, actions, s, Recover);
  }

  lemma Claimed(policy: Policy, before: seq<Action>, s: State, id: Id) returns (actions: seq<Action>, t: State)
    requires Run(policy, before) && After(policy, before) == s
    requires s.worker.Idle? && !s.ending && id in s.jobs && s.jobs[id].status == Queued && s.jobs[id].nextAt.None?
    ensures Run(policy, actions) && After(policy, actions) == t
    ensures var j := Claim(s.jobs[id], s.now); t == s.(jobs := s.jobs[id := j], worker := Forwarding(id, false, j))
  {
    hide Run, After;
    assert s.jobs - {} == s.jobs;
    actions, t := Extend(policy, before, s, Pick(Some(id), {}));
    actions, t := Extend(policy, actions, t, Activate);
    actions, t := Extend(policy, actions, t, ClaimJob);
  }

  lemma AbortedOnce(policy: Policy, before: seq<Action>, s: State, id: Id) returns (actions: seq<Action>, t: State)
    requires Run(policy, before) && After(policy, before) == s
    requires id in s.jobs && s.jobs[id].status == Running && s.worker == Forwarding(id, false, s.jobs[id])
    ensures Run(policy, actions) && After(policy, actions) == t
    ensures t == s.(jobs := s.jobs[id := s.jobs[id].(status := Queued, startedAt := None, aborted := s.jobs[id].aborted + 1)], worker := Idle)
  {
    hide Run, After;
    actions, t := Extend(policy, before, s, Return(Canceled));
    actions, t := Extend(policy, actions, t, Finish);
  }

  lemma Extend(policy: Policy, actions: seq<Action>, s: State, a: Action) returns (longer: seq<Action>, t: State)
    requires Run(policy, actions) && After(policy, actions) == s && Enabled(s, a)
    ensures longer == actions + [a] && Run(policy, longer) && After(policy, longer) == t == Next(policy, s, a)
  {
    hide Next, Enabled;
    longer, t := actions + [a], Next(policy, s, a);
    assert longer[..|actions|] == actions;
  }
}
