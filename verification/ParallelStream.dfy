/**
 The parallel stream: a dispatcher, a pool of workers and a writer that puts their chunks back in order. Every
 interleaving is a sequence of the labelled steps below.
 */
module ParallelStream {
  import opened ChunkPlan

  datatype Stage = Idle | Fetching | Offering | Waiting | Exited

  /** `job` is the job received last, -1 before the first one; `data` its chunk once fetched. */
  datatype Worker = Worker(stage: Stage, job: int, data: seq<Byte>)

  datatype Outcome = Finished | GroupFailed | OutputFailed | UnexpectedEOF

  /** Draining, after a failed write: the writer waits for the whole group before it looks at the results again, so
   that nothing is left to hand over then. */
  datatype Main = Receiving | Draining | Returned(outcome: Outcome)

  /**
   `closed`: the dispatcher has returned. `stopped`: the group's context has ended. `failed`: the group has
   recorded an error. `abandoned`: the chunks released unwritten after a failed write.
   */
  datatype State = State(workers: seq<Worker>, dispatched: nat, closed: bool, stopped: bool, failed: bool,
                         pending: map<int, seq<Byte>>, next: nat, abandoned: set<int>, out: seq<Byte>, main: Main)

  datatype Action =
    | Cancel
    | Dispatch(w: nat)
    | CloseJobs
    | StopDispatching
    | FetchDone(w: nat)
    | FetchError(w: nat)
    | HandOver(w: nat)
    | OfferCancelled(w: nat)
    | Noticed(w: nat)
    | WaitCancelled(w: nat)
    | WorkerDone(w: nat)
    | WriteChunk
    | WriteError(n: nat)
    | Finish

  function Start(workers: nat): State {
    State(seq(workers, i => Worker(Idle, -1, [])), 0, false, false, false, map[], 0, {}, [], Receiving)
  }

  predicate At(s: State, w: nat, stage: Stage) {
    w < |s.workers| && s.workers[w].stage == stage
  }

  /** The `written` channel of the job is closed. */
  predicate Released(s: State, job: int) {
    job < s.next || job in s.abandoned
  }

  predicate AllExited(s: State) {
    forall w :: 0 <= w < |s.workers| ==> s.workers[w].stage == Exited
  }

  /** `jobs` is the length of the plan. */
  predicate Enabled(jobs: nat, s: State, a: Action) {
    match a
    case Cancel => !s.stopped && !s.main.Returned?
    case Dispatch(w) => !s.closed && s.dispatched < jobs && At(s, w, Idle)
    case CloseJobs => !s.closed && s.dispatched == jobs
    case StopDispatching => !s.closed && s.dispatched < jobs && s.stopped
    case FetchDone(w) => At(s, w, Fetching)
    case FetchError(w) => At(s, w, Fetching)
    case HandOver(w) => At(s, w, Offering) && s.main.Receiving? && s.next !in s.pending
    case OfferCancelled(w) => At(s, w, Offering) && s.stopped
    case Noticed(w) => At(s, w, Waiting) && Released(s, s.workers[w].job)
    case WaitCancelled(w) => At(s, w, Waiting) && s.stopped
    case WorkerDone(w) => At(s, w, Idle) && s.closed
    case WriteChunk => s.main.Receiving? && s.next in s.pending
    case WriteError(n) => s.main.Receiving? && s.next in s.pending && n <= |s.pending[s.next]|
    case Finish => AllExited(s) && s.closed && (s.main.Draining? || (s.main.Receiving? && s.next !in s.pending))
  }

  function Set(s: State, w: nat, worker: Worker): State
    requires w < |s.workers|
  {
    s.(workers := s.workers[w := worker])
  }

  /** What a worker slices out of Telegram's answer; the only bytes a successful slice can yield. */
  function ChunkOf(chunks: seq<seq<Byte>>, job: int): seq<Byte> {
    if 0 <= job < |chunks| then chunks[job] else []
  }

  /** A member of the group returns an error: the first one is recorded, and the group's context ends. */
  function Fail(s: State): State {
    s.(failed := true, stopped := true)
  }

  function Next(chunks: seq<seq<Byte>>, s: State, a: Action): State
    requires Enabled(|chunks|, s, a)
  {
    match a
    case Cancel => s.(stopped := true)
    case Dispatch(w) => Set(s, w, Worker(Fetching, s.dispatched, [])).(dispatched := s.dispatched + 1)
    case CloseJobs => s.(closed := true)
    case StopDispatching => Fail(s).(closed := true)
    case FetchDone(w) => Set(s, w, s.workers[w].(stage := Offering, data := ChunkOf(chunks, s.workers[w].job)))
    case FetchError(w) => Fail(Set(s, w, s.workers[w].(stage := Exited)))
    case HandOver(w) =>
      Set(s, w, s.workers[w].(stage := Waiting)).(pending := s.pending[s.workers[w].job := s.workers[w].data])
    case OfferCancelled(w) => Fail(Set(s, w, s.workers[w].(stage := Exited)))
    case Noticed(w) => Set(s, w, s.workers[w].(stage := Idle))
    case WaitCancelled(w) => Fail(Set(s, w, s.workers[w].(stage := Exited)))
    case WorkerDone(w) => Set(s, w, s.workers[w].(stage := Exited))
    case WriteChunk => s.(out := s.out + s.pending[s.next], pending := s.pending - {s.next}, next := s.next + 1)
    case WriteError(n) =>
      s.(out := s.out + s.pending[s.next][..n], abandoned := s.pending.Keys, pending := map[], stopped := true, main := Draining)
    case Finish =>
      s.(main := Returned(if s.main.Draining? then OutputFailed
                          else if s.failed then GroupFailed
                          else if s.next != |chunks| then UnexpectedEOF else Finished))
  }

  function Flatten(chunks: seq<seq<Byte>>): seq<Byte> {
    if chunks == [] then [] else Flatten(chunks[..|chunks| - 1]) + chunks[|chunks| - 1]
  }

  // ---- the invariant ----

  /** What a worker's stage says about the job it holds. */
  predicate WorkerFine(chunks: seq<seq<Byte>>, s: State, it: Worker) {
    && -1 <= it.job < s.dispatched
    && (it.stage == Idle ==> Released(s, it.job))
    && (it.stage == Fetching ==> it.job >= s.next && it.job !in s.pending && it.job !in s.abandoned)
    && (it.stage == Offering ==> it.job >= s.next && it.job !in s.pending && it.job !in s.abandoned && it.data == ChunkOf(chunks, it.job))
    && (it.stage == Waiting ==> it.job >= 0 && (Released(s, it.job) || it.job in s.pending))
    && (it.stage == Exited && !s.failed ==> Released(s, it.job) && s.closed)
  }

  ghost predicate WorkersFine(chunks: seq<seq<Byte>>, s: State) {
    forall w :: 0 <= w < |s.workers| ==> WorkerFine(chunks, s, s.workers[w])
  }

  /** No job has ever been given to two workers. */
  ghost predicate OneWorkerEach(workers: seq<Worker>) {
    forall v, w :: 0 <= v < w < |workers| && workers[v].job >= 0 ==> workers[v].job != workers[w].job
  }

  predicate HeldBy(workers: seq<Worker>, job: int, w: nat) {
    w < |workers| && workers[w].job == job
  }

  ghost predicate Held(workers: seq<Worker>, job: int) {
    exists w: nat :: HeldBy(workers, job, w)
  }

  ghost predicate HeldOnce(workers: seq<Worker>, job: int) {
    exists w: nat :: HeldBy(workers, job, w) && forall v: nat :: HeldBy(workers, job, v) ==> v == w
  }

  /** Every dispatched job that is not yet written is the last one of some worker. */
  ghost predicate UnwrittenHeld(s: State) {
    forall i :: s.next <= i < s.dispatched && i !in s.abandoned ==> Held(s.workers, i)
  }

  ghost predicate PendingFine(chunks: seq<seq<Byte>>, s: State) {
    forall i :: i in s.pending ==> s.next <= i < s.dispatched && s.pending[i] == ChunkOf(chunks, i)
  }

  predicate AbandonedFine(s: State) {
    forall i :: i in s.abandoned ==> i < s.dispatched
  }

  ghost predicate OutputFine(chunks: seq<seq<Byte>>, s: State) {
    && s.next <= |chunks|
    && (s.main.Receiving? || (s.main.Returned? && s.main.outcome != OutputFailed) ==>
          s.abandoned == {} && s.out == Flatten(chunks[..s.next]))
    && (s.main.Draining? || (s.main.Returned? && s.main.outcome == OutputFailed) ==>
          s.stopped && s.next < |chunks| && exists n :: 0 <= n <= |chunks[s.next]| && s.out == Flatten(chunks[..s.next]) + chunks[s.next][..n])
  }

  predicate GroupFine(chunks: seq<seq<Byte>>, s: State) {
    && s.next <= s.dispatched <= |chunks|
    && (s.failed ==> s.stopped)
    && (s.closed && !s.failed ==> s.dispatched == |chunks|)
    && (s.main.Returned? ==> AllExited(s) && s.closed)
    && (s.main == Returned(Finished) ==> s.next == |chunks|)
    && s.main != Returned(UnexpectedEOF)
    && (s.main == Returned(GroupFailed) ==> s.failed)
  }

  ghost predicate Inv(chunks: seq<seq<Byte>>, s: State) {
    && GroupFine(chunks, s) && OutputFine(chunks, s) && PendingFine(chunks, s) && AbandonedFine(s)
    && WorkersFine(chunks, s) && OneWorkerEach(s.workers) && UnwrittenHeld(s)
  }

  lemma StartIsFine(chunks: seq<seq<Byte>>, workers: nat)
    ensures Inv(chunks, Start(workers))
  {
  }

  // ---- the invariant survives every step ----

  predicate WorkerStep(a: Action) {
    a.FetchDone? || a.FetchError? || a.HandOver? || a.OfferCancelled? || a.Noticed? || a.WaitCancelled? || a.WorkerDone?
  }

  lemma SameJobs(s: State, w: nat, it: Worker)
    requires w < |s.workers| && s.workers[w].job == it.job
    requires OneWorkerEach(s.workers) && UnwrittenHeld(s)
    ensures OneWorkerEach(s.workers[w := it])
    ensures forall i :: s.next <= i < s.dispatched && i !in s.abandoned ==> Held(s.workers[w := it], i)
  {
    forall i | s.next <= i < s.dispatched && i !in s.abandoned ensures Held(s.workers[w := it], i) {
      var v: nat :| HeldBy(s.workers, i, v);
      assert HeldBy(s.workers[w := it], i, v);
    }
  }

  lemma WorkerStepKeeps(chunks: seq<seq<Byte>>, s: State, a: Action)
    requires Inv(chunks, s) && Enabled(|chunks|, s, a) && WorkerStep(a)
    ensures Inv(chunks, Next(chunks, s, a))
  {
    var t := Next(chunks, s, a);
    SameJobs(s, a.w, t.workers[a.w]);
    assert t.workers == s.workers[a.w := t.workers[a.w]];
    OutputUntouched(chunks, s, t);
    hide OutputFine, OneWorkerEach, Held;
    if a.HandOver? {
      HandOverKeepsWorkers(chunks, s, a.w);
    } else {
      OtherStepKeepsWorkers(chunks, s, a);
    }
    hide WorkersFine, PendingFine;
    assert GroupFine(chunks, t);
  }

  lemma OtherStepKeepsWorkers(chunks: seq<seq<Byte>>, s: State, a: Action)
    requires Inv(chunks, s) && Enabled(|chunks|, s, a) && WorkerStep(a) && !a.HandOver?
    ensures WorkersFine(chunks, Next(chunks, s, a)) && PendingFine(chunks, Next(chunks, s, a))
  {
    var t := Next(chunks, s, a);
    hide OutputFine, OneWorkerEach, UnwrittenHeld;
    assert WorkerFine(chunks, s, s.workers[a.w]);
    forall v: nat | v < |t.workers| ensures WorkerFine(chunks, t, t.workers[v]) {
      assert WorkerFine(chunks, s, s.workers[v]);
    }
  }

  lemma HandOverKeepsWorkers(chunks: seq<seq<Byte>>, s: State, w: nat)
    requires Inv(chunks, s) && Enabled(|chunks|, s, HandOver(w))
    ensures WorkersFine(chunks, Next(chunks, s, HandOver(w))) && PendingFine(chunks, Next(chunks, s, HandOver(w)))
  {
    var t := Next(chunks, s, HandOver(w));
    hide OutputFine, OneWorkerEach, UnwrittenHeld;
    assert WorkerFine(chunks, s, s.workers[w]);
    forall v: nat | v < |t.workers| ensures WorkerFine(chunks, t, t.workers[v]) {
      assert WorkerFine(chunks, s, s.workers[v]);
      if v != w {
        OtherJob(s, v, w);
      }
    }
  }

  lemma OtherJob(s: State, v: nat, w: nat)
    requires OneWorkerEach(s.workers) && v < |s.workers| && w < |s.workers| && v != w
    ensures s.workers[v].job >= 0 ==> s.workers[v].job != s.workers[w].job
  {
  }

  lemma OutputUntouched(chunks: seq<seq<Byte>>, s: State, t: State)
    requires OutputFine(chunks, s) && t.main == s.main && t.next == s.next && t.abandoned == s.abandoned && t.out == s.out
    requires s.stopped ==> t.stopped
    ensures OutputFine(chunks, t)
  {
  }

  lemma DispatchKeeps(chunks: seq<seq<Byte>>, s: State, a: Action)
    requires Inv(chunks, s) && Enabled(|chunks|, s, a) && a.Dispatch?
    ensures Inv(chunks, Next(chunks, s, a))
  {
    var t := Next(chunks, s, a);
    var it := s.workers[a.w];
    assert WorkerFine(chunks, s, it);
    OutputUntouched(chunks, s, t);
    hide OutputFine;
    forall v | 0 <= v < |t.workers| ensures WorkerFine(chunks, t, t.workers[v]) {
      assert WorkerFine(chunks, s, s.workers[v]);
    }
    forall i | t.next <= i < t.dispatched && i !in t.abandoned ensures Held(t.workers, i) {
      if i == s.dispatched {
        assert HeldBy(t.workers, i, a.w);
      } else {
        var v: nat :| HeldBy(s.workers, i, v);
        assert HeldBy(t.workers, i, v);
      }
    }
  }

  lemma FlagStepKeeps(chunks: seq<seq<Byte>>, s: State, a: Action)
    requires Inv(chunks, s) && Enabled(|chunks|, s, a) && (a.Cancel? || a.CloseJobs? || a.StopDispatching?)
    ensures Inv(chunks, Next(chunks, s, a))
  {
    var t := Next(chunks, s, a);
    OutputUntouched(chunks, s, t);
    hide OutputFine, OneWorkerEach, Held;
    forall v | 0 <= v < |t.workers| ensures WorkerFine(chunks, t, t.workers[v]) {
      assert WorkerFine(chunks, s, s.workers[v]);
    }
  }

  lemma FlattenNext(chunks: seq<seq<Byte>>, k: nat)
    requires k < |chunks|
    ensures Flatten(chunks[..k + 1]) == Flatten(chunks[..k]) + chunks[k]
  {
    assert chunks[..k + 1][..k] == chunks[..k];
  }

  lemma WriteKeeps(chunks: seq<seq<Byte>>, s: State, a: Action)
    requires Inv(chunks, s) && Enabled(|chunks|, s, a) && a.WriteChunk?
    ensures Inv(chunks, Next(chunks, s, a))
  {
    var t := Next(chunks, s, a);
    FlattenNext(chunks, s.next);
    hide OneWorkerEach, Held, Flatten;
    forall v | 0 <= v < |t.workers| ensures WorkerFine(chunks, t, t.workers[v]) {
      assert WorkerFine(chunks, s, s.workers[v]);
    }
  }

  lemma WriteErrorKeeps(chunks: seq<seq<Byte>>, s: State, a: Action)
    requires Inv(chunks, s) && Enabled(|chunks|, s, a) && a.WriteError?
    ensures Inv(chunks, Next(chunks, s, a))
  {
    var t := Next(chunks, s, a);
    hide OneWorkerEach, Held, Flatten;
    forall v | 0 <= v < |t.workers| ensures WorkerFine(chunks, t, t.workers[v]) {
      assert WorkerFine(chunks, s, s.workers[v]);
    }
  }

  /** Once every worker is gone without an error, everything has been written: the final length check never fires. */
  lemma AllWritten(chunks: seq<seq<Byte>>, s: State)
    requires Inv(chunks, s) && AllExited(s) && s.closed && !s.failed && s.main.Receiving?
    ensures s.next == |chunks|
  {
    forall w: nat ensures !HeldBy(s.workers, s.next, w) {
      if w < |s.workers| {
        assert WorkerFine(chunks, s, s.workers[w]);
      }
    }
    assert !Held(s.workers, s.next);
  }

  lemma FinishKeeps(chunks: seq<seq<Byte>>, s: State, a: Action)
    requires Inv(chunks, s) && Enabled(|chunks|, s, a) && a.Finish?
    ensures Inv(chunks, Next(chunks, s, a))
  {
    var t := Next(chunks, s, a);
    if s.main.Receiving? && !s.failed {
      AllWritten(chunks, s);
    }
    hide OneWorkerEach, Held, Flatten;
    forall v | 0 <= v < |t.workers| ensures WorkerFine(chunks, t, t.workers[v]) {
      assert WorkerFine(chunks, s, s.workers[v]);
    }
  }

  /** Only the writer adds to the output: a whole chunk of the plan, or the bytes that a failing write still took. */
  lemma OutputGrows(chunks: seq<seq<Byte>>, s: State, a: Action)
    requires Inv(chunks, s) && Enabled(|chunks|, s, a)
    ensures a.WriteChunk? || a.WriteError? ==> s.next < |chunks|
    ensures a.WriteError? ==> a.n <= |chunks[s.next]|
    ensures Next(chunks, s, a).out == s.out + if a.WriteChunk? then chunks[s.next] else if a.WriteError? then chunks[s.next][..a.n] else []
  {
    hide WorkersFine, OneWorkerEach, UnwrittenHeld, OutputFine;
  }

  lemma StepKeeps(chunks: seq<seq<Byte>>, s: State, a: Action)
    requires Inv(chunks, s) && Enabled(|chunks|, s, a)
    ensures Inv(chunks, Next(chunks, s, a))
  {
    hide Inv, Next, Enabled;
    match a {
      case Cancel => FlagStepKeeps(chunks, s, a);
      case CloseJobs => FlagStepKeeps(chunks, s, a);
      case StopDispatching => FlagStepKeeps(chunks, s, a);
      case Dispatch(_) => DispatchKeeps(chunks, s, a);
      case WriteChunk => WriteKeeps(chunks, s, a);
      case WriteError(_) => WriteErrorKeeps(chunks, s, a);
      case Finish => FinishKeeps(chunks, s, a);
      case _ => WorkerStepKeeps(chunks, s, a);
    }
  }

  // ---- whole runs ----

  /** A run: each action was enabled when it was taken. */
  ghost predicate Run(chunks: seq<seq<Byte>>, workers: nat, actions: seq<Action>)
    decreases |actions|, 0
  {
    actions == [] ||
    (var before := actions[..|actions| - 1];
     Run(chunks, workers, before) && Enabled(|chunks|, After(chunks, workers, before), actions[|actions| - 1]))
  }

  ghost function After(chunks: seq<seq<Byte>>, workers: nat, actions: seq<Action>): State
    requires Run(chunks, workers, actions)
    decreases |actions|, 1
  {
    if actions == [] then Start(workers)
    else
      var before := actions[..|actions| - 1];
      Next(chunks, After(chunks, workers, before), actions[|actions| - 1])
  }

  lemma {:induction false} RunIsFine(chunks: seq<seq<Byte>>, workers: nat, actions: seq<Action>)
    requires Run(chunks, workers, actions)
    ensures Inv(chunks, After(chunks, workers, actions))
    ensures |After(chunks, workers, actions).workers| == workers
  {
    hide Inv, Enabled, Next;
    if actions == [] {
      StartIsFine(chunks, workers);
    } else {
      var before := actions[..|actions| - 1];
      RunIsFine(chunks, workers, before);
      StepKeeps(chunks, After(chunks, workers, before), actions[|actions| - 1]);
      SameCount(chunks, After(chunks, workers, before), actions[|actions| - 1]);
    }
  }

  lemma SameCount(chunks: seq<seq<Byte>>, s: State, a: Action)
    requires Enabled(|chunks|, s, a)
    ensures |Next(chunks, s, a).workers| == |s.workers|
  {
  }

  /** Whatever the interleaving: the output is the in-order concatenation of the chunks before `next`. */
  lemma OutputInOrder(chunks: seq<seq<Byte>>, workers: nat, actions: seq<Action>)
    requires Run(chunks, workers, actions)
    ensures var s := After(chunks, workers, actions);
            && s.next <= s.dispatched <= |chunks|
            && (s.main.Receiving? || s.main == Returned(GroupFailed) ==> s.out == Flatten(chunks[..s.next]))
            && (s.main == Returned(Finished) ==> s.out == Flatten(chunks))
            && (s.main == Draining || s.main == Returned(OutputFailed) ==>
                  s.next < |chunks| && exists n :: 0 <= n <= |chunks[s.next]| && s.out == Flatten(chunks[..s.next]) + chunks[s.next][..n])
            && s.main != Returned(UnexpectedEOF)
  {
    RunIsFine(chunks, workers, actions);
    assert chunks[..|chunks|] == chunks;
    hide PendingFine, WorkersFine, OneWorkerEach, UnwrittenHeld, AbandonedFine, Flatten, Run, After;
  }

  /** The unwritten jobs are exactly next..dispatched-1, each the last one of exactly one worker: never more than the pool. */
  lemma UnwrittenBounded(chunks: seq<seq<Byte>>, workers: nat, actions: seq<Action>)
    requires Run(chunks, workers, actions)
    ensures var s := After(chunks, workers, actions);
            !s.main.Draining? && s.main != Returned(OutputFailed) ==>
              && s.dispatched - s.next <= workers
              && (forall i :: i in s.pending ==> s.next <= i < s.dispatched)
              && (forall i :: s.next <= i < s.dispatched ==> HeldOnce(s.workers, i))
  {
    RunIsFine(chunks, workers, actions);
    var s := After(chunks, workers, actions);
    hide Run, After, WorkersFine;
    if !s.main.Draining? && s.main != Returned(OutputFailed) {
      assert s.abandoned == {} && s.next <= s.dispatched;
      hide OutputFine, GroupFine;
      forall i | s.next <= i < s.dispatched ensures HeldOnce(s.workers, i) && HeldBelow(s.workers, i, |s.workers|) {
        assert Held(s.workers, i);
        HolderIsUnique(s.workers, i);
      }
      HoldersSuffice(s.workers, s.next, s.dispatched, |s.workers|);
    }
  }

  lemma HolderIsUnique(workers: seq<Worker>, job: nat)
    requires OneWorkerEach(workers) && Held(workers, job)
    ensures HeldOnce(workers, job) && HeldBelow(workers, job, |workers|)
  {
    var w: nat :| HeldBy(workers, job, w);
    assert forall v: nat :: HeldBy(workers, job, v) ==> v == w;
  }

  ghost predicate HeldBelow(workers: seq<Worker>, job: int, n: nat) {
    exists w: nat :: w < n && HeldBy(workers, job, w)
  }

  /** Pigeonhole: as many workers as there are jobs held. */
  lemma {:induction false} HoldersSuffice(workers: seq<Worker>, lo: int, hi: int, n: nat)
    requires n <= |workers| && lo <= hi
    requires forall i :: lo <= i < hi ==> HeldBelow(workers, i, n)
    ensures hi - lo <= n
    decreases n, hi - lo
  {
    if lo < hi {
      assert HeldBelow(workers, hi - 1, n);
      var w: nat :| w < n && HeldBy(workers, hi - 1, w);
      var swapped := workers[w := workers[n - 1]];
      var m := n - 1;
      forall i | lo <= i < hi - 1 ensures HeldBelow(swapped, i, m) {
        assert HeldBelow(workers, i, n);
        var v: nat :| v < n && HeldBy(workers, i, v);
        assert HeldBy(swapped, i, if v == n - 1 then w else v);
      }
      HoldersSuffice(swapped, lo, hi - 1, m);
    }
  }

  // ---- termination and absence of deadlock ----

  function StageRank(stage: Stage): nat {
    match stage
    case Fetching => 4
    case Offering => 3
    case Waiting => 2
    case Idle => 1
    case Exited => 0
  }

  function WorkersRank(workers: seq<Worker>): nat {
    if workers == [] then 0
    else WorkersRank(workers[..|workers| - 1]) + StageRank(workers[|workers| - 1].stage)
  }

  function Rank(jobs: nat, s: State): int {
    4 * (jobs - s.dispatched) + WorkersRank(s.workers) + (jobs - s.next)
    + (if s.closed then 0 else 1) + (if s.stopped then 0 else 1)
    + (match s.main case Receiving => 2 case Draining => 1 case Returned(_) => 0)
  }

  lemma {:induction false} RankOfUpdate(workers: seq<Worker>, w: nat, it: Worker)
    requires w < |workers|
    ensures WorkersRank(workers[w := it]) == WorkersRank(workers) - StageRank(workers[w].stage) + StageRank(it.stage)
  {
    var last := |workers| - 1;
    if w < last {
      RankOfUpdate(workers[..last], w, it);
      assert workers[w := it][..last] == workers[..last][w := it];
    } else {
      assert workers[w := it][..last] == workers[..last];
    }
  }

  /** Every step, failures and cancellation included, brings the run closer to its end. */
  lemma StepDescends(chunks: seq<seq<Byte>>, s: State, a: Action)
    requires Inv(chunks, s) && Enabled(|chunks|, s, a)
    ensures 0 <= Rank(|chunks|, Next(chunks, s, a)) < Rank(|chunks|, s)
  {
    StepKeeps(chunks, s, a);
    hide Inv;
    if a.Dispatch? || WorkerStep(a) {
      PoolStepDescends(chunks, s, a);
    } else {
      hide WorkersRank, Flatten;
    }
  }

  lemma PoolStepDescends(chunks: seq<seq<Byte>>, s: State, a: Action)
    requires Enabled(|chunks|, s, a) && (a.Dispatch? || WorkerStep(a))
    ensures Rank(|chunks|, Next(chunks, s, a)) < Rank(|chunks|, s)
  {
    var t := Next(chunks, s, a);
    hide Next, StageRank, WorkersRank, Enabled;
    RankOfUpdate(s.workers, a.w, t.workers[a.w]);
  }

  lemma {:induction false} StartRank(n: nat)
    ensures WorkersRank(Start(n).workers) == n
  {
    if n > 0 {
      StartRank(n - 1);
      assert Start(n).workers[..n - 1] == Start(n - 1).workers;
    }
  }

  /** Every run ends: there are at most 5 * jobs + workers + 4 steps in it. */
  lemma {:induction false} RunIsBounded(chunks: seq<seq<Byte>>, workers: nat, actions: seq<Action>)
    requires Run(chunks, workers, actions)
    ensures |actions| + Rank(|chunks|, After(chunks, workers, actions)) <= 5 * |chunks| + workers + 4
    ensures |actions| <= 5 * |chunks| + workers + 4
  {
    hide Inv, Enabled, Next;
    RunIsFine(chunks, workers, actions);
    if actions == [] {
      StartRank(workers);
    } else {
      var before := actions[..|actions| - 1];
      RunIsBounded(chunks, workers, before);
      RunIsFine(chunks, workers, before);
      hide Rank;
      StepDescends(chunks, After(chunks, workers, before), actions[|actions| - 1]);
    }
  }

  /** A step the program takes on its own: no failure, no cancellation. */
  predicate Regular(a: Action) {
    !a.Cancel? && !a.FetchError? && !a.WriteError?
  }

  /** A step the program can take now, on its own. */
  predicate CanProceed(jobs: nat, s: State, a: Action) {
    Enabled(jobs, s, a) && Regular(a)
  }

  /** No deadlock: until the stream returns, some regular step is enabled. */
  lemma SomeStepEnabled(chunks: seq<seq<Byte>>, s: State) returns (a: Action)
    requires Inv(chunks, s) && |s.workers| > 0 && !s.main.Returned?
    ensures CanProceed(|chunks|, s, a)
  {
    assert s.main.Draining? ==> s.stopped;
    hide OutputFine, Held, PendingFine, UnwrittenHeld, OneWorkerEach;
    if s.main.Receiving? && s.next in s.pending {
      return WriteChunk;
    }
    if w: nat :| w < |s.workers| && s.workers[w].stage in {Idle, Fetching, Offering} {
      a := StepOf(chunks, s, w);
      return;
    }
    if AllExited(s) {
      a := if s.closed then Finish else if s.dispatched < |chunks| then StopDispatching else CloseJobs;
      assert WorkerFine(chunks, s, s.workers[0]);
      return;
    }
    var w :| 0 <= w < |s.workers| && s.workers[w].stage != Exited;
    if s.stopped {
      return WaitCancelled(w);
    }
    a := SomeWaiterReleased(chunks, s, w);
  }

  /** An idle, fetching or offering worker always has a step, or the dispatcher has. */
  lemma StepOf(chunks: seq<seq<Byte>>, s: State, w: nat) returns (a: Action)
    requires Inv(chunks, s) && w < |s.workers| && s.workers[w].stage in {Idle, Fetching, Offering}
    requires !s.main.Returned? && !(s.main.Receiving? && s.next in s.pending)
    ensures CanProceed(|chunks|, s, a)
  {
    hide WorkersFine, PendingFine, UnwrittenHeld, OneWorkerEach;
    match s.workers[w].stage {
      case Fetching => a := FetchDone(w);
      case Offering => a := if s.main.Receiving? then HandOver(w) else OfferCancelled(w);
      case Idle => a := if s.closed then WorkerDone(w) else if s.dispatched < |chunks| then Dispatch(w) else CloseJobs;
    }
  }

  /** With everybody waiting or gone, the holder of job `next` would have handed it over: so a waiter was released. */
  lemma SomeWaiterReleased(chunks: seq<seq<Byte>>, s: State, w: nat) returns (a: Action)
    requires Inv(chunks, s) && !s.stopped && At(s, w, Waiting) && s.main.Receiving? && s.next !in s.pending
    requires forall v :: 0 <= v < |s.workers| ==> s.workers[v].stage in {Waiting, Exited}
    ensures CanProceed(|chunks|, s, a)
  {
    assert WorkerFine(chunks, s, s.workers[w]);
    forall v: nat ensures !HeldBy(s.workers, s.next, v) {
      if v < |s.workers| {
        assert WorkerFine(chunks, s, s.workers[v]);
      }
    }
    assert !Held(s.workers, s.next);
    assert s.next == s.dispatched;
    return Noticed(w);
  }

  // ---- when nothing goes wrong ----

  predicate Calm(s: State) {
    !s.stopped && !s.failed && (s.main.Receiving? || s.main == Returned(Finished))
  }

  lemma {:induction false} RegularRunIsCalm(chunks: seq<seq<Byte>>, workers: nat, actions: seq<Action>)
    requires Run(chunks, workers, actions) && forall a :: a in actions ==> Regular(a)
    ensures Calm(After(chunks, workers, actions))
  {
    hide Inv, Calm, Next, Enabled;
    if actions == [] {
      assert Calm(Start(workers)) by { CalmStart(workers); }
    } else {
      var before := actions[..|actions| - 1];
      RegularRunIsCalm(chunks, workers, before);
      RunIsFine(chunks, workers, actions);
      CalmStep(chunks, After(chunks, workers, before), actions[|actions| - 1]);
    }
  }

  lemma CalmStart(workers: nat)
    ensures Calm(Start(workers))
  {
  }

  lemma CalmStep(chunks: seq<seq<Byte>>, s: State, a: Action)
    requires Enabled(|chunks|, s, a) && Inv(chunks, Next(chunks, s, a)) && Calm(s) && Regular(a)
    ensures Calm(Next(chunks, s, a))
  {
    hide OutputFine, PendingFine, WorkersFine, OneWorkerEach, UnwrittenHeld, AbandonedFine;
  }

  /**
   Without failures and cancellation every run can be completed, and only in one way: the stream returns nil, and
   the whole content has been written in order. A run that returns nil has always written everything.
   */
  lemma CompletesInOrder(chunks: seq<seq<Byte>>, workers: nat, actions: seq<Action>)
    requires workers > 0 && Run(chunks, workers, actions) && forall a :: a in actions ==> Regular(a)
    requires forall a :: Regular(a) ==> !Enabled(|chunks|, After(chunks, workers, actions), a)
    ensures After(chunks, workers, actions).main == Returned(Finished)
    ensures After(chunks, workers, actions).out == Flatten(chunks)
  {
    RunIsFine(chunks, workers, actions);
    RegularRunIsCalm(chunks, workers, actions);
    OutputInOrder(chunks, workers, actions);
    var s := After(chunks, workers, actions);
    if !s.main.Returned? {
      var a := SomeStepEnabled(chunks, s);
    }
  }

  /** The pool must not be empty: without a worker the first dispatch waits for ever. */
  lemma NoWorkersStall(chunks: seq<seq<Byte>>, a: Action)
    requires chunks != [] && Enabled(|chunks|, Start(0), a)
    ensures a == Cancel
  {
  }

  // ---- the bytes of the range ----

  /** Each chunk is what its job's request delivers of the file. */
  ghost predicate ChunksOf(file: seq<Byte>, jobs: seq<Job>, chunks: seq<seq<Byte>>) {
    && |chunks| == |jobs|
    && forall i :: 0 <= i < |jobs| ==>
         0 <= jobs[i].First() <= jobs[i].Last() < |file| && chunks[i] == file[jobs[i].First()..jobs[i].Last() + 1]
  }

  /** For the chunks of a download plan, complete output is exactly the requested range of the file. */
  lemma {:induction false} FlattenIsRange(file: seq<Byte>, start: int, end: int, jobs: seq<Job>, chunks: seq<seq<Byte>>, k: nat)
    requires 0 <= start <= end < |file| && Planned(start, end, jobs) && 0 < k <= |jobs|
    requires ChunksOf(file, jobs, chunks)
    ensures start <= jobs[k - 1].Last() + 1 <= |file| && Flatten(chunks[..k]) == file[start..jobs[k - 1].Last() + 1]
  {
    hide Planned;
    PlanIsContiguous(start, end, jobs, k - 1);
    JobResumes(start, end, jobs, k - 1);
    FlattenNext(chunks, k - 1);
    if k > 1 {
      FlattenIsRange(file, start, end, jobs, chunks, k - 1);
      hide Flatten;
      Joined(file, start, jobs[k - 1].First(), jobs[k - 1].Last() + 1);
    }
  }

  lemma Joined(file: seq<Byte>, a: nat, b: nat, c: nat)
    requires a <= b <= c <= |file|
    ensures file[a..b] + file[b..c] == file[a..c]
  {
  }

  lemma StreamsTheRange(file: seq<Byte>, start: int, end: int, jobs: seq<Job>, chunks: seq<seq<Byte>>, workers: nat, actions: seq<Action>)
    requires 0 <= start <= end < |file| && Planned(start, end, jobs)
    requires ChunksOf(file, jobs, chunks)
    requires Run(chunks, workers, actions) && After(chunks, workers, actions).main == Returned(Finished)
    ensures After(chunks, workers, actions).out == file[start..end + 1]
  {
    assert |jobs| == |chunks| && |jobs| > 0;
    hide Run, After, Flatten, Planned, ChunksOf;
    OutputInOrder(chunks, workers, actions);
    FlattenIsRange(file, start, end, jobs, chunks, |jobs|);
    assert chunks[..|jobs|] == chunks;
    PlanEnds(start, end, jobs);
  }

  lemma PlanEnds(start: int, end: int, jobs: seq<Job>)
    requires 0 <= start <= end && Planned(start, end, jobs) && |jobs| > 0
    ensures jobs[|jobs| - 1].Last() == end
  {
    hide Planned;
    PlanIsContiguous(start, end, jobs, 0);
  }
}
