/**
 Batch submission of downloads: items are filtered and named, then each is offered to the executors of a route in
 turn. Only a definite rejection allows the next executor to be tried; adapters may fail ambiguously or panic, and the
 context may end at any point.
 */
module DownloadPipeline {
  import opened Collections

  datatype Executor = Local | Http | Aria2 | Other(name: string)

  datatype Result = Result(id: string, skipped: bool, target: Option<Executor>)

  /** An error either is, or is not, `ErrDownloadNotAccepted` somewhere in its chain. */
  datatype Error = Nil | Error(notAccepted: bool)

  datatype Reply = Replied(result: Result, err: Error) | Panicked

  const NOTHING := Result("", false, None)

  /** Also any error joined with `ErrDownloadNotAccepted`. */
  const NOT_ACCEPTED := Error(true)

  // ---- what the calls of executors mean ----

  /** A call of an executor's Submit, as the item's history records it. */
  datatype Call = Call(executor: Executor, reply: Reply)

  /** A definite rejection: nothing was accepted, and no ID came back. Anything else may have been accepted. */
  predicate Rejected(c: Call) {
    c.reply.Replied? && c.reply.err == NOT_ACCEPTED && c.reply.result.id == ""
  }

  /** Every executor but the last one entered has definitely rejected the item. */
  ghost predicate NeverTwice(calls: seq<Call>) {
    forall i :: 0 <= i < |calls| - 1 ==> Rejected(calls[i])
  }

  predicate Possible(calls: seq<Call>) {
    calls != [] && !Rejected(calls[|calls| - 1])
  }

  // ---- one item ----

  datatype Media = Media(token: string, messageId: int, fileSize: int, fileName: string)

  /** `local` and `remote` are the rendered targets; the flags say that rendering failed. */
  datatype Plan = Plan(media: Media, local: string, remote: string, localFailed: bool, remoteFailed: bool, fileName: string)

  datatype Outcome = Outcome(result: Result, err: Error, link: bool)

  datatype Class = Skipped | Queued | Failed | Uncertain

  /** The four counters of a batch. */
  function ClassOf(out: Outcome): Class {
    if out.result.skipped then Skipped
    else if out.err.Nil? || out.result.id != "" then Queued
    else if out.err.notAccepted then Failed
    else Uncertain
  }

  /** What the answer of an executor that may have accepted an item makes of it. */
  function Answered(reply: Reply): Class {
    if reply.Panicked? then Uncertain
    else if reply.result.skipped then Skipped
    else if reply.err.Nil? || reply.result.id != "" then Queued
    else Uncertain
  }

  /** What an item's outcome may say, given the calls that were made for it. */
  ghost predicate Honest(out: Outcome, calls: seq<Call>) {
    && NeverTwice(calls)
    && (Possible(calls) ==> ClassOf(out) == Answered(calls[|calls| - 1].reply))
    && (ClassOf(out) == Failed ==> !Possible(calls))
    && (ClassOf(out) == Uncertain ==> Possible(calls))
    && (ClassOf(out) == Skipped ==> Possible(calls) || out.result.target == Some(Local))
    && (ClassOf(out) == Queued ==> Possible(calls) || (out.link && out.result.target == Some(Http) && out.err.Nil?))
    && (out.link ==> out.err.Nil? && out.result.target == Some(Http))
  }

  /** An executor of the route that was given the item, and whether the outside world was entered for it. */
  datatype Trial = Trial(executor: Executor, reply: Reply, entered: bool)

  function Entered(trials: seq<Trial>): seq<Call> {
    if trials == [] then []
    else
      var last := trials[|trials| - 1];
      Entered(trials[..|trials| - 1]) + (if last.entered then [Call(last.executor, last.reply)] else [])
  }

  /** What the pipeline itself lacks for an executor. */
  predicate Unready(executor: Executor, known: set<Executor>, plan: Plan, url: bool) {
    match executor
    case Local => plan.localFailed || executor !in known
    case Http => !url
    case _ => !url || plan.remoteFailed || executor !in known
  }

  /** Without trouble an executor is passed over only for want of something, and rejects nothing on its own account. */
  predicate Justified(t: Trial, known: set<Executor>, plan: Plan, url: bool) {
    t.entered || Unready(t.executor, known, plan, url) || (t.reply.Replied? && t.reply.err.Nil? && Harmless(t.reply.result))
  }

  /** The executors tried are the first ones of the route, all but the last have rejected, and each was fairly tried. */
  ghost predicate Fair(trials: seq<Trial>, route: seq<Executor>, known: set<Executor>, plan: Plan, url: bool, trouble: bool) {
    && |trials| <= |route|
    && (forall i :: 0 <= i < |trials| ==> trials[i].executor == route[i])
    && (forall i :: 0 <= i < |trials| - 1 ==> Rejected(Call(trials[i].executor, trials[i].reply)))
    && (!trouble ==> forall i :: 0 <= i < |trials| ==> Justified(trials[i], known, plan, url))
  }

  ghost predicate AllRejected(trials: seq<Trial>, route: seq<Executor>) {
    |trials| == |route| && forall i :: 0 <= i < |trials| ==> Rejected(Call(trials[i].executor, trials[i].reply))
  }

  /**
   The history of one item; `asked` says whether a download link was asked for, `url` whether there was one;
   `compared` says whether the target file was compared with the item, `found` that they agreed.
   */
  datatype Log = Log(calls: seq<Call>, trials: seq<Trial>, asked: bool, url: bool, compared: bool, found: bool, trouble: bool)

  /** The outcome is honest about the calls made, the executors were tried fairly, and only trouble or all of them make it fail. */
  ghost predicate Dealt(out: Outcome, log: Log, route: seq<Executor>, known: set<Executor>, plan: Plan, skipSame: bool) {
    && Honest(out, log.calls) && log.calls == Entered(log.trials)
    && Fair(log.trials, route, known, plan, log.url, log.trouble)
    && (log.url ==> log.asked) && (!log.trouble ==> (log.asked <==> Aria2 in route || Http in route))
    && (log.found <==> ClassOf(out) == Skipped && !Possible(log.calls))
    && ComparesFine(log.trials, plan, skipSame, log.compared, log.found, log.trouble)
    && (ClassOf(out) == Failed && !log.trouble ==> AllRejected(log.trials, route))
  }

  /** The target file is compared only if the settings say so, and then for every item given to the local executor. */
  ghost predicate ComparesFine(trials: seq<Trial>, plan: Plan, skipSame: bool, compared: bool, found: bool, trouble: bool) {
    && (found ==> compared) && (compared ==> skipSame)
    && (skipSame && !plan.localFailed && !trouble && (exists i :: 0 <= i < |trials| && trials[i].executor == Local) ==> compared)
  }

  /** A result that no executor of the outside world gave: the file was there already, or the link itself is the answer. */
  predicate Harmless(r: Result) {
    if r.skipped then r.target == Some(Local) else r.target == Some(Http)
  }

  /** The submission of one item: the flag of the source, and the calls made so far. */
  class Submission {
    var entered: bool
    ghost var calls: seq<Call>
    ghost var trials: seq<Trial>
    ghost var asked: bool    // a download link was asked for
    ghost var compared: bool // the target file was compared with the item
    ghost var found: bool    // they agreed
    ghost var trouble: bool  // the context ended, registration failed, a file check failed, or something panicked

    /** The flag is set exactly while the last executor entered may have accepted the item. */
    ghost predicate Valid()
      reads this
    {
      NeverTwice(calls) && (entered <==> Possible(calls)) && calls == Entered(trials)
    }

    constructor ()
      ensures Valid() && calls == [] && trials == [] && !entered && !asked && !compared && !found && !trouble
    {
      entered, calls, trials, asked, compared, found, trouble := false, [], [], false, false, false, false;
    }

    /** An executor of the outside world: it may answer anything, or panic. */
    method Adapter(executor: Executor) returns (reply: Reply)
      modifies this`calls
      ensures calls == old(calls) + [Call(executor, reply)]
    {
      reply := *;
      calls := calls + [Call(executor, reply)];
    }

    /** The download link of a registered source, if there is one. */
    method Url() returns (url: bool)
      modifies this`asked
      ensures asked
    {
      url, asked := *, true;
    }

    /** Whether the target file has the item's size already. */
    method SameFile() returns (same: bool)
      modifies this`compared, this`found
      ensures compared && found == (old(found) || same)
    {
      same := *;
      compared, found := true, found || same;
    }

    /** Whether something the pipeline depends on has gone wrong: the context, a file check, the registration. */
    method Fails() returns (failed: bool)
      modifies this`trouble
      ensures trouble == (old(trouble) || failed)
    {
      failed := *;
      trouble := trouble || failed;
    }

    /** `LinkExecutor`: the registered source itself; it creates nothing elsewhere. */
    method Link(url: bool, id: string) returns (reply: Reply)
      modifies this`trouble
      ensures reply.Replied? && (old(trouble) ==> trouble)
      ensures reply.err.Nil? ==> reply.result == Result(id, false, Some(Http)) && url && id != ""
      ensures !reply.err.Nil? ==> reply.result == NOTHING && (trouble || (reply.err == NOT_ACCEPTED && (!url || id == "")))
    {
      var ended := Fails();
      if ended {
        return Replied(NOTHING, Error(false));
      }
      if !url || id == "" {
        return Replied(NOTHING, NOT_ACCEPTED);
      }
      return Replied(Result(id, false, Some(Http)), Nil);
    }

    /** The checks for the local executor, before it is entered: nothing means that it may be. */
    method CheckLocal(known: bool, plan: Plan, skipSame: bool, id: string) returns (answer: Option<Reply>)
      requires !found
      modifies this`compared, this`found, this`trouble
      ensures found <==> answer == Some(Replied(Result(id, true, Some(Local)), Nil))
      ensures (old(compared) ==> compared) && (compared ==> old(compared) || skipSame) && (found ==> compared)
      ensures skipSame && !plan.localFailed && !trouble ==> compared
      ensures (old(trouble) ==> trouble)
      ensures answer.None? ==> known && !plan.localFailed
      ensures answer.Some? && !trouble ==>
                answer.value == Replied(Result(id, true, Some(Local)), Nil) || (answer.value == Replied(NOTHING, NOT_ACCEPTED) && (plan.localFailed || !known))
      ensures answer.Some? ==> answer.value in {Panicked, Replied(NOTHING, NOT_ACCEPTED), Replied(Result(id, true, Some(Local)), Nil)}
    {
      if plan.localFailed {
        return Some(Replied(NOTHING, NOT_ACCEPTED));
      }
      var panics := Fails();
      if panics {
        return Some(Panicked);
      }
      if skipSame {
        var unreadable := Fails();
        if unreadable {
          return Some(Replied(NOTHING, NOT_ACCEPTED));
        }
        var same := SameFile();
        if same {
          return Some(Replied(Result(id, true, Some(Local)), Nil));
        }
      }
      if !known {
        return Some(Replied(NOTHING, NOT_ACCEPTED));
      }
      var unwritable := Fails();
      answer := if unwritable then Some(Replied(NOTHING, NOT_ACCEPTED)) else None;
    }

    /** The `submit` closure for one executor of the route. */
    method Offer(executor: Executor, known: set<Executor>, plan: Plan, skipSame: bool, url: bool, id: string) returns (reply: Reply)
      requires Valid() && !entered && id != "" && !found && ComparesFine(trials, plan, skipSame, compared, found, trouble)
      modifies this`entered, this`calls, this`trials, this`compared, this`found, this`trouble
      ensures Valid() && (old(trouble) ==> trouble) && ComparesFine(trials, plan, skipSame, compared, found, trouble)
      ensures found <==> !entered && reply.Replied? && reply.err.Nil? && reply.result.skipped
      ensures exists e :: trials == old(trials) + [Trial(executor, reply, e)] && (e <==> calls != old(calls))
                          && (!trouble ==> Justified(Trial(executor, reply, e), known, plan, url))
      ensures entered ==> calls == old(calls) + [Call(executor, reply)]
      ensures !entered && reply.Replied? && reply.err.Nil? ==> Harmless(reply.result)
      ensures !entered && reply.Replied? && !reply.err.Nil? ==> reply.result.id == "" && (!reply.err.notAccepted ==> reply.result == NOTHING)
      ensures !entered && (reply.Panicked? || reply.err == Error(false)) ==> trouble
    {
      ghost var tried := trials;
      ghost var called := calls;
      var through;
      through, reply := TryExecutor(executor, known, plan, skipSame, url, id);
      trials := trials + [Trial(executor, reply, through)];
      assert trials == tried + [Trial(executor, reply, through)];
    }

    method TryExecutor(executor: Executor, known: set<Executor>, plan: Plan, skipSame: bool, url: bool, id: string)
      returns (through: bool, reply: Reply)
      requires NeverTwice(calls) && !entered && !Possible(calls) && id != "" && !found
      modifies this`entered, this`calls, this`compared, this`found, this`trouble
      ensures found <==> !entered && reply.Replied? && reply.err.Nil? && reply.result.skipped
      ensures (old(compared) ==> compared) && (compared ==> old(compared) || skipSame) && (found ==> compared)
      ensures executor.Local? && skipSame && !plan.localFailed && !trouble ==> compared
      ensures NeverTwice(calls) && (entered <==> Possible(calls)) && (old(trouble) ==> trouble)
      ensures calls == old(calls) + (if through then [Call(executor, reply)] else [])
      ensures !trouble ==> Justified(Trial(executor, reply, through), known, plan, url)
      ensures !entered && reply.Replied? && reply.err.Nil? ==> Harmless(reply.result)
      ensures !entered && reply.Replied? && !reply.err.Nil? ==> reply.result.id == "" && (!reply.err.notAccepted ==> reply.result == NOTHING)
      ensures !entered && (reply.Panicked? || reply.err == Error(false)) ==> trouble
    {
      through := false;
      if executor.Local? {
        var answer := CheckLocal(executor in known, plan, skipSame, id);
        if answer.Some? {
          return false, answer.value;
        }
      } else {
        if !url {
          return false, Replied(NOTHING, NOT_ACCEPTED);
        }
        if executor.Http? {
          reply := Link(url, id);
          return;
        }
        if plan.remoteFailed {
          return false, Replied(NOTHING, NOT_ACCEPTED);
        }
      }
      if executor !in known {
        return false, Replied(NOTHING, NOT_ACCEPTED);
      }
      var ended := Fails();
      if ended {
        return false, Replied(NOTHING, NOT_ACCEPTED);
      }
      entered, through := true, true;
      reply := Adapter(executor);
      if reply.Replied? && reply.err == NOT_ACCEPTED && reply.result.id == "" {
        entered := false;
      }
    }

    /** `Router.Submit` over the executors of the route. */
    method Route(route: seq<Executor>, known: set<Executor>, plan: Plan, skipSame: bool, url: bool, id: string) returns (reply: Reply)
      requires Valid() && !entered && trials == [] && id != "" && !compared && !found
      modifies this`entered, this`calls, this`trials, this`compared, this`found, this`trouble
      ensures ComparesFine(trials, plan, skipSame, compared, found, trouble)
      ensures found <==> !entered && reply.Replied? && reply.err.Nil? && reply.result.skipped
      ensures Valid() && (old(trouble) ==> trouble) && Fair(trials, route, known, plan, url, trouble)
      ensures reply.Panicked? || reply.err.Nil? || reply.err == Error(false) ||
              (reply.err == NOT_ACCEPTED && (entered <==> reply.result.id != ""))
      ensures entered ==> calls[|calls| - 1].reply == reply
      ensures !entered && reply.Replied? && reply.err.Nil? ==> Harmless(reply.result)
      ensures !entered && reply.Replied? && !reply.err.Nil? ==> reply.result == NOTHING
      ensures !entered && reply.Replied? && !reply.err.Nil? && !trouble ==> AllRejected(trials, route)
      ensures !entered && reply.Panicked? ==> trouble
    {
      for k := 0 to |route|
        invariant Valid() && !entered && (old(trouble) ==> trouble) && |trials| == k
        invariant Fair(trials, route, known, plan, url, trouble)
        invariant !found && ComparesFine(trials, plan, skipSame, compared, found, trouble)
        invariant forall i :: 0 <= i < k ==> Rejected(Call(trials[i].executor, trials[i].reply))
      {
        hide Justified;
        var ended := Fails();
        if ended {
          return Replied(NOTHING, Error(false));
        }
        reply := Offer(route[k], known, plan, skipSame, url, id);
        if reply.Panicked? || reply.err.Nil? || !reply.err.notAccepted || reply.result.id != "" {
          return;
        }
      }
      return Replied(NOTHING, NOT_ACCEPTED);
    }

    /**
     `submitPrepared`: whatever the adapters do, at most the last executor entered may have accepted the item, and the
     outcome says `not accepted` only when that one has not. The executors are tried fairly, in the order of the route,
     and without trouble an item fails only when all of them have rejected it.
     */
    method SubmitPrepared(route: seq<Executor>, known: set<Executor>, plan: Plan, skipSame: bool) returns (out: Outcome, ghost url: bool)
      requires Valid() && trials == [] && !entered && !asked && !compared && !found && !trouble
      modifies this
      ensures Dealt(out, Log(calls, trials, asked, url, compared, found, trouble), route, known, plan, skipSame)
    {
      out := Outcome(NOTHING, Nil, false);
      url := false;
      var ended := Fails();
      if ended {
        out := out.(err := NOT_ACCEPTED);
        return;
      }
      var unregistered := Fails();
      var id: string := *;
      if unregistered || id == "" {
        trouble := true;
        out := out.(err := NOT_ACCEPTED);
        return;
      }
      var linked := false;
      if Aria2 in route || Http in route {
        linked := Url();
      }
      url := linked;
      var reply := Route(route, known, plan, skipSame, linked, id);
      if reply.Panicked? {
        out := out.(err := if entered then Error(false) else NOT_ACCEPTED);
        return;
      }
      out := Outcome(reply.result, reply.err, false);
      if !out.err.Nil? && !entered {
        out := out.(err := NOT_ACCEPTED);
      }
      if out.result.target == Some(Http) && out.err.Nil? {
        out := out.(link := true);
      }
    }
  }

  // ---- the whole batch ----

  predicate Submittable(m: Media) {
    m.token != "" && m.messageId > 0 && m.fileSize >= 0
  }

  /** What the context, the filter and the naming component answered for an item, as far as they were asked. */
  datatype Answers = Answers(live: bool, allowed: bool, excluded: bool, local: Naming, remote: Naming)
  datatype Naming = Naming(asked: bool, name: string, failed: bool)

  const UNASKED := Answers(false, false, false, Naming(false, "", false), Naming(false, "", false))

  predicate AllConsulted(media: seq<Media>, told: map<nat, Answers>, route: seq<Executor>) {
    forall i: nat :: i < |media| ==> i in told && Consulted(media[i], told[i], route)
  }

  lemma ConsultedNext(media: seq<Media>, before: map<nat, Answers>, told: map<nat, Answers>, route: seq<Executor>, n: nat)
    requires n < |media| && AllConsulted(media[..n], before, route)
    requires n in told && told == before[n := told[n]] && Consulted(media[n], told[n], route)
    ensures AllConsulted(media[..n + 1], told, route)
  {
    forall i: nat | i < n + 1 ensures i in told && Consulted(media[..n + 1][i], told[i], route) {
      if i < n {
        assert Consulted(media[..n][i], before[i], route);
      }
    }
  }

  /** A name is asked for exactly if an executor of the route needs it, and only for an item that may be submitted. */
  predicate Consulted(m: Media, a: Answers, route: seq<Executor>) {
    && a.local.asked == (a.live && a.allowed && Submittable(m) && Local in route)
    && a.remote.asked == (a.live && a.allowed && Submittable(m) && (Aria2 in route || Http in route))
    && (!a.local.asked ==> a.local.name == "" && !a.local.failed) && (!a.remote.asked ==> a.remote.name == "" && !a.remote.failed)
  }

  /** An item is to be submitted: the filter allows it, it can be submitted, and it has some name. */
  predicate Wanted(m: Media, a: Answers) {
    a.live && a.allowed && Submittable(m) && (a.local.name != "" || a.remote.name != "")
  }

  /** The user's settings exclude the item. */
  predicate LeftOut(a: Answers) {
    a.live && !a.allowed && a.excluded
  }

  function LeftOuts(told: map<nat, Answers>, n: nat): set<nat> {
    set i: nat | i < n && i in told && LeftOut(told[i])
  }

  /** The plan of an item, by the answers given for it. */
  predicate Fits(p: Plan, m: Media, a: Answers) {
    && p.media == m && p.local == a.local.name && p.localFailed == a.local.failed && p.remote == a.remote.name && p.remoteFailed == a.remote.failed
    && p.fileName == (if a.local.name != "" then a.local.name else a.remote.name)
  }

  /** The plans are those of exactly the wanted items, in their order; `at` says where the items are. */
  ghost predicate Selection(media: seq<Media>, told: map<nat, Answers>, at: seq<nat>) {
    && (forall i: nat :: i < |media| ==> i in told)
    && (forall k, l :: 0 <= k < l < |at| ==> at[k] < at[l])
    && (forall k :: 0 <= k < |at| ==> at[k] < |media|)
    && (forall i: nat :: i < |media| ==> (i in at <==> Wanted(media[i], told[i])))
  }

  ghost predicate AllFit(media: seq<Media>, told: map<nat, Answers>, at: seq<nat>, plans: seq<Plan>) {
    |plans| == |at| && forall k :: 0 <= k < |at| ==> at[k] < |media| && at[k] in told && Fits(plans[k], media[at[k]], told[at[k]])
  }

  /** After the first `n` items. */
  ghost predicate Sorted(media: seq<Media>, told: map<nat, Answers>, at: seq<nat>, plans: seq<Plan>, s0: Summary, s: Summary, n: nat)
    requires n <= |media|
  {
    && Selection(media[..n], told, at) && AllFit(media, told, at, plans)
    && s == s0.(skipped := s.skipped, failed := s.failed)
    && s.skipped == s0.skipped + |LeftOuts(told, n)|
    && s.failed + |LeftOuts(told, n)| + |plans| == s0.failed + n
  }

  lemma SortedNext(media: seq<Media>, before: map<nat, Answers>, told: map<nat, Answers>, at: seq<nat>, plans: seq<Plan>,
                   s0: Summary, s: Summary, n: nat, p: Plan)
    requires n < |media| && Sorted(media, before, at, plans, s0, s, n)
    requires n in told && told == before[n := told[n]]
    ensures Wanted(media[n], told[n]) && Fits(p, media[n], told[n]) ==> Sorted(media, told, at + [n], plans + [p], s0, s, n + 1)
    ensures LeftOut(told[n]) ==> Sorted(media, told, at, plans, s0, Counted(s, Skipped), n + 1)
    ensures !Wanted(media[n], told[n]) && !LeftOut(told[n]) ==> Sorted(media, told, at, plans, s0, Counted(s, Failed), n + 1)
  {
    AnswersKnown(media, before, at, plans, s0, s, n);
    hide *;
    SortedStep(media, before, told, at, plans, s0, s, n, p);
  }

  lemma AnswersKnown(media: seq<Media>, told: map<nat, Answers>, at: seq<nat>, plans: seq<Plan>, s0: Summary, s: Summary, n: nat)
    requires n <= |media| && Sorted(media, told, at, plans, s0, s, n)
    ensures forall i: nat :: i < n ==> i in told
  {
    hide AllFit, Wanted, LeftOuts;
  }

  lemma SortedStep(media: seq<Media>, before: map<nat, Answers>, told: map<nat, Answers>, at: seq<nat>, plans: seq<Plan>,
                   s0: Summary, s: Summary, n: nat, p: Plan)
    requires n < |media| && Sorted(media, before, at, plans, s0, s, n)
    requires n in told && forall i: nat :: i < n ==> i in before && i in told && told[i] == before[i]
    ensures Wanted(media[n], told[n]) && Fits(p, media[n], told[n]) ==> Sorted(media, told, at + [n], plans + [p], s0, s, n + 1)
    ensures LeftOut(told[n]) ==> Sorted(media, told, at, plans, s0, Counted(s, Skipped), n + 1)
    ensures !Wanted(media[n], told[n]) && !LeftOut(told[n]) ==> Sorted(media, told, at, plans, s0, Counted(s, Failed), n + 1)
  {
    hide LeftOuts, Selection, AllFit, Wanted, LeftOut, Fits;
    LeftOutsNext(before, told, n);
    SelectionNext(media, before, told, at, n);
    FitNext(media, before, told, at, plans, n, p);
    NeverBoth(media[n], told[n]);
  }

  lemma NeverBoth(m: Media, a: Answers)
    ensures !(Wanted(m, a) && LeftOut(a))
  {
  }

  lemma FitNext(media: seq<Media>, before: map<nat, Answers>, told: map<nat, Answers>, at: seq<nat>, plans: seq<Plan>, n: nat, p: Plan)
    requires n < |media| && AllFit(media, before, at, plans) && (forall k :: 0 <= k < |at| ==> at[k] < n)
    requires n in told && forall i: nat :: i < n ==> i in before && i in told && told[i] == before[i]
    ensures AllFit(media, told, at, plans)
    ensures Fits(p, media[n], told[n]) ==> AllFit(media, told, at + [n], plans + [p])
  {
    hide Fits;
  }

  lemma LeftOutsNext(before: map<nat, Answers>, told: map<nat, Answers>, n: nat)
    requires n in told && forall i: nat :: i < n ==> i in before && i in told && told[i] == before[i]
    ensures |LeftOuts(told, n + 1)| == |LeftOuts(before, n)| + (if LeftOut(told[n]) then 1 else 0)
  {
    hide LeftOut;
    assert LeftOuts(told, n + 1) == LeftOuts(before, n) + (if LeftOut(told[n]) then {n} else {});
  }

  lemma SelectionNext(media: seq<Media>, before: map<nat, Answers>, told: map<nat, Answers>, at: seq<nat>, n: nat)
    requires n < |media| && Selection(media[..n], before, at)
    requires n in told && forall i: nat :: i < n ==> i in before && i in told && told[i] == before[i]
    ensures forall k :: 0 <= k < |at| ==> at[k] < n
    ensures Selection(media[..n + 1], told, if Wanted(media[n], told[n]) then at + [n] else at)
  {
    hide Wanted;
    var longer := if Wanted(media[n], told[n]) then at + [n] else at;
    forall i: nat | i < n + 1 ensures i in longer <==> Wanted(media[i], told[i]) {
      assert media[..n + 1][i] == media[i];
      if i < n {
        assert media[..n][i] == media[i];
      } else {
        assert n !in at;
      }
    }
  }

  // ---- unique local targets ----

  /** The local targets of the plans that have one. */
  function Targets(plans: seq<Plan>): seq<string> {
    if plans == [] then []
    else
      var last := plans[|plans| - 1];
      Targets(plans[..|plans| - 1]) + (if last.localFailed then [] else [last.local])
  }

  /** What the naming component was asked and answered. */
  datatype Asked = Asked(targets: seq<string>, names: seq<string>, failed: bool)

  /** The k-th unique name goes to the k-th plan with a local target; without names those plans have failed locally. */
  predicate RenamedAt(before: seq<Plan>, after: seq<Plan>, asked: Asked, j: nat)
    requires j < |before| == |after|
  {
    var k := |Targets(before[..j])|;
    after[j] == if before[j].localFailed then before[j]
                else if asked.failed || |asked.names| != |Targets(before)| then before[j].(localFailed := true)
                else if k < |asked.names| then before[j].(local := asked.names[k], fileName := asked.names[k])
                else before[j]
  }

  ghost predicate RenamedAll(before: seq<Plan>, after: seq<Plan>, asked: Asked) {
    |before| == |after| && forall j: nat :: j < |before| ==> RenamedAt(before, after, asked, j)
  }

  /** Where the plans with a local target are. */
  ghost predicate Places(plans: seq<Plan>, indexes: seq<nat>, n: nat)
    requires n <= |plans|
  {
    && |indexes| == |Targets(plans[..n])|
    && (forall k :: 0 <= k < |indexes| ==> indexes[k] < n && !plans[indexes[k]].localFailed && |Targets(plans[..indexes[k]])| == k)
    && (forall j: nat :: j < n && !plans[j].localFailed ==> |Targets(plans[..j])| < |indexes| && indexes[|Targets(plans[..j])|] == j)
  }

  lemma PlacesNext(plans: seq<Plan>, indexes: seq<nat>, n: nat)
    requires n < |plans| && Places(plans, indexes, n)
    ensures Targets(plans[..n + 1]) == Targets(plans[..n]) + (if plans[n].localFailed then [] else [plans[n].local])
    ensures Places(plans, if plans[n].localFailed then indexes else indexes + [n], n + 1)
  {
    hide Targets;
    TargetsNext(plans, n);
    var longer := if plans[n].localFailed then indexes else indexes + [n];
    forall j: nat | j < n + 1 && !plans[j].localFailed
      ensures |Targets(plans[..j])| < |longer| && longer[|Targets(plans[..j])|] == j
    {
      if j < n {
        assert |Targets(plans[..j])| < |indexes| && indexes[|Targets(plans[..j])|] == j;
      }
    }
  }

  lemma TargetsNext(plans: seq<Plan>, n: nat)
    requires n < |plans|
    ensures Targets(plans[..n + 1]) == Targets(plans[..n]) + (if plans[n].localFailed then [] else [plans[n].local])
  {
    assert plans[..n + 1][..n] == plans[..n];
  }

  lemma PlacesCount(plans: seq<Plan>, indexes: seq<nat>)
    requires Places(plans, indexes, |plans|)
    ensures |indexes| == |Targets(plans)|
  {
    assert plans[..|plans|] == plans;
  }

  /** The first `n` plans with a local target have been renamed. */
  ghost predicate RenamedUpTo(before: seq<Plan>, after: seq<Plan>, names: seq<string>, failed: bool, n: nat) {
    && |after| == |before|
    && forall j: nat :: j < |before| ==>
         var k := |Targets(before[..j])|;
         after[j] == if before[j].localFailed || n <= k then before[j]
                     else if failed then before[j].(localFailed := true)
                     else if k < |names| then before[j].(local := names[k], fileName := names[k])
                     else before[j]
  }

  lemma RenameNext(before: seq<Plan>, after: seq<Plan>, names: seq<string>, failed: bool, indexes: seq<nat>, n: nat)
    requires RenamedUpTo(before, after, names, failed, n) && Places(before, indexes, |before|) && n < |indexes|
    requires !failed ==> |names| == |indexes|
    ensures indexes[n] < |after|
    ensures var p := after[indexes[n]];
            var q := if failed then p.(localFailed := true) else p.(local := names[n], fileName := names[n]);
            RenamedUpTo(before, after[indexes[n] := q], names, failed, n + 1)
  {
    assert before[..|before|] == before;
    hide Targets;
    var i := indexes[n];
    assert |Targets(before[..i])| == n && !before[i].localFailed;
    assert forall j: nat :: j < |before| && !before[j].localFailed && j != i ==> |Targets(before[..j])| != n;
  }

  lemma RenamedThrough(before: seq<Plan>, after: seq<Plan>, names: seq<string>, failed: bool, indexes: seq<nat>)
    requires Places(before, indexes, |before|) && RenamedUpTo(before, after, names, failed, |indexes|)
    ensures forall targets, refused :: failed == (refused || |names| != |Targets(before)|) ==> RenamedAll(before, after, Asked(targets, names, refused))
  {
    PlacesCount(before, indexes);
    assert before[..|before|] == before;
    hide Targets;
    forall targets, refused | failed == (refused || |names| != |Targets(before)|) ensures RenamedAll(before, after, Asked(targets, names, refused)) {
      forall j: nat | j < |before| ensures RenamedAt(before, after, Asked(targets, names, refused), j) {
        assert !before[j].localFailed ==> |Targets(before[..j])| < |indexes|;
      }
    }
  }

  datatype Summary = Summary(total: nat, queued: nat, skipped: nat, failed: nat, uncertain: nat)

  const EMPTY := Summary(0, 0, 0, 0, 0)

  function Counted(s: Summary, c: Class): Summary {
    match c
    case Skipped => s.(skipped := s.skipped + 1)
    case Queued => s.(queued := s.queued + 1)
    case Failed => s.(failed := s.failed + 1)
    case Uncertain => s.(uncertain := s.uncertain + 1)
  }

  /** The number of outcomes of a class. */
  function Count(outcomes: seq<Outcome>, c: Class): nat {
    if outcomes == [] then 0
    else Count(outcomes[..|outcomes| - 1], c) + (if ClassOf(outcomes[|outcomes| - 1]) == c then 1 else 0)
  }

  predicate Index(i: int, n: nat) {
    0 <= i < n
  }

  function Indices(n: nat): set<nat> {
    set i: nat | 0 <= i < n && Index(i, n)
  }

  class Service {
    ghost var told: map<nat, Answers>  // by the place of the item in the batch
    ghost var asked: seq<Asked>

    constructor ()
      ensures told == map[] && asked == []
    {
      told, asked := map[], [];
    }

    /** `ctx.Err()` before an item. */
    method Ended(ghost i: nat) returns (ended: bool)
      modifies this`told
      ensures told == old(told)[i := UNASKED.(live := !ended)]
    {
      ended := *;
      told := told[i := UNASKED.(live := !ended)];
    }

    /** What the filter says: allowed, excluded by the user's settings, or unavailable. */
    method Filter(m: Media, ghost i: nat) returns (allowed: bool, excluded: bool)
      requires i in told
      modifies this`told
      ensures told == old(told)[i := old(told)[i].(allowed := allowed, excluded := excluded)]
    {
      allowed, excluded := *, *;
      told := told[i := told[i].(allowed := allowed, excluded := excluded)];
    }

    method Render(m: Media, wanted: bool, local: bool, ghost i: nat) returns (name: string, failed: bool)
      requires i in told
      modifies this`told
      ensures !wanted ==> name == "" && !failed
      ensures told == old(told)[i := if local then old(told)[i].(local := Naming(wanted, name, failed))
                                     else old(told)[i].(remote := Naming(wanted, name, failed))]
    {
      name, failed := *, *;
      if !wanted {
        name, failed := "", false;
      }
      told := told[i := if local then told[i].(local := Naming(wanted, name, failed)) else told[i].(remote := Naming(wanted, name, failed))];
    }

    /** The naming component's `Unique`: it may fail, or answer the wrong number of names. */
    method Unique(targets: seq<string>) returns (names: seq<string>, failed: bool)
      modifies this`asked
      ensures asked == old(asked) + [Asked(targets, names, failed)]
    {
      names, failed := *, *;
      asked := asked + [Asked(targets, names, failed)];
    }

    /** The first loop of `prepareBatch`: exactly the wanted items are planned; an item excluded by the settings is skipped. */
    method Plans(media: seq<Media>, route: seq<Executor>, s0: Summary) returns (plans: seq<Plan>, s: Summary, ghost at: seq<nat>)
      modifies this`told
      ensures Sorted(media, told, at, plans, s0, s, |media|)
      ensures AllConsulted(media, told, route)
    {
      plans, s, at := [], s0, [];
      assert media[..0] == [] && LeftOuts(told, 0) == {};
      for i := 0 to |media|
        invariant Sorted(media, told, at, plans, s0, s, i)
        invariant AllConsulted(media[..i], told, route)
      {
        hide Sorted, AllConsulted, Consulted;
        ghost var before := told;
        plans, s, at := PlanNext(media, route, i, s0, plans, s, at);
        ConsultedNext(media, before, told, route, i);
      }
      assert media[..|media|] == media;
    }

    /** One item of that loop. */
    method PlanNext(media: seq<Media>, route: seq<Executor>, i: nat, ghost s0: Summary, plans0: seq<Plan>, s1: Summary, ghost at0: seq<nat>)
      returns (plans: seq<Plan>, s: Summary, ghost at: seq<nat>)
      requires i < |media| && Sorted(media, told, at0, plans0, s0, s1, i)
      modifies this`told
      ensures Sorted(media, told, at, plans, s0, s, i + 1)
      ensures i in told && told == old(told)[i := told[i]] && Consulted(media[i], told[i], route)
    {
      var item := media[i];
      ghost var before := told;
      hide Sorted, Counted;
      plans, s, at := plans0, s1, at0;
      var ended := Ended(i);
      if ended {
        SortedNext(media, before, told, at, plans, s0, s, i, Plan(item, "", "", false, false, ""));
        s := Counted(s, Failed);
        return;
      }
      var allowed, excluded := Filter(item, i);
      if !allowed {
        SortedNext(media, before, told, at, plans, s0, s, i, Plan(item, "", "", false, false, ""));
        s := Counted(s, if excluded then Skipped else Failed);
        return;
      }
      if item.token == "" || item.messageId <= 0 || item.fileSize < 0 {
        SortedNext(media, before, told, at, plans, s0, s, i, Plan(item, "", "", false, false, ""));
        s := Counted(s, Failed);
        return;
      }
      var plan := Named(item, route, i);
      SortedNext(media, before, told, at, plans, s0, s, i, plan);
      if plan.fileName == "" {
        s := Counted(s, Failed);
        return;
      }
      plans, at := plans + [plan], at + [i];
    }

    /** The names of an item that may be submitted. */
    method Named(item: Media, route: seq<Executor>, ghost i: nat) returns (plan: Plan)
      requires i in told && told[i] == UNASKED.(live := true, allowed := true, excluded := told[i].excluded) && Submittable(item)
      modifies this`told
      ensures i in told && told == old(told)[i := told[i]] && Consulted(item, told[i], route) && Fits(plan, item, told[i])
      ensures told[i].live && told[i].allowed && told[i].excluded == old(told)[i].excluded
    {
      var local, localFailed := Render(item, Local in route, true, i);
      var remote, remoteFailed := Render(item, Aria2 in route || Http in route, false, i);
      plan := Plan(item, local, remote, localFailed, remoteFailed, if local == "" then remote else local);
    }

    /** The second loop of `prepareBatch`. */
    method LocalTargets(plans: seq<Plan>) returns (targets: seq<string>, indexes: seq<nat>)
      ensures targets == Targets(plans) && Places(plans, indexes, |plans|)
    {
      targets, indexes := [], [];
      assert plans[..0] == [];
      for i := 0 to |plans|
        invariant targets == Targets(plans[..i]) && Places(plans, indexes, i)
      {
        hide Places, Targets;
        PlacesNext(plans, indexes, i);
        if !plans[i].localFailed {
          targets, indexes := targets + [plans[i].local], indexes + [i];
        }
      }
      assert plans[..|plans|] == plans;
    }

    /** Its last loop. */
    method Rename(first: seq<Plan>, indexes: seq<nat>, names: seq<string>, failed: bool) returns (plans: seq<Plan>)
      requires Places(first, indexes, |first|) && (!failed ==> |names| == |indexes|)
      ensures forall targets, refused :: failed == (refused || |names| != |Targets(first)|) ==> RenamedAll(first, plans, Asked(targets, names, refused))
    {
      plans := first;
      assert first[..|first|] == first;
      for k := 0 to |indexes|
        invariant RenamedUpTo(first, plans, names, failed, k)
      {
        hide RenamedUpTo;
        RenameNext(first, plans, names, failed, indexes, k);
        var j := indexes[k];
        var p := plans[j];
        plans := plans[j := if failed then p.(localFailed := true) else p.(local := names[k], fileName := names[k])];
      }
      RenamedThrough(first, plans, names, failed, indexes);
    }

    /**
     `prepareBatch`: exactly the wanted items are planned, and the k-th unique name goes to the k-th plan with a local
     target. `first` are the plans before that.
     */
    method PrepareBatch(media: seq<Media>, route: seq<Executor>, s0: Summary)
      returns (plans: seq<Plan>, s: Summary, ghost at: seq<nat>, ghost first: seq<Plan>)
      modifies this`told, this`asked
      ensures Sorted(media, told, at, first, s0, s, |media|)
      ensures AllConsulted(media, told, route)
      ensures if Local !in route || Targets(first) == [] then plans == first && asked == old(asked)
              else exists answer: Asked :: asked == old(asked) + [answer] && answer.targets == Targets(first) && RenamedAll(first, plans, answer)
    {
      plans, s, at := Plans(media, route, s0);
      first := plans;
      hide Sorted, Targets, Places, RenamedAll, AllConsulted;
      if Local !in route {
        return;
      }
      var targets, indexes := LocalTargets(plans);
      if |targets| == 0 {
        return;
      }
      var names, failed := Unique(targets);
      ghost var answer := Asked(targets, names, failed);
      PlacesCount(first, indexes);
      plans := Rename(plans, indexes, names, failed || |names| != |targets|);
      assert asked == old(asked) + [answer] && RenamedAll(first, plans, answer);
    }

    /**
     The workers of `SubmitBatch`: each plan is submitted once, in whatever order the workers take them; an item's
     submission shares nothing with the others.
     */
    method SubmitAll(plans: seq<Plan>, route: seq<Executor>, known: set<Executor>, skipSame: bool)
      returns (outcomes: array<Outcome>, ghost logs: map<nat, Log>)
      ensures outcomes.Length == |plans| && logs.Keys == Indices(|plans|)
      ensures forall i :: 0 <= i < |plans| ==> Dealt(outcomes[i], logs[i], route, known, plans[i], skipSame)
    {
      hide Dealt;
      outcomes := new Outcome[|plans|](_ => Outcome(NOTHING, Nil, false));
      logs := map[];
      var waiting := Indices(|plans|);
      while waiting != {}
        invariant waiting <= Indices(|plans|)
        invariant logs.Keys == Indices(|plans|) - waiting
        invariant forall i :: i in logs ==> Dealt(outcomes[i], logs[i], route, known, plans[i], skipSame)
      {
        var index :| index in waiting;
        var item := new Submission();
        var out;
        ghost var url;
        out, url := item.SubmitPrepared(route, known, plans[index], skipSame);
        outcomes[index] := out;
        logs := logs[index := Log(item.calls, item.trials, item.asked, url, item.compared, item.found, item.trouble)];
        waiting := waiting - {index};
      }
    }

    /** The counting loop of `SubmitBatch`. */
    method Tally(outcomes: array<Outcome>, s0: Summary) returns (s: Summary)
      ensures s.total == s0.total
      ensures s.skipped == s0.skipped + Count(outcomes[..], Skipped) && s.queued == s0.queued + Count(outcomes[..], Queued)
      ensures s.failed == s0.failed + Count(outcomes[..], Failed) && s.uncertain == s0.uncertain + Count(outcomes[..], Uncertain)
      ensures s.queued + s.skipped + s.failed + s.uncertain == s0.queued + s0.skipped + s0.failed + s0.uncertain + outcomes.Length
    {
      s := s0;
      for i := 0 to outcomes.Length
        invariant s.total == s0.total
        invariant s.skipped == s0.skipped + Count(outcomes[..i], Skipped) && s.queued == s0.queued + Count(outcomes[..i], Queued)
        invariant s.failed == s0.failed + Count(outcomes[..i], Failed) && s.uncertain == s0.uncertain + Count(outcomes[..i], Uncertain)
        invariant s.queued + s.skipped + s.failed + s.uncertain == s0.queued + s0.skipped + s0.failed + s0.uncertain + i
      {
        hide ClassOf;
        assert outcomes[..i + 1][..i] == outcomes[..i];
        s := Counted(s, ClassOf(outcomes[i]));
      }
      assert outcomes[..outcomes.Length] == outcomes[..];
    }

    /**
     `SubmitBatch` once collection has answered: every collected item ends up in exactly one of the four counters, and
     the items submitted, exactly the wanted ones, were treated honestly.
     */
    method SubmitBatch(media: seq<Media>, registration: bool, route: seq<Executor>, known: set<Executor>, skipSame: bool)
      returns (s: Summary, ghost plans: seq<Plan>, ghost outcomes: seq<Outcome>, ghost logs: map<nat, Log>, ghost at: seq<nat>)
      modifies this`told, this`asked
      ensures s.total == |media| == s.queued + s.skipped + s.failed + s.uncertain
      ensures |outcomes| == |plans| == |at| && logs.Keys == Indices(|plans|)
      ensures forall i :: 0 <= i < |plans| ==> Dealt(outcomes[i], logs[i], route, known, plans[i], skipSame)
      ensures media != [] && registration ==> AllConsulted(media, told, route) && Selection(media, told, at) && forall k :: 0 <= k < |at| ==> plans[k].media == media[at[k]]
      ensures media != [] && registration ==> s.skipped == |LeftOuts(told, |media|)| + Count(outcomes, Skipped)
      ensures s.queued == Count(outcomes, Queued) && s.uncertain == Count(outcomes, Uncertain)
      ensures !registration ==> s.failed == |media| && plans == []
    {
      plans, outcomes, logs, at := [], [], map[], [];
      s := EMPTY.(total := |media|);
      if |media| == 0 {
        return;
      }
      if !registration {
        s := s.(failed := |media|);
        return;
      }
      var prepared;
      ghost var first;
      prepared, s, at, first := PrepareBatch(media, route, s);
      assert media[..|media|] == media;
      hide Selection, LeftOuts, AllConsulted;
      SameMedia(media, told, at, first, prepared);
      var done;
      done, logs := SubmitAll(prepared, route, known, skipSame);
      s := Tally(done, s);
      plans, outcomes := prepared, done[..];
    }
  }

  lemma SameMedia(media: seq<Media>, told: map<nat, Answers>, at: seq<nat>, first: seq<Plan>, plans: seq<Plan>)
    requires AllFit(media, told, at, first)
    requires plans == first || exists answer :: RenamedAll(first, plans, answer)
    ensures |plans| == |first| && forall k :: 0 <= k < |at| ==> at[k] < |media| && plans[k].media == media[at[k]]
  {
    hide Targets;
    forall k: nat | k < |at| ensures at[k] < |media| && k < |plans| && plans[k].media == media[at[k]] {
      assert Fits(first[k], media[at[k]], told[at[k]]);
      if plans != first {
        var answer :| RenamedAll(first, plans, answer);
        assert RenamedAt(first, plans, answer, k);
      }
    }
  }
}
