/**
 The in-memory side of the local download worker: its wake-up channel and its `queued` and `active` sets, shared by
 concurrent senders, the receiving loop and the attempts in progress. Each action is one critical section or one
 channel operation; the worker may be stopped and started again while senders are still on their way.
 */
module WakeQueue {
  import opened Collections

  type Id(==, !new)

  const CAPACITY: nat := 100

  /** A `queueID` between its two critical sections, holding the channel of the run it began in. */
  datatype Sender = Sender(id: Id, run: nat)

  datatype Loop = Off | Waiting | Received(id: Id) | Leaving

  /** `frozen` holds how full the channels of earlier runs are: nobody receives from them any more. */
  datatype Wake = Wake(run: nat, running: bool, ending: bool, queued: set<Id>, active: set<Id>, channel: seq<Id>,
                       frozen: map<nat, nat>, senders: map<nat, Sender>, attempts: map<nat, Id>, loop: Loop, tokens: nat)

  const EMPTY := Wake(0, false, false, {}, {}, [], map[], map[], map[], Off, 0)

  datatype Action =
    | Start
    | End
    | Leave
    | Reset
    | Queue(id: Id)
    | SendOk(k: nat)
    | SendFails(k: nat)
    | Receive
    | MarkRunning
    | MarkStopped(k: nat)

  predicate Current(w: Wake, sender: Sender) {
    w.running && sender.run == w.run
  }

  /** The channel the sender holds can take another ID. */
  predicate Room(w: Wake, sender: Sender) {
    if Current(w, sender) then |w.channel| < CAPACITY else sender.run in w.frozen ==> w.frozen[sender.run] < CAPACITY
  }

  predicate Enabled(w: Wake, a: Action) {
    match a
    case Start => !w.running
    case End => w.running
    case Leave => w.running && w.ending && w.loop.Waiting?
    case Reset => w.loop.Leaving? && w.attempts == map[]
    case SendOk(k) => k in w.senders && Room(w, w.senders[k])
    case SendFails(k) => k in w.senders && !Room(w, w.senders[k])
    case Receive => w.loop.Waiting? && w.channel != []
    case MarkRunning => w.loop.Received?
    case MarkStopped(k) => k in w.attempts
    case Queue(_) => true
  }

  function Queued(w: Wake, id: Id): Wake {
    if !w.running || id in w.queued || id in w.active then w
    else w.(queued := w.queued + {id}, senders := w.senders[w.tokens := Sender(id, w.run)], tokens := w.tokens + 1)
  }

  function Sent(w: Wake, k: nat): Wake
    requires k in w.senders
  {
    var sender := w.senders[k];
    var t := w.(senders := w.senders - {k});
    if Current(w, sender) then t.(channel := w.channel + [sender.id])
    else if sender.run in w.frozen then t.(frozen := w.frozen[sender.run := w.frozen[sender.run] + 1]) else t
  }

  /** The second critical section of `queueID`: it takes the ID out of whatever set is current by now. */
  function Unsent(w: Wake, k: nat): Wake
    requires k in w.senders
  {
    w.(senders := w.senders - {k}, queued := w.queued - {w.senders[k].id})
  }

  function Marked(w: Wake): Wake
    requires w.loop.Received?
  {
    var id := w.loop.id;
    var t := w.(queued := w.queued - {id}, loop := Waiting);
    if id in w.active then t else t.(active := w.active + {id}, attempts := w.attempts[w.tokens := id], tokens := w.tokens + 1)
  }

  function Next(w: Wake, a: Action): Wake
    requires Enabled(w, a)
  {
    match a
    case Start => w.(run := w.run + 1, running := true, ending := false, queued := {}, active := {}, channel := [], loop := Waiting)
    case End => w.(ending := true)
    case Leave => w.(loop := Leaving)
    case Reset => w.(running := false, queued := {}, active := {}, channel := [], frozen := w.frozen[w.run := |w.channel|], loop := Off)
    case Queue(id) => Queued(w, id)
    case SendOk(k) => Sent(w, k)
    case SendFails(k) => Unsent(w, k)
    case Receive => w.(loop := Received(w.channel[0]), channel := w.channel[1..])
    case MarkRunning => Marked(w)
    case MarkStopped(k) => w.(active := w.active - {w.attempts[k]}, attempts := w.attempts - {k})
  }

  // ---- what always holds ----

  predicate HasAttempt(attempts: map<nat, Id>, k: nat, id: Id) {
    k in attempts && attempts[k] == id
  }

  /** Exactly the IDs with an attempt are active, each with one. */
  ghost predicate AttemptsFine(active: set<Id>, attempts: map<nat, Id>, tokens: nat) {
    && (forall k :: k in attempts ==> attempts[k] in active && k < tokens)
    && (forall id :: id in active ==> exists k: nat :: HasAttempt(attempts, k, id))
    && (forall k, l :: k in attempts && l in attempts && k != l ==> attempts[k] != attempts[l])
  }

  predicate HasSender(w: Wake, k: nat, id: Id) {
    k in w.senders && Current(w, w.senders[k]) && w.senders[k].id == id
  }

  /** A queued ID is in the channel, about to be sent, or just received. */
  ghost predicate NotForgotten(w: Wake, id: Id) {
    id in w.channel || w.loop == Received(id) || exists k: nat :: HasSender(w, k, id)
  }

  ghost predicate NoneForgotten(w: Wake) {
    forall id :: id in w.queued ==> NotForgotten(w, id)
  }

  /** No ID is queued and active, no sender is from the future, and a stopped worker holds nothing. */
  ghost predicate Books(w: Wake) {
    && w.queued !! w.active
    && (forall k :: k in w.senders ==> k < w.tokens && w.senders[k].run <= w.run)
    && (!w.running ==> w.queued == {} && w.active == {} && w.attempts == map[] && w.loop.Off? && w.channel == [])
    && (w.running && !w.ending ==> w.loop.Waiting? || w.loop.Received?)
  }

  ghost predicate Basic(w: Wake) {
    Books(w) && AttemptsFine(w.active, w.attempts, w.tokens) && NoneForgotten(w)
  }

  lemma NoneForgottenStep(w: Wake, a: Action)
    requires Basic(w) && Enabled(w, a) && !a.Start? && !a.Reset?
    ensures NoneForgotten(Next(w, a))
  {
    hide AttemptsFine;
    var t := Next(w, a);
    forall id | id in t.queued ensures NotForgotten(t, id) {
      if id !in w.queued {
        assert HasSender(t, w.tokens, id);
      } else if k: nat :| HasSender(w, k, id) {
        assert k in t.senders ==> HasSender(t, k, id);
      } else {
        assert NotForgotten(w, id);
      }
    }
  }

  lemma AttemptsStep(w: Wake, a: Action)
    requires AttemptsFine(w.active, w.attempts, w.tokens) && Enabled(w, a) && (a.MarkRunning? || a.MarkStopped?)
    ensures AttemptsFine(Next(w, a).active, Next(w, a).attempts, Next(w, a).tokens)
  {
    var t := Next(w, a);
    forall id | id in t.active ensures exists k: nat :: HasAttempt(t.attempts, k, id) {
      if id in w.active {
        var k: nat :| HasAttempt(w.attempts, k, id);
        assert HasAttempt(t.attempts, k, id);
      } else {
        assert HasAttempt(t.attempts, w.tokens, id);
      }
    }
  }

  lemma TokensGrow(active: set<Id>, attempts: map<nat, Id>, m: nat, n: nat)
    requires AttemptsFine(active, attempts, m) && m <= n
    ensures AttemptsFine(active, attempts, n)
  {
  }

  /** Stopped or started with no attempt left, the bookkeeping is empty. */
  lemma IdleIsEmpty(w: Wake)
    requires AttemptsFine(w.active, w.attempts, w.tokens) && w.attempts == map[]
    ensures AttemptsFine({}, map[], w.tokens) && w.active == {}
  {
    assert forall k: nat, id :: !HasAttempt(w.attempts, k, id);
  }

  lemma BooksStep(w: Wake, a: Action)
    requires Books(w) && Enabled(w, a)
    ensures Books(Next(w, a))
  {
  }

  lemma StepKeeps(w: Wake, a: Action)
    requires Basic(w) && Enabled(w, a)
    ensures Basic(Next(w, a))
  {
    BooksStep(w, a);
    hide Books;
    if a.Start? || a.Reset? {
      assert w.attempts == map[] by {
        StoppedIsIdle(w);
      }
      IdleIsEmpty(w);
    } else {
      NoneForgottenStep(w, a);
      hide NoneForgotten;
      if a.MarkRunning? || a.MarkStopped? {
        AttemptsStep(w, a);
        hide AttemptsFine;
      } else {
        TokensGrow(w.active, w.attempts, w.tokens, Next(w, a).tokens);
        hide AttemptsFine;
      }
    }
  }

  lemma StoppedIsIdle(w: Wake)
    requires Books(w)
    ensures !w.running ==> w.attempts == map[]
  {
  }

  // ---- the channel ----

  /** The channel holds no ID twice, and whatever is underway is queued, in one place only. */
  ghost predicate Tracked(w: Wake) {
    && Distinct(w.channel)
    && (forall id :: id in w.channel ==> id in w.queued)
    && (forall k :: k in w.senders && Current(w, w.senders[k]) ==> w.senders[k].id in w.queued && w.senders[k].id !in w.channel)
    && (forall k, l :: k in w.senders && l in w.senders && k != l && Current(w, w.senders[k]) && Current(w, w.senders[l]) ==>
          w.senders[k].id != w.senders[l].id)
    && (w.loop.Received? ==> w.loop.id in w.queued && w.loop.id !in w.channel && forall k: nat :: !HasSender(w, k, w.loop.id))
  }

  /** The one step that can spoil the channel: a failing sender of an earlier run whose ID the present run has queued. */
  predicate Spoils(w: Wake, a: Action) {
    a.SendFails? && a.k in w.senders && !Current(w, w.senders[a.k]) && w.senders[a.k].id in w.queued
  }

  lemma QueueTracked(w: Wake, id: Id)
    requires Basic(w) && Tracked(w)
    ensures Tracked(Queued(w, id))
  {
    hide AttemptsFine, NoneForgotten;
    var t := Queued(w, id);
    forall k: nat ensures t.loop.Received? && HasSender(t, k, t.loop.id) ==> HasSender(w, k, t.loop.id) {
    }
  }

  lemma SentTracked(w: Wake, k: nat)
    requires Basic(w) && Tracked(w) && k in w.senders
    ensures Tracked(Sent(w, k))
  {
    hide AttemptsFine, NoneForgotten;
    var t := Sent(w, k);
    var id := w.senders[k].id;
    forall l: nat ensures t.loop.Received? && HasSender(t, l, t.loop.id) ==> HasSender(w, l, t.loop.id) {
    }
    assert t.loop.Received? && Current(w, w.senders[k]) ==> !HasSender(w, k, t.loop.id);
  }

  lemma UnsentTracked(w: Wake, k: nat)
    requires Basic(w) && Tracked(w) && k in w.senders
    requires Current(w, w.senders[k]) || w.senders[k].id !in w.queued
    ensures Tracked(Unsent(w, k))
  {
    hide AttemptsFine, NoneForgotten;
    var t := Unsent(w, k);
    forall l: nat ensures t.loop.Received? && HasSender(t, l, t.loop.id) ==> HasSender(w, l, t.loop.id) {
    }
    assert t.loop.Received? && Current(w, w.senders[k]) ==> !HasSender(w, k, t.loop.id);
  }

  lemma ReceiveTracked(w: Wake, a: Action)
    requires Basic(w) && Tracked(w) && Enabled(w, a) && (a.Receive? || a.MarkRunning?)
    ensures Tracked(Next(w, a))
  {
    hide AttemptsFine, NoneForgotten;
    var t := Next(w, a);
    if a.Receive? {
      forall l: nat ensures !HasSender(t, l, w.channel[0]) {
        assert HasSender(t, l, w.channel[0]) <==> HasSender(w, l, w.channel[0]);
      }
    } else {
      forall k | k in t.senders && Current(t, t.senders[k]) ensures t.senders[k].id != w.loop.id {
        assert !HasSender(w, k, w.loop.id);
      }
    }
  }

  lemma TrackedStep(w: Wake, a: Action)
    requires Basic(w) && Tracked(w) && Enabled(w, a) && !Spoils(w, a)
    ensures Tracked(Next(w, a))
  {
    match a {
      case Queue(id) => QueueTracked(w, id);
      case SendOk(k) => SentTracked(w, k);
      case SendFails(k) => UnsentTracked(w, k);
      case Receive => ReceiveTracked(w, a);
      case MarkRunning => ReceiveTracked(w, a);
      case End => assert forall k: nat, id :: HasSender(Next(w, a), k, id) ==> HasSender(w, k, id);
      case MarkStopped(_) => assert forall k: nat, id :: HasSender(Next(w, a), k, id) ==> HasSender(w, k, id);
      case _ =>
        hide AttemptsFine, NoneForgotten, Distinct;
    }
  }

  /** Exactly that step does spoil it: the bookkeeping survives a step if and only if the step is not of this kind. */
  lemma SpoiledExactly(w: Wake, a: Action)
    requires Basic(w) && Tracked(w) && Enabled(w, a)
    ensures Tracked(Next(w, a)) <==> !Spoils(w, a)
  {
    if Spoils(w, a) {
      var t := Next(w, a);
      var id := w.senders[a.k].id;
      assert NotForgotten(w, id);
      if k: nat :| HasSender(w, k, id) {
        assert k in t.senders && Current(t, t.senders[k]) && t.senders[k].id !in t.queued;
      } else {
        assert id in t.channel || t.loop == Received(id);
      }
    } else {
      TrackedStep(w, a);
    }
  }

  // ---- whole runs ----

  ghost predicate Run(actions: seq<Action>)
    decreases |actions|, 0
  {
    actions == [] ||
    (var before := actions[..|actions| - 1];
     Run(before) && Enabled(After(before), actions[|actions| - 1]))
  }

  ghost function After(actions: seq<Action>): Wake
    requires Run(actions)
    decreases |actions|, 1
  {
    if actions == [] then EMPTY else Next(After(actions[..|actions| - 1]), actions[|actions| - 1])
  }

  lemma EmptyIsFine()
    ensures Basic(EMPTY) && Tracked(EMPTY)
  {
  }

  lemma {:induction false} RunIsBasic(actions: seq<Action>)
    requires Run(actions)
    ensures Basic(After(actions))
  {
    hide Basic, Next, Enabled;
    if actions == [] {
      EmptyIsFine();
    } else {
      RunIsBasic(actions[..|actions| - 1]);
      StepKeeps(After(actions[..|actions| - 1]), actions[|actions| - 1]);
    }
  }

  /** In every run each ID has at most one attempt, is never both queued and active, and is never forgotten once queued. */
  lemma OneAttemptEach(actions: seq<Action>, k: nat, l: nat)
    requires Run(actions) && k in After(actions).attempts && l in After(actions).attempts
    requires After(actions).attempts[k] == After(actions).attempts[l]
    ensures k == l && After(actions).attempts[k] in After(actions).active && After(actions).attempts[k] !in After(actions).queued
  {
    RunIsBasic(actions);
  }

  lemma QueuedIsOnItsWay(actions: seq<Action>, id: Id)
    requires Run(actions) && id in After(actions).queued
    ensures NotForgotten(After(actions), id) && id !in After(actions).active
  {
    RunIsBasic(actions);
  }

  // ---- no wake-up is lost or invented ----

  /** What the action moves into the channel of run `r`, or out of it. */
  function Moved(w: Wake, a: Action, r: nat): int {
    if a.SendOk? && a.k in w.senders && w.senders[a.k].run == r then 1
    else if a.Receive? && w.run == r then -1
    else 0
  }

  /** The wake-ups sent to the channel of run `r`, less those received from it. */
  ghost function Balance(actions: seq<Action>, r: nat): int
    requires Run(actions)
  {
    if actions == [] then 0
    else
      var before := actions[..|actions| - 1];
      Balance(before, r) + Moved(After(before), actions[|actions| - 1], r)
  }

  /** How full the channel of run `r` is. */
  function Content(w: Wake, r: nat): nat {
    if w.running && r == w.run then |w.channel| else if r in w.frozen then w.frozen[r] else 0
  }

  /** The channels of earlier runs are the ones nobody receives from. */
  predicate ChannelFine(w: Wake, r: nat) {
    && Content(w, r) <= CAPACITY
    && (r in w.frozen <==> 1 <= r <= w.run && !(w.running && r == w.run))
    && (w.run == 0 ==> !w.running)
    && (forall k :: k in w.senders ==> 1 <= w.senders[k].run)
  }

  lemma ContentStep(w: Wake, a: Action, r: nat)
    requires Books(w) && Enabled(w, a) && ChannelFine(w, r)
    ensures ChannelFine(Next(w, a), r) && Content(Next(w, a), r) == Content(w, r) + Moved(w, a, r)
  {
  }

  /** Every channel, of the current run or an earlier one, holds what was sent and not received, within its capacity. */
  lemma {:induction false} ChannelBalance(actions: seq<Action>, r: nat)
    requires Run(actions)
    ensures Content(After(actions), r) == Balance(actions, r) <= CAPACITY
    ensures ChannelFine(After(actions), r)
  {
    if actions != [] {
      var before := actions[..|actions| - 1];
      ChannelBalance(before, r);
      RunIsBasic(before);
      ContentStep(After(before), actions[|actions| - 1], r);
    }
  }

  // ---- a queued ID gets its attempt ----

  predicate PlaceIs(channel: seq<Id>, id: Id, at: nat) {
    at < |channel| && channel[at] == id && id !in channel[..at]
  }

  function Place(channel: seq<Id>, id: Id): (at: nat)
    requires id in channel
    ensures PlaceIs(channel, id, at)
  {
    if channel[0] == id then 0 else 1 + Place(channel[1..], id)
  }

  lemma OnePlace(channel: seq<Id>, id: Id, at: nat)
    requires PlaceIs(channel, id, at)
    ensures id in channel && Place(channel, id) == at
  {
  }

  /** How many steps at most separate a queued ID from its attempt. */
  function Distance(w: Wake, id: Id): nat {
    var busy := if w.loop.Received? then 1 else 0;
    if w.loop == Received(id) then 1
    else if id in w.channel then 2 * Place(w.channel, id) + 2 + busy
    else 2 * CAPACITY + 4 + 2 * |w.channel| + busy
  }

  /** The loop can receive and begin attempts, or a sender of the ID can send it. */
  predicate Serves(w: Wake, a: Action, id: Id) {
    Enabled(w, a) && (a.Receive? || a.MarkRunning? || (a.SendOk? && HasSender(w, a.k, id)))
  }

  ghost predicate Awaiting(w: Wake, id: Id) {
    Basic(w) && w.running && !w.ending && id in w.queued
  }

  ghost predicate Attempted(w: Wake, id: Id) {
    exists k: nat :: HasAttempt(w.attempts, k, id)
  }

  /** While the worker runs and is not ending, a step brings a queued ID closer to its attempt, or begins that. */
  lemma ComesCloser(w: Wake, id: Id) returns (a: Action)
    requires Awaiting(w, id)
    ensures Serves(w, a, id)
    ensures Attempted(Next(w, a), id) || (Awaiting(Next(w, a), id) && Distance(Next(w, a), id) < Distance(w, id))
  {
    if w.loop.Received? {
      a := MarkRunning;
      MarkingServes(w, id);
    } else if w.channel != [] && (id in w.channel || |w.channel| >= CAPACITY) {
      a := Receive;
      ReceivingServes(w, id);
    } else {
      assert NotForgotten(w, id);
      var k: nat :| HasSender(w, k, id);
      a := SendOk(k);
      SendingServes(w, k, id);
    }
  }

  lemma MarkingServes(w: Wake, id: Id)
    requires Awaiting(w, id) && w.loop.Received?
    ensures var t := Next(w, MarkRunning);
            Attempted(t, id) || (Awaiting(t, id) && Distance(t, id) < Distance(w, id))
  {
    StepKeeps(w, MarkRunning);
    hide AttemptsFine, NoneForgotten;
    if w.loop == Received(id) {
      assert HasAttempt(Next(w, MarkRunning).attempts, w.tokens, id);
    }
  }

  lemma ReceivingServes(w: Wake, id: Id)
    requires Awaiting(w, id) && w.loop.Waiting? && w.channel != []
    ensures var t := Next(w, Receive);
            Awaiting(t, id) && Distance(t, id) < Distance(w, id)
  {
    StepKeeps(w, Receive);
    hide AttemptsFine, NoneForgotten, Basic;
    if id in w.channel && w.channel[0] != id {
      var at := Place(w.channel, id);
      assert w.channel[1..][..at - 1] == w.channel[..at][1..];
      OnePlace(w.channel[1..], id, at - 1);
    }
  }

  lemma SendingServes(w: Wake, k: nat, id: Id)
    requires Awaiting(w, id) && HasSender(w, k, id) && id !in w.channel && w.loop.Waiting? && |w.channel| < CAPACITY
    ensures Enabled(w, SendOk(k))
    ensures var t := Next(w, SendOk(k));
            Awaiting(t, id) && Distance(t, id) < Distance(w, id)
  {
    StepKeeps(w, SendOk(k));
    hide AttemptsFine, NoneForgotten, Basic;
    var t := Next(w, SendOk(k));
    assert t.channel[..|w.channel|] == w.channel;
    OnePlace(t.channel, id, |w.channel|);
  }

  /** So every run can be continued to the attempt of a queued ID, by the loop and its sender alone. */
  lemma {:induction false} QueuedIsServed(actions: seq<Action>, id: Id) returns (more: seq<Action>)
    requires Run(actions) && After(actions).running && !After(actions).ending && id in After(actions).queued
    ensures Run(actions + more) && Attempted(After(actions + more), id)
    ensures |more| <= Distance(After(actions), id)
    ensures forall a :: a in more ==> a.Receive? || a.MarkRunning? || a.SendOk?
    decreases Distance(After(actions), id)
  {
    RunIsBasic(actions);
    hide Basic, Distance, Enabled, Next;
    var w := After(actions);
    var a := ComesCloser(w, id);
    var longer, t := Extend(actions, w, a);
    hide Run, After;
    if Attempted(t, id) {
      more := [a];
    } else {
      more := QueuedIsServed(longer, id);
      ConcatAssociates(actions, [a], more);
      more := [a] + more;
    }
  }

  // ---- whole runs of the channel ----

  ghost predicate NeverSpoilt(actions: seq<Action>)
    requires Run(actions)
  {
    actions == [] ||
    (var before := actions[..|actions| - 1];
     NeverSpoilt(before) && !Spoils(After(before), actions[|actions| - 1]))
  }

  ghost predicate AlwaysTracked(actions: seq<Action>)
    requires Run(actions)
  {
    Tracked(After(actions)) && (actions == [] || AlwaysTracked(actions[..|actions| - 1]))
  }

  /** The channel never holds an ID twice, and only queued ones, exactly as long as no step has spoilt it. */
  lemma {:induction false} TrackedExactly(actions: seq<Action>)
    requires Run(actions)
    ensures AlwaysTracked(actions) <==> NeverSpoilt(actions)
  {
    if actions == [] {
      EmptyIsFine();
    } else {
      var before, a := actions[..|actions| - 1], actions[|actions| - 1];
      TrackedExactly(before);
      RunIsBasic(before);
      hide Tracked, Basic, Spoils, Next, Enabled;
      if AlwaysTracked(before) {
        SpoiledExactly(After(before), a);
      }
    }
  }

  /** Every start of the worker finds all senders of earlier runs gone. */
  ghost predicate QuietStarts(actions: seq<Action>)
    requires Run(actions)
  {
    actions == [] ||
    (var before := actions[..|actions| - 1];
     QuietStarts(before) && (actions[|actions| - 1].Start? ==> After(before).senders == map[]))
  }

  /** With quiet starts nothing ever spoils the channel. */
  lemma {:induction false} QuietNeverSpoils(actions: seq<Action>)
    requires Run(actions) && QuietStarts(actions)
    ensures NeverSpoilt(actions)
    ensures forall k :: k in After(actions).senders ==> After(actions).senders[k].run == After(actions).run
  {
    if actions != [] {
      var before, a := actions[..|actions| - 1], actions[|actions| - 1];
      QuietNeverSpoils(before);
      RunIsBasic(before);
      hide Basic;
      SendersCurrent(After(before), a);
    }
  }

  /** So with quiet starts the channel never holds an ID twice, and only queued ones. */
  lemma ChannelTracked(actions: seq<Action>)
    requires Run(actions) && QuietStarts(actions)
    ensures AlwaysTracked(actions)
  {
    QuietNeverSpoils(actions);
    TrackedExactly(actions);
  }

  lemma SendersCurrent(w: Wake, a: Action)
    requires Basic(w) && Enabled(w, a) && (a.Start? ==> w.senders == map[])
    requires forall k :: k in w.senders ==> w.senders[k].run == w.run
    ensures !Spoils(w, a)
    ensures forall k :: k in Next(w, a).senders ==> Next(w, a).senders[k].run == Next(w, a).run
  {
    hide AttemptsFine, NoneForgotten;
  }

  // ---- without quiet starts ----

  lemma Extend(actions: seq<Action>, w: Wake, a: Action) returns (longer: seq<Action>, t: Wake)
    requires Run(actions) && After(actions) == w && Enabled(w, a)
    ensures longer == actions + [a] && Run(longer) && After(longer) == t == Next(w, a)
  {
    hide Next, Enabled;
    longer, t := actions + [a], Next(w, a);
    assert longer[..|actions|] == actions;
  }

  /** The first run of a worker that has queued and sent the given IDs and received none. */
  function Filled(ids: seq<Id>): Wake {
    Wake(1, true, false, set id | id in ids, {}, ids, map[], map[], map[], Waiting, |ids|)
  }

  lemma {:induction false} FillChannel(ids: seq<Id>, n: nat) returns (actions: seq<Action>)
    requires Distinct(ids) && n <= |ids| <= CAPACITY
    ensures Run(actions) && After(actions) == Filled(ids[..n])
  {
    hide Distinct, Filled;
    var w;
    if n == 0 {
      actions := FirstStart(ids);
    } else {
      actions := FillChannel(ids, n - 1);
      NewNext(ids, n);
      hide Run, After;
      actions, w := SendOne(actions, ids[..n - 1], ids[n - 1]);
    }
  }

  lemma FirstStart(ids: seq<Id>) returns (actions: seq<Action>)
    ensures Run(actions) && After(actions) == Filled(ids[..0])
  {
    var w;
    actions, w := Extend([], EMPTY, Start);
    assert ids[..0] == [];
  }

  lemma NewNext(ids: seq<Id>, n: nat)
    requires Distinct(ids) && 0 < n <= |ids|
    ensures ids[n - 1] !in ids[..n - 1] && ids[..n - 1] + [ids[n - 1]] == ids[..n]
  {
  }

  lemma SendOne(before: seq<Action>, ids: seq<Id>, id: Id) returns (actions: seq<Action>, w: Wake)
    requires Run(before) && After(before) == Filled(ids) && id !in ids && |ids| < CAPACITY
    ensures Run(actions) && After(actions) == w == Filled(ids + [id])
  {
    hide Run, After;
    actions, w := Extend(before, Filled(ids), Queue(id));
    actions, w := Extend(actions, w, SendOk(|ids|));
  }

  /**
   A sender whose full channel belonged to an earlier run takes the ID out of the present run's queued set; the ID
   is then queued a second time, and the channel holds it twice.
   */
  lemma LateSenderSpoils(ids: seq<Id>, x: Id) returns (actions: seq<Action>, w: Wake)
    requires Distinct(ids) && |ids| == CAPACITY && x !in ids
    ensures Run(actions) && After(actions) == w && w.channel == [x, x] && !Tracked(w)
    ensures w.loop == Waiting && w.attempts == map[] && w.active == {}
  {
    actions := FillChannel(ids, CAPACITY);
    assert ids[..CAPACITY] == ids;
    w := Filled(ids);
    hide Run, After;
    actions, w := Extend(actions, w, Queue(x));
    actions, w := Extend(actions, w, End);
    actions, w := Extend(actions, w, Leave);
    actions, w := Extend(actions, w, Reset);
    actions, w := LateFailure(actions, w, x);
    assert w.channel[0] == w.channel[1];
  }

  /** A received copy of an ID is dropped exactly when an attempt for the ID is in progress at that moment. */
  lemma CopyDropped(w: Wake, id: Id)
    requires Basic(w) && w.loop == Received(id)
    ensures Next(w, MarkRunning).attempts == w.attempts <==> exists k: nat :: HasAttempt(w.attempts, k, id)
    ensures exists k: nat :: HasAttempt(Next(w, MarkRunning).attempts, k, id)
  {
    var t := Next(w, MarkRunning);
    if k: nat :| HasAttempt(w.attempts, k, id) {
      assert HasAttempt(t.attempts, k, id);
    } else {
      assert HasAttempt(t.attempts, w.tokens, id);
    }
  }

  /** So the second copy is dropped while the first attempt runs, and begins another attempt once that has ended. */
  lemma SecondCopy(ids: seq<Id>, x: Id) returns (actions: seq<Action>, w: Wake, dropped: Wake, repeated: Wake)
    requires Distinct(ids) && |ids| == CAPACITY && x !in ids
    ensures Run(actions) && After(actions) == w && w.channel == [x, x] && w.attempts == map[]
    ensures var k := w.tokens;
            var early, late := [Receive, MarkRunning, Receive, MarkRunning], [Receive, MarkRunning, MarkStopped(k), Receive, MarkRunning];
            && Run(actions + early) && After(actions + early) == dropped && dropped.attempts == map[k := x]
            && Run(actions + late) && After(actions + late) == repeated && repeated.attempts == map[k + 1 := x]
  {
    actions, w := LateSenderSpoils(ids, x);
    hide Run, After, Distinct, Next, Enabled;
    dropped := TakeBoth(actions, w, x);
    repeated := TakeTwice(actions, w, x);
  }

  lemma TakeBoth(before: seq<Action>, w: Wake, x: Id) returns (t: Wake)
    requires Run(before) && After(before) == w && w.loop == Waiting && w.channel == [x, x] && w.attempts == map[] && w.active == {}
    ensures var actions := before + [Receive, MarkRunning, Receive, MarkRunning];
            Run(actions) && After(actions) == t && t.attempts == map[w.tokens := x]
  {
    hide Run, After, Next, Enabled;
    var actions;
    actions, t := Take(before, w, x);
    actions, t := Take(actions, t, x);
    ConcatAssociates(before, [Receive, MarkRunning], [Receive, MarkRunning]);
    assert [Receive, MarkRunning] + [Receive, MarkRunning] == [Receive, MarkRunning, Receive, MarkRunning];
  }

  lemma TakeTwice(before: seq<Action>, w: Wake, x: Id) returns (t: Wake)
    requires Run(before) && After(before) == w && w.loop == Waiting && w.channel == [x, x] && w.attempts == map[] && w.active == {}
    ensures var actions := before + [Receive, MarkRunning, MarkStopped(w.tokens), Receive, MarkRunning];
            Run(actions) && After(actions) == t && t.attempts == map[w.tokens + 1 := x]
  {
    hide Run, After, Next, Enabled;
    var actions;
    actions, t := Take(before, w, x);
    actions, t := Finished(actions, t, w.tokens);
    actions, t := Take(actions, t, x);
    var first, second, third := [Receive, MarkRunning], [MarkStopped(w.tokens)], [Receive, MarkRunning];
    ConcatAssociates(before, first, second);
    ConcatAssociates(before, first + second, third);
    assert first + second + third == [Receive, MarkRunning, MarkStopped(w.tokens), Receive, MarkRunning];
  }

  lemma Take(before: seq<Action>, w: Wake, x: Id) returns (actions: seq<Action>, t: Wake)
    requires Run(before) && After(before) == w && w.loop == Waiting && w.channel != [] && w.channel[0] == x
    ensures actions == before + [Receive, MarkRunning] && Run(actions) && After(actions) == t
    ensures t == Marked(w.(loop := Received(x), channel := w.channel[1..]))
  {
    hide Run, After;
    actions, t := Extend(before, w, Receive);
    actions, t := Extend(actions, t, MarkRunning);
  }

  lemma Finished(before: seq<Action>, w: Wake, k: nat) returns (actions: seq<Action>, t: Wake)
    requires Run(before) && After(before) == w && k in w.attempts
    ensures actions == before + [MarkStopped(k)] && Run(actions) && After(actions) == t
    ensures t == w.(active := w.active - {w.attempts[k]}, attempts := w.attempts - {k})
  {
    hide Run, After;
    actions, t := Extend(before, w, MarkStopped(k));
  }

  lemma LateFailure(before: seq<Action>, w0: Wake, x: Id) returns (actions: seq<Action>, w: Wake)
    requires Run(before) && After(before) == w0
    requires !w0.running && w0.run == 1 && w0.attempts == map[] && w0.senders == map[CAPACITY := Sender(x, 1)]
    requires w0.frozen == map[1 := CAPACITY] && w0.tokens == CAPACITY + 1
    ensures Run(actions) && After(actions) == w && w.channel == [x, x] && w.loop == Waiting && w.attempts == map[] && w.active == {}
  {
    hide Run, After;
    actions, w := Extend(before, w0, Start);
    actions, w := Extend(actions, w, Queue(x));
    actions, w := Extend(actions, w, SendOk(CAPACITY + 1));
    actions, w := Extend(actions, w, SendFails(CAPACITY));
    actions, w := Extend(actions, w, Queue(x));
    actions, w := Extend(actions, w, SendOk(CAPACITY + 2));
  }

  // ---- the critical sections ----

  /** The worker's two sets; each method is one section under its mutex, carried out in state `w`. */
  class Slots {
    var queued: set<Id>
    var active: set<Id>

    ghost predicate Mirrors(w: Wake)
      reads this
    {
      queued == w.queued && active == w.active
    }

    constructor ()
      ensures queued == {} && active == {}
    {
      queued, active := {}, {};
    }

    /** The first section of `queueID`: whether the ID has to be sent. */
    method Queue(ghost w: Wake, id: Id, running: bool) returns (send: bool)
      requires Mirrors(w) && running == w.running
      modifies this`queued
      ensures Mirrors(Queued(w, id)) && (send <==> running && id !in w.queued && id !in w.active)
    {
      if !running || id in queued || id in active {
        return false;
      }
      queued := queued + {id};
      return true;
    }

    /** The second section, when the channel was full. */
    method Unqueue(ghost w: Wake, k: nat, id: Id)
      requires Mirrors(w) && k in w.senders && w.senders[k].id == id
      modifies this`queued
      ensures Mirrors(Unsent(w, k))
    {
      queued := queued - {id};
    }

    method MarkRunning(ghost w: Wake, id: Id) returns (begun: bool)
      requires Mirrors(w) && w.loop == Received(id)
      modifies this
      ensures Mirrors(Marked(w)) && (begun <==> id !in w.active)
    {
      queued := queued - {id};
      if id in active {
        return false;
      }
      active := active + {id};
      return true;
    }

    method MarkStopped(ghost w: Wake, k: nat, id: Id)
      requires Mirrors(w) && k in w.attempts && w.attempts[k] == id
      modifies this`active
      ensures Mirrors(Next(w, Action.MarkStopped(k)))
    {
      active := active - {id};
    }
  }
}
