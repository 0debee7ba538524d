/**
 Histories of resource callbacks: what a sequence of Start, Stop and Update calls leaves running,
 when each call is legal, and which units ought to run.
 */
module LifecycleHistory {
  import opened Collections
  import opened DependencyGraph

  type Id(==, !new)
  type Revision = string

  /** `callbacks` names the Start/Stop/Update closures of one declaration. */
  datatype Unit = Unit(needs: seq<Id>, enabled: bool, revision: Revision,
                       observable: bool, updatable: bool, callbacks: nat)

  /** A desired unit as handed in; `named` says that its ID is not the empty string. */
  datatype Declaration = Declaration(id: Id, named: bool, unit: Unit, hasStart: bool, hasStop: bool)

  datatype Instance = Instance(unit: Unit, revision: Revision, active: bool, pendingStop: bool)

  datatype State = Starting | Stopping | Running | Failed | Blocked | Stopped

  function Requirements(units: map<Id, Unit>): Graph<Id> {
    map id | id in units :: units[id].needs
  }

  // ---- the history of callback invocations ----

  /** `Began` opens the callback part of one Reconcile; `Published` marks a unit reported Running. */
  datatype Event =
    | Began
    | Observed(id: Id, running: bool)
    | StopCalled(id: Id, unit: Unit, ok: bool)
    | StartCalled(id: Id, unit: Unit, ok: bool)
    | UpdateCalled(id: Id, unit: Unit, ok: bool)
    | Published(id: Id, unit: Unit)
    | ContextEnded

  /** What a history leaves behind: the units that may hold resources, and those reported Running since `Began`. */
  datatype World = World(live: map<Id, Unit>, ready: set<Id>)

  function Apply(w: World, e: Event): World {
    match e
    case Began => w.(ready := {})
    case StartCalled(id, unit, _) => w.(live := w.live[id := unit])
    case StopCalled(id, _, true) => World(w.live - {id}, w.ready - {id})
    case Published(id, unit) => World(w.live[id := unit], w.ready + {id})
    case _ => w
  }

  function Replay(history: seq<Event>): World {
    if history == [] then World(map[], {})
    else Apply(Replay(history[..|history| - 1]), history[|history| - 1])
  }

  /** When a callback may be invoked, judged only by the history before it. */
  ghost predicate Legal(w: World, e: Event) {
    match e
    case StopCalled(id, unit, _) =>
      && id in w.live && w.live[id] == unit
      && forall c :: c in w.live ==> id !in w.live[c].needs
    case StartCalled(id, unit, _) =>
      id !in w.live && forall d :: d in unit.needs ==> d in w.live && d in w.ready
    case UpdateCalled(_, unit, _) =>
      forall d :: d in unit.needs ==> d in w.live && d in w.ready
    case Published(id, unit) =>
      && id in w.live && w.live[id].needs == unit.needs && w.live[id].revision == unit.revision
      && forall d :: d in unit.needs ==> d in w.ready
    case _ => true
  }

  ghost predicate Safe(history: seq<Event>) {
    history == [] ||
    (var before := history[..|history| - 1];
     Safe(before) && Legal(Replay(before), history[|history| - 1]))
  }

  ghost predicate ClosedUnderNeeds(live: map<Id, Unit>) {
    forall c, d :: c in live && d in live[c].needs ==> d in live
  }

  /** Legal calls never leave a live unit without a live requirement. */
  lemma {:induction false} SafeHistoryIsClosed(history: seq<Event>)
    requires Safe(history)
    ensures ClosedUnderNeeds(Replay(history).live)
    ensures Replay(history).ready <= Replay(history).live.Keys
  {
    if history != [] {
      SafeHistoryIsClosed(history[..|history| - 1]);
    }
  }

  /** In a safe history every single call was legal when it was made. */
  lemma {:induction false} SafeAtEveryCall(history: seq<Event>, k: nat)
    requires Safe(history) && k < |history|
    ensures Legal(Replay(history[..k]), history[k])
  {
    var before := history[..|history| - 1];
    if k < |before| {
      SafeAtEveryCall(before, k);
      assert before[..k] == history[..k];
    }
  }

  lemma Extended(history: seq<Event>, e: Event)
    ensures Replay(history + [e]) == Apply(Replay(history), e)
    ensures Safe(history + [e]) <==> Safe(history) && Legal(Replay(history), e)
  {
    assert (history + [e])[..|history|] == history;
  }

  predicate Succeeded(e: Event) {
    match e
    case StopCalled(_, _, ok) => ok
    case StartCalled(_, _, ok) => ok
    case UpdateCalled(_, _, ok) => ok
    case ContextEnded => false
    case _ => true
  }

  ghost predicate AllSucceeded(events: seq<Event>) {
    forall e :: e in events ==> Succeeded(e)
  }

  ghost predicate NoLifecycle(events: seq<Event>) {
    forall e :: e in events ==> !e.StopCalled? && !e.StartCalled?
  }

  /** The unsuccessful events, in order: what `errors.Join` accumulates. */
  function FailuresOf(events: seq<Event>): seq<Event> {
    if events == [] then []
    else
      var e := events[|events| - 1];
      FailuresOf(events[..|events| - 1]) + (if Succeeded(e) then [] else [e])
  }

  lemma JoinedStep(history: seq<Event>, began: nat, e: Event)
    requires began <= |history|
    ensures FailuresOf((history + [e])[began..])
            == if Succeeded(e) then FailuresOf(history[began..]) else FailuresOf(history[began..]) + [e]
  {
    assert (history + [e])[began..] == history[began..] + [e];
  }

  /** The joined error is nil exactly when nothing failed. */
  lemma {:induction false} NoFailures(events: seq<Event>)
    ensures FailuresOf(events) == [] <==> AllSucceeded(events)
  {
    if events != [] {
      var before, last := events[..|events| - 1], events[|events| - 1];
      NoFailures(before);
      assert events == before + [last];
    }
  }

  // ---- which units ought to run ----

  /** Enabled, with every transitive requirement enabled. */
  ghost predicate Eligible(units: map<Id, Unit>, id: Id) {
    forall p :: p != [] && p[0] == id && Walk(Requirements(units), p)
                ==> p[|p| - 1] in units && units[p[|p| - 1]].enabled
  }

  lemma EligibleStep(units: map<Id, Unit>, id: Id)
    requires id in units
    ensures Eligible(units, id) <==> units[id].enabled && forall d :: d in units[id].needs ==> Eligible(units, d)
  {
    var g := Requirements(units);
    if Eligible(units, id) {
      assert [id][0] == id && Walk(g, [id]) && [id][|[id]| - 1] == id;
      forall d | d in units[id].needs ensures Eligible(units, d) {
        forall p | p != [] && p[0] == d && Walk(g, p)
          ensures p[|p| - 1] in units && units[p[|p| - 1]].enabled
        {
          var q := [id] + p;
          assert Walk(g, q) by {
            forall i: nat | i + 1 < |q| ensures Linked(g, q, i) {
              if i > 0 { assert Linked(g, p, i - 1); }
            }
          }
          assert q[0] == id && q[|q| - 1] == p[|p| - 1];
        }
      }
    }
    if units[id].enabled && forall d :: d in units[id].needs ==> Eligible(units, d) {
      forall p | p != [] && p[0] == id && Walk(g, p)
        ensures p[|p| - 1] in units && units[p[|p| - 1]].enabled
      {
        if |p| > 1 {
          assert Linked(g, p, 0);
          var q := p[1..];
          assert Walk(g, q) by {
            forall i: nat | i + 1 < |q| ensures Linked(g, q, i) { assert Linked(g, p, i + 1); }
          }
          assert Eligible(units, p[1]) && q[0] == p[1] && q[|q| - 1] == p[|p| - 1];
        }
      }
    }
  }

  /** A set that holds exactly the enabled units whose requirements it holds is the set of eligible units. */
  lemma {:induction false} SettledIsEligible(units: map<Id, Unit>, order: seq<Id>, running: set<Id>, k: nat)
    requires Ordering(Requirements(units), order) && k <= |order|
    requires forall id :: id in units ==>
      (id in running <==> units[id].enabled && forall d :: d in units[id].needs ==> d in running)
    ensures forall i :: 0 <= i < k ==> (order[i] in running <==> Eligible(units, order[i]))
  {
    if k > 0 {
      SettledIsEligible(units, order, running, k - 1);
      var id := order[k - 1];
      assert id in Members(order);
      EligibleStep(units, id);
      forall d | d in units[id].needs ensures d in running <==> Eligible(units, d) {
        assert Edge(Requirements(units), id, d);
      }
    }
  }
}
