/**
 What a whole reconciliation achieves, assembled from its loops: convergence, rest once converged,
 containment of failures, and survival of the reconciler's invariant.
 */
module ReconcileOutcome {
  import opened Collections
  import opened DependencyGraph
  import opened LifecycleHistory
  import opened ReconcileLoops

  // ---- what a whole Reconcile achieves ----

  datatype Refusal = Ended | Incomplete | Duplicate(id: Id) | BadGraph(reason: VisitResult<Id>)
  datatype Verdict = Refused(why: Refusal) | Reconciled(failures: seq<Event>)

  ghost predicate WellDeclared(desired: seq<Declaration>) {
    && (forall i :: 0 <= i < |desired| ==> desired[i].named && desired[i].hasStart && desired[i].hasStop)
    && (forall i, j :: 0 <= i < j < |desired| ==> desired[i].id != desired[j].id)
  }

  function UnitsOf(desired: seq<Declaration>): map<Id, Unit> {
    if desired == [] then map[]
    else UnitsOf(desired[..|desired| - 1])[desired[|desired| - 1].id := desired[|desired| - 1].unit]
  }

  lemma DeclaredNext(desired: seq<Declaration>, i: nat)
    requires i < |desired|
    ensures UnitsOf(desired[..i + 1]) == UnitsOf(desired[..i])[desired[i].id := desired[i].unit]
    ensures WellDeclared(desired[..i + 1])
            <==> && WellDeclared(desired[..i]) && desired[i].named && desired[i].hasStart && desired[i].hasStop
                 && forall j :: 0 <= j < i ==> desired[j].id != desired[i].id
  {
    assert desired[..i + 1][..i] == desired[..i];
    assert forall j :: 0 <= j < i ==> desired[..i][j] == desired[j];
  }

  /** A well-formed list declares each of its units under its own ID, and nothing else. */
  lemma {:induction false} UnitsOfMeans(desired: seq<Declaration>)
    requires WellDeclared(desired)
    ensures forall id :: id in UnitsOf(desired) <==> exists i :: 0 <= i < |desired| && desired[i].id == id
    ensures forall i :: 0 <= i < |desired| ==> desired[i].id in UnitsOf(desired) && UnitsOf(desired)[desired[i].id] == desired[i].unit
  {
    if desired != [] {
      var n := |desired| - 1;
      var init := desired[..n];
      UnitsOfMeans(init);
      assert forall i :: 0 <= i < n ==> init[i] == desired[i];
      forall id | id in UnitsOf(desired) ensures exists i :: 0 <= i < |desired| && desired[i].id == id {
        if id == desired[n].id {
          assert desired[n].id == id;
        } else {
          assert id in UnitsOf(init);
          var i :| 0 <= i < n && init[i].id == id;
        }
      }
    }
  }

  /** Removed units stay in the graph, disabled, until they have exited (lines 115-122). */
  function Merged(units: map<Id, Unit>, instances: map<Id, Instance>): map<Id, Unit> {
    map id | id in units.Keys + instances.Keys :: if id in units then units[id] else instances[id].unit.(enabled := false)
  }

  /** Exactly the eligible units are live, each under its desired declaration and revision, none pending a stop. */
  ghost predicate Settled(units: map<Id, Unit>, instances: map<Id, Instance>) {
    && units.Keys == instances.Keys
    && forall id :: id in units ==>
         && (Live(instances, id) <==> Eligible(units, id))
         && (Live(instances, id) ==> instances[id] == Instance(units[id], units[id].revision, true, false))
  }

  /** Exactly the eligible units are live, with the desired requirements and revision, whatever their callbacks are. */
  ghost predicate Resting(units: map<Id, Unit>, instances: map<Id, Instance>) {
    && units.Keys == instances.Keys
    && forall id :: id in units ==>
         && (Live(instances, id) <==> Eligible(units, id))
         && (Live(instances, id) ==>
               && instances[id].unit.needs == units[id].needs && instances[id].revision == units[id].revision
               && !instances[id].pendingStop)
  }

  /** No probe reported an exit. */
  ghost predicate NoExits(events: seq<Event>) {
    forall id :: Observed(id, false) !in events
  }

  lemma MergedGraphKnown(units: map<Id, Unit>, instances: map<Id, Instance>)
    requires Known(Requirements(units)) && NeedsDeclared(instances)
    ensures Known(Requirements(Merged(units, instances)))
  {
    var m := Merged(units, instances);
    forall a, b | Edge(Requirements(m), a, b) ensures b in m {
      if a in units {
        assert Edge(Requirements(units), a, b);
      }
    }
  }

  /** The mix of recorded and desired requirements used for stopping is never cyclic: the return at line 136 cannot be reached. */
  lemma StopGraphIsFine(s: Snapshot, units: map<Id, Unit>)
    requires Consistent(s) && Acyclic(Requirements(LiveOf(s.instances)))
    requires s.instances.Keys <= units.Keys && Known(Requirements(units)) && Acyclic(Requirements(units))
    ensures Known(Requirements(StopUnits(units, s.instances))) && Acyclic(Requirements(StopUnits(units, s.instances)))
  {
    var g := Requirements(StopUnits(units, s.instances));
    var live := LiveOf(s.instances);
    SafeHistoryIsClosed(s.history);
    forall a, b | a in live && Edge(g, a, b) ensures b in live && Edge(Requirements(live), a, b) {
    }
    forall a, b | a !in live && Edge(g, a, b) ensures Edge(Requirements(units), a, b) {
    }
    SplitAcyclic(g, live.Keys, Requirements(live), Requirements(units));
    forall a, b | Edge(g, a, b) ensures b in g {
      if a !in live {
        assert Edge(Requirements(units), a, b);
      }
    }
  }

  /** The restart set is closed over the recorded requirements because it is closed over the desired ones. */
  lemma RestartCoversRecorded(units: map<Id, Unit>, stopUnits: map<Id, Unit>, instances: map<Id, Instance>, restart: set<Id>)
    requires forall id :: id in units ==> RestartRule(units, instances, restart, id)
    requires stopUnits == StopUnits(units, instances) && units.Keys == instances.Keys
    ensures UpwardClosed(stopUnits, restart) && UpwardClosed(units, restart)
  {
    forall id, d | id in units && d in units[id].needs && d in restart ensures id in restart {
      assert RestartRule(units, instances, restart, id);
      assert NeedsAny(units[id], restart);
    }
    forall id, d | id in stopUnits && d in stopUnits[id].needs && d in restart ensures id in restart {
      assert RestartRule(units, instances, restart, id);
    }
  }

  lemma PoisedAfterStopping(s: Snapshot, t: Snapshot, units: map<Id, Unit>, restart: set<Id>, stopFailed: set<Id>, events: seq<Event>)
    requires units.Keys == s.instances.Keys == s.published.Keys && UpwardClosed(units, restart)
    requires forall id :: id in units ==> RestartRule(units, s.instances, restart, id)
    requires StopLoop(s, t, restart, stopFailed, units.Keys, events)
    ensures Poised(t, units, stopFailed)
  {
    forall id | Live(t.instances, id) && id !in stopFailed
      ensures !MustRestart(units[id], t.instances[id]) && forall d :: d in units[id].needs ==> d !in stopFailed
    {
      assert StopRule(s.instances[id], t.instances[id], id in restart, id in stopFailed);
      assert RestartRule(units, s.instances, restart, id);
    }
  }

  /** When nothing fails, a live unit that needs no restart ends up published Running again. */
  lemma {:induction false} KeptAreReady(s: Snapshot, t: Snapshot, units: map<Id, Unit>, order: seq<Id>, events: seq<Event>, k: nat)
    requires Poised(s, units, {}) && StartLoop(s, t, units, {}, units.Keys, events) && AllSucceeded(events)
    requires Ordering(Requirements(units), order) && k <= |order|
    ensures forall id :: id in Passed(order, k) && Live(s.instances, id) ==> id in Ready(t)
  {
    hide Poised, StartLoop, AllSucceeded, Ordering, Requirements;
    if k > 0 {
      KeptAreReady(s, t, units, order, events, k - 1);
      var id := order[k - 1];
      PassedStep(units, order, k - 1);
      hide Passed;
      if Live(s.instances, id) {
        LiveNeeds(s, units, id);
        KeptIsReady(s, t, units, events, id);
      }
    }
  }

  lemma LiveNeeds(s: Snapshot, units: map<Id, Unit>, id: Id)
    requires Poised(s, units, {}) && Live(s.instances, id)
    ensures id in units && forall d :: d in units[id].needs ==> Live(s.instances, d)
  {
    LiveUnit(s, id);
    forall d | d in units[id].needs ensures Live(s.instances, d) {
      LiveUnit(s, d);
    }
  }

  lemma KeptIsReady(s: Snapshot, t: Snapshot, units: map<Id, Unit>, events: seq<Event>, id: Id)
    requires Poised(s, units, {}) && StartLoop(s, t, units, {}, units.Keys, events) && AllSucceeded(events)
    requires id in units && Live(s.instances, id) && forall d :: d in units[id].needs ==> d in Ready(t)
    ensures id in Ready(t)
  {
    assert id in units.Keys - {};
    NotTroubled(events, id, units[id]);
    assert Settling(units[id], s.instances[id], t.instances[id], Ready(t), id, t.published[id], events);
    hide StartLoop, Consistent;
  }

  lemma NotTroubled(events: seq<Event>, id: Id, unit: Unit)
    requires AllSucceeded(events)
    ensures !Troubled(events, id, unit)
  {
    assert forall e :: e in events ==> Succeeded(e);
  }

  /** Convergence: without failures exactly the eligible units end up live, at their desired revisions. */
  lemma Converges(s: Snapshot, t: Snapshot, units: map<Id, Unit>, order: seq<Id>, events: seq<Event>)
    requires Poised(s, units, {}) && StartLoop(s, t, units, {}, units.Keys, events) && AllSucceeded(events)
    requires Ordering(Requirements(units), order)
    ensures Settled(units, t.instances)
  {
    KeptAreReady(s, t, units, order, events, |order|);
    PassedAll(units, order);
    var ready := Ready(t);
    forall id | id in units
      ensures id in ready <==> units[id].enabled && forall d :: d in units[id].needs ==> d in ready
      ensures Live(t.instances, id) <==> id in ready
      ensures Live(t.instances, id) ==> t.instances[id] == Instance(units[id], units[id].revision, true, false)
    {
      assert id in Members(order) && id in units.Keys - {};
      NotTroubled(events, id, units[id]);
      assert Settling(units[id], s.instances[id], t.instances[id], ready, id, t.published[id], events);
      assert AllReady(units[id].needs, ready) <==> forall d :: d in units[id].needs ==> d in ready;
    }
    SettledIsEligible(units, order, ready, |order|);
    forall id | id in units ensures id in ready <==> Eligible(units, id) {
      assert id in Members(order);
    }
  }

  /** Nothing needs stopping or starting when everything rests and no owner has exited. */
  lemma SettledStays(s: Snapshot, t: Snapshot, units: map<Id, Unit>, order: seq<Id>, restart: set<Id>, events: seq<Event>)
    requires Resting(units, s.instances) && ObservedAll(s, t, units, restart, events) && NoExits(events)
    requires Ordering(Requirements(units), order)
    ensures NothingToStop(t.instances, restart) && Quiet(units, t.instances)
  {
    SettledNotRestarted(s, t, units, order, restart, events, |order|);
    PassedAll(units, order);
    forall id | Live(t.instances, id) ensures id !in restart {
      assert id in Members(order);
    }
    forall id | id in units && units[id].enabled && (forall d :: d in units[id].needs ==> Live(t.instances, d))
      ensures Live(t.instances, id)
    {
      EligibleStep(units, id);
    }
  }

  lemma {:induction false} SettledNotRestarted(s: Snapshot, t: Snapshot, units: map<Id, Unit>, order: seq<Id>, restart: set<Id>,
                                               events: seq<Event>, k: nat)
    requires Resting(units, s.instances) && ObservedAll(s, t, units, restart, events) && NoExits(events)
    requires Ordering(Requirements(units), order) && k <= |order|
    ensures forall id :: id in Passed(order, k) && Live(t.instances, id) ==> id !in restart
  {
    hide Ordering, Requirements, ObservedAll, Resting, NoExits;
    if k > 0 {
      SettledNotRestarted(s, t, units, order, restart, events, k - 1);
      PassedStep(units, order, k - 1);
      hide Passed;
      if Live(t.instances, order[k - 1]) {
        SettledUnit(s, t, units, restart, events, order[k - 1]);
      }
    }
  }

  /** A resting live unit gives no reason of its own to restart, and its requirements are live too. */
  lemma SettledUnit(s: Snapshot, t: Snapshot, units: map<Id, Unit>, restart: set<Id>, events: seq<Event>, id: Id)
    requires Resting(units, s.instances) && ObservedAll(s, t, units, restart, events) && NoExits(events)
    requires Live(t.instances, id) && id in units && forall d :: d in units[id].needs ==> d in units
    ensures forall d :: d in units[id].needs ==> Live(t.instances, d)
    ensures (forall d :: d in units[id].needs ==> d !in restart) ==> id !in restart
  {
    EligibleStep(units, id);
    hide Eligible, Consistent, Replay, OnlyObserved;
    assert Live(s.instances, id);
    assert RestartRule(units, t.instances, restart, id);
  }

  /** The live units stay acyclic: those kept back keep their recorded edges, all others follow the desired graph. */
  lemma LiveStaysAcyclic(s0: Snapshot, s: Snapshot, t: Snapshot, units: map<Id, Unit>, stopFailed: set<Id>, events: seq<Event>)
    requires Poised(s, units, stopFailed) && StartLoop(s, t, units, stopFailed, units.Keys, events)
    requires forall id :: id in stopFailed ==> Live(s0.instances, id) && s.instances[id].unit == s0.instances[id].unit
    requires Acyclic(Requirements(units)) && Acyclic(Requirements(LiveOf(s0.instances)))
    ensures Acyclic(Requirements(LiveOf(t.instances)))
  {
    hide Confirmed, TroubleShown, Uncalled, Troubled, CallsFit, Pending, KeptBack, Quiet, NoLifecycle;
    var live := LiveOf(t.instances);
    var inside := live.Keys - stopFailed;
    forall a, b | a in inside && Edge(Requirements(live), a, b)
      ensures b in inside && Edge(Requirements(units), a, b)
    {
      assert a in units.Keys - stopFailed;
      LiveUnit(t, a);
      LiveUnit(s, a);
      LiveUnit(t, b);
      LiveUnit(s, b);
      assert Settling(units[a], s.instances[a], t.instances[a], Ready(t), a, t.published[a], events);
    }
    forall a, b | a !in inside && Edge(Requirements(live), a, b) ensures Edge(Requirements(LiveOf(s0.instances)), a, b) {
    }
    SplitAcyclic(Requirements(live), inside, Requirements(units), Requirements(LiveOf(s0.instances)));
  }

  // ---- why a unit is stopped ----

  /** What alone makes a reconciliation interrupt a running unit and its users; other callbacks do not. */
  ghost predicate Cause(units: map<Id, Unit>, before: map<Id, Instance>, events: seq<Event>, id: Id) {
    id in units &&
    (|| !units[id].enabled
     || (id in before && before[id].pendingStop)
     || (Live(before, id) && Observed(id, false) in events)
     || (Live(before, id) && (before[id].revision != units[id].revision || before[id].unit.needs != units[id].needs)))
  }

  /** The unit has such a cause, or requires, directly or not, one that has. */
  ghost predicate Caused(units: map<Id, Unit>, before: map<Id, Instance>, events: seq<Event>, id: Id) {
    exists p :: p != [] && p[0] == id && Walk(Requirements(units), p) && Cause(units, before, events, p[|p| - 1])
  }

  lemma CausedAlong(units: map<Id, Unit>, before: map<Id, Instance>, events: seq<Event>, id: Id, d: Id)
    requires id in units && d in units[id].needs && Caused(units, before, events, d)
    ensures Caused(units, before, events, id)
  {
    var g := Requirements(units);
    var p :| p != [] && p[0] == d && Walk(g, p) && Cause(units, before, events, p[|p| - 1]);
    var q := [id] + p;
    forall i: nat | i + 1 < |q| ensures Linked(g, q, i) {
      if i > 0 {
        assert Linked(g, p, i - 1);
      }
    }
    assert q[0] == id && q[|q| - 1] == p[|p| - 1];
  }

  lemma CausedAtOnce(units: map<Id, Unit>, before: map<Id, Instance>, events: seq<Event>, id: Id)
    requires Cause(units, before, events, id)
    ensures Caused(units, before, events, id)
  {
    var p := [id];
    assert p != [] && p[0] == id && Walk(Requirements(units), p) && p[|p| - 1] == id;
  }

  /** Every unit marked for restart has a cause, or requires one that has. */
  lemma {:induction false} RestartIsCaused(s: Snapshot, t: Snapshot, units: map<Id, Unit>, order: seq<Id>, restart: set<Id>,
                                           events: seq<Event>, k: nat)
    requires ObservedAll(s, t, units, restart, events) && Ordering(Requirements(units), order) && k <= |order|
    ensures forall id :: id in Passed(order, k) && id in restart ==> Caused(units, s.instances, events, id)
  {
    hide Ordering, Requirements, ObservedAll, Caused;
    if k > 0 {
      RestartIsCaused(s, t, units, order, restart, events, k - 1);
      PassedStep(units, order, k - 1);
      hide Passed;
      var id := order[k - 1];
      if id in restart {
        RestartHasReason(s, t, units, restart, events, id);
        if d :| d in units[id].needs && d in restart {
          CausedAlong(units, s.instances, events, id, d);
        } else {
          CausedAtOnce(units, s.instances, events, id);
        }
      }
    }
  }

  lemma RestartHasReason(s: Snapshot, t: Snapshot, units: map<Id, Unit>, restart: set<Id>, events: seq<Event>, id: Id)
    requires ObservedAll(s, t, units, restart, events) && id in units && id in restart
    ensures Cause(units, s.instances, events, id) || exists d :: d in units[id].needs && d in restart
  {
    hide Consistent, Replay, OnlyObserved;
    assert RestartRule(units, t.instances, restart, id);
  }

  /** Whatever has a cause is marked for restart. */
  lemma CausedIsMarked(s: Snapshot, t: Snapshot, units: map<Id, Unit>, restart: set<Id>, events: seq<Event>, id: Id)
    requires ObservedAll(s, t, units, restart, events) && UpwardClosed(units, restart)
    requires Caused(units, s.instances, events, id)
    ensures id in restart
  {
    var p :| p != [] && p[0] == id && Walk(Requirements(units), p) && Cause(units, s.instances, events, p[|p| - 1]);
    CauseIsMarked(s, t, units, restart, events, p[|p| - 1]);
    hide ObservedAll, Cause, Caused;
    MarkedAlong(units, restart, p);
  }

  lemma CauseIsMarked(s: Snapshot, t: Snapshot, units: map<Id, Unit>, restart: set<Id>, events: seq<Event>, id: Id)
    requires ObservedAll(s, t, units, restart, events) && Cause(units, s.instances, events, id)
    ensures id in restart
  {
    hide Consistent, Replay, OnlyObserved, ProbesFit;
    assert RestartRule(units, t.instances, restart, id);
  }

  lemma {:induction false} MarkedAlong(units: map<Id, Unit>, restart: set<Id>, p: seq<Id>)
    requires UpwardClosed(units, restart) && p != [] && Walk(Requirements(units), p) && p[|p| - 1] in restart
    ensures p[0] in restart
  {
    if |p| > 1 {
      var q := p[1..];
      forall i: nat | i + 1 < |q| ensures Linked(Requirements(units), q, i) {
        assert Linked(Requirements(units), p, i + 1);
      }
      MarkedAlong(units, restart, q);
      assert Linked(Requirements(units), p, 0);
    }
  }

  /** A unit stops being live only by a successful Stop. */
  lemma {:induction false} OwnerLeaves(history: seq<Event>, events: seq<Event>, id: Id)
    requires id in Replay(history).live && id !in Replay(history + events).live
    ensures HasStopped(events, id)
  {
    assert history + [] == history;
    if events != [] {
      var n := |events| - 1;
      assert (history + events)[..|history + events| - 1] == history + events[..n];
      if id !in Replay(history + events[..n]).live {
        OwnerLeaves(history, events[..n], id);
        var i: nat :| StopAt(events[..n], id, i);
        assert StopAt(events, id, i);
      } else {
        assert StopAt(events, id, n);
      }
    }
  }

  predicate StopAt(events: seq<Event>, id: Id, i: nat) {
    i < |events| && events[i].StopCalled? && events[i].ok && events[i].id == id
  }

  ghost predicate HasStopped(events: seq<Event>, id: Id) {
    exists i: nat :: StopAt(events, id, i)
  }

  /** A marked live unit is stopped, or kept because its own Stop or that of a consumer failed. */
  lemma MarkedIsStopped(s2: Snapshot, s: Snapshot, t: Snapshot, units: map<Id, Unit>, stopFailed: set<Id>, restart: set<Id>,
                        ev1: seq<Event>, ev2: seq<Event>, ev3: seq<Event>, id: Id)
    requires Consistent(s2) && StopLoop(s2, s, restart, stopFailed, units.Keys, ev2) && id in units && OnlyObserved(ev1)
    requires StartLoop(s, t, units, stopFailed, units.Keys, ev3)
    requires Live(s2.instances, id) && id in restart
    ensures var events := [Began] + ev1 + ev2 + ev3; HasStopped(events, id) || KeptLive(t, events, id)
  {
    hide StopLoop, StartLoop, OnlyObserved, Consistent, HasStopped, KeptLive;
    if id in stopFailed {
      KeptIsLive(s2, s, t, units, stopFailed, restart, ev1, ev2, ev3, id);
    } else {
      GoneIsStopped(s2, s, restart, stopFailed, units.Keys, ev2, id);
      StopStays([Began] + ev1, ev2, ev3, id);
    }
  }

  lemma KeptIsLive(s2: Snapshot, s: Snapshot, t: Snapshot, units: map<Id, Unit>, stopFailed: set<Id>, restart: set<Id>,
                   ev1: seq<Event>, ev2: seq<Event>, ev3: seq<Event>, id: Id)
    requires StopLoop(s2, s, restart, stopFailed, units.Keys, ev2) && id in units && id in stopFailed && OnlyObserved(ev1)
    requires StartLoop(s, t, units, stopFailed, units.Keys, ev3)
    ensures KeptLive(t, [Began] + ev1 + ev2 + ev3, id)
  {
    hide StopLoop, StartLoop, StopFails, OnlyObserved;
    var e := KeptState(s2, s, t, units, stopFailed, restart, ev2, ev3, id);
    FailsSomewhere(ev1, ev2, ev3, id);
    InTheMiddle([Began] + ev1, ev2, ev3, e);
  }

  lemma StopStays(a: seq<Event>, b: seq<Event>, c: seq<Event>, id: Id)
    requires HasStopped(b, id)
    ensures HasStopped(a + b + c, id)
  {
    var i: nat :| StopAt(b, id, i);
    assert (a + b + c)[|a| + i] == b[i];
    assert StopAt(a + b + c, id, |a| + i);
  }

  lemma GoneIsStopped(s: Snapshot, t: Snapshot, restart: set<Id>, stopFailed: set<Id>, passed: set<Id>, events: seq<Event>, id: Id)
    requires Consistent(s) && StopLoop(s, t, restart, stopFailed, passed, events)
    requires Live(s.instances, id) && id in passed && id in restart && id !in stopFailed
    ensures HasStopped(events, id)
  {
    assert StopRule(s.instances[id], t.instances[id], true, false);
    LiveUnit(s, id);
    LiveUnit(t, id);
    hide Consistent, StopRule, StopEvents, KeptBack, Pending, NothingToStop, HasStopped, Replay;
    OwnerLeaves(s.history, events, id);
  }

  // ---- the report ----

  /** The outcome of one Reconcile for the merged declarations `units`. */
  ghost predicate Report(s: Snapshot, t: Snapshot, units: map<Id, Unit>, events: seq<Event>) {
    && Consistent(t) && t.history == s.history + events
    && t.instances.Keys == t.published.Keys == units.Keys
    // an owner whose stop failed is kept, and stays pending
    && Pending(events, t.instances)
    // convergence, and rest once converged
    && (AllSucceeded(events) ==> Settled(units, t.instances) && forall id :: id in units && !units[id].enabled ==> t.instances[id].unit == units[id])
    && (Resting(units, s.instances) && NoExits(events) ==> NoLifecycle(events))
    // nothing is interrupted without a cause
    && (forall e :: e in events && e.StopCalled? ==> StartCalled(e.id, e.unit, false) in events || Caused(units, s.instances, events, e.id))
    // exactly the units to be observed are, and a cause always takes effect
    && ProbesFit(units, s.instances, units.Keys, events)
    && (forall id :: Live(s.instances, id) && Caused(units, s.instances, events, id) ==> HasStopped(events, id) || KeptLive(t, events, id))
    // failures stay local, and states are shown as they are
    && (forall id :: id in units ==> Placed(units, t, events, id) && Shown(units, t, events, id))
  }

  /** An enabled unit with running requirements runs too, unless its own callback failed or a consumer would not stop. */
  ghost predicate Placed(units: map<Id, Unit>, t: Snapshot, events: seq<Event>, id: Id)
    requires id in units && id in t.instances && id in t.published
  {
    && (t.published[id] == Running ==> units[id].enabled && t.instances[id] == Instance(units[id], units[id].revision, true, false))
    && (units[id].enabled && (forall d :: d in units[id].needs ==> ShownRunning(t.published, d)) && t.published[id] != Running ==>
          || Troubled(events, id, units[id])
          || (Live(t.instances, id) && t.published[id] in {Blocked, Stopping} && exists e :: e in events && e.StopCalled? && !e.ok))
  }

  /** Still live, because its own Stop or that of a consumer failed, and shown so. */
  ghost predicate KeptLive(t: Snapshot, events: seq<Event>, id: Id) {
    && Live(t.instances, id) && id in t.published
    && t.published[id] == (if StopFails(events, id) then Stopping else Blocked)
    && exists e :: e in events && e.StopCalled? && !e.ok
  }

  /** The state shown for a unit, and the calls made for it. */
  ghost predicate Shown(units: map<Id, Unit>, t: Snapshot, events: seq<Event>, id: Id)
    requires id in units && id in t.published
  {
    var unit, state := units[id], t.published[id];
    && (state == Running ==> Confirmed(unit, id, events))
    && (!unit.enabled ==> state == Stopped || KeptLive(t, events, id))
    && (!unit.enabled || (exists d :: d in unit.needs && !ShownRunning(t.published, d)) ==>
          forall e :: e in events && (e.StartCalled? || e.UpdateCalled? || e.Published?) ==> e.id != id)
    && (unit.enabled && (exists d :: d in unit.needs && !ShownRunning(t.published, d)) ==> state == Blocked || KeptLive(t, events, id))
    && (UpdateCalled(id, unit, false) in events ==> state == Failed)
    && (StartCalled(id, unit, false) in events ==> state == if Live(t.instances, id) then Stopping else Failed)
    && (forall e :: e in events && (e.StartCalled? || e.UpdateCalled? || e.Published?) && e.id == id ==> e.unit == unit)
  }

  lemma PlacedAll(s: Snapshot, t: Snapshot, units: map<Id, Unit>, stopFailed: set<Id>, order: seq<Id>, restart: set<Id>,
                  s2: Snapshot, ev2: seq<Event>, ev3: seq<Event>, events: seq<Event>, id: Id)
    requires StopLoop(s2, s, restart, stopFailed, units.Keys, ev2) && id in units
    requires Poised(s, units, stopFailed) && StartLoop(s, t, units, stopFailed, units.Keys, ev3)
    requires Ordering(Requirements(units), order)
    requires forall e :: e in ev2 || e in ev3 ==> e in events
    ensures Placed(units, t, events, id)
  {
    ShownIsReady(s, t, units, stopFailed, ev3);
    hide Consistent, StopLoop, StartLoop, Poised, Ready, Ordering, Requirements;
    forall d | d in units[id].needs ensures ShownRunning(t.published, d) <==> d in Ready(t) {
      Listed2(units, order, id, d);
    }
    hide Placed;
    if id in stopFailed {
      PlacedKept(s, t, units, stopFailed, restart, s2, ev2, ev3, events, id);
    } else {
      PlacedStarted(s, t, units, stopFailed, ev3, events, id);
    }
  }

  lemma ShownIsReady(s: Snapshot, t: Snapshot, units: map<Id, Unit>, stopFailed: set<Id>, events: seq<Event>)
    requires StartLoop(s, t, units, stopFailed, units.Keys, events)
    ensures s.instances.Keys == units.Keys
    ensures forall id :: id in units ==> (ShownRunning(t.published, id) <==> id in Ready(t))
  {
    hide Consistent, Pending, StartPlaces, Quiet, NoLifecycle, SameLive, ShownRunning;
  }

  lemma PlacedStarted(s: Snapshot, t: Snapshot, units: map<Id, Unit>, stopFailed: set<Id>, ev3: seq<Event>, events: seq<Event>, id: Id)
    requires StartLoop(s, t, units, stopFailed, units.Keys, ev3) && id in units && id !in stopFailed && id in s.instances
    requires forall d :: d in units[id].needs ==> (ShownRunning(t.published, d) <==> d in Ready(t))
    requires forall e :: e in ev3 ==> e in events
    ensures id in t.instances && id in t.published && Placed(units, t, events, id)
  {
    assert id in units.Keys - stopFailed && StartFrame(s, t, units, stopFailed, units.Keys);
    assert Settling(units[id], s.instances[id], t.instances[id], Ready(t), id, t.published[id], ev3);
    assert ShownRunning(t.published, id) <==> id in Ready(t);
    hide Consistent, Pending, StartLoop, Quiet, NoLifecycle, SameLive, StartFrame, StartPlaces, Ready;
    assert Troubled(ev3, id, units[id]) ==> Troubled(events, id, units[id]);
  }

  lemma Listed2(units: map<Id, Unit>, order: seq<Id>, id: Id, d: Id)
    requires Ordering(Requirements(units), order) && id in units && d in units[id].needs
    ensures d in units
  {
    OrderingRefutesCycles(Requirements(units), order);
    assert Edge(Requirements(units), id, d);
  }

  /** Assembles the report from what the three loops establish. */
  lemma Reported(s0: Snapshot, s1: Snapshot, s2: Snapshot, s3: Snapshot, s4: Snapshot, units: map<Id, Unit>, order: seq<Id>,
                 restart: set<Id>, stopFailed: set<Id>, ev1: seq<Event>, ev2: seq<Event>, ev3: seq<Event>) returns (events: seq<Event>)
    requires s1 == Said(s0, Began) && Consistent(s1)
    requires ObservedAll(s1, s2, units, restart, ev1) && UpwardClosed(units, restart)
    requires StopLoop(s2, s3, restart, stopFailed, units.Keys, ev2)
    requires StartLoop(s3, s4, units, stopFailed, units.Keys, ev3) && Poised(s3, units, stopFailed)
    requires Ordering(Requirements(units), order)
    ensures events == [Began] + ev1 + ev2 + ev3
    ensures Report(s0, s4, units, events)
  {
    hide Consistent, StopLoop, StartLoop, ObservedAll, Settled, NoLifecycle, Pending, Ordering, Requirements, Poised, UpwardClosed,
      Placed, Shown, Caused, Resting, NoExits, AllSucceeded, OnlyObserved, ProbesFit, HasStopped, KeptLive;
    events := [Began] + ev1 + ev2 + ev3;
    ReportedHistory(s0, s1, s2, s3, s4, units, restart, stopFailed, ev1, ev2, ev3);
    ReportedPending(s3, s4, units, restart, stopFailed, s2, ev1, ev2, ev3);
    forall id | id in units ensures Placed(units, s4, events, id) && Shown(units, s4, events, id) {
      PlacedAll(s3, s4, units, stopFailed, order, restart, s2, ev2, ev3, events, id);
      ShownAll(s2, s3, s4, units, stopFailed, order, restart, ev1, ev2, ev3, id);
    }
    forall e | e in events && e.StopCalled?
      ensures StartCalled(e.id, e.unit, false) in events || Caused(units, s0.instances, events, e.id)
    {
      StopsAreCaused(s1, s2, s3, s4, units, order, restart, stopFailed, ev1, ev2, ev3, e);
    }
    ProbesThroughout(s1, s2, s3, s4, units, restart, stopFailed, ev1, ev2, ev3);
    forall id | Live(s0.instances, id) && Caused(units, s0.instances, events, id) ensures HasStopped(events, id) || KeptLive(s4, events, id) {
      CausesTakeEffect(s1, s2, s3, s4, units, restart, stopFailed, ev1, ev2, ev3, id);
    }
    if AllSucceeded(events) {
      Subsequences(ev1, ev2, ev3);
      ReportedSettled(s2, s3, s4, units, order, restart, stopFailed, ev2, ev3);
    }
    if Resting(units, s0.instances) && NoExits(events) {
      Subsequences(ev1, ev2, ev3);
      ReportedQuiet(s1, s2, s3, s4, units, order, restart, stopFailed, ev1, ev2, ev3);
    }
  }

  lemma StopsAreCaused(s1: Snapshot, s2: Snapshot, s3: Snapshot, s4: Snapshot, units: map<Id, Unit>, order: seq<Id>,
                       restart: set<Id>, stopFailed: set<Id>, ev1: seq<Event>, ev2: seq<Event>, ev3: seq<Event>, e: Event)
    requires ObservedAll(s1, s2, units, restart, ev1) && StopLoop(s2, s3, restart, stopFailed, units.Keys, ev2)
    requires StartLoop(s3, s4, units, stopFailed, units.Keys, ev3) && Ordering(Requirements(units), order)
    requires e in [Began] + ev1 + ev2 + ev3 && e.StopCalled?
    ensures var events := [Began] + ev1 + ev2 + ev3;
            StartCalled(e.id, e.unit, false) in events || Caused(units, s1.instances, events, e.id)
  {
    WhichStop(s1, s2, s3, s4, units, restart, stopFailed, ev1, ev2, ev3, e);
    if e in ev2 {
      RestartIsCaused(s1, s2, units, order, restart, ev1, |order|);
      PassedAll(units, order);
      CausesStay(units, s1.instances, ev1, ev2, ev3, e.id);
    } else {
      assert StartCalled(e.id, e.unit, false) in ev3;
    }
  }

  /** Observations are made by the first loop only. */
  lemma OnlyFirstObserves(s2: Snapshot, s3: Snapshot, s4: Snapshot, units: map<Id, Unit>, restart: set<Id>, stopFailed: set<Id>,
                          ev1: seq<Event>, ev2: seq<Event>, ev3: seq<Event>, e: Event)
    requires StopLoop(s2, s3, restart, stopFailed, units.Keys, ev2)
    requires StartLoop(s3, s4, units, stopFailed, units.Keys, ev3)
    requires e.Observed?
    ensures e in [Began] + ev1 + ev2 + ev3 <==> e in ev1
  {
    hide Consistent, StopOutcome, KeptBack, Pending, StartFrame, StartPlaces, Quiet, NothingToStop, SameLive;
    assert e in [Began] + ev1 + ev2 + ev3 <==> e == Began || e in ev1 || e in ev2 || e in ev3;
  }

  lemma ProbesThroughout(s1: Snapshot, s2: Snapshot, s3: Snapshot, s4: Snapshot, units: map<Id, Unit>,
                         restart: set<Id>, stopFailed: set<Id>, ev1: seq<Event>, ev2: seq<Event>, ev3: seq<Event>)
    requires ObservedAll(s1, s2, units, restart, ev1) && StopLoop(s2, s3, restart, stopFailed, units.Keys, ev2)
    requires StartLoop(s3, s4, units, stopFailed, units.Keys, ev3)
    ensures ProbesFit(units, s1.instances, units.Keys, [Began] + ev1 + ev2 + ev3)
  {
    var events := [Began] + ev1 + ev2 + ev3;
    assert ProbesFit(units, s1.instances, units.Keys, ev1) by {
      hide StopLoop, StartLoop, Consistent, Observation, OnlyObserved, ProbesFit, RestartRule;
    }
    hide ObservedAll, StopLoop, StartLoop, ProbesFit;
    forall e: Event | e.Observed? ensures e in events <==> e in ev1 {
      OnlyFirstObserves(s2, s3, s4, units, restart, stopFailed, ev1, ev2, ev3, e);
    }
    SameProbes(units, s1.instances, ev1, events);
  }

  lemma SameProbes(units: map<Id, Unit>, before: map<Id, Instance>, some: seq<Event>, all: seq<Event>)
    requires ProbesFit(units, before, units.Keys, some)
    requires forall e: Event :: e.Observed? ==> (e in all <==> e in some)
    ensures ProbesFit(units, before, units.Keys, all)
  {
    hide Probed;
    forall id | id in units ensures IsProbed(all, id) <==> IsProbed(some, id) {
    }
  }

  lemma CausesTakeEffect(s1: Snapshot, s2: Snapshot, s3: Snapshot, s4: Snapshot, units: map<Id, Unit>,
                         restart: set<Id>, stopFailed: set<Id>, ev1: seq<Event>, ev2: seq<Event>, ev3: seq<Event>, id: Id)
    requires ObservedAll(s1, s2, units, restart, ev1) && UpwardClosed(units, restart)
    requires StopLoop(s2, s3, restart, stopFailed, units.Keys, ev2) && StartLoop(s3, s4, units, stopFailed, units.Keys, ev3)
    requires Live(s1.instances, id) && Caused(units, s1.instances, [Began] + ev1 + ev2 + ev3, id)
    ensures var events := [Began] + ev1 + ev2 + ev3; HasStopped(events, id) || KeptLive(s4, events, id)
  {
    var events := [Began] + ev1 + ev2 + ev3;
    assert Caused(units, s1.instances, ev1, id) by {
      hide ObservedAll, StopLoop, StartLoop, UpwardClosed;
      forall x ensures Observed(x, false) in events <==> Observed(x, false) in ev1 {
        OnlyFirstObserves(s2, s3, s4, units, restart, stopFailed, ev1, ev2, ev3, Observed(x, false));
      }
      var p :| p != [] && p[0] == id && Walk(Requirements(units), p) && Cause(units, s1.instances, events, p[|p| - 1]);
      assert Cause(units, s1.instances, ev1, p[|p| - 1]);
    }
    CausedIsMarked(s1, s2, units, restart, ev1, id);
    MarkedStillLive(s1, s2, units, restart, ev1, id);
    hide ObservedAll, Caused, StopLoop, StartLoop, Consistent, HasStopped, KeptLive;
    MarkedIsStopped(s2, s3, s4, units, stopFailed, restart, ev1, ev2, ev3, id);
  }

  lemma MarkedStillLive(s: Snapshot, t: Snapshot, units: map<Id, Unit>, restart: set<Id>, events: seq<Event>, id: Id)
    requires ObservedAll(s, t, units, restart, events) && Live(s.instances, id)
    ensures Live(t.instances, id) && id in units && Consistent(t) && OnlyObserved(events)
  {
    hide Consistent, ProbesFit, OnlyObserved;
  }

  lemma WhichStop(s1: Snapshot, s2: Snapshot, s3: Snapshot, s4: Snapshot, units: map<Id, Unit>,
                  restart: set<Id>, stopFailed: set<Id>, ev1: seq<Event>, ev2: seq<Event>, ev3: seq<Event>, e: Event)
    requires ObservedAll(s1, s2, units, restart, ev1) && StopLoop(s2, s3, restart, stopFailed, units.Keys, ev2)
    requires StartLoop(s3, s4, units, stopFailed, units.Keys, ev3)
    requires e in [Began] + ev1 + ev2 + ev3 && e.StopCalled?
    ensures if e in ev2 then e.id in restart && e.id in units else StartCalled(e.id, e.unit, false) in ev3
  {
    hide Consistent, StopOutcome, KeptBack, Pending, StartFrame, StartPlaces, Quiet, NothingToStop, SameLive, Observation, RestartRule;
    assert e == Began || e in ev1 || e in ev2 || e in ev3;
  }

  lemma CausesStay(units: map<Id, Unit>, before: map<Id, Instance>, ev1: seq<Event>, ev2: seq<Event>, ev3: seq<Event>, id: Id)
    requires Caused(units, before, ev1, id)
    ensures Caused(units, before, [Began] + ev1 + ev2 + ev3, id)
  {
    var p :| p != [] && p[0] == id && Walk(Requirements(units), p) && Cause(units, before, ev1, p[|p| - 1]);
    assert forall e :: e in ev1 ==> e in [Began] + ev1 + ev2 + ev3;
    assert Cause(units, before, [Began] + ev1 + ev2 + ev3, p[|p| - 1]);
  }

  lemma ShownAll(s2: Snapshot, s: Snapshot, t: Snapshot, units: map<Id, Unit>, stopFailed: set<Id>, order: seq<Id>, restart: set<Id>,
                 ev1: seq<Event>, ev2: seq<Event>, ev3: seq<Event>, id: Id)
    requires StopLoop(s2, s, restart, stopFailed, units.Keys, ev2) && id in units && OnlyObserved(ev1)
    requires Poised(s, units, stopFailed) && StartLoop(s, t, units, stopFailed, units.Keys, ev3)
    requires Ordering(Requirements(units), order)
    ensures id in t.published && Shown(units, t, [Began] + ev1 + ev2 + ev3, id)
  {
    var events := [Began] + ev1 + ev2 + ev3;
    CallsAre(s2, s, t, units, stopFailed, restart, ev1, ev2, ev3, id);
    ShownIsReady(s, t, units, stopFailed, ev3);
    forall d | d in units[id].needs ensures ShownRunning(t.published, d) <==> d in Ready(t) {
      Listed2(units, order, id, d);
    }
    hide Ordering, Requirements, Poised, OnlyObserved;
    if id in stopFailed {
      ShownKept(s2, s, t, units, stopFailed, restart, ev1, ev2, ev3, id);
    } else {
      ShownStarted(s, t, units, stopFailed, ev1, ev2, ev3, id);
    }
  }

  lemma CallsAre(s2: Snapshot, s: Snapshot, t: Snapshot, units: map<Id, Unit>, stopFailed: set<Id>, restart: set<Id>,
                 ev1: seq<Event>, ev2: seq<Event>, ev3: seq<Event>, id: Id)
    requires StopLoop(s2, s, restart, stopFailed, units.Keys, ev2) && id in units && OnlyObserved(ev1)
    requires StartLoop(s, t, units, stopFailed, units.Keys, ev3)
    ensures forall e :: e in [Began] + ev1 + ev2 + ev3 && (e.StartCalled? || e.UpdateCalled? || e.Published?) ==>
              e in ev3 && (e.id == id ==> e.unit == units[id] && id !in stopFailed)
    ensures forall e :: e in ev3 ==> e in [Began] + ev1 + ev2 + ev3
  {
    hide Consistent, StopOutcome, KeptBack, Pending, StartFrame, StartPlaces, Quiet, NothingToStop, SameLive;
    forall e | e in [Began] + ev1 + ev2 + ev3 && (e.StartCalled? || e.UpdateCalled? || e.Published?)
      ensures e in ev3 && (e.id == id ==> e.unit == units[id] && id !in stopFailed)
    {
      assert e == Began || e in ev1 || e in ev2 || e in ev3;
    }
  }

  lemma ShownStarted(s: Snapshot, t: Snapshot, units: map<Id, Unit>, stopFailed: set<Id>,
                     ev1: seq<Event>, ev2: seq<Event>, ev3: seq<Event>, id: Id)
    requires StartLoop(s, t, units, stopFailed, units.Keys, ev3) && id in units && id !in stopFailed
    requires var events := [Began] + ev1 + ev2 + ev3;
             && (forall e :: e in events && (e.StartCalled? || e.UpdateCalled? || e.Published?) ==> e in ev3 && (e.id == id ==> e.unit == units[id]))
             && (forall e :: e in ev3 ==> e in events)
    requires forall d :: d in units[id].needs ==> (ShownRunning(t.published, d) <==> d in Ready(t))
    ensures id in t.published && Shown(units, t, [Began] + ev1 + ev2 + ev3, id)
  {
    assert id in units.Keys - stopFailed;
    assert Settling(units[id], s.instances[id], t.instances[id], Ready(t), id, t.published[id], ev3);
    hide StartLoop, Shown, Settling;
    SettledIsShown(units, s.instances[id], t, Ready(t), id, ev3, [Began] + ev1 + ev2 + ev3);
  }

  lemma SettledIsShown(units: map<Id, Unit>, before: Instance, t: Snapshot, ready: set<Id>, id: Id, some: seq<Event>, all: seq<Event>)
    requires id in units && id in t.instances && id in t.published
    requires Settling(units[id], before, t.instances[id], ready, id, t.published[id], some)
    requires forall e :: e in all && (e.StartCalled? || e.UpdateCalled? || e.Published?) ==> e in some && (e.id == id ==> e.unit == units[id])
    requires forall e :: e in some ==> e in all
    requires forall d :: d in units[id].needs ==> (ShownRunning(t.published, d) <==> d in ready)
    ensures Shown(units, t, all, id)
  {
    hide KeptLive;
    var unit := units[id];
    assert UpdateCalled(id, unit, false) in all <==> UpdateCalled(id, unit, false) in some;
    assert StartCalled(id, unit, false) in all <==> StartCalled(id, unit, false) in some;
    assert AllReady(unit.needs, ready) <==> !(exists d :: d in unit.needs && !ShownRunning(t.published, d));
    assert Uncalled(id, some) ==> forall e :: e in some && (e.StartCalled? || e.UpdateCalled? || e.Published?) ==> e.id != id;
    hide AllReady, Uncalled, ShownRunning;
  }

  lemma ShownKept(s2: Snapshot, s: Snapshot, t: Snapshot, units: map<Id, Unit>, stopFailed: set<Id>, restart: set<Id>,
                  ev1: seq<Event>, ev2: seq<Event>, ev3: seq<Event>, id: Id)
    requires StopLoop(s2, s, restart, stopFailed, units.Keys, ev2) && id in units && id in stopFailed && OnlyObserved(ev1)
    requires StartLoop(s, t, units, stopFailed, units.Keys, ev3)
    requires forall e :: e in [Began] + ev1 + ev2 + ev3 && (e.StartCalled? || e.UpdateCalled? || e.Published?) ==> e.id != id
    ensures id in t.published && Shown(units, t, [Began] + ev1 + ev2 + ev3, id)
  {
    var events := [Began] + ev1 + ev2 + ev3;
    hide StopLoop, StartLoop, StopFails, OnlyObserved;
    var e := KeptState(s2, s, t, units, stopFailed, restart, ev2, ev3, id);
    FailsSomewhere(ev1, ev2, ev3, id);
    InTheMiddle([Began] + ev1, ev2, ev3, e);
    assert KeptLive(t, events, id);
    assert UpdateCalled(id, units[id], false) !in events && StartCalled(id, units[id], false) !in events;
    hide KeptLive;
  }

  lemma InTheMiddle(a: seq<Event>, b: seq<Event>, c: seq<Event>, e: Event)
    requires e in b
    ensures e in a + b + c
  {
  }

  lemma KeptState(s2: Snapshot, s: Snapshot, t: Snapshot, units: map<Id, Unit>, stopFailed: set<Id>, restart: set<Id>,
                  ev2: seq<Event>, ev3: seq<Event>, id: Id) returns (e: Event)
    requires StopLoop(s2, s, restart, stopFailed, units.Keys, ev2) && id in units && id in stopFailed
    requires StartLoop(s, t, units, stopFailed, units.Keys, ev3)
    ensures Live(t.instances, id) && id in t.published && t.published[id] == (if StopFails(ev2, id) then Stopping else Blocked)
    ensures e in ev2 && e.StopCalled? && !e.ok
    ensures !StopFails(ev3, id)
  {
    hide Consistent, Pending, StartPlaces, Quiet, NoLifecycle, SameLive, NothingToStop;
    assert StopRule(s2.instances[id], s.instances[id], id in restart, true);
    e :| e in ev2 && !Succeeded(e);
    assert forall i :: 0 <= i < |ev3| ==> ev3[i] in ev3;
  }

  lemma FailsSomewhere(ev1: seq<Event>, ev2: seq<Event>, ev3: seq<Event>, id: Id)
    requires OnlyObserved(ev1)
    ensures StopFails([Began] + ev1 + ev2 + ev3, id) <==> StopFails(ev2, id) || StopFails(ev3, id)
  {
    FailsAfter([Began] + ev1 + ev2, ev3, id);
    FailsAfter([Began] + ev1, ev2, id);
    FailsAfter([Began], ev1, id);
    assert forall i :: 0 <= i < |ev1| ==> ev1[i] in ev1;
  }

  lemma PlacedKept(s: Snapshot, t: Snapshot, units: map<Id, Unit>, stopFailed: set<Id>, restart: set<Id>,
                   s2: Snapshot, ev2: seq<Event>, ev3: seq<Event>, events: seq<Event>, id: Id)
    requires StopLoop(s2, s, restart, stopFailed, units.Keys, ev2) && id in units && id in stopFailed
    requires StartLoop(s, t, units, stopFailed, units.Keys, ev3) && units.Keys == s.instances.Keys
    requires forall e :: e in ev2 ==> e in events
    ensures id in t.instances && id in t.published && Placed(units, t, events, id)
  {
    hide Consistent, Pending, StartPlaces, Quiet, NoLifecycle, SameLive;
    var e :| e in ev2 && !Succeeded(e);
    assert e in events;
    assert StopRule(s2.instances[id], s.instances[id], id in restart, true);
  }

  lemma ReportedHistory(s0: Snapshot, s1: Snapshot, s2: Snapshot, s3: Snapshot, s4: Snapshot, units: map<Id, Unit>,
                        restart: set<Id>, stopFailed: set<Id>, ev1: seq<Event>, ev2: seq<Event>, ev3: seq<Event>)
    requires s1 == Said(s0, Began) && ObservedAll(s1, s2, units, restart, ev1)
    requires StopLoop(s2, s3, restart, stopFailed, units.Keys, ev2) && StartLoop(s3, s4, units, stopFailed, units.Keys, ev3)
    ensures s4.history == s0.history + ([Began] + ev1 + ev2 + ev3)
    ensures Consistent(s4) && OnlyObserved(ev1) && s1.instances == s0.instances
    ensures s4.instances.Keys == s4.published.Keys == units.Keys
  {
    hide Consistent, StopOutcome, StopEvents, KeptBack, Pending, StartPlaces, Quiet, NothingToStop, NoLifecycle, SameLive, Observation,
      RestartRule, OnlyObserved;
  }

  lemma Subsequences(ev1: seq<Event>, ev2: seq<Event>, ev3: seq<Event>)
    ensures AllSucceeded([Began] + ev1 + ev2 + ev3) ==> AllSucceeded(ev2) && AllSucceeded(ev3)
    ensures NoExits([Began] + ev1 + ev2 + ev3) ==> NoExits(ev1)
  {
    var events := [Began] + ev1 + ev2 + ev3;
    assert forall e :: e in ev1 || e in ev2 || e in ev3 ==> e in events;
  }

  lemma FailedStopIsKept(s: Snapshot, t: Snapshot, restart: set<Id>, stopFailed: set<Id>, passed: set<Id>, events: seq<Event>, e: Event)
    requires StopLoop(s, t, restart, stopFailed, passed, events) && e in events && e.StopCalled? && !e.ok
    ensures e.id in stopFailed && e.id in passed
    ensures Live(t.instances, e.id) && t.instances[e.id].pendingStop && t.instances[e.id].unit == e.unit
  {
    hide Consistent, KeptBack;
  }

  lemma ReportedPending(s3: Snapshot, s4: Snapshot, units: map<Id, Unit>, restart: set<Id>, stopFailed: set<Id>,
                        s2: Snapshot, ev1: seq<Event>, ev2: seq<Event>, ev3: seq<Event>)
    requires OnlyObserved(ev1) && StopLoop(s2, s3, restart, stopFailed, units.Keys, ev2)
    requires StartLoop(s3, s4, units, stopFailed, units.Keys, ev3)
    ensures Pending([Began] + ev1 + ev2 + ev3, s4.instances)
  {
    PendingParts(s3, s4, units, stopFailed, ev3);
    hide StopLoop, StartLoop, OnlyObserved;
    forall e | e in [Began] + ev1 + ev2 + ev3 && e.StopCalled? && !e.ok
      ensures Live(s4.instances, e.id) && s4.instances[e.id].pendingStop && s4.instances[e.id].unit == e.unit
    {
      NoStopsObserved(ev1, e);
      assert e in ev2 || e in ev3;
      if e in ev2 {
        FailedStopIsKept(s2, s3, restart, stopFailed, units.Keys, ev2, e);
      }
    }
  }

  lemma NoStopsObserved(ev1: seq<Event>, e: Event)
    requires OnlyObserved(ev1) && e.StopCalled?
    ensures e !in ev1
  {
  }

  lemma PendingParts(s: Snapshot, t: Snapshot, units: map<Id, Unit>, stopFailed: set<Id>, events: seq<Event>)
    requires StartLoop(s, t, units, stopFailed, units.Keys, events)
    ensures Pending(events, t.instances)
    ensures forall id :: id in stopFailed && id in s.instances ==> id in t.instances && t.instances[id] == s.instances[id]
  {
    hide Consistent, Pending, StartPlaces, CallsFit, Quiet, NoLifecycle, SameLive;
  }

  lemma ReportedSettled(s2: Snapshot, s3: Snapshot, s4: Snapshot, units: map<Id, Unit>, order: seq<Id>,
                        restart: set<Id>, stopFailed: set<Id>, ev2: seq<Event>, ev3: seq<Event>)
    requires StopLoop(s2, s3, restart, stopFailed, units.Keys, ev2) && AllSucceeded(ev2) && AllSucceeded(ev3)
    requires StartLoop(s3, s4, units, stopFailed, units.Keys, ev3) && Poised(s3, units, stopFailed)
    requires Ordering(Requirements(units), order)
    ensures Settled(units, s4.instances)
    ensures forall id :: id in units && !units[id].enabled ==> s4.instances[id].unit == units[id]
  {
    assert stopFailed == {};
    Converges(s3, s4, units, order, ev3);
    forall id | id in units && !units[id].enabled ensures s4.instances[id].unit == units[id] {
      assert id in units.Keys - {};
    }
  }

  lemma ReportedQuiet(s1: Snapshot, s2: Snapshot, s3: Snapshot, s4: Snapshot, units: map<Id, Unit>, order: seq<Id>,
                      restart: set<Id>, stopFailed: set<Id>, ev1: seq<Event>, ev2: seq<Event>, ev3: seq<Event>)
    requires Resting(units, s1.instances) && ObservedAll(s1, s2, units, restart, ev1) && NoExits(ev1) && OnlyObserved(ev1)
    requires StopLoop(s2, s3, restart, stopFailed, units.Keys, ev2)
    requires StartLoop(s3, s4, units, stopFailed, units.Keys, ev3)
    requires Ordering(Requirements(units), order)
    ensures NoLifecycle([Began] + ev1 + ev2 + ev3)
  {
    hide Consistent, StopLoop, StartLoop, ObservedAll, Resting, Quiet, Ordering, Requirements, NothingToStop;
    SettledStays(s1, s2, units, order, restart, ev1);
    NothingStopped(s2, s3, units.Keys, restart, stopFailed, ev2);
    NothingStarted(s3, s4, units, stopFailed, ev3);
    forall e | e in [Began] + ev1 + ev2 + ev3 ensures !e.StopCalled? && !e.StartCalled? {
      assert e == Began || e in ev1 || e in ev3;
    }
  }

  lemma NothingStarted(s: Snapshot, t: Snapshot, units: map<Id, Unit>, stopFailed: set<Id>, events: seq<Event>)
    requires StartLoop(s, t, units, stopFailed, units.Keys, events) && Quiet(units, s.instances)
    ensures NoLifecycle(events)
  {
    hide Consistent, StartFrame, StartPlaces, Quiet, Pending, NoLifecycle, SameLive;
  }

  lemma NothingStopped(s: Snapshot, t: Snapshot, passed: set<Id>, restart: set<Id>, stopFailed: set<Id>, events: seq<Event>)
    requires StopLoop(s, t, restart, stopFailed, passed, events) && NothingToStop(s.instances, restart)
    ensures events == [] && t.instances == s.instances
  {
    hide Consistent;
    forall id | id in s.instances ensures t.instances[id] == s.instances[id] {
      if id in passed {
        assert StopRule(s.instances[id], t.instances[id], id in restart, id in stopFailed);
      }
    }
  }

  /** The invariant survives: requirements stay declared and the live units acyclic. */
  lemma InvariantSurvives(s0: Snapshot, s1: Snapshot, s2: Snapshot, s3: Snapshot, s4: Snapshot, units: map<Id, Unit>,
                          restart: set<Id>, stopFailed: set<Id>, ev1: seq<Event>, ev2: seq<Event>, ev3: seq<Event>)
    requires s1.instances == s0.instances && NeedsDeclared(s0.instances) && Acyclic(Requirements(LiveOf(s0.instances)))
    requires ObservedAll(s1, s2, units, restart, ev1) && StopLoop(s2, s3, restart, stopFailed, units.Keys, ev2)
    requires StartLoop(s3, s4, units, stopFailed, units.Keys, ev3) && Poised(s3, units, stopFailed)
    requires Known(Requirements(units)) && Acyclic(Requirements(units))
    ensures NeedsDeclared(s4.instances) && Acyclic(Requirements(LiveOf(s4.instances)))
  {
    StoppedOwners(s0, s1, s2, s3, units, restart, stopFailed, ev1, ev2);
    assert s4.instances.Keys == units.Keys;
    hide Consistent, StopLoop, StartLoop, ObservedAll, Poised, Acyclic;
    LiveStaysAcyclic(s0, s3, s4, units, stopFailed, ev3);
    forall id | id in units ensures UnitKept(s0.instances, s4.instances, units, id) {
      UnitsRecorded(s0, s1, s2, s3, s4, units, restart, stopFailed, ev1, ev2, ev3, id);
    }
    forall id, d | id in s4.instances && d in s4.instances[id].unit.needs ensures d in s4.instances {
      assert UnitKept(s0.instances, s4.instances, units, id);
      if d in units[id].needs {
        assert Edge(Requirements(units), id, d);
      }
    }
  }

  lemma StoppedOwners(s0: Snapshot, s1: Snapshot, s2: Snapshot, s3: Snapshot, units: map<Id, Unit>,
                      restart: set<Id>, stopFailed: set<Id>, ev1: seq<Event>, ev2: seq<Event>)
    requires s1.instances == s0.instances
    requires ObservedAll(s1, s2, units, restart, ev1) && StopLoop(s2, s3, restart, stopFailed, units.Keys, ev2)
    ensures forall id :: id in stopFailed ==> Live(s0.instances, id) && id in s3.instances && s3.instances[id].unit == s0.instances[id].unit
  {
    hide Consistent, Pending, StopEvents, KeptBack, RestartRule, OnlyObserved;
    forall id | id in stopFailed ensures Live(s0.instances, id) && id in s3.instances && s3.instances[id].unit == s0.instances[id].unit {
      assert StopRule(s2.instances[id], s3.instances[id], id in restart, true);
    }
  }

  ghost predicate UnitKept(before: map<Id, Instance>, after: map<Id, Instance>, units: map<Id, Unit>, id: Id) {
    id in units && id in after && (after[id].unit == units[id] || (id in before && after[id].unit == before[id].unit))
  }

  lemma UnitsRecorded(s0: Snapshot, s1: Snapshot, s2: Snapshot, s3: Snapshot, s4: Snapshot, units: map<Id, Unit>,
                      restart: set<Id>, stopFailed: set<Id>, ev1: seq<Event>, ev2: seq<Event>, ev3: seq<Event>, id: Id)
    requires s1.instances == s0.instances && id in units
    requires ObservedAll(s1, s2, units, restart, ev1) && StopLoop(s2, s3, restart, stopFailed, units.Keys, ev2)
    requires StartLoop(s3, s4, units, stopFailed, units.Keys, ev3)
    ensures UnitKept(s0.instances, s4.instances, units, id)
  {
    StartedUnit(s3, s4, units, stopFailed, ev3, id);
  }

  lemma StartedUnit(s: Snapshot, t: Snapshot, units: map<Id, Unit>, stopFailed: set<Id>, events: seq<Event>, id: Id)
    requires StartLoop(s, t, units, stopFailed, units.Keys, events) && id in units && id in s.instances
    ensures UnitKept(s.instances, t.instances, units, id)
  {
    hide Consistent, Pending, Quiet, SameLive, NoLifecycle, KeptBack;
    if id !in stopFailed {
      assert id in units.Keys - stopFailed;
      assert Settling(units[id], s.instances[id], t.instances[id], Ready(t), id, t.published[id], events);
    }
  }

  lemma SpeaksThroughout(s0: map<Id, Instance>, s2: map<Id, Instance>, units: map<Id, Unit>, events: seq<Event>)
    requires Observation(s0, s2, units, events) && s2.Keys == units.Keys
    ensures StopUnits(units, s2) == StopUnits(units, s0) && SpeaksFor(StopUnits(units, s0), s2)
  {
    assert forall id :: Live(s2, id) <==> Live(s0, id);
  }

  lemma MergedAgain(units: map<Id, Unit>, before: map<Id, Instance>, after: map<Id, Instance>)
    requires after.Keys == Merged(units, before).Keys
    requires forall id :: id in after && !Merged(units, before)[id].enabled ==> after[id].unit == Merged(units, before)[id]
    ensures Merged(units, after) == Merged(units, before)
  {
    var m, m' := Merged(units, before), Merged(units, after);
    assert m'.Keys == m.Keys;
    forall id | id in m ensures m'[id] == m[id] {
      if id !in units {
        assert !m[id].enabled;
      }
    }
  }

  lemma {:induction false} WalkInside(units: map<Id, Unit>, instances: map<Id, Instance>, p: seq<Id>, k: nat)
    requires Known(Requirements(units)) && p != [] && p[0] in units && k < |p|
    requires Walk(Requirements(Merged(units, instances)), p) || Walk(Requirements(units), p)
    ensures p[k] in units
  {
    if k > 0 {
      WalkInside(units, instances, p, k - 1);
      assert Linked(Requirements(Merged(units, instances)), p, k - 1) || Linked(Requirements(units), p, k - 1);
      assert Edge(Requirements(units), p[k - 1], p[k]);
    }
  }

  /** Removed units make no declared unit eligible, nor keep one from being so. */
  lemma EligibleAsDeclared(units: map<Id, Unit>, instances: map<Id, Instance>, id: Id)
    requires Known(Requirements(units)) && id in units
    ensures Eligible(Merged(units, instances), id) <==> Eligible(units, id)
  {
    var m := Merged(units, instances);
    forall p | p != [] && p[0] == id
      ensures Walk(Requirements(m), p) <==> Walk(Requirements(units), p)
      ensures Walk(Requirements(units), p) ==> p[|p| - 1] in units
    {
      if Walk(Requirements(m), p) {
        forall i: nat | i + 1 < |p| ensures Linked(Requirements(units), p, i) {
          WalkInside(units, instances, p, i);
          assert Linked(Requirements(m), p, i);
        }
      }
      if Walk(Requirements(units), p) {
        WalkInside(units, instances, p, |p| - 1);
        forall i: nat | i + 1 < |p| ensures Linked(Requirements(m), p, i) {
          WalkInside(units, instances, p, i);
          assert Linked(Requirements(units), p, i);
        }
      }
    }
    assert forall x :: x in units ==> m[x] == units[x];
    hide Known;
  }

  /**
   A Reconcile without failures leaves running exactly the declared units that are enabled and whose transitive
   requirements are, each as declared; what is no longer declared has stopped.
   */
  lemma DeclaredRun(s: Snapshot, t: Snapshot, units: map<Id, Unit>, events: seq<Event>)
    requires Report(s, t, Merged(units, s.instances), events) && AllSucceeded(events) && Known(Requirements(units))
    ensures forall id :: Live(t.instances, id) <==> id in units && Eligible(units, id)
    ensures forall id :: Live(t.instances, id) ==> id in units && t.instances[id] == Instance(units[id], units[id].revision, true, false)
  {
    var m := Merged(units, s.instances);
    forall id ensures Live(t.instances, id) <==> id in units && Eligible(units, id) {
      if id in units {
        EligibleAsDeclared(units, s.instances, id);
      } else if id in m {
        assert !m[id].enabled;
        NotEligible(m, id);
      }
    }
  }

  lemma NotEligible(units: map<Id, Unit>, id: Id)
    requires id in units && !units[id].enabled
    ensures !Eligible(units, id)
  {
    var p := [id];
    assert p != [] && p[0] == id && Walk(Requirements(units), p) && p[|p| - 1] == id;
  }

  /** The same but for the callbacks: whether there are probes and updates, and which closures they are. */
  ghost predicate SameButCallbacks(units: map<Id, Unit>, others: map<Id, Unit>) {
    && units.Keys == others.Keys
    && forall id :: id in units ==>
         units[id].needs == others[id].needs && units[id].enabled == others[id].enabled && units[id].revision == others[id].revision
  }

  lemma EligibleAlike(units: map<Id, Unit>, others: map<Id, Unit>, id: Id)
    requires SameButCallbacks(units, others)
    ensures Eligible(units, id) <==> Eligible(others, id)
  {
    assert Requirements(units) == Requirements(others);
  }

  lemma SettledRests(units: map<Id, Unit>, others: map<Id, Unit>, instances: map<Id, Instance>)
    requires Settled(units, instances) && SameButCallbacks(units, others)
    ensures Resting(others, instances)
  {
    hide Eligible;
    forall id | id in others ensures Eligible(units, id) <==> Eligible(others, id) {
      EligibleAlike(units, others, id);
    }
  }

  /**
   Once a Reconcile has converged, a second one whose declarations have the same requirements, enablement and
   revisions calls no Start and no Stop, whatever callbacks they carry.
   */
  lemma RestsOnceConverged(s0: Snapshot, s1: Snapshot, s2: Snapshot, units: map<Id, Unit>, others: map<Id, Unit>,
                           first: seq<Event>, second: seq<Event>)
    requires Report(s0, s1, Merged(units, s0.instances), first) && AllSucceeded(first)
    requires SameButCallbacks(units, others)
    requires Report(s1, s2, Merged(others, s1.instances), second) && NoExits(second)
    ensures NoLifecycle(second)
  {
    hide Consistent, Pending, Placed, Shown, NoLifecycle, Merged, Settled, Resting, Caused;
    MergedAgain(units, s0.instances, s1.instances);
    MergedAlike(units, others, s1.instances);
    SettledRests(Merged(units, s1.instances), Merged(others, s1.instances), s1.instances);
  }

  lemma MergedAlike(units: map<Id, Unit>, others: map<Id, Unit>, instances: map<Id, Instance>)
    requires SameButCallbacks(units, others)
    ensures SameButCallbacks(Merged(units, instances), Merged(others, instances))
  {
  }

  lemma ObservedGives(s0: Snapshot, s1: Snapshot, s2: Snapshot, units: map<Id, Unit>, restart: set<Id>, events: seq<Event>, stopUnits: map<Id, Unit>)
    requires s1 == Said(s0, Began) && ObservedAll(s1, s2, units, restart, events) && Ready(s1) == {}
    requires stopUnits == StopUnits(units, s0.instances)
    ensures Consistent(s2) && Ready(s2) == {} && s2.published.Keys == s2.instances.Keys
    ensures SpeaksFor(stopUnits, s2.instances) && UpwardClosed(stopUnits, restart)
  {
    SpeaksThroughout(s0.instances, s2.instances, units, events);
    RestartCoversRecorded(units, stopUnits, s2.instances, restart);
  }

  lemma StopGives(s1: Snapshot, s2: Snapshot, s3: Snapshot, units: map<Id, Unit>, restart: set<Id>, stopFailed: set<Id>,
                  ev1: seq<Event>, ev2: seq<Event>)
    requires ObservedAll(s1, s2, units, restart, ev1) && StopLoop(s2, s3, restart, stopFailed, units.Keys, ev2)
    ensures Poised(s3, units, stopFailed) && UpwardClosed(units, restart)
  {
    RestartCoversRecorded(units, StopUnits(units, s2.instances), s2.instances, restart);
    PoisedAfterStopping(s2, s3, units, restart, stopFailed, ev2);
  }

}
