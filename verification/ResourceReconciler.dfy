/**
 The resource reconciler: it drives the running units towards a desired set,
 stopping consumers before providers and starting providers before consumers,
 while any Start, Stop or Update callback may fail.
 */
module ResourceReconciler {
  import opened Collections
  import opened DependencyGraph
  import opened LifecycleHistory
  import opened ReconcileLoops
  import opened ReconcileOutcome

  class Reconciler {
    var instances: map<Id, Instance>
    var published: map<Id, State>  // the states of the health snapshot
    var combined: seq<Event>       // the failures joined so far
    ghost var history: seq<Event>
    ghost var began: nat           // where the current Reconcile starts in `history`

    ghost function Now(): Snapshot
      reads this`instances, this`published, this`history
    {
      Snapshot(instances, published, history)
    }

    /** The joined error holds exactly the failures of the current Reconcile, in order. */
    ghost predicate Joined()
      reads this`combined, this`history, this`began
    {
      began <= |history| && combined == FailuresOf(history[began..])
    }

    ghost predicate Valid()
      reads this
    {
      && Consistent(Now()) && NeedsDeclared(instances) && Joined()
      && Acyclic(Requirements(LiveOf(instances)))
    }

    constructor ()
      ensures Valid() && instances == map[] && history == []
    {
      instances, published, combined, history, began := map[], map[], [], [], 0;
      new;
      ghost var none: Graph<Id> := Requirements(LiveOf(instances));
      assert forall p :: Cycle(none, p) ==> Linked(none, p, 0);
    }

    /** Extends the history by one call and joins a failure. */
    method Note(e: Event)
      requires Joined()
      modifies this`history, this`combined
      ensures Joined() && Now() == Said(old(Now()), e)
    {
      JoinedStep(history, began, e);
      hide FailuresOf, Succeeded;
      history := history + [e];
      if !Succeeded(e) {
        combined := combined + [e];
      }
    }

    /** A unit's own health probe. It never reports an owner running that this reconciler has not started. */
    method ObserveRunning(id: Id) returns (running: bool)
      requires Joined()
      modifies this`history, this`combined
      ensures Joined() && Now() == Said(old(Now()), Observed(id, running))
      ensures running ==> Live(instances, id)
    {
      running := *;
      running := running && Live(instances, id);
      Note(Observed(id, running));
    }

    /** Stop may be called only while no live unit still requires this one. */
    method InvokeStop(id: Id, unit: Unit) returns (ok: bool)
      requires Joined() && Legal(Replay(history), StopCalled(id, unit, true))
      modifies this`history, this`combined
      ensures Joined() && Now() == Said(old(Now()), StopCalled(id, unit, ok))
    {
      ok := *;
      Note(StopCalled(id, unit, ok));
    }

    /** Start may be called only on an inactive unit whose requirements were just published Running. */
    method InvokeStart(id: Id, unit: Unit) returns (ok: bool)
      requires Joined() && Legal(Replay(history), StartCalled(id, unit, true))
      modifies this`history, this`combined
      ensures Joined() && Now() == Said(old(Now()), StartCalled(id, unit, ok))
    {
      ok := *;
      Note(StartCalled(id, unit, ok));
    }

    /** Update, too, is called only once the requirements were just published Running. */
    method InvokeUpdate(id: Id, unit: Unit) returns (ok: bool)
      requires Joined() && Legal(Replay(history), UpdateCalled(id, unit, true))
      modifies this`history, this`combined
      ensures Joined() && Now() == Said(old(Now()), UpdateCalled(id, unit, ok))
    {
      ok := *;
      Note(UpdateCalled(id, unit, ok));
    }

    /** `ctx.Err()`: an ended context is joined as a failure. */
    method ContextError() returns (ended: bool)
      requires Joined()
      modifies this`history, this`combined
      ensures Joined() && Now() == if ended then Said(old(Now()), ContextEnded) else old(Now())
    {
      ended := *;
      if ended {
        Note(ContextEnded);
      }
    }

    method Refresh(id: Id, unit: Unit) returns (current: Instance)
      requires Joined()
      modifies this`instances, this`history, this`combined
      ensures Joined()
      ensures Refreshed(old(Now()), Now(), id, unit)
      ensures id in instances && current == instances[id]
    {
      if id !in instances {
        instances := instances[id := Instance(unit, unit.revision, false, false)];
      }
      current := instances[id];
      if !current.pendingStop {
        var observable := if current.active then current.unit.observable else unit.observable;
        if observable {
          var running := ObserveRunning(id);
          if current.active && !running {
            current := current.(pendingStop := true);
          } else {
            current := current.(active := running);
          }
          instances := instances[id := current];
          ghost var known := if id in old(instances) then old(instances)[id] else Instance(unit, unit.revision, false, false);
          assert current == known.(pendingStop := known.active && !running);
          assert instances == old(instances)[id := current];
        }
      }
      assert id in old(instances) ==> old(instances) == old(instances)[id := old(instances)[id]];
    }

    /** Lines 150-181 for one unit. */
    method ObserveUnit(order: seq<Id>, k: nat, units: map<Id, Unit>, restart0: set<Id>, ghost s: Snapshot, ghost events: seq<Event>)
      returns (restart: set<Id>, ghost longer: seq<Event>)
      requires Joined() && Ordering(Requirements(units), order) && k < |order|
      requires Observing(s, Now(), units, Passed(order, k), restart0, events)
      modifies this`instances, this`published, this`history, this`combined
      ensures Joined() && Observing(s, Now(), units, Passed(order, k + 1), restart, longer)
    {
      hide Joined, Consistent, Ordering, Observing, Refreshed, MustRestart, NeedsAny, Requirements, Passed;
      var id := order[k];
      Listed(units, order, k);
      var unit := units[id];
      ghost var before := Now();
      var current := Refresh(id, unit);
      ghost var refreshed := Now();
      restart := restart0;
      if MustRestart(unit, current) || NeedsAny(unit, restart0) {
        restart := restart + {id};
      }
      published := published[id := if current.active then Running else Stopped];
      longer := ObservingStep(s, before, refreshed, Now(), units, order, k, restart0, restart, events);
    }

    /** Lines 149-182: observes every unit and marks those that must restart, closed over the new requirements. */
    method Observe(order: seq<Id>, units: map<Id, Unit>) returns (restart: set<Id>, ghost events: seq<Event>)
      requires Consistent(Now()) && Ordering(Requirements(units), order) && instances.Keys <= units.Keys
      requires Joined()
      modifies this`instances, this`published, this`history, this`combined
      ensures Joined() && ObservedAll(old(Now()), Now(), units, restart, events)
    {
      restart, published, events := {}, map[], [];
      ghost var start := old(Now());
      hide Joined, Consistent, Ordering, Observing, ObservedAll, Requirements, Passed;
      for k := 0 to |order|
        invariant Joined()
        invariant Observing(start, Now(), units, Passed(order, k), restart, events)
      {
        restart, events := ObserveUnit(order, k, units, restart, start, events);
      }
      ObservingDone(start, Now(), units, order, restart, events);
    }

    /** Lines 192-218: one unit of the stop loop. */
    method StopUnit(id: Id, stopUnits: map<Id, Unit>, restart: set<Id>, stopFailed: set<Id>)
      returns (failed: set<Id>, ghost more: seq<Event>)
      requires id in instances
      requires Live(instances, id) && id in restart && !(exists c :: c in stopUnits && id in stopUnits[c].needs && c in stopFailed)
               ==> Legal(Replay(history), StopCalled(id, instances[id].unit, true))
      requires Joined()
      modifies this`instances, this`published, this`history, this`combined
      ensures Joined() && StoppedOne(old(Now()), Now(), stopUnits, id, id in restart, stopFailed, failed, more)
    {
      hide Joined, Consistent, Replay, Legal;
      failed, more := stopFailed, [];
      var current := instances[id];
      if !current.active || id !in restart {
        return;
      }
      var blocked := exists c :: c in stopUnits && id in stopUnits[c].needs && c in stopFailed;
      if blocked {
        failed := failed + {id};
        published := published[id := Blocked];
        return;
      }
      published := published[id := Stopping];
      var ok := InvokeStop(id, current.unit);
      more := [StopCalled(id, current.unit, ok)];
      if !ok {
        failed := failed + {id};
        instances := instances[id := current.(pendingStop := true)];
        published := published[id := Stopping];
        return;
      }
      instances := instances[id := current.(active := false, pendingStop := false)];
      published := published[id := Stopped];
    }

    /** Lines 189-219: stops the restarting units, consumers first; a unit whose consumer did not stop stays. */
    method StopPhase(order: seq<Id>, stopUnits: map<Id, Unit>, restart: set<Id>)
      returns (stopFailed: set<Id>, ghost events: seq<Event>)
      requires Consistent(Now()) && Ready(Now()) == {}
      requires Ordering(Requirements(stopUnits), order) && UpwardClosed(stopUnits, restart)
      requires SpeaksFor(stopUnits, instances) && published.Keys == instances.Keys
      requires Joined()
      modifies this`instances, this`published, this`history, this`combined
      ensures Joined() && StopLoop(old(Now()), Now(), restart, stopFailed, Members(order), events)
    {
      stopFailed, events := {}, [];
      ghost var start := Now();
      StopLoopStart(start, restart, order);
      for i := |order| downto 0
        invariant Joined()
        invariant StopLoop(start, Now(), restart, stopFailed, Beyond(order, i), events)
      {
        hide Joined, Consistent, Ordering, Requirements, Members, Beyond, Replay, Legal, StoppedOne;
        var id := order[i];
        StopMayProceed(start, Now(), stopUnits, order, i, restart, stopFailed, events);
        ghost var before, failed0 := Now(), stopFailed;
        hide StopLoop, UpwardClosed, SpeaksFor;
        ghost var more;
        stopFailed, more := StopUnit(id, stopUnits, restart, stopFailed);
        StopLoopStep(start, before, Now(), stopUnits, order, i, restart, failed0, stopFailed, events, more);
        events := events + more;
      }
    }

    /** Lines 226-272: one unit of the start loop. */
    method StartUnit(id: Id, unit: Unit) returns (ghost o: Outcome)
      requires Joined() && MayStart(Now(), id, unit)
      modifies this`instances, this`published, this`history, this`combined
      ensures Joined() && StartedOne(old(Now()), Now(), id, unit, o)
    {
      var current := instances[id];
      assert instances[id := current] == instances && history + [] == history;
      if !unit.enabled {
        published := published[id := Stopped];
        instances := instances[id := current.(unit := unit)];
        return Disabled;
      }
      if exists d :: d in unit.needs && !ShownRunning(published, d) {
        published := published[id := Blocked];
        return Waiting;
      }
      assert AllReady(unit.needs, Ready(Now()));
      hide Joined, Consistent, Replay, Legal;
      var ended := ContextError();
      if ended {
        published := published[id := Blocked];
        return OutOfTime;
      }
      var ok := UpdateUnit(id, unit);
      if !ok {
        published := published[id := Failed];
        return UpdateRefused;
      }
      o := StartOrKeep(id, unit, old(Now()));
    }

    /** Lines 247-253: the optional Update. */
    method UpdateUnit(id: Id, unit: Unit) returns (ok: bool)
      requires Joined() && MayStart(Now(), id, unit) && AllReady(unit.needs, Ready(Now()))
      modifies this`history, this`combined
      ensures Joined()
      ensures ok ==> Now() == AfterUpdate(old(Now()), id, unit) && MayStart(Now(), id, unit) && AllReady(unit.needs, Ready(Now()))
      ensures !ok ==> unit.updatable && history == old(history) + [UpdateCalled(id, unit, false)]
    {
      hide Joined, Consistent, Replay, Legal, MayStart;
      ok := true;
      if unit.updatable {
        StartIsLegal(Now(), id, unit, true);
        ghost var before := Now();
        ok := InvokeUpdate(id, unit);
        UpdateRecorded(before, id, unit, ok);
      }
    }

    /** Lines 254-271: the unit is started unless it is already live, and published. */
    method StartOrKeep(id: Id, unit: Unit, ghost t: Snapshot) returns (ghost o: Outcome)
      requires Joined() && MayStart(Now(), id, unit) && unit.enabled && AllReady(unit.needs, Ready(Now()))
      requires Now() == AfterUpdate(t, id, unit) && !exists d :: d in unit.needs && !ShownRunning(t.published, d)
      modifies this`instances, this`published, this`history, this`combined
      ensures Joined() && StartedOne(t, Now(), id, unit, o)
    {
      var current := instances[id];
      ghost var updated := Now();
      hide Joined, Consistent, Replay, Legal, MayStart, AllReady, StartedOne, ShownRunning, AfterUpdate, Failing;
      o := Kept;
      if !current.active {
        var started;
        started, o := StartFresh(id, unit);
        if !started {
          return;
        }
        current := Instance(unit, current.revision, true, false);
      }
      PublishUnit(id, unit, current);
      if o == Kept {
        KeptIs(t, updated, Now(), id, unit);
      } else {
        FreshIs(t, updated, Now(), id, unit);
      }
    }

    /** Lines 270-271. */
    method PublishUnit(id: Id, unit: Unit, current: Instance)
      requires Joined()
      modifies this`instances, this`published, this`history, this`combined
      ensures Joined() && history == old(history) + [Published(id, unit)]
      ensures instances == old(instances)[id := current.(unit := unit, revision := unit.revision)]
      ensures published == old(published)[id := Running]
    {
      Note(Published(id, unit));
      instances := instances[id := current.(unit := unit, revision := unit.revision)];
      published := published[id := Running];
    }

    /** Lines 255-268: a start, undone by a stop when it fails. */
    method StartFresh(id: Id, unit: Unit) returns (started: bool, ghost o: Outcome)
      requires Joined() && MayStart(Now(), id, unit) && AllReady(unit.needs, Ready(Now())) && !instances[id].active
      modifies this`instances, this`published, this`history, this`combined
      ensures Joined() && o in {Fresh, Undone, Stuck} && (started <==> o == Fresh)
      ensures started ==> Now() == Begun(old(Now()), id, unit, true)
      ensures !started ==> Failing(old(Now()), Now(), id, unit, o)
    {
      ghost var before := Now();
      StartIsLegal(before, id, unit, true);
      var revision := instances[id].revision;
      hide Joined, Consistent, Replay, Legal, AllReady, MayStart, Failing, InstanceOf, StateOf;
      started := BeginStart(id, unit, revision);
      StartRecorded(before, id, unit, started);
      o := Fresh;
      if !started {
        o := UndoStart(id, unit, revision);
        FailingIs(before, Now(), id, unit, revision, o);
      }
    }

    /** Lines 255-257: the unit counts as live, and pending a stop, while its Start runs. */
    method BeginStart(id: Id, unit: Unit, revision: Revision) returns (started: bool)
      requires Joined() && Legal(Replay(history), StartCalled(id, unit, true))
      modifies this`instances, this`published, this`history, this`combined
      ensures Joined() && history == old(history) + [StartCalled(id, unit, started)]
      ensures instances == old(instances)[id := Instance(unit, revision, true, true)]
      ensures published == old(published)[id := Starting]
    {
      published := published[id := Starting];
      instances := instances[id := Instance(unit, revision, true, true)];
      started := InvokeStart(id, unit);
    }

    /** Lines 259-265: the clean-up of a failed start. */
    method UndoStart(id: Id, unit: Unit, revision: Revision) returns (ghost o: Outcome)
      requires Joined() && Legal(Replay(history), StopCalled(id, unit, true))
      modifies this`instances, this`published, this`history, this`combined
      ensures Joined() && o in {Undone, Stuck}
      ensures history == old(history) + [StopCalled(id, unit, o == Undone)]
      ensures instances == if o == Undone then old(instances)[id := Instance(unit, revision, false, false)] else old(instances)
      ensures published == old(published)[id := StateOf(o)]
    {
      var cleaned := InvokeStop(id, unit);
      if !cleaned {
        published := published[id := Stopping];
        return Stuck;
      }
      instances := instances[id := Instance(unit, revision, false, false)];
      published := published[id := Failed];
      return Undone;
    }

    /** Lines 220-272: starts or keeps every enabled unit whose requirements were just published Running. */
    method StartPhase(order: seq<Id>, units: map<Id, Unit>, stopFailed: set<Id>) returns (ghost events: seq<Event>)
      requires Joined() && Poised(Now(), units, stopFailed) && Ordering(Requirements(units), order)
      modifies this`instances, this`published, this`history, this`combined
      ensures Joined() && StartLoop(old(Now()), Now(), units, stopFailed, units.Keys, events)
    {
      events := [];
      ghost var start := Now();
      StartLoopStart(start, units, order, stopFailed);
      PassedAll(units, order);
      hide Joined, Poised, Ordering, StartLoop, Passed, Requirements;
      for k := 0 to |order|
        invariant Joined() && StartLoop(start, Now(), units, stopFailed, Passed(order, k), events)
      {
        events := StartNext(order, k, units, stopFailed, start, events);
      }
    }

    method StartNext(order: seq<Id>, k: nat, units: map<Id, Unit>, stopFailed: set<Id>, ghost start: Snapshot, ghost events: seq<Event>)
      returns (ghost longer: seq<Event>)
      requires Joined() && Poised(start, units, stopFailed) && Ordering(Requirements(units), order) && k < |order|
      requires StartLoop(start, Now(), units, stopFailed, Passed(order, k), events)
      modifies this`instances, this`published, this`history, this`combined
      ensures Joined() && StartLoop(start, Now(), units, stopFailed, Passed(order, k + 1), longer)
    {
      hide Joined, Poised, Ordering, StartLoop, Passed, Requirements, StartedOne, MayStart, EventsOf;
      var id := order[k];
      ghost var before := Now();
      if id in stopFailed {
        StartLoopSkip(start, before, units, stopFailed, order, k, events);
        longer := events;
      } else {
        MayStartNext(start, before, units, stopFailed, order, k, events);
        ghost var o := StartUnit(id, units[id]);
        StartLoopStep(start, before, Now(), units, stopFailed, order, k, events, o);
        longer := events + EventsOf(o, id, units[id]);
      }
    }

    /** Lines 100-110: rejects incomplete or repeated declarations. */
    method Declare(desired: seq<Declaration>) returns (units: map<Id, Unit>, ok: bool, problem: Refusal)
      ensures ok <==> WellDeclared(desired)
      ensures !ok ==> problem.Incomplete? || problem.Duplicate?
      ensures WellDeclared(desired) ==> units == UnitsOf(desired)
    {
      units := map[];
      for i := 0 to |desired|
        invariant WellDeclared(desired[..i]) && units == UnitsOf(desired[..i])
        invariant units.Keys == set j | 0 <= j < i :: desired[j].id
      {
        var d := desired[i];
        if !d.named || !d.hasStart || !d.hasStop {
          return units, false, Incomplete;
        }
        if d.id in units {
          assert exists j :: 0 <= j < i && desired[j].id == d.id;
          return units, false, Duplicate(d.id);
        }
        DeclaredNext(desired, i);
        hide WellDeclared, UnitsOf;
        units := units[d.id := d.unit];
      }
      assert desired[..|desired|] == desired;
      return units, true, Incomplete;
    }

    /** Lines 183-187: closes the restart set over the recorded requirements as well. */
    method CloseRestart(order: seq<Id>, stopUnits: map<Id, Unit>, restart0: set<Id>) returns (restart: set<Id>)
      requires Ordering(Requirements(stopUnits), order)
      ensures restart0 <= restart && UpwardClosed(stopUnits, restart)
      ensures UpwardClosed(stopUnits, restart0) ==> restart == restart0
    {
      restart := restart0;
      for i := 0 to |order|
        invariant restart0 <= restart <= restart0 + Passed(order, i)
        invariant UpwardClosed(stopUnits, restart0) ==> restart == restart0
        invariant forall id, d :: id in Passed(order, i) && id in stopUnits && d in stopUnits[id].needs && d in restart ==> id in restart
      {
        PassedStep(stopUnits, order, i);
        if NeedsAny(stopUnits[order[i]], restart) {
          restart := restart + {order[i]};
        }
      }
      PassedAll(stopUnits, order);
    }

    /** Lines 149-273: the callback part, for declarations whose graphs are in order. */
    method Drive(units: map<Id, Unit>, order: seq<Id>, stopUnits: map<Id, Unit>, stopOrder: seq<Id>) returns (ghost events: seq<Event>)
      requires Valid() && instances.Keys <= units.Keys
      requires Ordering(Requirements(units), order)
      requires stopUnits == StopUnits(units, instances) && Ordering(Requirements(stopUnits), stopOrder)
      modifies this
      ensures Valid() && Report(old(Now()), Now(), units, events)
      ensures combined == FailuresOf(events)
    {
      ghost var s0 := Now();
      OrderingRefutesCycles(Requirements(units), order);
      began, combined := |history|, [];
      Note(Began);
      ghost var s1 := Now();
      hide Joined, Consistent, Ordering, Requirements, ObservedAll, StopLoop, StartLoop, Poised, UpwardClosed, SpeaksFor, NeedsDeclared, Acyclic, Known, Members, Report, Replay;
      var restart, stopFailed;
      ghost var ev1, ev2, ev3;
      restart, ev1 := Observe(order, units);
      ghost var s2 := Now();
      ObservedGives(s0, s1, s2, units, restart, ev1, stopUnits);
      restart := CloseRestart(stopOrder, stopUnits, restart);
      stopFailed, ev2 := StopPhase(stopOrder, stopUnits, restart);
      ghost var s3 := Now();
      StopGives(s1, s2, s3, units, restart, stopFailed, ev1, ev2);
      ev3 := StartPhase(order, units, stopFailed);
      ghost var s4 := Now();
      events := Reported(s0, s1, s2, s3, s4, units, order, restart, stopFailed, ev1, ev2, ev3);
      InvariantSurvives(s0, s1, s2, s3, s4, units, restart, stopFailed, ev1, ev2, ev3);
      assert Report(s0, s4, units, events);
    }

    /**
     One Reconcile, called with a context that is live or has ended. A refusal changes nothing and is due to an ended context, a malformed declaration or a
     graph that is unknown or cyclic. Otherwise the failures returned are exactly those of the callbacks,
     in order; without failures the units settle, and settled units are not touched again.
     */
    method Reconcile(desired: seq<Declaration>, live: bool) returns (v: Verdict, ghost events: seq<Event>)
      requires Valid()
      modifies this
      ensures Valid()
      ensures v.Refused? ==> Now() == old(Now()) && combined == old(combined)
      ensures v == Refused(Ended) <==> !live
      ensures v.Refused? && (v.why.Incomplete? || v.why.Duplicate?) ==> !WellDeclared(desired)
      ensures v.Reconciled? || (v.Refused? && v.why.BadGraph?) ==> WellDeclared(desired)
      ensures v.Refused? && v.why.BadGraph? ==>
                var units := UnitsOf(desired);
                !(Known(Requirements(units)) && Acyclic(Requirements(units))
                  && Acyclic(Requirements(Merged(units, old(instances)))))
      ensures v.Reconciled? ==>
                var units := UnitsOf(desired);
                && Known(Requirements(units)) && Acyclic(Requirements(units))
                && Acyclic(Requirements(Merged(units, old(instances))))
                && Report(old(Now()), Now(), Merged(units, old(instances)), events)
                && v.failures == FailuresOf(events)
    {
      events := [];
      if !live {
        return Refused(Ended), [];
      }
      var units, ok, problem := Declare(desired);
      if !ok {
        return Refused(problem), [];
      }
      var first := OrderUnits(Requirements(units));
      if first.Rejected? {
        return Refused(BadGraph(first.reason)), [];
      }
      var merged := Merged(units, instances);
      var second := OrderUnits(Requirements(merged));
      MergedGraphKnown(units, instances);
      if second.Rejected? {
        return Refused(BadGraph(second.reason)), [];
      }
      var stopUnits := StopUnits(merged, instances);
      StopGraphIsFine(Now(), merged);
      var third := OrderUnits(Requirements(stopUnits));
      hide Acyclic, Known, Consistent, Report, NeedsDeclared, Ordering, Joined, WellDeclared;
      events := Drive(merged, second.order, stopUnits, third.order);
      v := Reconciled(combined);
    }
  }
}
