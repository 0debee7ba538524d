/**
 What the three loops of a reconciliation do - observing, stopping, starting - stated over snapshots of
 the reconciler's records, with the lemmas that carry each loop from one unit to the next.
 */
module ReconcileLoops {
  import opened Collections
  import opened DependencyGraph
  import opened LifecycleHistory

  // ---- one reconciliation, as seen by its specification ----

  /** The reconciler's records, its health snapshot, and its history of calls. */
  datatype Snapshot = Snapshot(instances: map<Id, Instance>, published: map<Id, State>, history: seq<Event>)

  function Said(s: Snapshot, e: Event): Snapshot {
    s.(history := s.history + [e])
  }

  predicate Live(instances: map<Id, Instance>, id: Id) {
    id in instances && instances[id].active
  }

  ghost function LiveOf(instances: map<Id, Instance>): map<Id, Unit> {
    map id | id in instances && instances[id].active :: instances[id].unit
  }

  predicate Sound(i: Instance) {
    (i.pendingStop ==> i.active) && (i.active && !i.pendingStop ==> i.revision == i.unit.revision)
  }

  ghost predicate AllSound(instances: map<Id, Instance>) {
    forall id :: id in instances ==> Sound(instances[id])
  }

  ghost predicate NeedsDeclared(instances: map<Id, Instance>) {
    forall id, d :: id in instances && d in instances[id].unit.needs ==> d in instances
  }

  /** Every callback so far was legal, and the records agree with what the callbacks left behind. */
  ghost predicate Consistent(s: Snapshot) {
    && Safe(s.history)
    && Replay(s.history).live == LiveOf(s.instances)
    && AllSound(s.instances)
  }

  ghost function Ready(s: Snapshot): set<Id> {
    Replay(s.history).ready
  }

  lemma LiveOfUpdate(instances: map<Id, Instance>, id: Id, i: Instance)
    ensures LiveOf(instances[id := i]) == if i.active then LiveOf(instances)[id := i.unit] else LiveOf(instances) - {id}
    ensures Live(instances, id) <==> id in LiveOf(instances)
    ensures AllSound(instances) && Sound(i) ==> AllSound(instances[id := i])
  {
  }

  /** Recording a unit as the callback left it keeps the records consistent. */
  lemma RecordIsConsistent(s: Snapshot, e: Event, id: Id, i: Instance)
    requires Consistent(s) && Legal(Replay(s.history), e) && Sound(i)
    requires Apply(Replay(s.history), e).live
             == if i.active then Replay(s.history).live[id := i.unit] else Replay(s.history).live - {id}
    ensures Consistent(Said(s, e).(instances := s.instances[id := i]))
    ensures Ready(Said(s, e)) == Apply(Replay(s.history), e).ready
  {
    Extended(s.history, e);
    LiveOfUpdate(s.instances, id, i);
    hide LiveOf, AllSound, Safe, Legal, Apply;
  }

  /** Events that change no owner. */
  lemma SaidIsConsistent(s: Snapshot, e: Event)
    requires Consistent(s) && Legal(Replay(s.history), e)
    requires Apply(Replay(s.history), e).live == Replay(s.history).live
    ensures Consistent(Said(s, e))
    ensures Ready(Said(s, e)) == Apply(Replay(s.history), e).ready
  {
    Extended(s.history, e);
    hide LiveOf, AllSound, Safe, Legal, Apply;
  }

  /** Rewrites that leave the owners and the history alone. */
  lemma RewriteIsConsistent(s: Snapshot, id: Id, i: Instance)
    requires Consistent(s) && Sound(i)
    requires if i.active then Live(s.instances, id) && s.instances[id].unit == i.unit else !Live(s.instances, id)
    ensures Consistent(s.(instances := s.instances[id := i]))
  {
    LiveOfUpdate(s.instances, id, i);
    assert LiveOf(s.instances[id := i]) == LiveOf(s.instances);
    hide Safe, Replay;
  }

  lemma LiveUnit(s: Snapshot, id: Id)
    requires Consistent(s)
    ensures Live(s.instances, id) <==> id in Replay(s.history).live
    ensures Live(s.instances, id) ==> Replay(s.history).live[id] == s.instances[id].unit
    ensures Ready(s) <= Replay(s.history).live.Keys
    ensures ClosedUnderNeeds(Replay(s.history).live)
  {
    SafeHistoryIsClosed(s.history);
  }

  // ---- observing ----

  /** What makes line 173 mark a unit for restart on its own account. */
  predicate MustRestart(unit: Unit, current: Instance) {
    !unit.enabled || current.pendingStop
    || (current.active && (current.revision != unit.revision || current.unit.needs != unit.needs))
  }

  predicate NeedsAny(unit: Unit, ids: set<Id>) {
    exists d :: d in unit.needs && d in ids
  }

  /** Lines 151-172: an exited owner is only marked; nothing else of a known unit changes. */
  ghost predicate Refreshed(s: Snapshot, t: Snapshot, id: Id, unit: Unit) {
    t.published == s.published &&
    var known := if id in s.instances then s.instances[id] else Instance(unit, unit.revision, false, false);
    var probed := !known.pendingStop && (if known.active then known.unit.observable else unit.observable);
    if probed
    then (exists running: bool ::
            && (running ==> known.active)
            && t == Said(s, Observed(id, running)).(instances := s.instances[id := known.(pendingStop := known.active && !running)]))
    else t == s.(instances := s.instances[id := known])
  }

  ghost predicate RestartRule(units: map<Id, Unit>, instances: map<Id, Instance>, restart: set<Id>, id: Id) {
    && id in units && id in instances
    && (id in restart <==> MustRestart(units[id], instances[id]) || NeedsAny(units[id], restart))
  }

  /** Observing changes nothing of a known unit but `pendingStop`, which only a probe reporting an exit sets. */
  ghost predicate Observation(before: map<Id, Instance>, after: map<Id, Instance>, units: map<Id, Unit>, events: seq<Event>) {
    && before.Keys <= after.Keys <= before.Keys + units.Keys
    && (forall id :: id in before ==> after[id] == before[id].(pendingStop := after[id].pendingStop))
    && (forall id :: id in after && id !in before ==>
          id in units && after[id] == Instance(units[id], units[id].revision, false, false))
    && (forall id :: id in after && after[id].pendingStop ==>
          || (id in before && before[id].pendingStop)
          || (after[id].active && Observed(id, false) in events))
    && (forall id :: id in before && before[id].pendingStop ==> after[id].pendingStop)
    && (forall id :: id in after && after[id].active && Observed(id, false) in events ==> after[id].pendingStop)
  }

  /** A unit is asked whether it still runs: the live one if there is one, unless it is to be stopped anyway. */
  predicate Probed(units: map<Id, Unit>, before: map<Id, Instance>, id: Id)
    requires id in units
  {
    if id in before
    then !before[id].pendingStop && (if before[id].active then before[id].unit.observable else units[id].observable)
    else units[id].observable
  }

  predicate Probe(e: Event, id: Id) {
    e.Observed? && e.id == id
  }

  ghost predicate IsProbed(events: seq<Event>, id: Id) {
    exists e :: e in events && Probe(e, id)
  }

  /** Of the units passed, exactly those were probed; no other was. */
  ghost predicate ProbesFit(units: map<Id, Unit>, before: map<Id, Instance>, passed: set<Id>, events: seq<Event>) {
    forall id :: id in units ==> (IsProbed(events, id) <==> id in passed && Probed(units, before, id))
  }

  lemma ProbesStep(units: map<Id, Unit>, before: map<Id, Instance>, passed: set<Id>, id: Id, events: seq<Event>, more: seq<Event>)
    requires ProbesFit(units, before, passed, events) && id in units && id !in passed
    requires if Probed(units, before, id) then exists running :: more == [Observed(id, running)] else more == []
    ensures ProbesFit(units, before, passed + {id}, events + more)
  {
    hide Probed;
    if more != [] {
      assert Probe(more[0], id) && more[0] in events + more;
    }
    forall x | x in units ensures IsProbed(events + more, x) <==> IsProbed(events, x) || (x == id && more != []) {
      if e :| e in events && Probe(e, x) {
        assert e in events + more;
      }
    }
  }

  /** A unit not passed is as it was before. */
  lemma NotYetProbed(start: map<Id, Instance>, now: map<Id, Instance>, units: map<Id, Unit>, passed: set<Id>, id: Id, events: seq<Event>)
    requires Observation(start, now, units, events) && ProbesFit(units, start, passed, events)
    requires id in units && id !in passed && now.Keys == start.Keys + passed
    ensures id in now <==> id in start
    ensures id in now ==> now[id] == start[id]
    ensures Probed(units, now, id) <==> Probed(units, start, id)
  {
    assert !IsProbed(events, id);
    assert Observed(id, false) in events ==> Probe(Observed(id, false), id);
  }

  ghost predicate OnlyObserved(events: seq<Event>) {
    forall e :: e in events ==> e.Observed?
  }

  lemma RefreshedIsConsistent(s: Snapshot, t: Snapshot, id: Id, unit: Unit) returns (events: seq<Event>)
    requires Consistent(s) && Refreshed(s, t, id, unit)
    ensures Consistent(t) && Replay(t.history) == Replay(s.history)
    ensures t.history == s.history + events && (events == [] || exists running :: events == [Observed(id, running)])
    ensures t.instances == s.instances[id := t.instances[id]]
    ensures t.instances[id] == (if id in s.instances then s.instances[id] else Instance(unit, unit.revision, false, false))
                               .(pendingStop := t.instances[id].pendingStop)
    ensures t.instances[id].pendingStop ==>
              || (id in s.instances && s.instances[id].pendingStop)
              || (t.instances[id].active && events == [Observed(id, false)])
    ensures id in s.instances && s.instances[id].pendingStop ==> t.instances[id].pendingStop
    ensures t.instances[id].active && events == [Observed(id, false)] ==> t.instances[id].pendingStop
    ensures forall units :: id in units && units[id] == unit ==> (Probed(units, s.instances, id) <==> events != [])
  {
    var known := if id in s.instances then s.instances[id] else Instance(unit, unit.revision, false, false);
    var probed := !known.pendingStop && (if known.active then known.unit.observable else unit.observable);
    RewriteIsConsistent(s, id, known);
    if probed {
      var running :| (running ==> known.active)
        && t == Said(s, Observed(id, running)).(instances := s.instances[id := known.(pendingStop := known.active && !running)]);
      events := [Observed(id, running)];
      SaidIsConsistent(s, Observed(id, running));
      Extended(s.history, Observed(id, running));
      RewriteIsConsistent(Said(s, Observed(id, running)), id, known.(pendingStop := known.active && !running));
    } else {
      events := [];
    }
  }

  lemma ObservationStep(start: map<Id, Instance>, before: map<Id, Instance>, after: map<Id, Instance>, units: map<Id, Unit>,
                        id: Id, events: seq<Event>, more: seq<Event>)
    requires Observation(start, before, units, events) && id in units && OnlyObserved(events)
    requires more == [] || exists running :: more == [Observed(id, running)]
    requires id in after && after == before[id := after[id]]
    requires after[id] == (if id in before then before[id] else Instance(units[id], units[id].revision, false, false))
                          .(pendingStop := after[id].pendingStop)
    requires after[id].pendingStop ==> || (id in before && before[id].pendingStop)
                                       || (after[id].active && more == [Observed(id, false)])
    requires id in before && before[id].pendingStop ==> after[id].pendingStop
    requires after[id].active && more == [Observed(id, false)] ==> after[id].pendingStop
    ensures Observation(start, after, units, events + more) && OnlyObserved(events + more)
  {
    assert forall e :: e in events ==> e in events + more;
    if more != [] {
      assert more[0] in events + more;
    }
  }

  ghost function Passed(order: seq<Id>, k: nat): set<Id>
    requires k <= |order|
  {
    Members(order[..k])
  }

  ghost function Beyond(order: seq<Id>, k: nat): set<Id>
    requires k <= |order|
  {
    Members(order[k..])
  }

  /** The observation loop once it has passed the units in `passed`. */
  ghost predicate Observing(s: Snapshot, t: Snapshot, units: map<Id, Unit>, passed: set<Id>, restart: set<Id>, events: seq<Event>) {
    && Consistent(t) && Replay(t.history) == Replay(s.history)
    && t.history == s.history + events && OnlyObserved(events)
    && t.instances.Keys == s.instances.Keys + passed && t.published.Keys == passed
    && Observation(s.instances, t.instances, units, events) && ProbesFit(units, s.instances, passed, events)
    && restart <= passed && forall id :: id in passed ==> RestartRule(units, t.instances, restart, id)
  }

  /** The outcome of the whole loop. */
  ghost predicate ObservedAll(s: Snapshot, t: Snapshot, units: map<Id, Unit>, restart: set<Id>, events: seq<Event>) {
    && Consistent(t) && Replay(t.history) == Replay(s.history)
    && t.history == s.history + events && OnlyObserved(events)
    && t.instances.Keys == t.published.Keys == units.Keys
    && Observation(s.instances, t.instances, units, events) && ProbesFit(units, s.instances, units.Keys, events)
    && restart <= units.Keys && forall id :: id in units ==> RestartRule(units, t.instances, restart, id)
  }

  lemma ObservingStep(s: Snapshot, t: Snapshot, u: Snapshot, v: Snapshot, units: map<Id, Unit>, order: seq<Id>, k: nat,
                      restart0: set<Id>, restart: set<Id>, events: seq<Event>) returns (longer: seq<Event>)
    requires Ordering(Requirements(units), order) && k < |order| && order[k] in units
    requires Observing(s, t, units, Passed(order, k), restart0, events)
    requires Refreshed(t, u, order[k], units[order[k]]) && order[k] in u.instances
    requires v == u.(published := u.published[order[k] := if u.instances[order[k]].active then Running else Stopped])
    requires restart == if MustRestart(units[order[k]], u.instances[order[k]]) || NeedsAny(units[order[k]], restart0)
                        then restart0 + {order[k]} else restart0
    ensures Observing(s, v, units, Passed(order, k + 1), restart, longer)
  {
    var id := order[k];
    assert Members(order[..k + 1]) == Members(order[..k]) + {id} by { Prefix(Requirements(units), order, k); }
    var more := RefreshedIsConsistent(t, u, id, units[id]);
    assert id !in Members(order[..k]) by { Prefix(Requirements(units), order, k); }
    hide Probed, Probe, IsProbed;
    NotYetProbed(s.instances, t.instances, units, Members(order[..k]), id, events);
    hide Consistent, Refreshed, Replay, Ordering, RestartRule, MustRestart, NeedsAny, Observation, OnlyObserved, Members, Requirements,
      ProbesFit;
    ProbesStep(units, s.instances, Passed(order, k), id, events, more);
    ObservationStep(s.instances, t.instances, u.instances, units, id, events, more);
    RestartStep(units, t.instances, u.instances, order, k, restart0, restart);
    longer := events + more;
    KeysOfUpdate(t.instances, id, u.instances[id]);
    KeysOfUpdate(u.published, id, v.published[id]);
    UnionAssociates(s.instances.Keys, Members(order[..k]), {id});
    ConcatAssociates(s.history, events, more);
  }

  lemma ObservingDone(s: Snapshot, t: Snapshot, units: map<Id, Unit>, order: seq<Id>, restart: set<Id>, events: seq<Event>)
    requires Ordering(Requirements(units), order) && s.instances.Keys <= units.Keys
    requires Observing(s, t, units, Passed(order, |order|), restart, events)
    ensures ObservedAll(s, t, units, restart, events)
  {
    assert order[..|order|] == order && Members(order) == units.Keys;
  }

  /** The restart rule, once it holds for the units passed, is not disturbed by passing the next one. */
  lemma RestartStep(units: map<Id, Unit>, before: map<Id, Instance>, after: map<Id, Instance>, order: seq<Id>, k: nat,
                    restart0: set<Id>, restart: set<Id>)
    requires Ordering(Requirements(units), order) && k < |order| && restart0 <= Members(order[..k])
    requires forall id :: id in Members(order[..k]) ==> RestartRule(units, before, restart0, id)
    requires order[k] in after && after == before[order[k] := after[order[k]]] && order[k] in units
    requires restart == if MustRestart(units[order[k]], after[order[k]]) || NeedsAny(units[order[k]], restart0)
                        then restart0 + {order[k]} else restart0
    ensures restart <= Members(order[..k + 1])
    ensures forall id :: id in Members(order[..k + 1]) ==> RestartRule(units, after, restart, id)
  {
    Prefix(Requirements(units), order, k);
    forall id | id in Members(order[..k + 1]) ensures RestartRule(units, after, restart, id) {
      assert id in units;
      NeedsBefore(units, order, k, id);
      assert NeedsAny(units[id], restart) <==> NeedsAny(units[id], restart0);
      if id != order[k] {
        assert RestartRule(units, before, restart0, id);
      }
    }
  }

  lemma NeedsBefore(units: map<Id, Unit>, order: seq<Id>, k: nat, id: Id)
    requires Ordering(Requirements(units), order) && k < |order|
    requires id in Members(order[..k + 1])
    ensures id in units && forall d :: d in units[id].needs ==> d in Members(order[..k])
  {
    var j :| 0 <= j <= k && order[j] == id;
    assert id in Members(order);
    forall d | d in units[id].needs ensures d in Members(order[..k]) {
      assert Edge(Requirements(units), id, d);
      assert d in order[..j];
    }
  }

  lemma Listed(units: map<Id, Unit>, order: seq<Id>, k: nat)
    requires Ordering(Requirements(units), order) && k < |order|
    ensures order[k] in units
  {
    assert order[k] in Members(order);
  }

  lemma Prefix(g: Graph<Id>, order: seq<Id>, k: nat)
    requires Ordering(g, order) && k < |order|
    ensures order[k] in g && order[k] !in order[..k] && order[k] !in order[k + 1..]
    ensures order[..k + 1] == order[..k] + [order[k]] && order[k..] == [order[k]] + order[k + 1..]
    ensures Members(order[..k + 1]) == Members(order[..k]) + {order[k]}
    ensures Members(order[k..]) == Members(order[k + 1..]) + {order[k]}
    ensures order[k] !in Members(order[k + 1..])
  {
    assert order[k] in Members(order);
    assert order[..k + 1] == order[..k] + [order[k]];
    assert order[k..] == [order[k]] + order[k + 1..];
  }

  // ---- stopping ----

  ghost predicate UpwardClosed(units: map<Id, Unit>, restart: set<Id>) {
    forall id, d :: id in units && d in units[id].needs && d in restart ==> id in restart
  }

  /** The graph by which units are stopped: a live unit stops under its recorded requirements. */
  function StopUnits(units: map<Id, Unit>, instances: map<Id, Instance>): map<Id, Unit> {
    map id | id in units :: if Live(instances, id) then instances[id].unit else units[id]
  }

  /** `stopUnits` speaks for exactly the recorded units and agrees with every live one. */
  ghost predicate SpeaksFor(stopUnits: map<Id, Unit>, instances: map<Id, Instance>) {
    && stopUnits.Keys == instances.Keys
    && forall id :: Live(instances, id) ==> stopUnits[id] == instances[id].unit
  }

  ghost predicate NothingToStop(instances: map<Id, Instance>, restart: set<Id>) {
    forall id :: Live(instances, id) ==> id !in restart
  }

  ghost predicate StopRule(before: Instance, after: Instance, restarting: bool, failed: bool) {
    if before.active && restarting
    then if failed
         then after == before.(pendingStop := after.pendingStop) && (before.pendingStop ==> after.pendingStop)
         else after == before.(active := false, pendingStop := false)
    else after == before && !failed
  }

  /** What the stop loop has done: a restarting live unit is stopped or kept; units not passed are untouched. */
  ghost predicate StopOutcome(before: map<Id, Instance>, after: map<Id, Instance>, restart: set<Id>,
                              stopFailed: set<Id>, passed: set<Id>)
  {
    && before.Keys == after.Keys && stopFailed <= passed && stopFailed <= before.Keys
    && (forall id :: id in before && id in passed ==> StopRule(before[id], after[id], id in restart, id in stopFailed))
    && (forall id :: id in before && id !in passed ==> after[id] == before[id])
  }

  /** An owner whose stop failed is still recorded, live and pending a stop. */
  ghost predicate Pending(events: seq<Event>, instances: map<Id, Instance>) {
    forall e :: e in events && e.StopCalled? && !e.ok ==>
      Live(instances, e.id) && instances[e.id].pendingStop && instances[e.id].unit == e.unit
  }

  /** Only restarting units are stopped; a failed stop is among the calls, and without one nothing is kept back. */
  ghost predicate StopEvents(events: seq<Event>, stopFailed: set<Id>, restart: set<Id>) {
    && (forall e :: e in events ==> e.StopCalled? && e.id in restart && (!e.ok ==> e.id in stopFailed))
    && (AllSucceeded(events) ==> stopFailed == {})
  }

  predicate StopFails(events: seq<Event>, id: Id) {
    exists i :: 0 <= i < |events| && events[i].StopCalled? && events[i].id == id && !events[i].ok
  }

  /** A unit kept back is shown Stopping when its own Stop failed, and Blocked when that of a consumer did. */
  ghost predicate KeptBack(published: map<Id, State>, stopFailed: set<Id>, events: seq<Event>) {
    forall id :: id in stopFailed ==> id in published && published[id] == if StopFails(events, id) then Stopping else Blocked
  }

  /** Lines 192-218 for one unit. */
  ghost predicate StoppedOne(t: Snapshot, u: Snapshot, stopUnits: map<Id, Unit>, id: Id, restarting: bool,
                             failed0: set<Id>, failed: set<Id>, more: seq<Event>)
  {
    id in t.instances &&
    var current := t.instances[id];
    var blocked := exists c :: c in stopUnits && id in stopUnits[c].needs && c in failed0;
    if !current.active || !restarting then
      u == t && failed == failed0 && more == []
    else if blocked then
      u == t.(published := t.published[id := Blocked]) && failed == failed0 + {id} && more == []
    else if more == [StopCalled(id, current.unit, true)] then
      && failed == failed0
      && u == Said(t, more[0]).(instances := t.instances[id := current.(active := false, pendingStop := false)],
                               published := t.published[id := Stopped])
    else
      && more == [StopCalled(id, current.unit, false)] && failed == failed0 + {id}
      && u == Said(t, more[0]).(instances := t.instances[id := current.(pendingStop := true)],
                               published := t.published[id := Stopping])
  }

  /** The stop loop once it has passed the units in `passed`. */
  ghost predicate StopLoop(s: Snapshot, t: Snapshot, restart: set<Id>, stopFailed: set<Id>, passed: set<Id>, events: seq<Event>) {
    && Consistent(t) && Ready(t) == {}
    && t.history == s.history + events && StopEvents(events, stopFailed, restart) && Pending(events, t.instances)
    && t.published.Keys == s.published.Keys && KeptBack(t.published, stopFailed, events)
    && StopOutcome(s.instances, t.instances, restart, stopFailed, passed)
    && (NothingToStop(s.instances, restart) ==> events == [])
  }

  /** When no consumer in the stop graph failed to stop, every live unit is free of the one being stopped. */
  lemma ConsumersStopped(stopUnits: map<Id, Unit>, order: seq<Id>, i: nat, before: map<Id, Instance>,
                         after: map<Id, Instance>, restart: set<Id>, stopFailed: set<Id>)
    requires Ordering(Requirements(stopUnits), order) && i < |order|
    requires UpwardClosed(stopUnits, restart) && order[i] in restart && SpeaksFor(stopUnits, before)
    requires StopOutcome(before, after, restart, stopFailed, Members(order[i + 1..]))
    requires !exists c :: c in stopUnits && order[i] in stopUnits[c].needs && c in stopFailed
    ensures forall c :: Live(after, c) ==> order[i] !in after[c].unit.needs
  {
    forall c | Live(after, c) && order[i] in after[c].unit.needs ensures false {
      assert Live(before, c) && stopUnits[c] == before[c].unit by {
        assert c in Members(order[i + 1..]) ==> StopRule(before[c], after[c], c in restart, c in stopFailed);
      }
      assert Edge(Requirements(stopUnits), c, order[i]);
    }
  }

  /** The safety of the stop loop: the history before the call leaves no live unit requiring the stopped one. */
  lemma StopIsLegal(t: Snapshot, id: Id, unit: Unit, ok: bool)
    requires Consistent(t) && Live(t.instances, id) && t.instances[id].unit == unit
    requires forall c :: Live(t.instances, c) ==> id !in t.instances[c].unit.needs
    ensures Legal(Replay(t.history), StopCalled(id, unit, ok))
  {
    forall c | c in Replay(t.history).live ensures id !in Replay(t.history).live[c].needs {
      assert Live(t.instances, c);
    }
  }

  lemma StopEventsStep(events: seq<Event>, more: seq<Event>, failed0: set<Id>, failed: set<Id>, restart: set<Id>)
    requires StopEvents(events, failed0, restart)
    requires || (more == [] && (failed == failed0 || failed0 != {}))
             || (|more| == 1 && more[0].StopCalled? && more[0].id in restart
                 && (if more[0].ok then failed == failed0 else more[0].id in failed))
    requires failed0 <= failed
    ensures StopEvents(events + more, failed, restart)
  {
    if AllSucceeded(events + more) {
      forall e | e in events ensures Succeeded(e) { assert e in events + more; }
      if more != [] {
        assert more[0] in events + more;
        assert Succeeded(more[0]);
      }
    }
  }

  lemma PendingStep(events: seq<Event>, more: seq<Event>, failed: set<Id>, before: map<Id, Instance>, after: map<Id, Instance>, id: Id)
    requires Pending(events, before) && Pending(more, after) && id !in failed
    requires forall e :: e in events && e.StopCalled? && !e.ok ==> e.id in failed
    requires id in after && after == before[id := after[id]]
    ensures Pending(events + more, after)
  {
  }

  lemma StopOutcomeStep(before: map<Id, Instance>, mid: map<Id, Instance>, after: map<Id, Instance>, restart: set<Id>,
                        failed0: set<Id>, failed: set<Id>, passed: set<Id>, id: Id)
    requires StopOutcome(before, mid, restart, failed0, passed) && id !in passed && id in mid && id in after
    requires after == mid[id := after[id]] && (failed == failed0 || failed == failed0 + {id})
    requires StopRule(mid[id], after[id], id in restart, id in failed)
    ensures StopOutcome(before, after, restart, failed, passed + {id})
  {
    KeysOfUpdate(mid, id, after[id]);
  }

  lemma StopStepConsistent(s: Snapshot, t: Snapshot, u: Snapshot, stopUnits: map<Id, Unit>, order: seq<Id>, i: nat,
                           restart: set<Id>, failed0: set<Id>, failed: set<Id>, events: seq<Event>, more: seq<Event>)
    requires Ordering(Requirements(stopUnits), order) && i < |order| && UpwardClosed(stopUnits, restart)
    requires SpeaksFor(stopUnits, s.instances)
    requires StopLoop(s, t, restart, failed0, Beyond(order, i + 1), events)
    requires StoppedOne(t, u, stopUnits, order[i], order[i] in restart, failed0, failed, more)
    ensures Consistent(u) && Ready(u) == {} && u.history == t.history + more
  {
    var id := order[i];
    StopMayProceed(s, t, stopUnits, order, i, restart, failed0, events);
    hide StopLoop, StopOutcome, StopEvents, KeptBack, Ordering, UpwardClosed, SpeaksFor, Requirements, Members, Safe;
    if more != [] {
      StopRecorded(t, id, t.instances[id], more[0].ok);
    }
    hide Consistent, Replay;
    assert more == [] ==> t.history + more == t.history;
  }

  lemma StopLoopStart(s: Snapshot, restart: set<Id>, order: seq<Id>)
    requires Consistent(s) && Ready(s) == {}
    ensures StopLoop(s, s, restart, {}, Beyond(order, |order|), []) && Beyond(order, 0) == Members(order)
  {
    assert order[|order|..] == [] && s.history + [] == s.history && order[0..] == order;
  }

  lemma StopLoopStep(s: Snapshot, t: Snapshot, u: Snapshot, stopUnits: map<Id, Unit>, order: seq<Id>, i: nat, restart: set<Id>,
                     failed0: set<Id>, failed: set<Id>, events: seq<Event>, more: seq<Event>)
    requires Ordering(Requirements(stopUnits), order) && i < |order| && UpwardClosed(stopUnits, restart)
    requires SpeaksFor(stopUnits, s.instances) && s.published.Keys == s.instances.Keys
    requires StopLoop(s, t, restart, failed0, Beyond(order, i + 1), events)
    requires StoppedOne(t, u, stopUnits, order[i], order[i] in restart, failed0, failed, more)
    ensures StopLoop(s, u, restart, failed, Beyond(order, i), events + more)
  {
    var id := order[i];
    StopStepConsistent(s, t, u, stopUnits, order, i, restart, failed0, failed, events, more);
    Prefix(Requirements(stopUnits), order, i);
    StoppedShape(t, u, stopUnits, id, id in restart, failed0, failed, more);
    assert Live(t.instances, id) ==> Live(s.instances, id);
    assert forall e :: e in events && e.StopCalled? && !e.ok ==> e.id in failed0;
    hide Consistent, Ordering, Requirements, UpwardClosed, SpeaksFor, Replay, Members, Legal, StopEvents, StoppedOne, StopRule, KeptBack, Pending;
    StopOutcomeStep(s.instances, t.instances, u.instances, restart, failed0, failed, Members(order[i + 1..]), id);
    StopEventsStep(events, more, failed0, failed, restart);
    PendingStep(events, more, failed0, t.instances, u.instances, id);
    ConcatAssociates(s.history, events, more);
    PublishedStep(t.published, u.published, failed0, failed, id, events, more);
  }

  lemma StoppedShape(t: Snapshot, u: Snapshot, stopUnits: map<Id, Unit>, id: Id, restarting: bool,
                     failed0: set<Id>, failed: set<Id>, more: seq<Event>)
    requires StoppedOne(t, u, stopUnits, id, restarting, failed0, failed, more) && id !in failed0
    ensures id in u.instances && u.instances == t.instances[id := u.instances[id]]
    ensures StopRule(t.instances[id], u.instances[id], restarting, id in failed)
    ensures failed == failed0 || failed == failed0 + {id}
    ensures || (u.published == t.published && failed == failed0)
            || (id in u.published && u.published == t.published[id := u.published[id]]
                && (failed == failed0 || u.published[id] == if more == [] then Blocked else Stopping))
    ensures || (more == [] && (failed == failed0 || failed0 != {}))
            || (|more| == 1 && more[0].StopCalled? && more[0].id == id && more[0].ok == (failed == failed0) && (if more[0].ok then failed == failed0 else more[0].id in failed))
    ensures Pending(more, u.instances)
    ensures more != [] ==> Live(t.instances, id) && restarting
  {
    assert t.instances[id := t.instances[id]] == t.instances;
  }

  lemma PublishedStep(before: map<Id, State>, after: map<Id, State>, failed0: set<Id>, failed: set<Id>, id: Id,
                      events: seq<Event>, more: seq<Event>)
    requires KeptBack(before, failed0, events) && id in before && id !in failed0
    requires forall e :: e in events && e.StopCalled? && !e.ok ==> e.id in failed0
    requires more == [] || (|more| == 1 && more[0].StopCalled? && more[0].id == id && more[0].ok == (failed == failed0))
    requires || (after == before && failed == failed0)
             || (id in after && after == before[id := after[id]]
                 && (failed == failed0 || (failed == failed0 + {id} && after[id] == if more == [] then Blocked else Stopping)))
    ensures KeptBack(after, failed, events + more) && after.Keys == before.Keys
  {
    forall x | x in failed ensures StopFails(events + more, x) <==> if x == id then more != [] else StopFails(events, x) {
      FailsAfter(events, more, x);
      if StopFails(events, x) {
        var i :| 0 <= i < |events| && events[i].StopCalled? && events[i].id == x && !events[i].ok;
        assert events[i] in events;
      }
    }
    hide StopFails;
  }

  lemma FailsAfter(events: seq<Event>, more: seq<Event>, id: Id)
    ensures StopFails(events + more, id) <==> StopFails(events, id) || StopFails(more, id)
  {
    var all := events + more;
    assert forall i :: 0 <= i < |events| ==> all[i] == events[i];
    assert forall i :: 0 <= i < |more| ==> all[|events| + i] == more[i];
    if StopFails(all, id) {
      var i :| 0 <= i < |all| && all[i].StopCalled? && all[i].id == id && !all[i].ok;
      assert if i < |events| then events[i] == all[i] else more[i - |events|] == all[i];
    }
  }

  lemma StopRecorded(t: Snapshot, id: Id, current: Instance, ok: bool)
    requires Consistent(t) && Live(t.instances, id) && t.instances[id] == current
    requires Legal(Replay(t.history), StopCalled(id, current.unit, true)) && Ready(t) == {}
    ensures var i := if ok then current.(active := false, pendingStop := false) else current.(pendingStop := true);
            var u := Said(t, StopCalled(id, current.unit, ok)).(instances := t.instances[id := i]);
            forall published :: Consistent(u.(published := published)) && Ready(u.(published := published)) == {}
  {
    var i := if ok then current.(active := false, pendingStop := false) else current.(pendingStop := true);
    var e := StopCalled(id, current.unit, ok);
    LiveUnit(t, id);
    var live := Replay(t.history).live;
    assert live[id := current.unit] == live;
    RecordIsConsistent(t, e, id, i);
  }

  lemma StopMayProceed(s: Snapshot, t: Snapshot, stopUnits: map<Id, Unit>, order: seq<Id>, i: nat, restart: set<Id>,
                       failed: set<Id>, events: seq<Event>)
    requires Ordering(Requirements(stopUnits), order) && i < |order| && UpwardClosed(stopUnits, restart)
    requires SpeaksFor(stopUnits, s.instances)
    requires StopLoop(s, t, restart, failed, Beyond(order, i + 1), events)
    ensures order[i] in t.instances
    ensures Live(t.instances, order[i]) && order[i] in restart
            && !(exists c :: c in stopUnits && order[i] in stopUnits[c].needs && c in failed)
            ==> Legal(Replay(t.history), StopCalled(order[i], t.instances[order[i]].unit, true))
  {
    Prefix(Requirements(stopUnits), order, i);
    if Live(t.instances, order[i]) && order[i] in restart
       && !exists c :: c in stopUnits && order[i] in stopUnits[c].needs && c in failed {
      ConsumersStopped(stopUnits, order, i, s.instances, t.instances, restart, failed);
      StopIsLegal(t, order[i], t.instances[order[i]].unit, true);
    }
  }

  // ---- starting ----

  ghost predicate AllReady(needs: seq<Id>, ready: set<Id>) {
    forall d :: d in needs ==> d in ready
  }

  predicate ShownRunning(published: map<Id, State>, id: Id) {
    id in published && published[id] == Running
  }

  /** How the start loop can leave a unit. */
  datatype Outcome = Disabled | Waiting | OutOfTime | UpdateRefused | Kept | Fresh | Undone | Stuck

  function UpdateEvents(id: Id, unit: Unit): seq<Event> {
    if unit.updatable then [UpdateCalled(id, unit, true)] else []
  }

  /** The callbacks of each outcome, in order. */
  function EventsOf(o: Outcome, id: Id, unit: Unit): seq<Event> {
    match o
    case Disabled => []
    case Waiting => []
    case OutOfTime => [ContextEnded]
    case UpdateRefused => [UpdateCalled(id, unit, false)]
    case Kept => UpdateEvents(id, unit) + [Published(id, unit)]
    case Fresh => UpdateEvents(id, unit) + [StartCalled(id, unit, true), Published(id, unit)]
    case Undone => UpdateEvents(id, unit) + [StartCalled(id, unit, false), StopCalled(id, unit, true)]
    case Stuck => UpdateEvents(id, unit) + [StartCalled(id, unit, false), StopCalled(id, unit, false)]
  }

  function StateOf(o: Outcome): State {
    match o
    case Disabled => Stopped
    case Waiting => Blocked
    case OutOfTime => Blocked
    case UpdateRefused => Failed
    case Kept => Running
    case Fresh => Running
    case Undone => Failed
    case Stuck => Stopping
  }

  function InstanceOf(o: Outcome, unit: Unit, current: Instance): Instance {
    match o
    case Disabled => current.(unit := unit)
    case Kept => current.(unit := unit, revision := unit.revision)
    case Fresh => Instance(unit, unit.revision, true, false)
    case Undone => Instance(unit, current.revision, false, false)
    case Stuck => Instance(unit, current.revision, true, true)
    case _ => current
  }

  /** Which outcomes a unit can have: disabled and waiting ones are never called, active ones never started. */
  ghost predicate Possible(o: Outcome, published: map<Id, State>, unit: Unit, current: Instance) {
    if !unit.enabled then o == Disabled
    else if exists d :: d in unit.needs && !ShownRunning(published, d) then o == Waiting
    else match o
         case OutOfTime => true
         case UpdateRefused => unit.updatable
         case Kept => current.active
         case Fresh => !current.active
         case Undone => !current.active
         case Stuck => !current.active
         case _ => false
  }

  function SaidAll(t: Snapshot, events: seq<Event>): Snapshot {
    t.(history := t.history + events)
  }

  /** Lines 226-272 for one unit whose stop did not fail. */
  ghost predicate StartedOne(t: Snapshot, u: Snapshot, id: Id, unit: Unit, o: Outcome) {
    && id in t.instances && Possible(o, t.published, unit, t.instances[id])
    && u == SaidAll(t, EventsOf(o, id, unit)).(instances := t.instances[id := InstanceOf(o, unit, t.instances[id])],
                                               published := t.published[id := StateOf(o)])
  }

  /** What the start loop may rely on when it reaches a unit. */
  ghost predicate MayStart(t: Snapshot, id: Id, unit: Unit) {
    && Consistent(t) && id in t.instances && id !in Ready(t)
    && (forall d :: d in unit.needs && ShownRunning(t.published, d) ==> d in Ready(t))
    && (t.instances[id].active ==> !MustRestart(unit, t.instances[id]))
  }

  /** Requirements shown Running make Update and Start legal, and a failed Start may be undone at once. */
  lemma StartIsLegal(t: Snapshot, id: Id, unit: Unit, ok: bool)
    requires MayStart(t, id, unit) && AllReady(unit.needs, Ready(t))
    ensures Legal(Replay(t.history), UpdateCalled(id, unit, ok)) && id !in Ready(t)
    ensures !Live(t.instances, id) ==> Legal(Replay(t.history), StartCalled(id, unit, ok))
    ensures Live(t.instances, id) ==> Legal(Replay(t.history), Published(id, unit))
  {
    LiveUnit(t, id);
    if Live(t.instances, id) {
      assert Sound(t.instances[id]);
    }
  }

  lemma UpdateRecorded(t: Snapshot, id: Id, unit: Unit, ok: bool)
    requires MayStart(t, id, unit) && AllReady(unit.needs, Ready(t))
    ensures MayStart(Said(t, UpdateCalled(id, unit, ok)), id, unit)
    ensures Ready(Said(t, UpdateCalled(id, unit, ok))) == Ready(t)
  {
    StartIsLegal(t, id, unit, ok);
    hide Legal, Safe;
    SaidIsConsistent(t, UpdateCalled(id, unit, ok));
  }

  /** Starting: the unit counts as live from the call on; its clean-up or its publication is legal next. */
  lemma StartRecorded(t: Snapshot, id: Id, unit: Unit, ok: bool)
    requires MayStart(t, id, unit) && AllReady(unit.needs, Ready(t)) && !Live(t.instances, id)
    ensures var u := Said(t, StartCalled(id, unit, ok)).(instances := t.instances[id := Instance(unit, t.instances[id].revision, true, true)]);
            && Consistent(u) && Ready(u) == Ready(t)
            && Legal(Replay(u.history), Published(id, unit))
            && Legal(Replay(u.history), StopCalled(id, unit, true))
            && Replay(u.history).live == Replay(t.history).live[id := unit]
  {
    StartIsLegal(t, id, unit, ok);
    LiveUnit(t, id);
    RecordIsConsistent(t, StartCalled(id, unit, ok), id, Instance(unit, t.instances[id].revision, true, true));
    Extended(t.history, StartCalled(id, unit, ok));
    assert id !in unit.needs;
  }

  lemma CleanupRecorded(t: Snapshot, id: Id, i: Instance, ok: bool)
    requires Consistent(t) && Live(t.instances, id) && t.instances[id] == i && id !in Ready(t)
    requires Legal(Replay(t.history), StopCalled(id, i.unit, true))
    ensures var after := if ok then i.(active := false, pendingStop := false) else i.(pendingStop := true);
            var u := Said(t, StopCalled(id, i.unit, ok)).(instances := t.instances[id := after]);
            Consistent(u) && Ready(u) == Ready(t)
  {
    LiveUnit(t, id);
    var live := Replay(t.history).live;
    assert live[id := i.unit] == live;
    RecordIsConsistent(t, StopCalled(id, i.unit, ok), id, if ok then i.(active := false, pendingStop := false) else i.(pendingStop := true));
  }

  lemma PublishRecorded(t: Snapshot, id: Id, unit: Unit)
    requires Consistent(t) && Live(t.instances, id) && Legal(Replay(t.history), Published(id, unit))
    ensures var u := Said(t, Published(id, unit)).(instances := t.instances[id := Instance(unit, unit.revision, true, false)]);
            Consistent(u) && Ready(u) == Ready(t) + {id}
  {
    RecordIsConsistent(t, Published(id, unit), id, Instance(unit, unit.revision, true, false));
  }

  lemma SameUnderPublishing(t: Snapshot, id: Id, published: map<Id, State>)
    requires Consistent(t)
    ensures Consistent(t.(published := published)) && Ready(t.(published := published)) == Ready(t)
  {
  }

  lemma StartedConsistent(t: Snapshot, u: Snapshot, id: Id, unit: Unit, o: Outcome)
    requires MayStart(t, id, unit) && StartedOne(t, u, id, unit, o)
    ensures Consistent(u) && Ready(u) == Ready(t) + (if StateOf(o) == Running then {id} else {})
  {
    if o in {Kept, Fresh, Undone, Stuck} {
      hide StartedOne, MayStart, Consistent, Replay;
      StartedThrough(t, u, id, unit, o);
    } else {
      StartedNot(t, u, id, unit, o);
    }
  }

  lemma StartedNot(t: Snapshot, u: Snapshot, id: Id, unit: Unit, o: Outcome)
    requires MayStart(t, id, unit) && StartedOne(t, u, id, unit, o) && o in {Disabled, Waiting, OutOfTime, UpdateRefused}
    ensures Consistent(u) && Ready(u) == Ready(t)
  {
    var s := u.(published := t.published);
    UnstartedIs(t, s, u, id, unit, o);
    LiveUnit(t, id);
    assert Sound(t.instances[id]);
    hide StartedOne, Consistent, Replay, Safe, LiveOf, AllSound, ClosedUnderNeeds, AllReady;
    match o {
      case Disabled => RewriteIsConsistent(t, id, t.instances[id].(unit := unit));
      case Waiting =>
      case OutOfTime => SaidIsConsistent(t, ContextEnded);
      case UpdateRefused => UpdateRecorded(t, id, unit, false);
    }
    SameUnderPublishing(s, id, u.published);
  }

  /** Apart from what is published, such an outcome changes one thing at most. */
  lemma UnstartedIs(t: Snapshot, s: Snapshot, u: Snapshot, id: Id, unit: Unit, o: Outcome)
    requires MayStart(t, id, unit) && StartedOne(t, u, id, unit, o) && s == u.(published := t.published)
    ensures o == Disabled ==> s == t.(instances := t.instances[id := t.instances[id].(unit := unit)])
    ensures o == Waiting ==> s == t
    ensures o == OutOfTime ==> s == Said(t, ContextEnded)
    ensures o == UpdateRefused ==> s == Said(t, UpdateCalled(id, unit, false)) && AllReady(unit.needs, Ready(t))
    ensures o == Disabled ==> !t.instances[id].active
    ensures u == s.(published := u.published)
  {
    hide Consistent, Replay;
    assert t.instances[id := t.instances[id]] == t.instances && t.history + [] == t.history;
  }

  function AfterUpdate(t: Snapshot, id: Id, unit: Unit): Snapshot {
    if unit.updatable then Said(t, UpdateCalled(id, unit, true)) else t
  }

  lemma Calls(t: Snapshot, id: Id, unit: Unit, e: Event, f: Event)
    ensures t.history + (UpdateEvents(id, unit) + [e]) == Said(AfterUpdate(t, id, unit), e).history
    ensures t.history + (UpdateEvents(id, unit) + [e, f]) == Said(Said(AfterUpdate(t, id, unit), e), f).history
  {
  }

  /** The unit has been asked to start. */
  function Begun(t: Snapshot, id: Id, unit: Unit, ok: bool): Snapshot
    requires id in t.instances
  {
    Said(t, StartCalled(id, unit, ok)).(instances := t.instances[id := Instance(unit, t.instances[id].revision, true, true)],
                                        published := t.published[id := Starting])
  }

  /** The start failed and a stop followed. */
  ghost predicate Failing(t: Snapshot, u: Snapshot, id: Id, unit: Unit, o: Outcome) {
    && id in t.instances && o in {Undone, Stuck}
    && u.history == (t.history + [StartCalled(id, unit, false)]) + [StopCalled(id, unit, o == Undone)]
    && u.instances == t.instances[id := InstanceOf(o, unit, t.instances[id])]
    && u.published == t.published[id := StateOf(o)]
  }

  lemma FailingIs(t: Snapshot, u: Snapshot, id: Id, unit: Unit, revision: Revision, o: Outcome)
    requires id in t.instances && t.instances[id].revision == revision && o in {Undone, Stuck}
    requires u.history == (t.history + [StartCalled(id, unit, false)]) + [StopCalled(id, unit, o == Undone)]
    requires var begun := t.instances[id := Instance(unit, revision, true, true)];
             u.instances == if o == Undone then begun[id := Instance(unit, revision, false, false)] else begun
    requires u.published == t.published[id := Starting][id := StateOf(o)]
    ensures Failing(t, u, id, unit, o)
  {
    Overwrite(t.instances, id, Instance(unit, revision, true, true), Instance(unit, revision, false, false));
  }

  lemma KeptIs(t: Snapshot, t1: Snapshot, u: Snapshot, id: Id, unit: Unit)
    requires t1 == AfterUpdate(t, id, unit) && id in t.instances && t.instances[id].active && unit.enabled
    requires !exists d :: d in unit.needs && !ShownRunning(t.published, d)
    requires u.history == t1.history + [Published(id, unit)]
    requires u.instances == t1.instances[id := t.instances[id].(unit := unit, revision := unit.revision)]
    requires u.published == t1.published[id := Running]
    ensures StartedOne(t, u, id, unit, Kept)
  {
    Calls(t, id, unit, Published(id, unit), ContextEnded);
  }

  lemma FreshIs(t: Snapshot, t1: Snapshot, u: Snapshot, id: Id, unit: Unit)
    requires t1 == AfterUpdate(t, id, unit) && id in t.instances && !t.instances[id].active && unit.enabled
    requires !exists d :: d in unit.needs && !ShownRunning(t.published, d)
    requires u.history == Begun(t1, id, unit, true).history + [Published(id, unit)]
    requires u.instances == Begun(t1, id, unit, true).instances[id := Instance(unit, unit.revision, true, false)]
    requires u.published == Begun(t1, id, unit, true).published[id := Running]
    ensures StartedOne(t, u, id, unit, Fresh)
  {
    Calls(t, id, unit, StartCalled(id, unit, true), Published(id, unit));
    Overwrite(t.instances, id, Instance(unit, t.instances[id].revision, true, true), Instance(unit, unit.revision, true, false));
  }

  lemma StartedThrough(t: Snapshot, u: Snapshot, id: Id, unit: Unit, o: Outcome)
    requires MayStart(t, id, unit) && StartedOne(t, u, id, unit, o) && o in {Kept, Fresh, Undone, Stuck}
    ensures Consistent(u) && Ready(u) == Ready(t) + (if StateOf(o) == Running then {id} else {})
  {
    assert AllReady(unit.needs, Ready(t));
    UpdateRecorded(t, id, unit, true);
    hide Consistent, Replay, Legal;
    if o == Kept {
      KeptRecorded(t, u, id, unit);
    } else if o == Fresh {
      FreshRecorded(t, u, id, unit);
    } else {
      FailedRecorded(t, u, id, unit, o);
    }
  }

  lemma KeptRecorded(t: Snapshot, u: Snapshot, id: Id, unit: Unit)
    requires MayStart(AfterUpdate(t, id, unit), id, unit) && AllReady(unit.needs, Ready(AfterUpdate(t, id, unit)))
    requires id in t.instances && t.instances[id].active && !MustRestart(unit, t.instances[id])
    requires u == SaidAll(t, EventsOf(Kept, id, unit)).(instances := t.instances[id := InstanceOf(Kept, unit, t.instances[id])],
                                                        published := t.published[id := Running])
    ensures Consistent(u) && Ready(u) == Ready(AfterUpdate(t, id, unit)) + {id}
  {
    var t1 := AfterUpdate(t, id, unit);
    StartIsLegal(t1, id, unit, true);
    Calls(t, id, unit, Published(id, unit), ContextEnded);
    PublishRecorded(t1, id, unit);
    SameUnderPublishing(u.(published := t.published), id, u.published);
  }

  lemma FreshRecorded(t: Snapshot, u: Snapshot, id: Id, unit: Unit)
    requires MayStart(AfterUpdate(t, id, unit), id, unit) && AllReady(unit.needs, Ready(AfterUpdate(t, id, unit)))
    requires id in t.instances && !t.instances[id].active
    requires u == SaidAll(t, EventsOf(Fresh, id, unit)).(instances := t.instances[id := InstanceOf(Fresh, unit, t.instances[id])],
                                                         published := t.published[id := Running])
    ensures Consistent(u) && Ready(u) == Ready(AfterUpdate(t, id, unit)) + {id}
  {
    var t1 := AfterUpdate(t, id, unit);
    StartRecorded(t1, id, unit, true);
    hide Consistent, Replay, Legal;
    var started := Instance(unit, t.instances[id].revision, true, true);
    var t2 := Said(t1, StartCalled(id, unit, true)).(instances := t.instances[id := started]);
    PublishRecorded(t2, id, unit);
    Calls(t, id, unit, StartCalled(id, unit, true), Published(id, unit));
    Overwrite(t.instances, id, started, Instance(unit, unit.revision, true, false));
    SameUnderPublishing(u.(published := t.published), id, u.published);
  }

  lemma Overwrite(m: map<Id, Instance>, id: Id, a: Instance, b: Instance)
    ensures m[id := a][id := b] == m[id := b]
  {
  }

  lemma FailedRecorded(t: Snapshot, u: Snapshot, id: Id, unit: Unit, o: Outcome)
    requires MayStart(AfterUpdate(t, id, unit), id, unit) && AllReady(unit.needs, Ready(AfterUpdate(t, id, unit)))
    requires id in t.instances && !t.instances[id].active && o in {Undone, Stuck}
    requires u == SaidAll(t, EventsOf(o, id, unit)).(instances := t.instances[id := InstanceOf(o, unit, t.instances[id])],
                                                     published := t.published[id := StateOf(o)])
    ensures Consistent(u) && Ready(u) == Ready(AfterUpdate(t, id, unit))
  {
    var t1 := AfterUpdate(t, id, unit);
    StartRecorded(t1, id, unit, false);
    hide Consistent, Replay, Legal;
    var started := Instance(unit, t.instances[id].revision, true, true);
    var t2 := Said(t1, StartCalled(id, unit, false)).(instances := t.instances[id := started]);
    CleanupRecorded(t2, id, started, o == Undone);
    Calls(t, id, unit, StartCalled(id, unit, false), StopCalled(id, unit, o == Undone));
    Overwrite(t.instances, id, started, InstanceOf(o, unit, t.instances[id]));
    SameUnderPublishing(u.(published := t.published), id, u.published);
  }

  // ---- the start loop as a whole ----

  /** A callback of this unit failed, or the context had ended. */
  ghost predicate Troubled(events: seq<Event>, id: Id, unit: Unit) {
    ContextEnded in events || UpdateCalled(id, unit, false) in events || StartCalled(id, unit, false) in events
  }

  /** Where the start loop leaves a unit whose stop did not fail, what it shows, and which calls led there. */
  ghost predicate Settling(unit: Unit, before: Instance, after: Instance, ready: set<Id>, id: Id, state: State, events: seq<Event>) {
    if !unit.enabled then
      after == before.(unit := unit) && !after.active && id !in ready && state == Stopped && Uncalled(id, events)
    else if !AllReady(unit.needs, ready) then
      after == before && id !in ready && state == Blocked && Uncalled(id, events)
    else if id in ready then
      after == Instance(unit, unit.revision, true, false) && state == Running && Confirmed(unit, id, events)
    else
      && Troubled(events, id, unit)
      && (after == before || (!before.active && after.unit == unit && after.revision == before.revision && after.active == after.pendingStop))
      && state == TroubleShown(unit, after, id, events)
      && !(UpdateCalled(id, unit, false) in events && StartCalled(id, unit, false) in events)
  }

  /** Published, with a successful Update if the unit has one, and with no failed call. */
  ghost predicate Confirmed(unit: Unit, id: Id, events: seq<Event>) {
    && Published(id, unit) in events && (unit.updatable ==> UpdateCalled(id, unit, true) in events)
    && UpdateCalled(id, unit, false) !in events && StartCalled(id, unit, false) !in events
  }

  /** No callback of the unit has been called. */
  ghost predicate Uncalled(id: Id, events: seq<Event>) {
    forall e :: e in events ==> !About(e, id) || e == ContextEnded
  }

  /** Failed after a failed Update or a failed Start that could be undone, Stopping if it could not; else Blocked. */
  function TroubleShown(unit: Unit, after: Instance, id: Id, events: seq<Event>): State {
    if UpdateCalled(id, unit, false) in events then Failed
    else if StartCalled(id, unit, false) in events then (if after.active then Stopping else Failed)
    else Blocked
  }

  /** A call made for this unit, or the end of the context. */
  predicate About(e: Event, id: Id) {
    e == ContextEnded || (!e.Began? && !e.ContextEnded? && e.id == id)
  }

  /** Calls of the start loop are made with the desired declarations, and a Stop only to undo a failed Start. */
  ghost predicate CallsFit(units: map<Id, Unit>, settled: set<Id>, events: seq<Event>) {
    forall e :: e in events ==>
      && !e.Began? && !e.Observed?
      && (!e.ContextEnded? ==> e.id in settled && e.id in units && e.unit == units[e.id])
      && (e.StopCalled? ==> StartCalled(e.id, e.unit, false) in events)
  }

  /** Every unit able to run is live already. */
  ghost predicate Quiet(units: map<Id, Unit>, instances: map<Id, Instance>) {
    forall id :: id in units && units[id].enabled && (forall d :: d in units[id].needs ==> Live(instances, d))
                 ==> Live(instances, id)
  }

  ghost predicate SameLive(before: map<Id, Instance>, after: map<Id, Instance>) {
    forall id :: Live(before, id) <==> Live(after, id)
  }

  /** What the stop loop hands over: a live unit it did not fail to stop needs no restart. */
  ghost predicate Poised(s: Snapshot, units: map<Id, Unit>, stopFailed: set<Id>) {
    && Consistent(s) && Ready(s) == {}
    && units.Keys == s.instances.Keys == s.published.Keys
    && stopFailed <= units.Keys && (forall id :: id in stopFailed ==> s.published[id] != Running)
    && forall id :: Live(s.instances, id) && id !in stopFailed ==>
         !MustRestart(units[id], s.instances[id]) && forall d :: d in units[id].needs ==> d !in stopFailed
  }

  ghost predicate StartFrame(s: Snapshot, t: Snapshot, units: map<Id, Unit>, stopFailed: set<Id>, passed: set<Id>) {
    Frame(s.instances, t.instances, s.published, t.published, Ready(t), units.Keys, stopFailed, passed)
  }

  /** What has not been passed is as before, and exactly the units that have become ready are shown Running. */
  ghost predicate Frame(before: map<Id, Instance>, after: map<Id, Instance>, shown: map<Id, State>, published: map<Id, State>,
                        ready: set<Id>, ids: set<Id>, stopFailed: set<Id>, passed: set<Id>)
  {
    && after.Keys == published.Keys == ids == before.Keys == shown.Keys && passed <= ids
    && ready <= passed && ready !! stopFailed
    && (forall id :: id in ids && id in stopFailed ==> published[id] == shown[id] && shown[id] != Running)
    && (forall id :: id in ids && (id !in passed || id in stopFailed) ==> after[id] == before[id])
    && (forall id :: id in passed ==> (ShownRunning(published, id) <==> id in ready))
  }

  ghost predicate StartPlaces(units: map<Id, Unit>, before: map<Id, Instance>, after: map<Id, Instance>, ready: set<Id>,
                              published: map<Id, State>, settled: set<Id>, events: seq<Event>)
  {
    forall id :: id in settled ==>
      && id in units && id in before && id in after && id in published
      && Settling(units[id], before[id], after[id], ready, id, published[id], events)
  }

  /** The start loop once it has passed the units in `passed`. */
  ghost predicate StartLoop(s: Snapshot, t: Snapshot, units: map<Id, Unit>, stopFailed: set<Id>, passed: set<Id>, events: seq<Event>) {
    && Consistent(t) && t.history == s.history + events
    && StartFrame(s, t, units, stopFailed, passed)
    && StartPlaces(units, s.instances, t.instances, Ready(t), t.published, passed - stopFailed, events)
    && CallsFit(units, passed - stopFailed, events)
    && (Quiet(units, s.instances) ==> NoLifecycle(events) && SameLive(s.instances, t.instances))
    && Pending(events, t.instances)
  }

  lemma StartLoopStart(s: Snapshot, units: map<Id, Unit>, order: seq<Id>, stopFailed: set<Id>)
    requires Poised(s, units, stopFailed)
    ensures StartLoop(s, s, units, stopFailed, Passed(order, 0), [])
  {
    assert order[..0] == [] && s.history + [] == s.history;
  }

  lemma PassedAll(units: map<Id, Unit>, order: seq<Id>)
    requires Ordering(Requirements(units), order)
    ensures Passed(order, |order|) == units.Keys
  {
    assert order[..|order|] == order;
  }

  lemma PassedStep(units: map<Id, Unit>, order: seq<Id>, k: nat)
    requires Ordering(Requirements(units), order) && k < |order|
    ensures order[k] in units && order[k] !in Passed(order, k)
    ensures Passed(order, k + 1) == Passed(order, k) + {order[k]}
    ensures forall x :: x in Passed(order, k + 1) ==> x in units && forall d :: d in units[x].needs ==> d in Passed(order, k)
  {
    Listed(units, order, k);
    Prefix(Requirements(units), order, k);
    forall x | x in Passed(order, k + 1) ensures x in units && forall d :: d in units[x].needs ==> d in Passed(order, k) {
      NeedsBefore(units, order, k, x);
    }
  }

  lemma MayStartNext(s: Snapshot, t: Snapshot, units: map<Id, Unit>, stopFailed: set<Id>, order: seq<Id>, k: nat, events: seq<Event>)
    requires Poised(s, units, stopFailed) && Ordering(Requirements(units), order) && k < |order|
    requires StartLoop(s, t, units, stopFailed, Passed(order, k), events) && order[k] !in stopFailed
    ensures order[k] in units && MayStart(t, order[k], units[order[k]])
  {
    PassedStep(units, order, k);
    assert t.instances[order[k]] == s.instances[order[k]];
  }

  lemma SettlingNow(t: Snapshot, u: Snapshot, id: Id, unit: Unit, o: Outcome, ready: set<Id>, events: seq<Event>)
    requires MayStart(t, id, unit) && StartedOne(t, u, id, unit, o)
    requires ready == Ready(t) + (if StateOf(o) == Running then {id} else {})
    requires forall d :: d in unit.needs ==> d != id && (ShownRunning(t.published, d) <==> d in Ready(t))
    requires Sound(t.instances[id])
    requires Uncalled(id, events)
    ensures id in u.published && Settling(unit, t.instances[id], u.instances[id], ready, id, u.published[id], events + EventsOf(o, id, unit))
  {
    var more := EventsOf(o, id, unit);
    assert forall e :: e in more ==> e in events + more;
    if exists d :: d in unit.needs && !ShownRunning(t.published, d) {
      assert !AllReady(unit.needs, ready);
    } else {
      assert AllReady(unit.needs, ready);
    }
    CallsOfOutcome(o, id, unit, events);
  }

  lemma CallsOfOutcome(o: Outcome, id: Id, unit: Unit, events: seq<Event>)
    requires Uncalled(id, events)
    ensures var more := EventsOf(o, id, unit);
            && (o in {Kept, Fresh} ==> Published(id, unit) in events + more && (unit.updatable ==> UpdateCalled(id, unit, true) in events + more))
            && (o == OutOfTime ==> ContextEnded in events + more)
            && (UpdateCalled(id, unit, false) in events + more <==> o == UpdateRefused)
            && (StartCalled(id, unit, false) in events + more <==> o in {Undone, Stuck})
  {
    var more := EventsOf(o, id, unit);
    assert UpdateCalled(id, unit, false) !in events && StartCalled(id, unit, false) !in events;
    match o {
      case OutOfTime => assert more[0] in more;
      case UpdateRefused => assert more[0] in more;
      case Kept =>
        assert more[|more| - 1] in more;
        assert unit.updatable ==> more[0] in more;
      case Fresh =>
        assert more[|more| - 1] in more;
        assert unit.updatable ==> more[0] in more;
      case Undone => assert more[|more| - 2] in more;
      case Stuck => assert more[|more| - 2] in more;
      case _ =>
    }
  }

  lemma CallsFitStep(units: map<Id, Unit>, settled: set<Id>, events: seq<Event>, o: Outcome, id: Id)
    requires CallsFit(units, settled, events) && id in units && id !in settled
    ensures CallsFit(units, settled + {id}, events + EventsOf(o, id, units[id]))
    ensures forall e :: e in EventsOf(o, id, units[id]) ==> About(e, id)
    ensures Uncalled(id, events)
  {
    var unit, more := units[id], EventsOf(o, id, units[id]);
    if o in {Undone, Stuck} {
      assert more[|more| - 2] == StartCalled(id, unit, false) && more[|more| - 2] in events + more;
    }
  }

  lemma QuietStep(t: Snapshot, u: Snapshot, units: map<Id, Unit>, start: map<Id, Instance>, id: Id, o: Outcome)
    requires id in units && MayStart(t, id, units[id]) && StartedOne(t, u, id, units[id], o)
    requires Quiet(units, start) && SameLive(start, t.instances)
    ensures NoLifecycle(EventsOf(o, id, units[id])) && SameLive(start, u.instances)
  {
    var unit := units[id];
    LiveUnit(t, id);
    if unit.enabled && !(exists d :: d in unit.needs && !ShownRunning(t.published, d)) {
      forall d | d in unit.needs ensures Live(start, d) {
        LiveUnit(t, d);
      }
    }
  }

  lemma PendingStart(t: Snapshot, u: Snapshot, id: Id, unit: Unit, o: Outcome, events: seq<Event>)
    requires MayStart(t, id, unit) && StartedOne(t, u, id, unit, o) && Pending(events, t.instances)
    ensures Pending(events + EventsOf(o, id, unit), u.instances)
  {
    forall e | e in events + EventsOf(o, id, unit) && e.StopCalled? && !e.ok
      ensures Live(u.instances, e.id) && u.instances[e.id].pendingStop && u.instances[e.id].unit == e.unit
    {
      if e in events {
        assert e.id != id;
      }
    }
  }

  lemma NoLifecycleStep(events: seq<Event>, more: seq<Event>)
    requires NoLifecycle(events) && NoLifecycle(more)
    ensures NoLifecycle(events + more)
  {
  }

  lemma StartFrameStep(s: Snapshot, t: Snapshot, u: Snapshot, units: map<Id, Unit>, stopFailed: set<Id>, passed: set<Id>, id: Id, o: Outcome)
    requires StartFrame(s, t, units, stopFailed, passed) && id in units && id !in passed && id !in stopFailed
    requires StartedOne(t, u, id, units[id], o)
    requires Ready(u) == Ready(t) + (if StateOf(o) == Running then {id} else {})
    ensures StartFrame(s, u, units, stopFailed, passed + {id})
  {
    hide Possible, InstanceOf, EventsOf, Ready, Frame;
    assert u.published == t.published[id := StateOf(o)] && u.instances == t.instances[id := u.instances[id]];
    hide StartedOne, StateOf;
    FrameStep(s.instances, t.instances, s.published, t.published, Ready(t), units.Keys, stopFailed, passed, id, u.instances[id], StateOf(o));
  }

  lemma FrameStep(before: map<Id, Instance>, after: map<Id, Instance>, shown: map<Id, State>, published: map<Id, State>,
                  ready: set<Id>, ids: set<Id>, stopFailed: set<Id>, passed: set<Id>, id: Id, i: Instance, state: State)
    requires Frame(before, after, shown, published, ready, ids, stopFailed, passed) && id in ids && id !in passed && id !in stopFailed
    ensures Frame(before, after[id := i], shown, published[id := state], ready + (if state == Running then {id} else {}),
                  ids, stopFailed, passed + {id})
  {
    ShownStep(published, ready, passed, id, state);
    KeysOfUpdate(after, id, i);
    KeysOfUpdate(published, id, state);
    hide ShownRunning;
  }

  lemma ShownStep(published: map<Id, State>, ready: set<Id>, passed: set<Id>, id: Id, state: State)
    requires ready <= passed && id !in passed
    requires forall x :: x in passed ==> (ShownRunning(published, x) <==> x in ready)
    ensures var after := ready + (if state == Running then {id} else {});
            forall x :: x in passed + {id} ==> (ShownRunning(published[id := state], x) <==> x in after)
  {
  }

  lemma StartPlacesStep(units: map<Id, Unit>, before: map<Id, Instance>, after: map<Id, Instance>, after': map<Id, Instance>,
                        ready: set<Id>, ready': set<Id>, published: map<Id, State>, published': map<Id, State>,
                        settled: set<Id>, id: Id, events: seq<Event>, more: seq<Event>)
    requires StartPlaces(units, before, after, ready, published, settled, events) && id !in settled
    requires id in units && id in before && id in after' && after' == after[id := after'[id]]
    requires id in published' && published' == published[id := published'[id]]
    requires ready <= ready' <= ready + {id} && forall e :: e in more ==> About(e, id)
    requires forall x :: x in settled && x in units ==> id !in units[x].needs
    requires Settling(units[id], before[id], after'[id], ready', id, published'[id], events + more)
    ensures StartPlaces(units, before, after', ready', published', settled + {id}, events + more)
  {
    forall x | x in settled ensures Settling(units[x], before[x], after'[x], ready', x, published'[x], events + more) {
      SettlingStays(units[x], before[x], after[x], ready, ready', x, published[x], events, more, id);
    }
  }

  lemma SettlingStays(unit: Unit, before: Instance, after: Instance, ready: set<Id>, ready': set<Id>, id: Id, state: State,
                      events: seq<Event>, more: seq<Event>, next: Id)
    requires Settling(unit, before, after, ready, id, state, events)
    requires ready <= ready' <= ready + {next} && next != id && next !in unit.needs && forall e :: e in more ==> About(e, next)
    ensures Settling(unit, before, after, ready', id, state, events + more)
  {
    assert AllReady(unit.needs, ready') <==> AllReady(unit.needs, ready);
    assert forall e :: e in events ==> e in events + more;
    assert UpdateCalled(id, unit, false) !in more && StartCalled(id, unit, false) !in more;
  }

  lemma StartLoopStep(s: Snapshot, t: Snapshot, u: Snapshot, units: map<Id, Unit>, stopFailed: set<Id>, order: seq<Id>, k: nat,
                      events: seq<Event>, o: Outcome)
    requires Poised(s, units, stopFailed) && Ordering(Requirements(units), order) && k < |order|
    requires StartLoop(s, t, units, stopFailed, Passed(order, k), events)
    requires order[k] !in stopFailed && order[k] in units && StartedOne(t, u, order[k], units[order[k]], o)
    ensures StartLoop(s, u, units, stopFailed, Passed(order, k + 1), events + EventsOf(o, order[k], units[order[k]]))
  {
    var id := order[k];
    var unit := units[id];
    var more := EventsOf(o, id, unit);
    PassedStep(units, order, k);
    MayStartNext(s, t, units, stopFailed, order, k, events);
    StartedConsistent(t, u, id, unit, o);
    assert Sound(t.instances[id]);
    CallsFitStep(units, Passed(order, k) - stopFailed, events, o, id);
    SettlingNow(t, u, id, unit, o, Ready(u), events);
    StartFrameStep(s, t, u, units, stopFailed, Passed(order, k), id, o);
    if Quiet(units, s.instances) {
      QuietStep(t, u, units, s.instances, id, o);
      NoLifecycleStep(events, more);
    }
    ConcatAssociates(s.history, events, more);
    PendingStart(t, u, id, unit, o, events);
    assert u.published == t.published[id := StateOf(o)];
    hide Consistent, CallsFit, MayStart, Quiet, SameLive, NoLifecycle, Ordering, Requirements, Passed, Poised, EventsOf, Possible, InstanceOf, Settling, StartPlaces, Pending;
    StartPlacesStep(units, s.instances, t.instances, u.instances, Ready(t), Ready(u), t.published, u.published,
                    Passed(order, k) - stopFailed, id, events, more);
    WithoutFailed(Passed(order, k), stopFailed, id);
  }

  lemma WithoutFailed(passed: set<Id>, stopFailed: set<Id>, id: Id)
    ensures id !in stopFailed ==> (passed + {id}) - stopFailed == (passed - stopFailed) + {id}
    ensures id in stopFailed ==> (passed + {id}) - stopFailed == passed - stopFailed
  {
  }

  lemma StartLoopSkip(s: Snapshot, t: Snapshot, units: map<Id, Unit>, stopFailed: set<Id>, order: seq<Id>, k: nat, events: seq<Event>)
    requires Ordering(Requirements(units), order) && k < |order|
    requires StartLoop(s, t, units, stopFailed, Passed(order, k), events) && order[k] in stopFailed
    ensures StartLoop(s, t, units, stopFailed, Passed(order, k + 1), events)
  {
    PassedStep(units, order, k);
    WithoutFailed(Passed(order, k), stopFailed, order[k]);
    hide CallsFit, StartPlaces, Quiet, SameLive, NoLifecycle, Consistent, Pending;
  }
}
