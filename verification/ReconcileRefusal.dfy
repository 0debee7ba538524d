/**
 When removing units is refused: a removed unit stays in the graph under its last recorded requirements, even if it
 has never run, and those recorded at different times may form a cycle.
 */
module ReconcileRefusal {
  import opened DependencyGraph
  import opened LifecycleHistory
  import opened ReconcileLoops
  import opened ReconcileOutcome

  /** The recorded units that are no longer declared. */
  function Removed(units: map<Id, Unit>, instances: map<Id, Instance>): map<Id, Unit> {
    map id | id in instances && id !in units :: instances[id].unit
  }

  lemma SubgraphAcyclic(g: Graph<Id>, h: Graph<Id>)
    requires Acyclic(g) && forall a, b :: Edge(h, a, b) ==> Edge(g, a, b)
    ensures Acyclic(h)
  {
    forall p ensures !Cycle(h, p) {
      if Cycle(h, p) {
        forall i: nat | i + 1 < |p| ensures Linked(g, p, i) {
          assert Linked(h, p, i);
        }
        assert Cycle(g, p);
      }
    }
  }

  /** Declarations that are in order themselves are refused exactly when the removed units require each other in a cycle. */
  lemma RefusedExactly(units: map<Id, Unit>, instances: map<Id, Instance>)
    requires Known(Requirements(units)) && Acyclic(Requirements(units))
    ensures Acyclic(Requirements(Merged(units, instances))) <==> Acyclic(Requirements(Removed(units, instances)))
  {
    var g, rest := Requirements(Merged(units, instances)), Requirements(Removed(units, instances));
    forall a, b | a in units && Edge(g, a, b) ensures b in units && Edge(Requirements(units), a, b) {
      assert Edge(Requirements(units), a, b);
    }
    forall a, b ensures a !in units ==> (Edge(g, a, b) <==> Edge(rest, a, b)) {
    }
    hide Acyclic, Known, Requirements, Merged, Removed;
    if Acyclic(g) {
      SubgraphAcyclic(g, rest);
    }
    if Acyclic(rest) {
      SplitAcyclic(g, units.Keys, Requirements(units), rest);
    }
  }

  /** A cycle needs a removed unit that is not live: live units never require each other in a cycle. */
  lemma LiveRemovalAccepted(units: map<Id, Unit>, instances: map<Id, Instance>)
    requires Known(Requirements(units)) && Acyclic(Requirements(units)) && Acyclic(Requirements(LiveOf(instances)))
    requires forall id :: id in instances && id !in units ==> Live(instances, id)
    ensures Acyclic(Requirements(Merged(units, instances)))
  {
    var g, rest := Requirements(LiveOf(instances)), Requirements(Removed(units, instances));
    forall a, b | Edge(rest, a, b) ensures Edge(g, a, b) {
    }
    SubgraphAcyclic(g, rest);
    RefusedExactly(units, instances);
  }

  // ---- it happens ----

  /** Lines 150-181 for one unit, with the state published for it. */
  ghost predicate ObservedOne(s: Snapshot, t: Snapshot, id: Id, unit: Unit) {
    && Refreshed(s, t.(published := s.published), id, unit)
    && id in t.instances && t.published == s.published[id := if t.instances[id].active then Running else Stopped]
  }

  /** The states passed through by a reconciliation that finds no unit live, and so stops none. */
  datatype Pass = Pass(order: seq<Id>, observed: seq<Snapshot>, started: seq<Snapshot>, outcomes: seq<Outcome>)

  ghost predicate ObservesAll(units: map<Id, Unit>, order: seq<Id>, states: seq<Snapshot>) {
    && |states| == |order| + 1
    && forall k :: 0 <= k < |order| ==> order[k] in units && ObservedOne(states[k], states[k + 1], order[k], units[order[k]])
  }

  ghost predicate StartsAll(units: map<Id, Unit>, order: seq<Id>, states: seq<Snapshot>, outcomes: seq<Outcome>) {
    && |states| == |order| + 1 == |outcomes| + 1
    && forall k :: 0 <= k < |order| ==>
         order[k] in units && StartedOne(states[k], states[k + 1], order[k], units[order[k]], outcomes[k])
  }

  ghost predicate Passes(s: Snapshot, units: map<Id, Unit>, p: Pass, t: Snapshot) {
    && Ordering(Requirements(units), p.order) && s.instances.Keys <= units.Keys
    && ObservesAll(units, p.order, p.observed) && p.observed[0] == Said(s, Began).(published := map[])
    && StartsAll(units, p.order, p.started, p.outcomes) && p.started[0] == p.observed[|p.order|]
    && (forall id :: !Live(p.started[0].instances, id))
    && t == p.started[|p.order|]
  }

  const NEW := Snapshot(map[], map[], [])

  function Service(needs: seq<Id>, enabled: bool): Unit {
    Unit(needs, enabled, "", false, true, 0)
  }

  function Recorded(unit: Unit): Instance {
    Instance(unit, "", false, false)
  }

  function FirstUnits(a: Id, b: Id): map<Id, Unit> {
    map[a := Service([b], true), b := Service([], true)]
  }

  function SecondUnits(a: Id, b: Id): map<Id, Unit> {
    map[a := Service([], true), b := Service([a], false)]
  }

  /** A requires B, but the update of B fails: A waits, and both are recorded. */
  function FirstPass(a: Id, b: Id): Pass {
    var units := FirstUnits(a, b);
    var first := map[b := Recorded(units[b])];
    var both := first[a := Recorded(units[a])];
    var calls := [Began, UpdateCalled(b, units[b], false)];
    var observed := Snapshot(both, map[b := Stopped, a := Stopped], [Began]);
    Pass([b, a], [Snapshot(map[], map[], [Began]), Snapshot(first, map[b := Stopped], [Began]), observed],
         [observed, Snapshot(both, map[b := Failed, a := Stopped], calls), Snapshot(both, map[b := Failed, a := Blocked], calls)],
         [UpdateRefused, Waiting])
  }

  function AfterFirst(a: Id, b: Id): Snapshot {
    FirstPass(a, b).started[2]
  }

  /** A is declared without requirements but its update fails, so its old record stays; B, disabled, comes to require A. */
  function SecondPass(a: Id, b: Id): Pass {
    var units, s := SecondUnits(a, b), Said(AfterFirst(a, b), Began);
    var observed := s.(published := map[a := Stopped, b := Stopped]);
    var refused := Said(observed, UpdateCalled(a, units[a], false)).(published := map[a := Failed, b := Stopped]);
    Pass([a, b], [s.(published := map[]), s.(published := map[a := Stopped]), observed],
         [observed, refused, refused.(instances := refused.instances[b := Recorded(units[b])])],
         [UpdateRefused, Disabled])
  }

  function AfterSecond(a: Id, b: Id): Snapshot {
    SecondPass(a, b).started[2]
  }

  lemma PairOrder(units: map<Id, Unit>, first: Id, second: Id)
    requires first != second && units.Keys == {first, second} && units[first].needs == []
    requires forall d :: d in units[second].needs ==> d == first
    ensures Ordering(Requirements(units), [first, second])
  {
    var g, order := Requirements(units), [first, second];
    forall i, d | 0 <= i < |order| && Edge(g, order[i], d) ensures d in order[..i] {
      assert i == 1 && order[..1] == [first];
    }
  }

  lemma FirstObserved(a: Id, b: Id)
    requires a != b
    ensures var p := FirstPass(a, b); ObservesAll(FirstUnits(a, b), p.order, p.observed)
  {
    var units, p := FirstUnits(a, b), FirstPass(a, b);
    assert ObservedOne(p.observed[0], p.observed[1], b, units[b]) && ObservedOne(p.observed[1], p.observed[2], a, units[a]);
  }

  lemma FirstStarted(a: Id, b: Id)
    requires a != b
    ensures var p := FirstPass(a, b); StartsAll(FirstUnits(a, b), p.order, p.started, p.outcomes)
  {
    var units, p := FirstUnits(a, b), FirstPass(a, b);
    assert !ShownRunning(p.started[1].published, b) && b in units[a].needs;
    assert StartedOne(p.started[0], p.started[1], b, units[b], UpdateRefused) && StartedOne(p.started[1], p.started[2], a, units[a], Waiting);
  }

  /** From a new reconciler. */
  lemma FirstRun(a: Id, b: Id)
    requires a != b
    ensures Passes(NEW, FirstUnits(a, b), FirstPass(a, b), AfterFirst(a, b))
  {
    PairOrder(FirstUnits(a, b), b, a);
    FirstObserved(a, b);
    FirstStarted(a, b);
    hide Ordering, Requirements, ObservesAll, StartsAll;
  }

  lemma SecondObserved(a: Id, b: Id)
    requires a != b
    ensures var p := SecondPass(a, b); ObservesAll(SecondUnits(a, b), p.order, p.observed)
  {
    var units, p := SecondUnits(a, b), SecondPass(a, b);
    assert ObservedOne(p.observed[0], p.observed[1], a, units[a]) && ObservedOne(p.observed[1], p.observed[2], b, units[b]);
  }

  lemma SecondStarted(a: Id, b: Id)
    requires a != b
    ensures var p := SecondPass(a, b); StartsAll(SecondUnits(a, b), p.order, p.started, p.outcomes)
  {
    var units, p := SecondUnits(a, b), SecondPass(a, b);
    assert StartedOne(p.started[0], p.started[1], a, units[a], UpdateRefused) && StartedOne(p.started[1], p.started[2], b, units[b], Disabled);
  }

  /** From there. */
  lemma SecondRun(a: Id, b: Id)
    requires a != b
    ensures Passes(AfterFirst(a, b), SecondUnits(a, b), SecondPass(a, b), AfterSecond(a, b))
  {
    PairOrder(SecondUnits(a, b), a, b);
    SecondObserved(a, b);
    SecondStarted(a, b);
    hide Ordering, Requirements, ObservesAll, StartsAll;
  }

  /** Everything the reconciler keeps holds of the state, and yet the removal of both units, inactive, is refused. */
  ghost predicate RemovalBlocked(t: Snapshot, a: Id, b: Id) {
    && Consistent(t) && NeedsDeclared(t.instances) && Acyclic(Requirements(LiveOf(t.instances)))
    && t.instances.Keys == {a, b} && !Live(t.instances, a) && !Live(t.instances, b)
    && !Acyclic(Requirements(Merged(map[], t.instances)))
  }

  /** The state after these two reconciliations is such a one. */
  lemma RemovalRefused(a: Id, b: Id)
    requires a != b
    ensures RemovalBlocked(AfterSecond(a, b), a, b)
  {
    SecondState(a, b);
    var t := AfterSecond(a, b);
    hide AfterSecond;
    NothingHappened(t, a, b);
    RecordsClash(t, a, b);
    NothingLive(t);
    hide Consistent, Acyclic, Requirements, LiveOf, Merged;
  }

  lemma SecondState(a: Id, b: Id)
    requires a != b
    ensures var t := AfterSecond(a, b);
            && t.instances == map[a := Recorded(Service([b], true)), b := Recorded(Service([a], false))]
            && t.history == [Began, UpdateCalled(b, Service([], true), false), Began, UpdateCalled(a, Service([], true), false)]
  {
  }

  lemma RecordsClash(t: Snapshot, a: Id, b: Id)
    requires a != b && t.instances == map[a := Recorded(Service([b], true)), b := Recorded(Service([a], false))]
    ensures !Acyclic(Requirements(Merged(map[], t.instances)))
  {
    var g := Requirements(Merged(map[], t.instances));
    var p := [a, b, a];
    assert Linked(g, p, 0) && Linked(g, p, 1);
    assert Cycle(g, p);
  }

  lemma NothingLive(t: Snapshot)
    requires forall id :: !Live(t.instances, id)
    ensures LiveOf(t.instances) == map[] && Acyclic(Requirements(LiveOf(t.instances)))
  {
    assert forall id :: id in LiveOf(t.instances) ==> Live(t.instances, id);
    assert LiveOf(t.instances) == map[];
    var live := Requirements(LiveOf(t.instances));
    forall p ensures !Cycle(live, p) {
      assert |p| >= 2 ==> !Linked(live, p, 0);
    }
  }

  lemma NothingHappened(t: Snapshot, a: Id, b: Id)
    requires t.history == [Began, UpdateCalled(b, Service([], true), false), Began, UpdateCalled(a, Service([], true), false)]
    requires forall id :: id in t.instances ==> !t.instances[id].active && !t.instances[id].pendingStop
    ensures Consistent(t)
  {
    IdleHistory(t.history[1], t.history[3]);
    assert LiveOf(t.instances) == map[];
    hide Safe, Replay;
  }

  lemma IdleHistory(e: Event, f: Event)
    requires e.UpdateCalled? && e.unit.needs == [] && f.UpdateCalled? && f.unit.needs == []
    ensures Safe([Began, e, Began, f]) && Replay([Began, e, Began, f]).live == map[]
  {
    assert Safe([]) && Replay([]) == World(map[], {});
    hide Safe, Replay;
    Extended([], Began);
    Extended([Began], e);
    Extended([Began, e], Began);
    Extended([Began, e, Began], f);
    assert [] + [Began] == [Began] && [Began] + [e] == [Began, e];
    assert [Began, e] + [Began] == [Began, e, Began] && [Began, e, Began] + [f] == [Began, e, Began, f];
  }
}
