/**
 A host of components: the port values that running components captured, the live bindings, and what starting,
 draining and swapping components does to their agreement.
 */
module HostState {
  import opened Collections
  import opened DependencyGraph
  import opened PortWiring

  type Value(==, !new)

  datatype State = Starting | Stopping | Running | Failed | Blocked | Stopped

  /** `captured` is the private snapshot of the required ports, `bound` what the component bound during Init. */
  datatype Instance = Instance(manifest: Manifest, state: State, initialized: bool, captured: map<Port, Option<Value>>, bound: map<Port, Value>)

  datatype Host = Host(instances: map<Id, Instance>, providers: map<Port, Id>, ports: map<Port, Value>, order: seq<Id>)

  function Manifests(instances: map<Id, Instance>): map<Id, Manifest> {
    map id | id in instances :: instances[id].manifest
  }

  function Fresh(m: Manifest): Instance {
    Instance(m, Stopped, false, map[], map[])
  }

  predicate Runs(h: Host, id: Id) {
    id in h.instances && h.instances[id].state == Running
  }

  function Lookup(ports: map<Port, Value>, port: Port): Option<Value> {
    if port in ports then Some(ports[port]) else None
  }

  function Snapshot(ports: map<Port, Value>, reqs: seq<Requirement>): map<Port, Option<Value>> {
    map req | req in reqs :: req.port.name := Lookup(ports, req.port.name)
  }

  function OfferedBy(m: Manifest): set<Port> {
    set p | p in m.offered :: p.name
  }

  ghost predicate WiredHost(h: Host) {
    Wired(Manifests(h.instances), h.providers, h.order)
  }

  /** The component's snapshot agrees with the live bindings, its providers run, and its own ports are live. */
  ghost predicate CoherentAt(h: Host, id: Id)
    requires id in h.instances
  {
    var i := h.instances[id];
    i.state == Running ==>
      && i.initialized
      && (forall req :: req in i.manifest.required ==>
            && req.port.name in i.captured && i.captured[req.port.name] == Lookup(h.ports, req.port.name)
            && (!req.optional ==> req.port.name in h.providers && Runs(h, h.providers[req.port.name])))
      && i.bound.Keys == OfferedBy(i.manifest)
      && (forall port :: port in i.bound ==> Lookup(h.ports, port) == Some(i.bound[port]))
  }

  ghost predicate Coherent(h: Host) {
    forall id :: id in h.instances ==> CoherentAt(h, id)
  }

  /** Only running components, and those being stopped, have live ports. */
  ghost predicate PortsOwned(h: Host) {
    forall port :: port in h.ports ==>
      port in h.providers && h.providers[port] in h.instances && h.instances[h.providers[port]].state in {Running, Stopping}
  }

  predicate UsesOf(h: Host, user: Id, dep: Id) {
    user in h.instances && Uses(h.instances[user].manifest, h.providers, dep)
  }

  lemma OrderedUse(h: Host, i: nat, j: nat)
    requires WiredHost(h) && i < |h.order| && j < |h.order| && UsesOf(h, h.order[i], h.order[j])
    ensures j < i
  {
    var g := DepGraph(Manifests(h.instances), h.providers);
    EdgeIsUse(Manifests(h.instances), h.providers, h.order[i], h.order[j]);
    assert h.order[j] in h.order[..i];
    var k :| 0 <= k < i && h.order[..i][k] == h.order[j];
  }

  /** The owner of a port offered by a component is that component. */
  lemma OwnerOf(h: Host, id: Id, port: Port)
    requires WiredHost(h) && id in h.instances && port in OfferedBy(h.instances[id].manifest)
    ensures port in h.providers && h.providers[port] == id
  {
    var p :| p in h.instances[id].manifest.offered && p.name == port;
    var k :| 0 <= k < |h.instances[id].manifest.offered| && h.instances[id].manifest.offered[k] == p;
    assert Offers(Manifests(h.instances)[id], port);
  }

  // ---- starting ----

  predicate MissingProvider(h: Host, i: Instance) {
    exists req :: req in i.manifest.required && !req.optional && !(req.port.name in h.providers && Runs(h, h.providers[req.port.name]))
  }

  /** A component whose providers run has been started, or has failed and lost its ports. */
  ghost predicate Launched(h: Host, t: Host, id: Id)
    requires id in h.instances
  {
    var m := h.instances[id].manifest;
    var captured := Snapshot(h.ports, m.required);
    || (exists initialized, bound ::
          t == h.(instances := h.instances[id := Instance(m, Failed, initialized, captured, bound)], ports := h.ports - OfferedBy(m)))
    || (exists bound: map<Port, Value> :: bound.Keys == OfferedBy(m) &&
          t == h.(instances := h.instances[id := Instance(m, Running, true, captured, bound)], ports := h.ports + bound))
  }

  /** What one round of `startLocked` can do with a component. */
  ghost predicate StartedOne(h: Host, t: Host, id: Id) {
    id in h.instances &&
    var i := h.instances[id];
    if i.state == Running then t == h
    else if MissingProvider(h, i) then t == h.(instances := h.instances[id := i.(state := Blocked)])
    else Launched(h, t, id)
  }

  /** Whatever a running component uses runs too, or has had its turn. */
  ghost predicate SettledUse(h: Host, passed: set<Id>) {
    forall user, dep :: Runs(h, user) && UsesOf(h, user, dep) ==> Runs(h, dep) || dep in passed
  }

  predicate Owns(h: Host, id: Id, port: Port) {
    port in h.ports && port in h.providers && h.providers[port] == id
  }

  /** Components that have not had their turn are running, or hold no resources and have no live port. */
  ghost predicate Waiting(h: Host, passed: set<Id>) {
    forall id :: id in h.instances && id !in passed && !Runs(h, id) ==>
      !h.instances[id].initialized && forall port :: !Owns(h, id, port)
  }

  /** Nothing has ever been started. */
  ghost predicate Unused(h: Host) {
    h.ports == map[] && forall id :: id in h.instances ==> !h.instances[id].initialized
  }

  ghost predicate StartInv(h: Host, passed: set<Id>) {
    WiredHost(h) && Coherent(h) && PortsOwned(h) && SettledUse(h, passed) && Waiting(h, passed)
  }

  lemma SameWiring(h: Host, t: Host, id: Id)
    requires WiredHost(h) && id in h.instances && t.providers == h.providers && t.order == h.order
    requires id in t.instances && t.instances[id].manifest == h.instances[id].manifest && t.instances == h.instances[id := t.instances[id]]
    ensures WiredHost(t)
  {
    assert Manifests(t.instances) == Manifests(h.instances);
  }

  /** A change of one component that is not running, and of its own ports, is not seen by the running ones. */
  ghost predicate Aside(h: Host, t: Host, id: Id) {
    && id in h.instances && t.providers == h.providers && t.order == h.order
    && id in t.instances && t.instances == h.instances[id := t.instances[id]]
    && t.instances[id].manifest == h.instances[id].manifest
    && (forall port :: port !in OfferedBy(h.instances[id].manifest) ==> Lookup(t.ports, port) == Lookup(h.ports, port))
  }

  lemma CoherentAside(h: Host, t: Host, id: Id, user: Id)
    requires WiredHost(h) && Aside(h, t, id) && user in h.instances && user != id && CoherentAt(h, user)
    requires Runs(h, user) ==> !UsesOf(h, user, id)
    ensures CoherentAt(t, user)
  {
    var i := h.instances[user];
    if i.state == Running {
      forall req | req in i.manifest.required
        ensures Lookup(t.ports, req.port.name) == Lookup(h.ports, req.port.name)
        ensures !req.optional ==> req.port.name in t.providers && Runs(t, t.providers[req.port.name])
      {
        if req.port.name in OfferedBy(h.instances[id].manifest) {
          OwnerOf(h, id, req.port.name);
        }
      }
      forall port | port in OfferedBy(i.manifest) ensures Lookup(t.ports, port) == Lookup(h.ports, port) {
        OwnerOf(h, user, port);
        if port in OfferedBy(h.instances[id].manifest) {
          OwnerOf(h, id, port);
        }
      }
    }
  }

  lemma StartedAside(h: Host, t: Host, id: Id)
    requires StartedOne(h, t, id)
    ensures Aside(h, t, id) && (t == h || !Runs(h, id))
    ensures t != h && Runs(t, id) ==> !MissingProvider(h, h.instances[id])
  {
    assert id in h.instances ==> h.instances == h.instances[id := h.instances[id]];
  }

  lemma NewlyRunning(h: Host, t: Host, id: Id)
    requires WiredHost(h) && id in h.instances && StartedOne(h, t, id) && !Runs(h, id) && Runs(t, id) && !UsesOf(h, id, id)
    ensures CoherentAt(t, id)
  {
    hide WiredHost;
    var m := h.instances[id].manifest;
    var i := t.instances[id];
    forall req | req in m.required
      ensures req.port.name in i.captured && i.captured[req.port.name] == Lookup(t.ports, req.port.name)
      ensures !req.optional ==> req.port.name in t.providers && Runs(t, t.providers[req.port.name])
    {
      if req.port.name in OfferedBy(m) {
        OwnerOf(h, id, req.port.name);
      }
    }
  }

  lemma PortsAside(h: Host, t: Host, id: Id)
    requires WiredHost(h) && PortsOwned(h) && Aside(h, t, id)
    requires forall port :: port in t.ports && port in OfferedBy(h.instances[id].manifest) ==> Runs(t, id)
    ensures PortsOwned(t)
  {
    forall port | port in t.ports
      ensures port in t.providers && t.providers[port] in t.instances && t.instances[t.providers[port]].state in {Running, Stopping}
    {
      if port in OfferedBy(h.instances[id].manifest) {
        OwnerOf(h, id, port);
      } else {
        assert Lookup(t.ports, port) == Lookup(h.ports, port);
      }
    }
  }

  /** A component that has not had its turn has no live port, and gets some only by running. */
  lemma OwnPorts(h: Host, t: Host, id: Id, port: Port)
    requires WiredHost(h) && StartedOne(h, t, id) && forall own :: !Owns(h, id, own)
    requires port in t.ports && port in OfferedBy(h.instances[id].manifest)
    ensures Runs(t, id)
  {
    OwnerOf(h, id, port);
    assert !Owns(h, id, port);
  }

  /** One round of the start loop keeps every running component in agreement with the live bindings. */
  lemma StartStep(h: Host, t: Host, k: nat)
    requires k < |h.order| && StartInv(h, Members(h.order[..k])) && StartedOne(h, t, h.order[k])
    ensures StartInv(t, Members(h.order[..k + 1])) && t.order == h.order && t.instances.Keys == h.instances.Keys
  {
    var id, passed := h.order[k], Members(h.order[..k]);
    OneMorePassed(h, k);
    StartedAside(h, t, id);
    KeysOfUpdate(h.instances, id, t.instances[id]);
    SameWiring(h, t, id);
    if t != h {
      forall port | port in t.ports && port in OfferedBy(h.instances[id].manifest) ensures Runs(t, id) {
        OwnPorts(h, t, id, port);
      }
      PortsAside(h, t, id);
      forall user | user in t.instances ensures CoherentAt(t, user) {
        if user != id {
          CoherentAside(h, t, id, user);
        } else if Runs(t, id) {
          NewlyRunning(h, t, id);
        }
      }
    }
    StartedSettled(h, t, id, passed);
    hide WiredHost, Coherent, PortsOwned, StartedOne, Aside;
  }

  lemma OneMorePassed(h: Host, k: nat)
    requires WiredHost(h) && k < |h.order|
    ensures h.order[k] in h.instances && h.order[k] !in Members(h.order[..k])
    ensures Members(h.order[..k + 1]) == Members(h.order[..k]) + {h.order[k]}
    ensures !UsesOf(h, h.order[k], h.order[k])
    ensures forall dep :: UsesOf(h, h.order[k], dep) ==> dep in Members(h.order[..k])
  {
    var g := DepGraph(Manifests(h.instances), h.providers);
    assert h.order[k] in Members(h.order);
    assert h.order[..k + 1] == h.order[..k] + [h.order[k]];
    forall dep | UsesOf(h, h.order[k], dep) ensures dep in Members(h.order[..k]) {
      EdgeIsUse(Manifests(h.instances), h.providers, h.order[k], dep);
    }
  }

  lemma StartedSettled(h: Host, t: Host, id: Id, passed: set<Id>)
    requires WiredHost(h) && SettledUse(h, passed) && Waiting(h, passed) && Aside(h, t, id)
    requires Runs(h, id) ==> t == h
    requires forall dep :: UsesOf(h, id, dep) ==> dep in passed
    ensures SettledUse(t, passed + {id}) && Waiting(t, passed + {id})
  {
    forall user, dep | Runs(t, user) && UsesOf(t, user, dep) ensures Runs(t, dep) || dep in passed + {id} {
      assert UsesOf(h, user, dep);
    }
    forall other, port | other in t.instances && other != id && Owns(t, other, port) ensures Owns(h, other, port) {
      if port in OfferedBy(h.instances[id].manifest) {
        OwnerOf(h, id, port);
      } else {
        assert Lookup(t.ports, port) == Lookup(h.ports, port);
      }
    }
  }

  /** A component that has had its turn runs, has failed, or is blocked by a required provider that does not run. */
  ghost predicate Turned(h: Host, id: Id) {
    id in h.instances &&
    (|| h.instances[id].state in {Running, Failed}
     || (h.instances[id].state == Blocked && exists req :: && req in h.instances[id].manifest.required && !req.optional
                                                           && !(req.port.name in h.providers && Runs(h, h.providers[req.port.name]))))
  }

  ghost predicate TurnedUpTo(h: Host, k: nat) {
    k <= |h.order| && forall j :: 0 <= j < k ==> Turned(h, h.order[j])
  }

  lemma StillMissing(h: Host, t: Host, j: nat, k: nat)
    requires WiredHost(h) && j <= k < |h.order| && Aside(h, t, h.order[k]) && h.order[j] in h.instances
    requires MissingProvider(h, h.instances[h.order[j]])
    requires h.order[j] in t.instances && t.instances[h.order[j]].manifest == h.instances[h.order[j]].manifest
    ensures MissingProvider(t, t.instances[h.order[j]])
  {
    var i := h.instances[h.order[j]];
    var req :| req in i.manifest.required && !req.optional && !(req.port.name in h.providers && Runs(h, h.providers[req.port.name]));
    if req.port.name in h.providers {
      var dep := h.providers[req.port.name];
      assert UsesOf(h, h.order[j], dep);
      if dep == h.order[k] {
        OrderedUse(h, j, k);
      }
    }
  }

  lemma TurnedStep(h: Host, t: Host, k: nat)
    requires k < |h.order| && WiredHost(h) && TurnedUpTo(h, k) && StartedOne(h, t, h.order[k])
    ensures TurnedUpTo(t, k + 1)
  {
    StartedAside(h, t, h.order[k]);
    hide WiredHost;
    forall j | 0 <= j < k + 1 ensures Turned(t, h.order[j]) {
      assert j < k ==> Turned(h, h.order[j]);
      if h.order[j] in h.instances && MissingProvider(h, h.instances[h.order[j]]) {
        StillMissing(h, t, j, k);
      }
    }
  }

  /** When a component has its turn, nothing that uses it holds resources: a failed start may be cleaned up at once. */
  lemma NoUserYet(h: Host, k: nat, user: Id)
    requires k < |h.order| && StartInv(h, Members(h.order[..k])) && !Runs(h, h.order[k]) && UsesOf(h, user, h.order[k])
    ensures !h.instances[user].initialized
  {
    OneMorePassed(h, k);
    assert user in Members(h.order);
    var j :| 0 <= j < |h.order| && h.order[j] == user;
    OrderedUse(h, j, k);
  }

  // ---- which components a reconciliation affects ----

  function Provider(providers: map<Port, Id>, port: Port): Option<Id> {
    if port in providers then Some(providers[port]) else None
  }

  /** A requirement, optional or not, changes its provider, or the provider is affected. */
  predicate Touched(h: Host, next: map<Port, Id>, affected: set<Id>, id: Id)
    requires id in h.instances
  {
    exists req :: req in h.instances[id].manifest.required &&
      (var was := Provider(h.providers, req.port.name);
       was != Provider(next, req.port.name) || (was.Some? && was.value in affected))
  }

  /** Components that go away or do not run are affected, and with them whatever is touched. */
  ghost predicate ClosedUnder(h: Host, next: map<Port, Id>, kept: set<Id>, affected: set<Id>) {
    && (forall id :: id in h.instances && (id !in kept || !Runs(h, id)) ==> id in affected)
    && (forall id :: id in h.instances && Touched(h, next, affected, id) ==> id in affected)
  }

  ghost predicate LeastClosed(h: Host, next: map<Port, Id>, kept: set<Id>, affected: set<Id>) {
    && affected <= h.instances.Keys && ClosedUnder(h, next, kept, affected)
    && forall other :: ClosedUnder(h, next, kept, other) ==> affected <= other
  }

  ghost predicate BelowEveryClosed(h: Host, next: map<Port, Id>, kept: set<Id>, affected: set<Id>) {
    forall other :: ClosedUnder(h, next, kept, other) ==> affected <= other
  }

  // ---- draining ----

  function MarkStopping(h: Host, affected: set<Id>): Host {
    h.(instances := map id | id in h.instances :: if id in affected then h.instances[id].(state := Stopping) else h.instances[id])
  }

  /** No component outside the set uses one inside it. */
  ghost predicate Separate(h: Host, affected: set<Id>) {
    forall user, dep :: user in h.instances && user !in affected && UsesOf(h, user, dep) ==> dep !in affected
  }

  /** The affected components are stopping; those in `gone` have stopped and left no port behind. The others are as before. */
  ghost predicate Draining(h0: Host, h: Host, affected: set<Id>, gone: set<Id>) {
    && WiredHost(h) && Coherent(h) && PortsOwned(h) && Separate(h, affected)
    && h.providers == h0.providers && h.order == h0.order && h.instances.Keys == h0.instances.Keys && h.ports.Keys <= h0.ports.Keys
    && (forall id :: id in h.instances && id !in affected ==> h.instances[id] == h0.instances[id] && Runs(h, id))
    && (forall id :: id in h.instances && id in affected ==>
          && h.instances[id].manifest == h0.instances[id].manifest && h.instances[id].state in {Stopping, Stopped}
          && (h.instances[id].initialized ==> h0.instances[id].initialized)
          && (id in gone ==> h.instances[id].state == Stopped && !h.instances[id].initialized))
  }

  lemma DrainStarts(h: Host, next: map<Port, Id>, kept: set<Id>, affected: set<Id>)
    requires WiredHost(h) && Coherent(h) && PortsOwned(h) && ClosedUnder(h, next, kept, affected)
    ensures Draining(h, MarkStopping(h, affected), affected, {})
  {
    hide WiredHost, Coherent, PortsOwned, Separate, ClosedUnder;
    ClosedIsSeparate(h, next, kept, affected);
    MarkedWiring(h, affected);
    MarkedAll(h, affected);
    MarkedFacts(h, next, kept, affected);
  }

  lemma MarkedFacts(h: Host, next: map<Port, Id>, kept: set<Id>, affected: set<Id>)
    requires ClosedUnder(h, next, kept, affected)
    ensures var t := MarkStopping(h, affected);
            && t.providers == h.providers && t.order == h.order && t.instances.Keys == h.instances.Keys
            && (forall id :: id in t.instances && id !in affected ==> t.instances[id] == h.instances[id] && Runs(t, id))
            && (forall id :: id in t.instances && id in affected ==>
                  t.instances[id] == h.instances[id].(state := Stopping))
  {
    hide Touched;
  }

  lemma ClosedIsSeparate(h: Host, next: map<Port, Id>, kept: set<Id>, affected: set<Id>)
    requires ClosedUnder(h, next, kept, affected)
    ensures Separate(h, affected)
  {
    forall user, dep | user in h.instances && user !in affected && UsesOf(h, user, dep) ensures dep !in affected {
      var req :| req in h.instances[user].manifest.required && req.port.name in h.providers && h.providers[req.port.name] == dep;
      assert Provider(h.providers, req.port.name) == Some(dep);
      assert !Touched(h, next, affected, user);
    }
  }

  lemma MarkedWiring(h: Host, affected: set<Id>)
    requires WiredHost(h) && PortsOwned(h) && Separate(h, affected)
    ensures WiredHost(MarkStopping(h, affected)) && PortsOwned(MarkStopping(h, affected)) && Separate(MarkStopping(h, affected), affected)
  {
    var t := MarkStopping(h, affected);
    assert Manifests(t.instances) == Manifests(h.instances);
    hide Wired, Manifests, PortsOwned;
    assert forall user, dep :: UsesOf(t, user, dep) <==> UsesOf(h, user, dep);
    hide UsesOf, Separate;
    MarkedPorts(h, affected);
  }

  lemma MarkedPorts(h: Host, affected: set<Id>)
    requires PortsOwned(h)
    ensures PortsOwned(MarkStopping(h, affected))
  {
  }

  lemma MarkedAll(h: Host, affected: set<Id>)
    requires WiredHost(h) && Coherent(h) && Separate(h, affected)
    ensures Coherent(MarkStopping(h, affected))
  {
    var t := MarkStopping(h, affected);
    forall id | id in t.instances ensures CoherentAt(t, id) {
      assert CoherentAt(h, id);
      if id !in affected {
        MarkedCoherent(h, affected, id);
      }
    }
  }

  lemma MarkedCoherent(h: Host, affected: set<Id>, id: Id)
    requires WiredHost(h) && Separate(h, affected) && id in h.instances && id !in affected && CoherentAt(h, id)
    ensures CoherentAt(MarkStopping(h, affected), id)
  {
    var t := MarkStopping(h, affected);
    var i := h.instances[id];
    if i.state == Running {
      forall req | req in i.manifest.required && !req.optional ensures Runs(t, t.providers[req.port.name]) {
        assert UsesOf(h, id, h.providers[req.port.name]);
      }
    }
  }

  /** One affected component has been stopped. */
  function Drained(h: Host, id: Id): Host
    requires id in h.instances
  {
    h.(instances := h.instances[id := h.instances[id].(state := Stopped, initialized := false)], ports := h.ports - OfferedBy(h.instances[id].manifest))
  }

  lemma DrainStep(h0: Host, h: Host, affected: set<Id>, gone: set<Id>, id: Id)
    requires Draining(h0, h, affected, gone) && id in h.instances && id in affected
    ensures Draining(h0, Drained(h, id), affected, gone + {id})
  {
    hide WiredHost, Coherent, PortsOwned, UsesOf, Separate, Aside;
    var t := Drained(h, id);
    DrainedAside(h, id);
    KeysOfUpdate(h.instances, id, t.instances[id]);
    SameWiring(h, t, id);
    DrainedCoherent(h0, h, affected, gone, id);
    PortsAside(h, t, id);
    SeparateAside(h, t, affected, id);
  }

  lemma DrainedAside(h: Host, id: Id)
    requires id in h.instances
    ensures Aside(h, Drained(h, id), id)
  {
  }

  lemma SeparateAside(h: Host, t: Host, affected: set<Id>, id: Id)
    requires Separate(h, affected) && Aside(h, t, id)
    ensures Separate(t, affected)
  {
    assert forall user, dep :: UsesOf(t, user, dep) <==> UsesOf(h, user, dep);
  }

  lemma DrainedCoherent(h0: Host, h: Host, affected: set<Id>, gone: set<Id>, id: Id)
    requires Draining(h0, h, affected, gone) && id in h.instances && id in affected
    ensures Coherent(Drained(h, id))
  {
    var t := Drained(h, id);
    DrainedAside(h, id);
    forall user | user in t.instances ensures CoherentAt(t, user) {
      assert CoherentAt(h, user);
      if user != id {
        assert Runs(h, user) ==> user !in affected;
        hide CoherentAt;
        CoherentAside(h, t, id, user);
      }
    }
  }

  /** While draining from the end of the order, whatever uses the next component no longer holds resources. */
  lemma UsersDrained(h0: Host, h: Host, affected: set<Id>, k: nat, user: Id)
    requires k < |h.order| && Draining(h0, h, affected, Members(h.order[k + 1..]) * affected) && h.order[k] in affected
    requires UsesOf(h, user, h.order[k])
    ensures !h.instances[user].initialized
  {
    assert user in affected;
    assert user in Members(h.order);
    var j :| 0 <= j < |h.order| && h.order[j] == user;
    OrderedUse(h, j, k);
    assert h.order[k + 1..][j - k - 1] == user;
  }

  // ---- the swap ----

  function Swapped(h: Host, desired: Host, affected: set<Id>): Host {
    Host(map id | id in desired.instances :: if id in h.instances && id !in affected then h.instances[id] else desired.instances[id],
         desired.providers, h.ports, desired.order)
  }

  /** A validated build that nobody has started. */
  ghost predicate Unstarted(desired: Host) {
    WiredHost(desired) && forall id :: id in desired.instances ==> desired.instances[id] == Fresh(desired.instances[id].manifest)
  }

  /** An ID keeps its manifest from one build to the next. */
  ghost predicate SameManifests(h: Host, desired: Host) {
    forall id :: id in h.instances && id in desired.instances ==> h.instances[id].manifest == desired.instances[id].manifest
  }

  lemma KeptProvider(h0: Host, h: Host, desired: Host, affected: set<Id>, id: Id, req: Requirement)
    requires Draining(h0, h, affected, affected) && ClosedUnder(h0, desired.providers, desired.instances.Keys, affected)
    requires id in h.instances && id !in affected && req in h.instances[id].manifest.required
    ensures Provider(desired.providers, req.port.name) == Provider(h.providers, req.port.name)
    ensures req.port.name in h.providers ==> h.providers[req.port.name] !in affected
  {
    assert !Touched(h0, desired.providers, affected, id);
  }

  /** After a complete drain and the swap, the start loop finds everything as it expects it. */
  lemma SwapIsReady(h0: Host, h: Host, desired: Host, affected: set<Id>)
    requires Draining(h0, h, affected, affected) && Unstarted(desired) && SameManifests(h, desired)
    requires ClosedUnder(h0, desired.providers, desired.instances.Keys, affected)
    ensures StartInv(Swapped(h, desired, affected), {})
  {
    SwappedWiring(h, desired, affected);
    SwappedPorts(h0, h, desired, affected);
    SwappedWaiting(h0, h, desired, affected);
    SwappedSettled(h0, h, desired, affected);
    SwappedAllCoherent(h0, h, desired, affected);
    hide Draining, Unstarted, SameManifests, ClosedUnder, Swapped, WiredHost, Coherent, PortsOwned, SettledUse, Waiting;
  }

  lemma SwappedSettled(h0: Host, h: Host, desired: Host, affected: set<Id>)
    requires Draining(h0, h, affected, affected) && Unstarted(desired)
    requires ClosedUnder(h0, desired.providers, desired.instances.Keys, affected)
    ensures SettledUse(Swapped(h, desired, affected), {})
  {
    hide Draining, ClosedUnder, WiredHost, UsesOf;
    var t := Swapped(h, desired, affected);
    forall user, dep | Runs(t, user) && UsesOf(t, user, dep) ensures Runs(t, dep) {
      assert user in h.instances && user !in affected;
      KeptUse(h0, h, desired, affected, user, dep);
    }
  }

  lemma SwappedAllCoherent(h0: Host, h: Host, desired: Host, affected: set<Id>)
    requires Draining(h0, h, affected, affected) && Unstarted(desired)
    requires ClosedUnder(h0, desired.providers, desired.instances.Keys, affected)
    ensures Coherent(Swapped(h, desired, affected))
  {
    hide Draining, ClosedUnder, WiredHost;
    var t := Swapped(h, desired, affected);
    forall id | id in t.instances ensures CoherentAt(t, id) {
      if id in h.instances && id !in affected {
        hide CoherentAt;
        SwappedCoherent(h0, h, desired, affected, id);
      }
    }
  }

  lemma SwappedWiring(h: Host, desired: Host, affected: set<Id>)
    requires Unstarted(desired) && SameManifests(h, desired)
    ensures WiredHost(Swapped(h, desired, affected))
  {
    assert Manifests(Swapped(h, desired, affected).instances) == Manifests(desired.instances);
  }

  lemma KeptUse(h0: Host, h: Host, desired: Host, affected: set<Id>, user: Id, dep: Id)
    requires Draining(h0, h, affected, affected) && ClosedUnder(h0, desired.providers, desired.instances.Keys, affected)
    requires user in h.instances && user !in affected && user in desired.instances && UsesOf(Swapped(h, desired, affected), user, dep)
    ensures Runs(Swapped(h, desired, affected), dep)
  {
    var t := Swapped(h, desired, affected);
    var req :| req in t.instances[user].manifest.required && req.port.name in t.providers && t.providers[req.port.name] == dep;
    KeptProvider(h0, h, desired, affected, user, req);
    assert Provider(desired.providers, req.port.name) == Some(dep);
    assert UsesOf(h, user, dep);
    hide WiredHost, Coherent, PortsOwned;
  }

  lemma SwappedWaiting(h0: Host, h: Host, desired: Host, affected: set<Id>)
    requires Draining(h0, h, affected, affected) && Unstarted(desired) && SameManifests(h, desired)
    requires ClosedUnder(h0, desired.providers, desired.instances.Keys, affected)
    ensures Waiting(Swapped(h, desired, affected), {})
  {
    hide WiredHost, Coherent, PortsOwned, Separate, ClosedUnder, SameManifests;
    var t := Swapped(h, desired, affected);
    forall id, port | id in t.instances && Owns(t, id, port) ensures Runs(t, id) {
      LivePortKept(h0, h, desired, affected, port);
    }
  }

  /** The ports still live after a complete drain belong to components that stay, and stay theirs. */
  lemma LivePortKept(h0: Host, h: Host, desired: Host, affected: set<Id>, port: Port)
    requires Draining(h0, h, affected, affected) && Unstarted(desired) && SameManifests(h, desired)
    requires ClosedUnder(h0, desired.providers, desired.instances.Keys, affected) && port in h.ports
    ensures port in h.providers && port in desired.providers && desired.providers[port] == h.providers[port]
    ensures h.providers[port] !in affected && Runs(h, h.providers[port]) && h.providers[port] in desired.instances
  {
    var owner := h.providers[port];
    assert owner !in affected && owner in desired.instances;
    OwnerOf(desired, owner, port);
  }

  lemma SwappedCoherent(h0: Host, h: Host, desired: Host, affected: set<Id>, id: Id)
    requires Draining(h0, h, affected, affected) && ClosedUnder(h0, desired.providers, desired.instances.Keys, affected)
    requires id in h.instances && id in desired.instances && id !in affected
    ensures CoherentAt(Swapped(h, desired, affected), id)
  {
    var t := Swapped(h, desired, affected);
    assert CoherentAt(h, id);
    forall req | req in h.instances[id].manifest.required && !req.optional
      ensures req.port.name in t.providers && Runs(t, t.providers[req.port.name])
    {
      KeptProvider(h0, h, desired, affected, id, req);
      assert Provider(h.providers, req.port.name) == Provider(desired.providers, req.port.name);
    }
  }

  lemma SwappedPorts(h0: Host, h: Host, desired: Host, affected: set<Id>)
    requires Draining(h0, h, affected, affected) && Unstarted(desired) && SameManifests(h, desired)
    requires ClosedUnder(h0, desired.providers, desired.instances.Keys, affected)
    ensures PortsOwned(Swapped(h, desired, affected))
  {
    var t := Swapped(h, desired, affected);
    forall port | port in t.ports
      ensures port in t.providers && t.providers[port] in t.instances && t.instances[t.providers[port]].state in {Running, Stopping}
    {
      LivePortKept(h0, h, desired, affected, port);
    }
    hide WiredHost, Coherent, Separate;
  }
}
