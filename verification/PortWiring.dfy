/**
 The component registry: manifests declare the ports that components offer and require, and a build checks them and
 finds an order in which providers come before their users.
 */
module PortWiring {
  import opened DependencyGraph

  type Id(==, !new)
  type Port(==, !new)
  type Contract(==, !new)

  /** `named`: the name is not empty; `isInterface`: the contract type is an interface. */
  datatype PortSpec = PortSpec(name: Port, named: bool, major: int, minor: int, contract: Contract, isInterface: bool)

  datatype Requirement = Requirement(port: PortSpec, optional: bool)

  datatype Manifest = Manifest(offered: seq<PortSpec>, required: seq<Requirement>)

  predicate ValidPort(p: PortSpec) {
    p.named && p.major >= 1 && p.minor >= 0 && p.isInterface
  }

  /** An offered port serves a requirement of the same contract and major version, of no newer minor version. */
  predicate Compatible(p: PortSpec, req: PortSpec) {
    p.contract == req.contract && p.major == req.major && p.minor >= req.minor
  }

  predicate Offers(m: Manifest, port: Port) {
    exists k :: 0 <= k < |m.offered| && m.offered[k].name == port
  }

  // ---- when a set of manifests is in order ----

  ghost predicate Distinct2(ports: seq<PortSpec>) {
    forall k, l :: 0 <= k < l < |ports| ==> ports[k].name != ports[l].name
  }

  ghost predicate AllValid(ports: seq<PortSpec>) {
    forall k :: 0 <= k < |ports| ==> ValidPort(ports[k])
  }

  /** Every offered port is valid, and no name is offered twice. */
  ghost predicate OffersFine(entries: map<Id, Manifest>, ids: set<Id>)
    requires ids <= entries.Keys
  {
    && (forall id :: id in ids ==> AllValid(entries[id].offered) && Distinct2(entries[id].offered))
    && (forall a, b, port :: a in ids && b in ids && Offers(entries[a], port) && Offers(entries[b], port) ==> a == b)
  }

  ghost predicate OfferedAnywhere(entries: map<Id, Manifest>, port: Port) {
    exists id :: id in entries && Offers(entries[id], port)
  }

  /** The requirement is met by a compatible offer, or is optional and met by none. */
  ghost predicate Served(entries: map<Id, Manifest>, req: Requirement) {
    && ValidPort(req.port)
    && (req.optional || OfferedAnywhere(entries, req.port.name))
    && (forall id, k :: id in entries && 0 <= k < |entries[id].offered| && entries[id].offered[k].name == req.port.name ==>
          Compatible(entries[id].offered[k], req.port))
  }

  ghost predicate DemandsFine(entries: map<Id, Manifest>, m: Manifest) {
    && (forall k :: 0 <= k < |m.required| ==> Served(entries, m.required[k]))
    && (forall k, l :: 0 <= k < l < |m.required| ==> m.required[k].port.name != m.required[l].port.name)
  }

  ghost predicate AllDemandsFine(entries: map<Id, Manifest>, ids: set<Id>)
    requires ids <= entries.Keys
  {
    forall id :: id in ids ==> DemandsFine(entries, entries[id])
  }

  // ---- providers and dependencies ----

  /** The provider map lists exactly the offered ports. */
  ghost predicate ProvidersOf(entries: map<Id, Manifest>, ids: set<Id>, providers: map<Port, Id>)
    requires ids <= entries.Keys
  {
    && (forall id, port :: id in ids && Offers(entries[id], port) ==> port in providers && providers[port] == id)
    && (forall port :: port in providers ==> providers[port] in ids && Offers(entries[providers[port]], port))
  }

  /** The declarations behind the provider map. */
  ghost predicate SpecsOf(entries: map<Id, Manifest>, providers: map<Port, Id>, specs: map<Port, PortSpec>) {
    && specs.Keys == providers.Keys
    && forall port :: port in specs ==> providers[port] in entries && specs[port].name == port && specs[port] in entries[providers[port]].offered
  }

  /** The providers of the requirements that have one. */
  function DepsOf(reqs: seq<Requirement>, providers: map<Port, Id>): seq<Id> {
    if reqs == [] then []
    else
      var port := reqs[|reqs| - 1].port.name;
      DepsOf(reqs[..|reqs| - 1], providers) + (if port in providers then [providers[port]] else [])
  }

  function DepGraph(entries: map<Id, Manifest>, providers: map<Port, Id>): Graph<Id> {
    map id | id in entries :: DepsOf(entries[id].required, providers)
  }

  /** Some requirement of the manifest is served by the component. */
  predicate Uses(m: Manifest, providers: map<Port, Id>, dep: Id) {
    exists req :: req in m.required && req.port.name in providers && providers[req.port.name] == dep
  }

  lemma {:induction false} DepsAreUsed(m: Manifest, reqs: seq<Requirement>, providers: map<Port, Id>, dep: Id)
    requires m.required == reqs
    ensures dep in DepsOf(reqs, providers) <==> Uses(m, providers, dep)
    decreases reqs
  {
    if reqs != [] {
      var init := reqs[..|reqs| - 1];
      DepsAreUsed(Manifest(m.offered, init), init, providers, dep);
      assert reqs == init + [reqs[|reqs| - 1]];
    }
  }

  lemma EdgeIsUse(entries: map<Id, Manifest>, providers: map<Port, Id>, a: Id, b: Id)
    requires a in entries
    ensures Edge(DepGraph(entries, providers), a, b) <==> Uses(entries[a], providers, b)
  {
    DepsAreUsed(entries[a], entries[a].required, providers, b);
  }

  /** A build that is in order: every port has one provider, and the order puts providers before their users. */
  ghost predicate Wired(entries: map<Id, Manifest>, providers: map<Port, Id>, order: seq<Id>) {
    && ProvidersOf(entries, entries.Keys, providers)
    && Ordering(DepGraph(entries, providers), order)
    && forall id, req :: id in entries && req in entries[id].required && !req.optional ==> req.port.name in providers
  }

  lemma DepsKnown(entries: map<Id, Manifest>, providers: map<Port, Id>)
    requires ProvidersOf(entries, entries.Keys, providers)
    ensures Known(DepGraph(entries, providers))
  {
    forall a, b | Edge(DepGraph(entries, providers), a, b) ensures b in DepGraph(entries, providers) {
      EdgeIsUse(entries, providers, a, b);
    }
  }

  // ---- the checks of a build ----

  /** Some of the first `k` offers has the name. */
  predicate OffersUpTo(m: Manifest, k: nat, port: Port)
    requires k <= |m.offered|
  {
    exists l :: 0 <= l < k && m.offered[l].name == port
  }

  /** The first `k` offers are valid, and their names differ and are new. */
  ghost predicate FineUpTo(m: Manifest, k: nat, providers0: map<Port, Id>)
    requires k <= |m.offered|
  {
    && (forall l :: 0 <= l < k ==> ValidPort(m.offered[l]) && m.offered[l].name !in providers0)
    && (forall i, l :: 0 <= i < l < k ==> m.offered[i].name != m.offered[l].name)
  }

  /** The first `k` offers have been entered. */
  ghost predicate Entered(m: Manifest, k: nat, id: Id, providers0: map<Port, Id>, specs0: map<Port, PortSpec>,
                          providers: map<Port, Id>, specs: map<Port, PortSpec>)
    requires k <= |m.offered| && specs0.Keys == providers0.Keys
  {
    && specs.Keys == providers.Keys
    && (forall port :: port in providers <==> port in providers0 || OffersUpTo(m, k, port))
    && (forall port :: port in providers ==>
          if port in providers0 then providers[port] == providers0[port] && specs[port] == specs0[port]
          else providers[port] == id && specs[port] in m.offered && specs[port].name == port)
  }

  method AddOffers(id: Id, m: Manifest, providers0: map<Port, Id>, specs0: map<Port, PortSpec>)
    returns (ok: bool, providers: map<Port, Id>, specs: map<Port, PortSpec>)
    requires specs0.Keys == providers0.Keys
    ensures ok <==> FineUpTo(m, |m.offered|, providers0)
    ensures ok ==> Entered(m, |m.offered|, id, providers0, specs0, providers, specs)
  {
    providers, specs := providers0, specs0;
    for k := 0 to |m.offered|
      invariant FineUpTo(m, k, providers0) && Entered(m, k, id, providers0, specs0, providers, specs)
    {
      var p := m.offered[k];
      EnterNext(m, k, id, providers0, specs0, providers, specs);
      hide FineUpTo, Entered;
      if !p.named || p.major < 1 || p.minor < 0 || !p.isInterface || p.name in providers {
        return false, providers, specs;
      }
      providers, specs := providers[p.name := id], specs[p.name := p];
    }
    return true, providers, specs;
  }

  lemma EnterNext(m: Manifest, k: nat, id: Id, providers0: map<Port, Id>, specs0: map<Port, PortSpec>,
                  providers: map<Port, Id>, specs: map<Port, PortSpec>)
    requires k < |m.offered| && specs0.Keys == providers0.Keys
    requires FineUpTo(m, k, providers0) && Entered(m, k, id, providers0, specs0, providers, specs)
    ensures var p := m.offered[k];
            if ValidPort(p) && p.name !in providers
            then FineUpTo(m, k + 1, providers0)
                 && Entered(m, k + 1, id, providers0, specs0, providers[p.name := id], specs[p.name := p])
            else !FineUpTo(m, |m.offered|, providers0)
  {
    hide ValidPort;
    OneMoreOffer(m, k);
    if ValidPort(m.offered[k]) && m.offered[k].name !in providers {
      FineNext(m, k, providers0);
      hide FineUpTo, OffersUpTo;
    }
  }

  lemma FineNext(m: Manifest, k: nat, providers0: map<Port, Id>)
    requires k < |m.offered| && FineUpTo(m, k, providers0)
    requires ValidPort(m.offered[k]) && m.offered[k].name !in providers0 && !OffersUpTo(m, k, m.offered[k].name)
    ensures FineUpTo(m, k + 1, providers0)
  {
    hide ValidPort;
  }

  lemma OneMoreOffer(m: Manifest, k: nat)
    requires k < |m.offered|
    ensures forall port :: OffersUpTo(m, k + 1, port) <==> OffersUpTo(m, k, port) || port == m.offered[k].name
  {
    forall port ensures OffersUpTo(m, k + 1, port) <==> OffersUpTo(m, k, port) || port == m.offered[k].name {
      if port == m.offered[k].name {
        assert 0 <= k < k + 1 && m.offered[k].name == port;
      }
    }
  }

  /**
   The first loop of `Build`: whether all configurations and offers are fine, and then who provides each port.
   `rejected` holds the components whose configuration values their schema does not accept.
   */
  method Gather(entries: map<Id, Manifest>, rejected: set<Id>) returns (ok: bool, providers: map<Port, Id>, specs: map<Port, PortSpec>)
    ensures ok <==> rejected !! entries.Keys && OffersFine(entries, entries.Keys)
    ensures ok ==> ProvidersOf(entries, entries.Keys, providers) && SpecsOf(entries, providers, specs)
  {
    providers, specs := map[], map[];
    var rest := entries.Keys;
    ghost var done: set<Id> := {};
    while rest != {}
      invariant done == entries.Keys - rest && rest <= entries.Keys
      invariant rejected !! done && OffersFine(entries, done)
      invariant ProvidersOf(entries, done, providers) && SpecsOf(entries, providers, specs)
    {
      hide OffersFine, ProvidersOf, SpecsOf, FineUpTo, Entered;
      var id :| id in rest;
      if id in rejected {
        return false, providers, specs;
      }
      ghost var providers0, specs0 := providers, specs;
      ok, providers, specs := AddOffers(id, entries[id], providers, specs);
      GatherStep(entries, done, id, providers0, providers, specs0, specs, ok);
      if !ok {
        return;
      }
      rest := rest - {id};
      done := done + {id};
    }
    assert done == entries.Keys;
    return true, providers, specs;
  }

  lemma GatherStep(entries: map<Id, Manifest>, done: set<Id>, id: Id, providers0: map<Port, Id>, providers: map<Port, Id>,
                   specs0: map<Port, PortSpec>, specs: map<Port, PortSpec>, ok: bool)
    requires done <= entries.Keys && id in entries && id !in done
    requires OffersFine(entries, done) && ProvidersOf(entries, done, providers0) && SpecsOf(entries, providers0, specs0)
    requires ok <==> FineUpTo(entries[id], |entries[id].offered|, providers0)
    requires ok ==> Entered(entries[id], |entries[id].offered|, id, providers0, specs0, providers, specs)
    ensures !ok ==> !OffersFine(entries, entries.Keys)
    ensures ok ==> OffersFine(entries, done + {id}) && ProvidersOf(entries, done + {id}, providers) && SpecsOf(entries, providers, specs)
  {
    FineAll(entries[id], providers0);
    if ok {
      hide Distinct2, Offers, AllValid, FineUpTo, OffersFine, ProvidersOf, SpecsOf;
      GatherOffers(entries, done, id, providers0);
      OffersAll(entries[id]);
      GatherProviders(entries, done, id, providers0, providers);
      hide OffersUpTo;
      GatherSpecs(entries, id, providers0, providers, specs0, specs);
    } else {
      hide Entered, SpecsOf, Distinct2, Offers, AllValid, FineUpTo, OffersFine, ProvidersOf;
      NotFine(entries, done, id, providers0);
    }
  }

  lemma GatherSpecs(entries: map<Id, Manifest>, id: Id, providers0: map<Port, Id>, providers: map<Port, Id>,
                    specs0: map<Port, PortSpec>, specs: map<Port, PortSpec>)
    requires id in entries && SpecsOf(entries, providers0, specs0) && specs.Keys == providers.Keys
    requires forall port :: port in providers ==>
               if port in providers0 then providers[port] == providers0[port] && specs[port] == specs0[port]
               else providers[port] == id && specs[port] in entries[id].offered && specs[port].name == port
    ensures SpecsOf(entries, providers, specs)
  {
  }

  lemma GatherOffers(entries: map<Id, Manifest>, done: set<Id>, id: Id, providers0: map<Port, Id>)
    requires done <= entries.Keys && id in entries && id !in done
    requires OffersFine(entries, done) && ProvidersOf(entries, done, providers0)
    requires AllValid(entries[id].offered) && Distinct2(entries[id].offered)
    requires forall port :: Offers(entries[id], port) ==> port !in providers0
    ensures OffersFine(entries, done + {id})
  {
    hide AllValid, Distinct2, Offers;
  }

  lemma GatherProviders(entries: map<Id, Manifest>, done: set<Id>, id: Id, providers0: map<Port, Id>, providers: map<Port, Id>)
    requires done <= entries.Keys && id in entries && id !in done && ProvidersOf(entries, done, providers0)
    requires forall port :: Offers(entries[id], port) ==> port !in providers0
    requires forall port :: port in providers <==> port in providers0 || Offers(entries[id], port)
    requires forall port :: port in providers ==> providers[port] == if port in providers0 then providers0[port] else id
    ensures ProvidersOf(entries, done + {id}, providers)
  {
    hide Offers;
  }

  lemma NotFine(entries: map<Id, Manifest>, done: set<Id>, id: Id, providers0: map<Port, Id>)
    requires done <= entries.Keys && id in entries && id !in done && ProvidersOf(entries, done, providers0)
    requires !(AllValid(entries[id].offered) && Distinct2(entries[id].offered) && forall port :: Offers(entries[id], port) ==> port !in providers0)
    ensures !OffersFine(entries, entries.Keys)
  {
    hide AllValid, Distinct2, Offers;
  }

  lemma OffersAll(m: Manifest)
    ensures forall port :: OffersUpTo(m, |m.offered|, port) <==> Offers(m, port)
  {
  }

  lemma FineAll(m: Manifest, providers0: map<Port, Id>)
    ensures FineUpTo(m, |m.offered|, providers0)
            <==> AllValid(m.offered) && Distinct2(m.offered) && forall port :: Offers(m, port) ==> port !in providers0
  {
    hide ValidPort;
    assert forall l :: 0 <= l < |m.offered| ==> Offers(m, m.offered[l].name);
  }

  /** The first `k` requirements are served and differ, and `seen` holds their names. */
  ghost predicate DemandsUpTo(entries: map<Id, Manifest>, m: Manifest, k: nat, seen: set<Port>)
    requires k <= |m.required|
  {
    && (forall l :: 0 <= l < k ==> Served(entries, m.required[l]))
    && (forall i, j :: 0 <= i < j < k ==> m.required[i].port.name != m.required[j].port.name)
    && (forall port :: port in seen <==> exists l :: 0 <= l < k && m.required[l].port.name == port)
  }

  lemma DemandNext(entries: map<Id, Manifest>, m: Manifest, k: nat, seen: set<Port>)
    requires k < |m.required| && DemandsUpTo(entries, m, k, seen)
    ensures var req := m.required[k];
            if Served(entries, req) && req.port.name !in seen
            then DemandsUpTo(entries, m, k + 1, seen + {req.port.name})
            else !DemandsFine(entries, m)
  {
    hide Served;
  }

  method CheckDemands(entries: map<Id, Manifest>, m: Manifest, providers: map<Port, Id>, specs: map<Port, PortSpec>) returns (ok: bool)
    requires OffersFine(entries, entries.Keys) && ProvidersOf(entries, entries.Keys, providers) && SpecsOf(entries, providers, specs)
    ensures ok <==> DemandsFine(entries, m)
  {
    var seen: set<Port> := {};
    for k := 0 to |m.required|
      invariant DemandsUpTo(entries, m, k, seen)
    {
      hide DemandsUpTo, DemandsFine, Served, OffersFine, ProvidersOf, SpecsOf;
      var req := m.required[k];
      ServedBy(entries, providers, specs, req);
      DemandNext(entries, m, k, seen);
      var port := req.port;
      if !port.named || port.major < 1 || port.minor < 0 || !port.isInterface {
        return false;
      }
      if req.port.name in seen {
        return false;
      }
      seen := seen + {req.port.name};
      if req.port.name !in providers {
        if req.optional {
          continue;
        }
        return false;
      }
      var offered := specs[port.name];
      if offered.contract != port.contract || offered.major != port.major || offered.minor < port.minor {
        return false;
      }
    }
    hide Served;
    return true;
  }

  /** Looking the provider up is enough: the port has no other offer. */
  lemma ServedBy(entries: map<Id, Manifest>, providers: map<Port, Id>, specs: map<Port, PortSpec>, req: Requirement)
    requires OffersFine(entries, entries.Keys) && ProvidersOf(entries, entries.Keys, providers) && SpecsOf(entries, providers, specs)
    ensures specs.Keys == providers.Keys
    ensures Served(entries, req)
            <==> ValidPort(req.port) && (if req.port.name in providers then Compatible(specs[req.port.name], req.port) else req.optional)
  {
    hide ValidPort, Compatible;
    var port := req.port.name;
    assert OfferedAnywhere(entries, port) <==> port in providers;
    if port in providers {
      OnlyOffer(entries, providers, specs, port);
    }
  }

  lemma OfferAt(m: Manifest, k: nat)
    requires k < |m.offered|
    ensures Offers(m, m.offered[k].name)
  {
  }

  lemma OnlyOffer(entries: map<Id, Manifest>, providers: map<Port, Id>, specs: map<Port, PortSpec>, port: Port)
    requires OffersFine(entries, entries.Keys) && ProvidersOf(entries, entries.Keys, providers) && SpecsOf(entries, providers, specs)
    requires port in providers
    ensures specs[port] in entries[providers[port]].offered && specs[port].name == port
    ensures forall id, k :: id in entries && 0 <= k < |entries[id].offered| && entries[id].offered[k].name == port ==>
              entries[id].offered[k] == specs[port]
  {
    hide AllValid, Offers;
    var id, spec := providers[port], specs[port];
    var k :| 0 <= k < |entries[id].offered| && entries[id].offered[k] == spec;
    forall other, l | other in entries && 0 <= l < |entries[other].offered| && entries[other].offered[l].name == port
      ensures entries[other].offered[l] == spec
    {
      OfferAt(entries[other], l);
      OfferAt(entries[id], k);
      assert other == id && Distinct2(entries[id].offered);
    }
  }

  datatype Build = Built(providers: map<Port, Id>, order: seq<Id>) | BadEntry | BadDemand | Cyclic(reason: VisitResult<Id>)

  /**
   `Registry.Build` for the enabled components: it succeeds exactly when every configuration is accepted, every offer
   is valid and unique, every requirement is met by a compatible offer or optional, and no component needs itself; then
   the wiring is in order.
   */
  method BuildWiring(entries: map<Id, Manifest>, rejected: set<Id>) returns (r: Build)
    ensures r.BadEntry? <==> !(rejected !! entries.Keys && OffersFine(entries, entries.Keys))
    ensures r.BadDemand? <==> rejected !! entries.Keys && OffersFine(entries, entries.Keys) && !AllDemandsFine(entries, entries.Keys)
    ensures r.Built? ==> Wired(entries, r.providers, r.order)
    ensures r.Cyclic? ==> exists providers ::
              && ProvidersOf(entries, entries.Keys, providers) && !Acyclic(DepGraph(entries, providers))
              && Genuine(DepGraph(entries, providers), r.reason) && r.reason.CycleAt?
  {
    var ok, providers, specs := Gather(entries, rejected);
    if !ok {
      return BadEntry;
    }
    var rest := entries.Keys;
    while rest != {}
      invariant rest <= entries.Keys && AllDemandsFine(entries, entries.Keys - rest)
    {
      hide OffersFine, ProvidersOf, SpecsOf, DemandsFine;
      var id :| id in rest;
      ok := CheckDemands(entries, entries[id], providers, specs);
      if !ok {
        assert !DemandsFine(entries, entries[id]);
        return BadDemand;
      }
      rest := rest - {id};
    }
    assert entries.Keys - rest == entries.Keys;
    DepsKnown(entries, providers);
    hide OffersFine, SpecsOf;
    var search := OrderUnits(DepGraph(entries, providers));
    if search.Rejected? {
      return Cyclic(search.reason);
    }
    DemandsMet(entries, providers);
    return Built(providers, search.order);
  }

  lemma DemandsMet(entries: map<Id, Manifest>, providers: map<Port, Id>)
    requires AllDemandsFine(entries, entries.Keys) && ProvidersOf(entries, entries.Keys, providers)
    ensures forall id, req :: id in entries && req in entries[id].required && !req.optional ==> req.port.name in providers
  {
    forall id, req | id in entries && req in entries[id].required && !req.optional ensures req.port.name in providers {
      var k :| 0 <= k < |entries[id].required| && entries[id].required[k] == req;
      assert DemandsFine(entries, entries[id]) && Served(entries, entries[id].required[k]);
    }
  }
}
