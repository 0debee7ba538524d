/**
 The component runtime: it starts the components of a build, exchanges them for those of another build without
 replacing unrelated ones, and stops them. Lifecycle callbacks, drains and clean-ups may fail.
 */
module ComponentRuntime {
  import opened Collections
  import opened DependencyGraph
  import opened PortWiring
  import opened HostState

  datatype StopCall = StopCall(id: Id, ok: bool)

  function Successes(calls: seq<StopCall>, id: Id): nat {
    if calls == [] then 0
    else Successes(calls[..|calls| - 1], id) + (if calls[|calls| - 1] == StopCall(id, true) then 1 else 0)
  }

  /** Nothing that uses the component holds resources any more. */
  ghost predicate Free(h: Host, id: Id) {
    id in h.instances && forall user :: UsesOf(h, user, id) ==> !h.instances[user].initialized
  }

  /** Of the components that held resources when stopping began, exactly the stopped ones have had a successful Stop, one each. */
  ghost predicate Booked(instances: map<Id, Instance>, owed: set<Id>, calls: seq<StopCall>) {
    && owed <= instances.Keys
    && forall id :: id in instances ==>
         Successes(calls, id) == (if id in owed && !instances[id].initialized then 1 else 0) && (id !in owed ==> !instances[id].initialized)
  }

  /** What the runtime keeps before anybody has asked it to stop. */
  ghost predicate Operational(h: Host, started: bool) {
    WiredHost(h) && Coherent(h) && PortsOwned(h) && (!started ==> Unused(h))
  }

  datatype Outcome = Done | Refused | DrainFailed

  type Account(==)

  /** A runtime that a registry has built: what it wires up, whether it has been started already, and for whom it is. */
  datatype Build = Build(host: Host, started: bool, account: Account)

  /** The builds that can be exchanged for the running one. */
  predicate Exchangeable(desired: Option<Build>, account: Account) {
    desired.Some? && !desired.value.started && desired.value.account == account
  }

  class Runtime {
    const account: Account
    var instances: map<Id, Instance>
    var providers: map<Port, Id>
    var ports: map<Port, Value>
    var order: seq<Id>
    var started: bool
    var stopping: bool
    var stopped: bool
    ghost var calls: seq<StopCall>  // the Stop callbacks made since stopping began
    ghost var owed: set<Id>         // the components that held resources then
    ghost var failures: nat         // how often a start, a drain or a Stop callback has failed
    ghost var holding: set<Id>      // the components whose Init has been called and that have not been stopped since

    ghost function Now(): Host
      reads this`instances, this`providers, this`ports, this`order
    {
      Host(instances, providers, ports, order)
    }

    /** The records say of exactly the components that hold resources that they do. */
    ghost predicate Accounted()
      reads this`instances, this`holding
    {
      holding == Holders(instances)
    }

    ghost predicate Valid()
      reads this
    {
      && WiredHost(Now()) && Accounted()
      && (!stopping ==> Operational(Now(), started) && calls == [])
      && (stopping ==> Booked(instances, owed, calls))
      && (stopped ==> stopping && ports == map[] && forall id :: id in instances ==> !instances[id].initialized)
    }

    constructor (desired: Host, account: Account)
      requires Unstarted(desired) && desired.ports == map[]
      ensures Valid() && Now() == desired && !started && !stopping && this.account == account
    {
      this.account := account;
      instances, providers, ports, order := desired.instances, desired.providers, desired.ports, desired.order;
      started, stopping, stopped, calls, owed, failures, holding := false, false, false, [], {}, 0, {};
      new;
    }

    /** A component's Stop callback: it is made only when no user of the component holds resources. */
    method InvokeStop(id: Id) returns (ok: bool)
      requires Free(Now(), id)
      modifies this`calls, this`failures, this`holding
      ensures holding == if ok then old(holding) - {id} else old(holding)
      ensures calls == if stopping then old(calls) + [StopCall(id, ok)] else old(calls)
      ensures failures == old(failures) + (if ok then 0 else 1)
    {
      ok := *;
      if !ok {
        failures := failures + 1;
      }
      if stopping {
        calls := calls + [StopCall(id, ok)];
      }
      if ok {
        holding := holding - {id};
      }
    }

    /** Waiting for event handlers or for a component's runnables. */
    method DrainWork() returns (ok: bool)
      modifies this`failures
      ensures failures == old(failures) + (if ok then 0 else 1)
    {
      ok := *;
      if !ok {
        failures := failures + 1;
      }
    }

    /** The lifecycle callbacks of one component: what it binds, and whether Init and Start succeed. */
    method InvokeStart(id: Id, m: Manifest) returns (initialized: bool, ok: bool, bound: map<Port, Value>)
      modifies this`holding, this`failures
      ensures holding == if initialized then old(holding) + {id} else old(holding)
      ensures bound.Keys <= OfferedBy(m) && (ok ==> initialized)
      ensures failures == old(failures) + (if ok && OfferedBy(m) <= bound.Keys then 0 else 1)
    {
      initialized, ok, bound := *, *, *;
      bound := map port | port in bound && port in OfferedBy(m) :: bound[port];
      ok := ok && initialized;
      if initialized {
        holding := holding + {id};
      }
      if !(ok && OfferedBy(m) <= bound.Keys) {
        failures := failures + 1;
      }
    }

    /** One round of `startLocked`. */
    method StartComponent(k: nat)
      requires !stopping && Accounted() && k < |order| && StartInv(Now(), Members(order[..k]))
      modifies this`instances, this`ports, this`calls, this`failures, this`holding
      ensures StartedOne(old(Now()), Now(), order[k]) && calls == old(calls) && Accounted()
      ensures old(failures) <= failures
      ensures failures == old(failures) && !MissingProvider(old(Now()), old(instances)[order[k]]) ==> Runs(Now(), order[k])
    {
      hide StartInv, Free, Holders;
      var id := order[k];
      ghost var before := Now();
      TurnOf(before, k);
      var item := instances[id];
      if item.state == Running {
        return;
      }
      var missing := exists req :: req in item.manifest.required && !req.optional
                                   && !(req.port.name in providers && providers[req.port.name] in instances && instances[providers[req.port.name]].state == Running);
      assert missing == MissingProvider(before, item);
      hide MissingProvider;
      if missing {
        HoldersUpdate(instances, id, item.(state := Blocked));
        instances := instances[id := item.(state := Blocked)];
        return;
      }
      NoUsers(before, k);
      NotHolding(before, k);
      Launch(id, item.manifest);
    }

    /** Init and Start of a component whose providers run, and the clean-up when one of them fails. */
    method Launch(id: Id, m: Manifest)
      requires !stopping && Accounted() && Free(Now(), id) && id in instances && instances[id].manifest == m && !instances[id].initialized
      modifies this`instances, this`ports, this`calls, this`failures, this`holding
      ensures calls == old(calls) && Accounted() && id in old(instances) && Launched(old(Now()), Now(), id)
      ensures old(failures) <= failures && (failures == old(failures) ==> Runs(Now(), id))
    {
      hide Free, OfferedBy, Holders;
      ghost var before := Now();
      var captured := Snapshot(ports, m.required);
      var initialized, ok, bound := InvokeStart(id, m);
      ports := ports + bound;
      // every offered port must have been bound
      if ok && OfferedBy(m) <= bound.Keys {
        HoldersUpdate(instances, id, Instance(m, Running, true, captured, bound));
        instances := instances[id := Instance(m, Running, true, captured, bound)];
        return;
      }
      var drained: bool := *;
      if initialized && drained {
        FreeDespitePorts(before, Now(), id);
        var cleaned := InvokeStop(id);
        initialized := !cleaned;
      }
      ports := ports - OfferedBy(m);
      WithoutBound(before.ports, bound, OfferedBy(m));
      HoldersUpdate(instances, id, Instance(m, Failed, initialized, captured, bound));
      instances := instances[id := Instance(m, Failed, initialized, captured, bound)];
    }

    /** The loop of `startLocked`: afterwards every component runs, has failed, or waits for a provider. */
    method StartAll()
      requires !stopping && Accounted() && StartInv(Now(), {})
      modifies this`instances, this`ports, this`calls, this`failures, this`holding
      ensures calls == old(calls) && Accounted() && order == old(order) && instances.Keys == old(instances).Keys
      ensures WiredHost(Now()) && Coherent(Now()) && PortsOwned(Now()) && AllTurned(Now())
      ensures RunningKept(old(Now()), Now())
      ensures old(failures) <= failures && (failures == old(failures) ==> AllRun(Now()))
    {
      hide RunUpTo, AllRun, MissingProvider, Holders, AllTurned, StartInv, StartedOne, RunningKept, StartedUpTo, WiredHost, Coherent, PortsOwned;
      ghost var start := Now();
      NoneStarted(start);
      for k := 0 to |order|
        invariant calls == old(calls) && Accounted() && instances.Keys == start.instances.Keys
        invariant StartedUpTo(Now(), k) && RunningKept(start, Now())
        invariant old(failures) <= failures && (failures == old(failures) ==> RunUpTo(Now(), k))
      {
        ghost var before := Now();
        UpToTurn(before, k);
        StartComponent(k);
        UpToStep(before, Now(), k);
        RunningStays(start, before, Now(), order[k]);
        if failures == old(failures) {
          RunStep(before, Now(), k);
        }
      }
      AllStarted(Now());
    }

    /** `Start`: once only. */
    method Start() returns (outcome: Outcome)
      requires Valid()
      modifies this
      ensures Valid() && stopping == old(stopping) && stopped == old(stopped)
      ensures outcome == if old(started) || old(stopping) then Refused else Done
      ensures outcome == Refused ==> Now() == old(Now())
      ensures outcome == Done ==> started && Coherent(Now()) && PortsOwned(Now()) && AllTurned(Now())
      ensures outcome == Done && failures == old(failures) ==> AllRun(Now())
    {
      if started || stopped || stopping {
        return Refused;
      }
      started := true;
      hide WiredHost, Coherent, PortsOwned, StartInv, Booked, AllTurned, AllRun;
      StartAll();
      return Done;
    }

    /** `resolveComponentPort`: identity, state and value are read together, so the answer is the live binding. */
    method Resolve(component: Option<Id>, port: Port) returns (r: Option<Value>)
      requires Valid() && !stopping
      ensures r.Some? ==> r == Lookup(ports, port) && port in providers && Runs(Now(), providers[port])
                          && (component.Some? ==> component.value == providers[port])
      ensures r.None? && port in providers && Runs(Now(), providers[port]) ==> component.Some? && component.value != providers[port]
    {
      hide WiredHost, Coherent, PortsOwned, Unused, Misses, Uses;
      NothingMissed(Now(), component, port);
      for k := 0 to |order|
        invariant Misses(Now(), component, port, k)
      {
        ListedIsThere(Now(), k);
        var item := instances[order[k]];
        if item.state == Running && (component.None? || component.value == order[k]) && port in item.bound {
          ResolvedIsLive(Now(), order[k], port);
          return Some(item.bound[port]);
        }
        OneMoreMissed(Now(), component, port, k);
      }
      UnresolvedIsAbsent(Now(), component, port);
      return None;
    }

    // ---- exchanging components ----

    /** The components that must be replaced: the least set that the changes force. */
    method Affected(next: map<Port, Id>, kept: set<Id>) returns (affected: set<Id>)
      requires WiredHost(Now())
      ensures LeastClosed(Now(), next, kept, affected)
    {
      ghost var h := Now();
      affected := set id | id in instances && (id !in kept || instances[id].state != Running);
      var changed := true;
      while changed
        invariant affected <= instances.Keys && BelowEveryClosed(h, next, kept, affected)
        invariant forall id :: id in instances && (id !in kept || !Runs(h, id)) ==> id in affected
        invariant !changed ==> forall id :: id in instances && id !in affected ==> !Touched(h, next, affected, id)
        decreases instances.Keys - affected, changed
      {
        affected, changed := MarkTouched(next, kept, affected);
      }
    }

    /** One pass of the closure loop over all components. */
    method MarkTouched(next: map<Port, Id>, kept: set<Id>, affected0: set<Id>) returns (affected: set<Id>, changed: bool)
      requires affected0 <= instances.Keys && BelowEveryClosed(Now(), next, kept, affected0)
      ensures affected0 <= affected <= instances.Keys && BelowEveryClosed(Now(), next, kept, affected)
      ensures if changed then affected0 < affected else affected == affected0
      ensures !changed ==> forall id :: id in instances && id !in affected ==> !Touched(Now(), next, affected, id)
    {
      affected, changed := affected0, false;
      var rest := instances.Keys;
      while rest != {}
        invariant rest <= instances.Keys && affected0 <= affected <= instances.Keys
        invariant BelowEveryClosed(Now(), next, kept, affected)
        invariant if changed then affected0 < affected else affected == affected0
        invariant !changed ==> forall id :: id in instances && id !in rest && id !in affected ==> !Touched(Now(), next, affected, id)
      {
        hide BelowEveryClosed, ClosedUnder, Touched;
        var id :| id in rest;
        rest := rest - {id};
        if id in affected {
          continue;
        }
        var touched := IsTouched(next, affected, id);
        if touched {
          affected, changed := affected + {id}, true;
        }
      }
    }

    method IsTouched(next: map<Port, Id>, affected: set<Id>, id: Id) returns (touched: bool)
      requires id in instances
      ensures touched <==> Touched(Now(), next, affected, id)
    {
      var reqs := instances[id].manifest.required;
      for k := 0 to |reqs|
        invariant forall l :: 0 <= l < k ==>
                    var was := Provider(providers, reqs[l].port.name);
                    was == Provider(next, reqs[l].port.name) && (was.Some? ==> was.value !in affected)
      {
        var was := Provider(providers, reqs[k].port.name);
        if was != Provider(next, reqs[k].port.name) || (was.Some? && was.value in affected) {
          assert reqs[k] in reqs;
          return true;
        }
      }
      return false;
    }

    /** Stops the affected components, users before providers; a failing drain or Stop ends the attempt. */
    method Drain(affected: set<Id>, ghost h0: Host) returns (ok: bool)
      requires !stopping && Accounted() && Draining(h0, Now(), affected, {}) && affected <= instances.Keys
      modifies this`instances, this`ports, this`calls, this`failures, this`holding
      ensures calls == old(calls) && Accounted() && PartlyDrained(h0, Now(), affected) && (ok ==> Draining(h0, Now(), affected, affected))
      ensures if ok then failures == old(failures) else failures > old(failures)
    {
      for k := |order| downto 0
        invariant calls == old(calls) && Accounted() && instances.Keys == old(instances).Keys && failures == old(failures)
        invariant Draining(h0, Now(), affected, Members(order[k..]) * affected)
      {
        hide Draining, Members, Holders;
        ok := DrainComponent(k, affected, h0);
        if !ok {
          return;
        }
      }
      AllDrained(h0, Now(), affected);
      return true;
    }

    /** The drain and the Stop of one component, which is not yet entered as stopped. */
    method StopDrained(id: Id) returns (ok: bool)
      requires !stopping && Free(Now(), id) && Accounted()
      modifies this`calls, this`failures, this`holding
      ensures calls == old(calls) && failures == old(failures) + (if ok then 0 else 1)
      ensures holding == if ok && instances[id].initialized then old(holding) - {id} else old(holding)
    {
      hide Accounted;
      ok := DrainWork();
      if ok && instances[id].initialized {
        ok := InvokeStop(id);
      }
    }

    method DrainComponent(k: nat, affected: set<Id>, ghost h0: Host) returns (ok: bool)
      requires !stopping && Accounted() && k < |order| && Draining(h0, Now(), affected, Members(order[k + 1..]) * affected)
      modifies this`instances, this`ports, this`calls, this`failures, this`holding
      ensures calls == old(calls) && Accounted() && instances.Keys == old(instances).Keys
      ensures if ok then Draining(h0, Now(), affected, Members(order[k..]) * affected) else PartlyDrained(h0, Now(), affected)
      ensures failures == old(failures) + (if ok then 0 else 1)
    {
      var id := order[k];
      ghost var h := Now();
      ghost var gone := Members(order[k + 1..]) * affected;
      assert PartlyDrained(h0, h, affected);
      hide Draining, PartlyDrained, Members, Free, Holders, Drained, UsesOf, WiredHost;
      DrainNext(h0, h, affected, k);
      if id !in affected {
        return true;
      }
      ok := StopDrained(id);
      if !ok {
        return;
      }
      DrainStep(h0, h, affected, gone, id);
      Release(id);
      return true;
    }

    /** The records of a component that has been stopped. */
    method Release(id: Id)
      requires id in instances && holding == Holders(instances) - (if instances[id].initialized then {id} else {})
      modifies this`instances, this`ports
      ensures Now() == Drained(old(Now()), id) && Accounted()
    {
      HoldersUpdate(instances, id, instances[id].(state := Stopped, initialized := false));
      ports := ports - OfferedBy(instances[id].manifest);
      instances := instances[id := instances[id].(state := Stopped, initialized := false)];
    }

    /**
     `ReconcileComponents`. Only the least set of components that the new build forces is stopped; every other one
     goes on untouched. Afterwards, or when a drain cut the exchange short, every running component still sees the
     live bindings of everything it requires. A build that is missing, started or of another account is refused.
     */
    method ReconcileComponents(desired: Option<Build>, live: bool) returns (outcome: Outcome, ghost affected: set<Id>)
      requires Valid()
      requires Exchangeable(desired, account) ==> Unstarted(desired.value.host) && SameManifests(Now(), desired.value.host)
      modifies this
      ensures Valid() && stopping == old(stopping) && stopped == old(stopped)
      ensures outcome == Refused <==> !live || old(stopping) || !Exchangeable(desired, account)
      ensures outcome == Refused ==> Now() == old(Now())
      ensures outcome == DrainFailed ==> failures > old(failures)
      ensures outcome == Done && failures == old(failures) ==> AllRun(Now())
      ensures outcome != Refused ==> Exchanged(old(Now()), Now(), desired.value.host, affected, outcome == Done)
    {
      affected := {};
      hide Exchanged, AllRun, Operational, WiredHost, Booked, Unstarted, SameManifests, Holders;
      if !live || stopping || stopped || desired.None? || desired.value.started || desired.value.account != account {
        return Refused, affected;
      }
      outcome, affected := Replace(desired.value.host);
    }

    method Replace(desired: Host) returns (outcome: Outcome, ghost affected: set<Id>)
      requires Valid() && !stopping && Unstarted(desired) && SameManifests(Now(), desired)
      modifies this
      ensures Valid() && !stopping && !stopped
      ensures outcome != Refused && Exchanged(old(Now()), Now(), desired, affected, outcome == Done)
      ensures outcome == DrainFailed ==> failures > old(failures)
      ensures outcome == Done && failures == old(failures) ==> AllRun(Now())
    {
      ghost var h0 := Now();
      hide LeastClosed, ClosedUnder, Unstarted, SameManifests, WiredHost, Coherent, PortsOwned, Unused, Draining, Exchanged, MarkStopping, Holders, AllRun;
      var marked := Affected(desired.providers, desired.instances.Keys);
      affected := marked;
      DrainMayStart(h0, desired.providers, desired.instances.Keys, affected);
      hide Operational;
      MarkAffected(marked);
      outcome := Exchange(desired, marked, h0);
    }

    /** All affected components are told to stop before any is drained. */
    method MarkAffected(marked: set<Id>)
      requires Accounted()
      modifies this`instances
      ensures Now() == MarkStopping(old(Now()), marked) && Accounted()
    {
      instances := map id | id in instances :: if id in marked then instances[id].(state := Stopping) else instances[id];
    }

    /** The drain, the swap and the restart. */
    method Exchange(desired: Host, marked: set<Id>, ghost h0: Host) returns (outcome: Outcome)
      requires !stopping && !stopped && Accounted() && calls == [] && marked <= instances.Keys && Draining(h0, Now(), marked, {})
      requires Operational(h0, started) && Unstarted(desired) && SameManifests(h0, desired)
      requires LeastClosed(h0, desired.providers, desired.instances.Keys, marked)
      modifies this
      ensures Valid() && !stopping && !stopped
      ensures outcome != Refused && Exchanged(h0, Now(), desired, marked, outcome == Done)
      ensures outcome == DrainFailed ==> failures > old(failures)
      ensures outcome == Done && failures == old(failures) ==> AllRun(Now())
    {
      hide LeastClosed, Unstarted, SameManifests, WiredHost, Coherent, PortsOwned, Unused, Draining, Untouched, SameBuild, StartInv, PartlyDrained, AllTurned, AllRun, Holders;
      var ok := Drain(marked, h0);
      if !ok {
        StillOperational(h0, Now(), marked, started);
        return DrainFailed;
      }
      Install(desired, marked, h0);
      return Done;
    }

    /** The swap and the restart. */
    method Install(desired: Host, marked: set<Id>, ghost h0: Host)
      requires !stopping && !stopped && Accounted() && calls == [] && Draining(h0, Now(), marked, marked)
      requires Unstarted(desired) && SameManifests(h0, desired)
      requires LeastClosed(h0, desired.providers, desired.instances.Keys, marked)
      modifies this
      ensures Valid() && !stopping && !stopped
      ensures Exchanged(h0, Now(), desired, marked, true)
      ensures failures >= old(failures) && (failures == old(failures) ==> AllRun(Now()))
    {
      hide LeastClosed, Unstarted, SameManifests, WiredHost, Coherent, PortsOwned, Unused, Draining, Untouched, SameBuild, StartInv, AllTurned, AllRun, Holders;
      ghost var h := Now();
      SwapGives(h0, h, desired, marked);
      SwapHolders(h0, h, desired, marked);
      Swap(desired, marked);
      ghost var swapped := Now();
      hide Swapped, SwapKeeps, RunningKept;
      started := true;
      StartAll();
      SwapDone(h0, swapped, Now(), desired, marked);
    }

    /** Instances outside the affected set are kept. */
    method Swap(desired: Host, marked: set<Id>)
      modifies this`instances, this`providers, this`order
      ensures Now() == Swapped(old(Now()), desired, marked) && instances.Keys == desired.instances.Keys
      ensures providers == desired.providers && order == desired.order
    {
      instances := map id | id in desired.instances :: if id in instances && id !in marked then instances[id] else desired.instances[id];
      providers, order := desired.providers, desired.order;
    }

    // ---- stopping ----

    /**
     `Stop`, which may be retried after it failed. A component's Stop is called only when nothing that uses it holds
     resources; once the runtime is stopped, each component that held resources when stopping began has had exactly
     one successful Stop, whatever number of attempts it took.
     */
    method Stop() returns (done: bool)
      requires Valid()
      modifies this
      ensures Valid() && stopping && (done <==> stopped) && (old(stopped) ==> calls == old(calls))
      ensures !done ==> failures > old(failures)
      ensures old(calls) <= calls && owed == (if old(stopping) then old(owed) else Holders(old(instances)))
      ensures done ==> forall id :: id in owed ==> Successes(calls, id) == 1
      ensures instances.Keys == old(instances).Keys && order == old(order) && providers == old(providers)
    {
      hide Operational, WiredHost, Booked, Holders;
      if stopped {
        StoppedIsBooked(instances, owed, calls);
        return true;
      }
      if !stopping {
        owed := Holders(instances);
        NothingBooked(instances);
      }
      stopping := true;
      done := DrainAll();
      if done {
        done := StopAll();
      }
      if done {
        EndedAll(Now());
        PortsDoNotMatter(Now());
        ports, stopped := map[], true;
        StoppedIsBooked(instances, owed, calls);
      }
    }

    /** Event handlers and runnables are drained before any component is released. */
    method DrainAll() returns (ok: bool)
      requires WiredHost(Now()) && Accounted() && Booked(instances, owed, calls)
      modifies this`instances, this`failures
      ensures WiredHost(Now()) && Accounted() && Booked(instances, owed, calls) && instances.Keys == old(instances).Keys
      ensures failures == old(failures) + (if ok then 0 else 1)
    {
      hide WiredHost, Booked, Holders;
      SetStates(Stopping);
      ok := DrainWork();
      if !ok {
        SetStates(Failed);
        return;
      }
      for k := 0 to |order|
        invariant WiredHost(Now()) && Accounted() && Booked(instances, owed, calls) && instances.Keys == old(instances).Keys
        invariant failures == old(failures)
      {
        ok := DrainWork();
        if !ok {
          SetState(order[k], Failed);
          return;
        }
      }
      ok := true;
    }

    /** The reverse loop of `Stop`; it ends at the first component that fails to stop. */
    method StopAll() returns (ok: bool)
      requires stopping && WiredHost(Now()) && Accounted() && Booked(instances, owed, calls)
      modifies this`instances, this`ports, this`calls, this`failures, this`holding
      ensures WiredHost(Now()) && Accounted() && Booked(instances, owed, calls) && old(calls) <= calls && instances.Keys == old(instances).Keys
      ensures ok ==> Ended(Now(), 0)
      ensures failures == old(failures) + (if ok then 0 else 1)
    {
      hide WiredHost, Booked, Ended, Holders;
      EndedFromStart(Now());
      for k := |order| downto 0
        invariant WiredHost(Now()) && Accounted() && Booked(instances, owed, calls) && Ended(Now(), k)
        invariant old(calls) <= calls && instances.Keys == old(instances).Keys && failures == old(failures)
      {
        ok := StopComponent(k);
        if !ok {
          return;
        }
      }
      ok := true;
    }

    /** The status of every component that holds resources. */
    method SetStates(state: State)
      requires WiredHost(Now()) && Accounted() && Booked(instances, owed, calls)
      modifies this`instances
      ensures WiredHost(Now()) && Accounted() && Booked(instances, owed, calls) && instances.Keys == old(instances).Keys
    {
      ghost var h := Now();
      instances := map id | id in instances :: if instances[id].initialized then instances[id].(state := state) else instances[id];
      StatesDoNotMatter(h, Now(), owed, calls);
      SameHolders(h.instances, instances);
    }

    method SetState(id: Id, state: State)
      requires WiredHost(Now()) && Accounted() && Booked(instances, owed, calls)
      modifies this`instances
      ensures WiredHost(Now()) && Accounted() && Booked(instances, owed, calls) && instances.Keys == old(instances).Keys
      ensures forall other :: other in instances ==> instances[other].initialized == old(instances)[other].initialized
    {
      ghost var h := Now();
      if id in instances {
        instances := instances[id := instances[id].(state := state)];
      }
      StatesDoNotMatter(h, Now(), owed, calls);
      SameHolders(h.instances, instances);
    }

    /** One round of the loop of `Stop`. */
    method StopComponent(k: nat) returns (ok: bool)
      requires stopping && k < |order| && WiredHost(Now()) && Accounted() && Booked(instances, owed, calls) && Ended(Now(), k + 1)
      modifies this`instances, this`ports, this`calls, this`failures, this`holding
      ensures WiredHost(Now()) && Accounted() && Booked(instances, owed, calls) && old(calls) <= calls
      ensures instances.Keys == old(instances).Keys && (ok ==> Ended(Now(), k))
      ensures failures == old(failures) + (if ok then 0 else 1)
    {
      hide WiredHost, Booked, Ended, Free, Holders;
      var id := order[k];
      ghost var h := Now();
      LastUser(h, k);
      if !instances[id].initialized {
        SetState(id, Stopped);
        EndedStep(h, Now(), k);
        return true;
      }
      ok := InvokeStop(id);
      BookCall(instances, owed, old(calls), id, ok);
      if !ok {
        SetState(id, Failed);
        return;
      }
      HoldersUpdate(instances, id, instances[id].(state := Stopped, initialized := false));
      instances := instances[id := instances[id].(state := Stopped, initialized := false)];
      ports := ports - OfferedBy(instances[id].manifest);
      SameWiring(h, Now(), id);
      EndedStep(h, Now(), k);
    }
  }

  /** The components that hold resources. */
  function Holders(instances: map<Id, Instance>): set<Id> {
    set id | id in instances && instances[id].initialized
  }

  lemma HoldersUpdate(instances: map<Id, Instance>, id: Id, i: Instance)
    ensures Holders(instances[id := i]) == if i.initialized then Holders(instances) + {id} else Holders(instances) - {id}
    ensures id in instances && instances[id].initialized == i.initialized ==> Holders(instances[id := i]) == Holders(instances)
    ensures (Holders(instances) + {id}) - {id} == Holders(instances) - {id}
  {
  }

  lemma SameHolders(before: map<Id, Instance>, after: map<Id, Instance>)
    requires after.Keys == before.Keys && forall id :: id in after ==> after[id].initialized == before[id].initialized
    ensures Holders(after) == Holders(before)
  {
  }

  /** What the swap drops held nothing any more, and what it brings in holds nothing yet. */
  lemma SwapHolders(h0: Host, h: Host, desired: Host, affected: set<Id>)
    requires Draining(h0, h, affected, affected) && Unstarted(desired)
    requires LeastClosed(h0, desired.providers, desired.instances.Keys, affected)
    ensures Holders(Swapped(h, desired, affected).instances) == Holders(h.instances)
  {
    hide WiredHost, Coherent, PortsOwned, Separate, Touched;
  }

  lemma NotHolding(h: Host, k: nat)
    requires k < |h.order| && StartInv(h, Members(h.order[..k])) && !Runs(h, h.order[k])
    ensures h.order[k] in h.instances && !h.instances[h.order[k]].initialized
  {
    OneMorePassed(h, k);
  }

  ghost predicate Ended(h: Host, k: nat) {
    forall j :: k <= j < |h.order| ==> h.order[j] in h.instances && !h.instances[h.order[j]].initialized
  }

  lemma EndedFromStart(h: Host)
    ensures Ended(h, |h.order|)
  {
  }

  lemma EndedAll(h: Host)
    requires WiredHost(h) && Ended(h, 0)
    ensures forall id :: id in h.instances ==> !h.instances[id].initialized
  {
    assert Members(h.order) == h.instances.Keys;
  }

  lemma EndedStep(h: Host, t: Host, k: nat)
    requires Ended(h, k + 1) && k < |h.order| && t.order == h.order && h.order[k] in t.instances && !t.instances[h.order[k]].initialized
    requires forall id :: id in h.instances && id != h.order[k] ==> id in t.instances && t.instances[id].initialized == h.instances[id].initialized
    ensures Ended(t, k)
  {
  }

  lemma LastUser(h: Host, k: nat)
    requires WiredHost(h) && k < |h.order| && Ended(h, k + 1)
    ensures h.order[k] in h.instances && Free(h, h.order[k])
  {
    OneMorePassed(h, k);
    forall user | UsesOf(h, user, h.order[k]) ensures !h.instances[user].initialized {
      assert user in Members(h.order);
      var j :| 0 <= j < |h.order| && h.order[j] == user;
      OrderedUse(h, j, k);
    }
  }

  lemma NothingBooked(instances: map<Id, Instance>)
    ensures Booked(instances, Holders(instances), [])
  {
  }

  lemma StoppedIsBooked(instances: map<Id, Instance>, owed: set<Id>, calls: seq<StopCall>)
    requires Booked(instances, owed, calls) && forall id :: id in instances ==> !instances[id].initialized
    ensures forall id :: id in owed ==> Successes(calls, id) == 1
  {
  }

  lemma StatesDoNotMatter(h: Host, t: Host, owed: set<Id>, calls: seq<StopCall>)
    requires WiredHost(h) && Booked(h.instances, owed, calls)
    requires t.providers == h.providers && t.order == h.order && t.instances.Keys == h.instances.Keys
    requires forall id :: id in h.instances ==> t.instances[id].manifest == h.instances[id].manifest && t.instances[id].initialized == h.instances[id].initialized
    ensures WiredHost(t) && Booked(t.instances, owed, calls)
  {
    assert Manifests(t.instances) == Manifests(h.instances);
    hide Wired;
  }

  lemma PortsDoNotMatter(h: Host)
    requires WiredHost(h)
    ensures WiredHost(h.(ports := map[]))
  {
  }

  /** Booking the answer of a component that still held resources. */
  lemma BookCall(instances: map<Id, Instance>, owed: set<Id>, calls: seq<StopCall>, id: Id, ok: bool)
    requires Booked(instances, owed, calls) && id in instances && instances[id].initialized
    ensures ok ==> Booked(instances[id := instances[id].(state := Stopped, initialized := false)], owed, calls + [StopCall(id, ok)])
    ensures !ok ==> Booked(instances, owed, calls + [StopCall(id, ok)])
  {
    forall other ensures Successes(calls + [StopCall(id, ok)], other) == Successes(calls, other) + (if ok && other == id then 1 else 0) {
    }
    hide Successes;
  }

  /**
   The outcome of an exchange, complete or cut short by a drain: only the least affected set was touched, and every
   running component sees the live bindings of what it requires.
   */
  ghost predicate Exchanged(h0: Host, h: Host, desired: Host, affected: set<Id>, complete: bool) {
    && LeastClosed(h0, desired.providers, desired.instances.Keys, affected) && Untouched(h0, h, affected)
    && Coherent(h) && PortsOwned(h)
    && (if complete then SameBuild(desired, h) && AllTurned(h) else SameBuild(h0, h))
  }

  /** Every other component is exactly as it was. */
  ghost predicate Untouched(h0: Host, h: Host, affected: set<Id>) {
    forall id :: id in h0.instances && id !in affected ==> id in h.instances && h.instances[id] == h0.instances[id]
  }

  ghost predicate SameBuild(desired: Host, h: Host) {
    h.instances.Keys == desired.instances.Keys && h.order == desired.order && h.providers == desired.providers
  }

  ghost predicate PartlyDrained(h0: Host, h: Host, affected: set<Id>) {
    exists gone :: Draining(h0, h, affected, gone)
  }

  lemma DrainMayStart(h: Host, next: map<Port, Id>, kept: set<Id>, affected: set<Id>)
    requires WiredHost(h) && Coherent(h) && PortsOwned(h) && LeastClosed(h, next, kept, affected)
    ensures affected <= h.instances.Keys && Draining(h, MarkStopping(h, affected), affected, {})
    ensures MarkStopping(h, affected).instances.Keys == h.instances.Keys
  {
    hide WiredHost, Coherent, PortsOwned, ClosedUnder, Draining;
    DrainStarts(h, next, kept, affected);
  }

  lemma DrainNext(h0: Host, h: Host, affected: set<Id>, k: nat)
    requires k < |h.order| && Draining(h0, h, affected, Members(h.order[k + 1..]) * affected)
    ensures h.order[k] in h.instances
    ensures h.order[k] in affected ==> Free(h, h.order[k])
    ensures Members(h.order[k..]) * affected == Members(h.order[k + 1..]) * affected + (if h.order[k] in affected then {h.order[k]} else {})
  {
    hide Coherent, PortsOwned, Wired, Separate;
    if h.order[k] in affected {
      forall user | UsesOf(h, user, h.order[k]) ensures !h.instances[user].initialized {
        UsersDrained(h0, h, affected, k, user);
      }
    }
    ListedIsThere(h, k);
    hide Draining, UsesOf;
  }

  lemma AllDrained(h0: Host, h: Host, affected: set<Id>)
    requires affected <= h.instances.Keys && Draining(h0, h, affected, Members(h.order[0..]) * affected)
    ensures Draining(h0, h, affected, affected)
  {
    assert h.order[0..] == h.order;
    assert Members(h.order) * affected == affected;
  }

  lemma StillOperational(h0: Host, h: Host, affected: set<Id>, started: bool)
    requires PartlyDrained(h0, h, affected) && Operational(h0, started)
    ensures Operational(h, started) && Coherent(h) && PortsOwned(h) && WiredHost(h)
    ensures Untouched(h0, h, affected) && SameBuild(h0, h)
  {
    var gone :| Draining(h0, h, affected, gone);
    hide WiredHost, Coherent, PortsOwned, Separate;
  }

  lemma SwapGives(h0: Host, h: Host, desired: Host, affected: set<Id>)
    requires Draining(h0, h, affected, affected) && Unstarted(desired) && SameManifests(h0, desired)
    requires LeastClosed(h0, desired.providers, desired.instances.Keys, affected)
    ensures var t := Swapped(h, desired, affected); StartInv(t, {}) && SwapKeeps(h0, t, affected)
  {
    SwapIsReady(h0, h, desired, affected);
    hide StartInv, WiredHost, Coherent, PortsOwned, Separate, SwapKeeps;
    SwapLeaves(h0, h, desired, affected);
  }

  lemma SwapLeaves(h0: Host, h: Host, desired: Host, affected: set<Id>)
    requires Draining(h0, h, affected, affected) && LeastClosed(h0, desired.providers, desired.instances.Keys, affected)
    ensures SwapKeeps(h0, Swapped(h, desired, affected), affected)
  {
    hide StartInv, WiredHost, Coherent, PortsOwned, Separate;
  }

  /** What the swap keeps is running, and as it was. */
  ghost predicate SwapKeeps(h0: Host, t: Host, affected: set<Id>) {
    forall id :: id in h0.instances && id !in affected ==> Runs(t, id) && t.instances[id] == h0.instances[id]
  }

  lemma SwapDone(h0: Host, swapped: Host, t: Host, desired: Host, affected: set<Id>)
    requires SwapKeeps(h0, swapped, affected)
    requires swapped.instances.Keys == desired.instances.Keys == t.instances.Keys && t.order == desired.order && t.providers == desired.providers
    requires RunningKept(swapped, t)
    ensures Untouched(h0, t, affected) && SameBuild(desired, t)
  {
  }

  lemma TurnOf(h: Host, k: nat)
    requires k < |h.order| && StartInv(h, Members(h.order[..k]))
    ensures h.order[k] in h.instances
  {
    OneMorePassed(h, k);
  }

  ghost predicate AllTurned(h: Host) {
    forall id :: id in h.instances ==> Turned(h, id)
  }

  ghost predicate AllRun(h: Host) {
    forall id :: id in h.instances ==> Runs(h, id)
  }

  ghost predicate RunUpTo(h: Host, k: nat) {
    k <= |h.order| && forall j :: 0 <= j < k ==> Runs(h, h.order[j])
  }

  /** When all earlier components run, no required provider is missing. */
  lemma RunStep(h: Host, t: Host, k: nat)
    requires k < |h.order| && StartedUpTo(h, k) && RunUpTo(h, k) && StartedOne(h, t, h.order[k])
    requires !MissingProvider(h, h.instances[h.order[k]]) ==> Runs(t, h.order[k])
    ensures RunUpTo(t, k + 1)
  {
    StartedAside(h, t, h.order[k]);
    NoneMissing(h, k);
    hide StartedUpTo, MissingProvider, StartedOne;
  }

  lemma NoneMissing(h: Host, k: nat)
    requires k < |h.order| && StartedUpTo(h, k) && RunUpTo(h, k)
    ensures h.order[k] in h.instances && !MissingProvider(h, h.instances[h.order[k]])
  {
    OneMorePassed(h, k);
    var i := h.instances[h.order[k]];
    forall req | req in i.manifest.required && !req.optional
      ensures req.port.name in h.providers && Runs(h, h.providers[req.port.name])
    {
      assert Manifests(h.instances)[h.order[k]] == i.manifest;
      assert UsesOf(h, h.order[k], h.providers[req.port.name]);
    }
  }

  /** The start loop has passed the first `k` components. */
  ghost predicate StartedUpTo(h: Host, k: nat) {
    TurnedUpTo(h, k) && StartInv(h, Members(h.order[..k]))
  }

  lemma NoneStarted(h: Host)
    requires StartInv(h, {})
    ensures StartedUpTo(h, 0) && RunningKept(h, h) && RunUpTo(h, 0)
  {
    assert Members(h.order[..0]) == {};
  }

  lemma UpToTurn(h: Host, k: nat)
    requires StartedUpTo(h, k)
    ensures StartInv(h, Members(h.order[..k]))
  {
  }

  lemma UpToStep(h: Host, t: Host, k: nat)
    requires k < |h.order| && StartedUpTo(h, k) && StartedOne(h, t, h.order[k])
    ensures StartedUpTo(t, k + 1) && t.order == h.order && t.instances.Keys == h.instances.Keys
  {
    hide StartedOne, Members, TurnedUpTo, WiredHost, Coherent, PortsOwned;
    TurnedStep(h, t, k);
    hide StartInv;
    StartStep(h, t, k);
  }

  lemma AllStarted(h: Host)
    requires StartedUpTo(h, |h.order|)
    ensures WiredHost(h) && Coherent(h) && PortsOwned(h) && AllTurned(h) && (RunUpTo(h, |h.order|) ==> AllRun(h))
  {
    forall id | id in h.instances && RunUpTo(h, |h.order|) ensures Runs(h, id) {
      assert id in Members(h.order);
    }
    forall id | id in h.instances ensures Turned(h, id) {
      assert id in Members(h.order);
    }
  }

  /** What was running still runs, unchanged. */
  ghost predicate RunningKept(h: Host, t: Host) {
    forall id :: Runs(h, id) ==> id in t.instances && t.instances[id] == h.instances[id]
  }

  lemma RunningStays(start: Host, h: Host, t: Host, id: Id)
    requires RunningKept(start, h) && StartedOne(h, t, id)
    ensures RunningKept(start, t)
  {
  }

  lemma ListedIsThere(h: Host, k: nat)
    requires WiredHost(h) && k < |h.order|
    ensures h.order[k] in h.instances
  {
    assert h.order[k] in Members(h.order);
  }

  lemma ResolvedIsLive(h: Host, id: Id, port: Port)
    requires WiredHost(h) && Coherent(h) && Runs(h, id) && port in h.instances[id].bound
    ensures Some(h.instances[id].bound[port]) == Lookup(h.ports, port) && port in h.providers && h.providers[port] == id
  {
    assert CoherentAt(h, id);
    OwnerOf(h, id, port);
  }

  /** None of the first `k` components answers the lookup. */
  ghost predicate Misses(h: Host, component: Option<Id>, port: Port, k: nat) {
    && k <= |h.order|
    && forall j :: 0 <= j < k && Runs(h, h.order[j]) && (component.None? || component.value == h.order[j]) ==>
         port !in h.instances[h.order[j]].bound
  }

  lemma NothingMissed(h: Host, component: Option<Id>, port: Port)
    ensures Misses(h, component, port, 0)
  {
  }

  lemma OneMoreMissed(h: Host, component: Option<Id>, port: Port, k: nat)
    requires Misses(h, component, port, k) && k < |h.order|
    requires Runs(h, h.order[k]) && (component.None? || component.value == h.order[k]) ==> port !in h.instances[h.order[k]].bound
    ensures Misses(h, component, port, k + 1)
  {
  }

  lemma UnresolvedIsAbsent(h: Host, component: Option<Id>, port: Port)
    requires WiredHost(h) && Coherent(h) && Misses(h, component, port, |h.order|)
    ensures port in h.providers && Runs(h, h.providers[port]) ==> component.Some? && component.value != h.providers[port]
  {
    if port in h.providers && Runs(h, h.providers[port]) {
      var id := h.providers[port];
      assert id in Members(h.order);
      var j :| 0 <= j < |h.order| && h.order[j] == id;
      assert CoherentAt(h, id);
    }
  }

  lemma NoUsers(h: Host, k: nat)
    requires k < |h.order| && StartInv(h, Members(h.order[..k])) && !Runs(h, h.order[k])
    ensures Free(h, h.order[k])
  {
    OneMorePassed(h, k);
    forall user | UsesOf(h, user, h.order[k]) ensures !h.instances[user].initialized {
      NoUserYet(h, k, user);
    }
  }

  lemma FreeDespitePorts(h: Host, t: Host, id: Id)
    requires Free(h, id) && t.instances == h.instances && t.providers == h.providers
    ensures Free(t, id)
  {
    assert forall user :: UsesOf(t, user, id) <==> UsesOf(h, user, id);
  }

  lemma WithoutBound(ports: map<Port, Value>, bound: map<Port, Value>, names: set<Port>)
    requires bound.Keys <= names
    ensures (ports + bound) - names == ports - names
    ensures (ports - names) - names == ports - names
  {
  }

}
