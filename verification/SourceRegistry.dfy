/**
 The registry of media sources that concurrent download requests share: reference counts, idempotent release, and the
 removal of idle sources.
 */
module SourceRegistry {
  type Task(==, !new)
  type Time = int

  /** `id` stands for the identity of the shared entry object. */
  datatype Entry = Entry(id: nat, refs: int, lastUsed: Time)

  datatype Handle = Handle(task: Task, entry: nat)

  /** The handles of a task that have not been released. */
  ghost function Holders(open: map<nat, Handle>, task: Task): set<nat> {
    set k | k in open && open[k].task == task
  }

  lemma Opened(open: map<nat, Handle>, k: nat, h: Handle)
    requires k !in open
    ensures Holders(open[k := h], h.task) == Holders(open, h.task) + {k} && k !in Holders(open, h.task)
    ensures forall task :: task != h.task ==> Holders(open[k := h], task) == Holders(open, task)
  {
  }

  lemma Closed(open: map<nat, Handle>, k: nat)
    requires k in open
    ensures Holders(open - {k}, open[k].task) == Holders(open, open[k].task) - {k} && k in Holders(open, open[k].task)
    ensures forall task :: task != open[k].task ==> Holders(open - {k}, task) == Holders(open, task)
  {
  }

  predicate Idle(e: Entry, now: Time, ttl: Time) {
    e.refs == 0 && now - e.lastUsed >= ttl
  }

  ghost predicate Exact(sources: map<Task, Entry>, open: map<nat, Handle>, entries: nat, handles: nat) {
    && (forall k :: k in open ==> k < handles && open[k].task in sources && sources[open[k].task].id == open[k].entry)
    && (forall task :: task in sources ==> sources[task].refs == |Holders(open, task)| && sources[task].id < entries)
  }

  /** The idle sources outside `rest` are gone, and nothing else is. */
  ghost predicate Cleaned(before: map<Task, Entry>, after: map<Task, Entry>, rest: set<Task>, now: Time, ttl: Time) {
    && rest <= after.Keys <= before.Keys
    && (forall task :: task in after ==> after[task] == before[task])
    && (forall task :: task in before && task !in rest ==> (task in after <==> !Idle(before[task], now, ttl)))
  }

  lemma CleanedStep(before: map<Task, Entry>, after: map<Task, Entry>, rest: set<Task>, now: Time, ttl: Time, task: Task)
    requires Cleaned(before, after, rest, now, ttl) && task in rest
    ensures task in after
    ensures if Idle(after[task], now, ttl)
            then Cleaned(before, after - {task}, rest - {task}, now, ttl)
                 && |before.Keys - (after - {task}).Keys| == |before.Keys - after.Keys| + 1
            else Cleaned(before, after, rest - {task}, now, ttl)
  {
    hide Idle;
    assert before.Keys - (after - {task}).Keys == (before.Keys - after.Keys) + {task};
  }

  /** A source with an unreleased handle is not idle, so it survives. */
  lemma HeldSurvives(before: map<Task, Entry>, after: map<Task, Entry>, open: map<nat, Handle>, entries: nat, handles: nat, now: Time, ttl: Time)
    requires Exact(before, open, entries, handles) && Cleaned(before, after, {}, now, ttl)
    ensures Exact(after, open, entries, handles)
    ensures after == map task | task in before && !Idle(before[task], now, ttl) :: before[task]
  {
    forall k | k in open ensures open[k].task in after {
      assert k in Holders(open, open[k].task);
    }
    hide Holders;
  }

  class Registry {
    var sources: map<Task, Entry>
    var open: map<nat, Handle>  // the handles whose `once` has not fired
    var entries: nat
    var handles: nat

    /** Counts are exact, and an unreleased handle still names the registered entry of its task. */
    ghost predicate Valid()
      reads this
    {
      Exact(sources, open, entries, handles)
    }

    constructor ()
      ensures Valid() && sources == map[] && open == map[]
    {
      sources, open, entries, handles := map[], map[], 0, 0;
    }

    method Acquire(task: Task, now: Time) returns (k: nat)
      requires Valid()
      modifies this
      ensures Valid() && k !in old(open) && task in sources
      ensures open == old(open)[k := Handle(task, sources[task].id)]
      ensures sources == old(sources)[task := sources[task]] && sources[task].lastUsed == now
      ensures task in old(sources) ==> sources[task].id == old(sources)[task].id
      ensures task !in old(sources) ==> forall other :: other in old(sources) ==> old(sources)[other].id != sources[task].id
    {
      if task !in sources {
        sources := sources[task := Entry(entries, 0, now)];
        entries := entries + 1;
        assert Holders(open, task) == {};
      }
      var e := sources[task];
      sources := sources[task := e.(refs := e.refs + 1, lastUsed := now)];
      k := handles;
      Opened(open, k, Handle(task, e.id));
      open, handles := open[k := Handle(task, e.id)], handles + 1;
    }

    /** Only the first release of a handle counts, and it always finds the entry it was taken from. */
    method Release(k: nat, now: Time)
      requires Valid()
      modifies this
      ensures Valid() && open == old(open) - {k}
      ensures k !in old(open) ==> sources == old(sources)
      ensures k in old(open) ==>
                var task := old(open)[k].task;
                task in old(sources) && sources == old(sources)[task := old(sources)[task].(refs := old(sources)[task].refs - 1, lastUsed := now)]
    {
      if k !in open {
        assert open - {k} == open;
        return;
      }
      var h := open[k];
      Closed(open, k);
      if h.task in sources && sources[h.task].id == h.entry {
        var e := sources[h.task];
        if e.refs > 0 {
          e := e.(refs := e.refs - 1);
        }
        sources := sources[h.task := e.(lastUsed := now)];
      }
      open := open - {k};
    }

    /** Removes exactly the sources that nobody holds and that have been idle long enough. */
    method CleanupIdle(now: Time, ttl: Time) returns (released: nat)
      requires Valid()
      modifies this
      ensures Valid() && open == old(open)
      ensures ttl <= 0 ==> sources == old(sources) && released == 0
      ensures ttl > 0 ==> sources == map task | task in old(sources) && !Idle(old(sources)[task], now, ttl) :: old(sources)[task]
      ensures forall k :: k in open ==> open[k].task in sources
      ensures released == |old(sources).Keys - sources.Keys|
    {
      hide Holders, Exact, Cleaned;
      released := 0;
      assert sources.Keys - sources.Keys == {};
      if ttl <= 0 {
        StillHeld(sources, open, entries, handles);
        return;
      }
      var rest := sources.Keys;
      NothingCleaned(sources, now, ttl);
      while rest != {}
        invariant Cleaned(old(sources), sources, rest, now, ttl)
        invariant open == old(open) && entries == old(entries) && handles == old(handles)
        invariant released == |old(sources).Keys - sources.Keys|
      {
        var task :| task in rest;
        CleanedStep(old(sources), sources, rest, now, ttl, task);
        rest := rest - {task};
        if sources[task].refs == 0 && now - sources[task].lastUsed >= ttl {
          sources := sources - {task};
          released := released + 1;
        }
      }
      HeldSurvives(old(sources), sources, open, entries, handles, now, ttl);
      StillHeld(sources, open, entries, handles);
    }
  }

  lemma NothingCleaned(sources: map<Task, Entry>, now: Time, ttl: Time)
    ensures Cleaned(sources, sources, sources.Keys, now, ttl)
  {
  }

  lemma StillHeld(sources: map<Task, Entry>, open: map<nat, Handle>, entries: nat, handles: nat)
    requires Exact(sources, open, entries, handles)
    ensures forall k :: k in open ==> open[k].task in sources
  {
  }
}
