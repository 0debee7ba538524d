/**
 Default-route deduplication of the message router: concurrent submissions of one message claim its key, wait
 for a claim in progress, or accept a claim that has not expired. Also the gate that drains the router.
 */
module MessageClaims {
  import opened Collections

  type Key(==, !new)
  type Time = int

  /** `owner` is the call that made the claim; `expires` is set once that call has persisted the message. */
  datatype Claim = Claim(owner: nat, expires: Option<Time>)

  datatype Result = Cancelled | Accepted(owner: nat, at: Time) | Persisted | Failed

  datatype Phase =
    | Trying
    | Sleeping(on: nat)
    | Holding
    | Enqueued(ok: bool)
    | Done(result: Result)

  datatype Call = Call(key: Key, ttl: Time, phase: Phase)

  /** A message persisted for a key; `released` is when its claim was turned into an accepted one. */
  datatype Success = Success(key: Key, owner: nat, at: Time, ttl: Time, released: Option<Time>)

  /** `closed` holds the calls whose `done` channel has been closed. */
  datatype State = State(now: Time, claims: map<Key, Claim>, calls: seq<Call>, closed: set<nat>, log: seq<Success>)

  datatype Action =
    | Tick(to: Time)
    | Arrive(key: Key, ttl: Time)
    | GiveUp(c: nat)
    | Attempt(c: nat)
    | Wake(c: nat)
    | Enqueue(c: nat, ok: bool)
    | Release(c: nat)

  predicate In(s: State, c: nat, phase: Phase) {
    c < |s.calls| && s.calls[c].phase == phase
  }

  predicate Enabled(s: State, a: Action) {
    match a
    case Tick(to) => s.now <= to
    case Arrive(_, _) => true
    case GiveUp(c) => c < |s.calls| && (s.calls[c].phase.Trying? || s.calls[c].phase.Sleeping?)
    case Attempt(c) => In(s, c, Trying)
    case Wake(c) => c < |s.calls| && s.calls[c].phase.Sleeping? && s.calls[c].phase.on in s.closed
    case Enqueue(c, _) => In(s, c, Holding)
    case Release(c) => c < |s.calls| && s.calls[c].phase.Enqueued?
  }

  predicate Expired(claim: Claim, now: Time) {
    claim.expires.Some? && claim.expires.value <= now
  }

  /** The eviction loop: pending claims stay. */
  function Evict(claims: map<Key, Claim>, now: Time): map<Key, Claim> {
    map k | k in claims && !Expired(claims[k], now) :: claims[k]
  }

  function Move(s: State, c: nat, phase: Phase): State
    requires c < |s.calls|
  {
    s.(calls := s.calls[c := s.calls[c].(phase := phase)])
  }

  /** One pass of the claim loop under the claims' lock. */
  function Tried(s: State, c: nat): State
    requires c < |s.calls|
  {
    var key := s.calls[c].key;
    var kept := s.(claims := Evict(s.claims, s.now));
    if key in kept.claims then
      var existing := kept.claims[key];
      if existing.expires.Some? then Move(kept, c, Done(Accepted(existing.owner, s.now)))
      else Move(kept, c, Sleeping(existing.owner))
    else
      Move(kept.(claims := kept.claims[key := Claim(c, None)]), c, Holding)
  }

  /** Marks the call's entry in the log as released. */
  function Settle(log: seq<Success>, c: nat, at: Time): seq<Success> {
    seq(|log|, i requires 0 <= i < |log| => if log[i].owner == c then log[i].(released := Some(at)) else log[i])
  }

  function Released(s: State, c: nat, ok: bool): State
    requires c < |s.calls|
  {
    var call := s.calls[c];
    if ok
    then Move(s, c, Done(Persisted)).(claims := s.claims[call.key := Claim(c, Some(s.now + call.ttl))],
                                      closed := s.closed + {c}, log := Settle(s.log, c, s.now))
    else Move(s, c, Done(Failed)).(claims := s.claims - {call.key}, closed := s.closed + {c})
  }

  function Next(s: State, a: Action): State
    requires Enabled(s, a)
  {
    match a
    case Tick(to) => s.(now := to)
    case Arrive(key, ttl) => s.(calls := s.calls + [Call(key, ttl, Trying)])
    case GiveUp(c) => Move(s, c, Done(Cancelled))
    case Attempt(c) => Tried(s, c)
    case Wake(c) => Move(s, c, Trying)
    case Enqueue(c, ok) =>
      var t := Move(s, c, Enqueued(ok));
      if ok then t.(log := s.log + [Success(s.calls[c].key, c, s.now, s.calls[c].ttl, None)]) else t
    case Release(c) => Released(s, c, s.calls[c].phase.ok)
  }

  const EMPTY := State(0, map[], [], {}, [])

  // ---- the invariant ----

  /** The call is between its claim and its release. */
  predicate Busy(call: Call) {
    call.phase.Holding? || call.phase.Enqueued?
  }

  predicate OwnsPending(s: State, c: nat) {
    c < |s.calls| && s.calls[c].key in s.claims && s.claims[s.calls[c].key] == Claim(c, None)
  }

  /** Exactly the calls between claim and release own a pending claim, and their `done` is still open. */
  ghost predicate CallFine(s: State, c: nat)
    requires c < |s.calls|
  {
    var call := s.calls[c];
    && (Busy(call) <==> OwnsPending(s, c))
    && (Busy(call) ==> c !in s.closed)
    && (call.phase.Sleeping? ==> call.phase.on in s.closed || PendingOwner(s, call.phase.on, call.key))
    && (c in s.closed ==> call.phase == Done(Persisted) || call.phase == Done(Failed))
    && (call.phase == Enqueued(true) || call.phase == Done(Persisted) ==> Logged(s.log, c, call.key))
    && (call.phase.Done? && call.phase.result.Accepted? ==> Seen(s.log, call.key, call.phase.result.owner, call.phase.result.at))
  }

  predicate PendingOwner(s: State, c: nat, key: Key) {
    c < |s.calls| && s.calls[c].key == key && Busy(s.calls[c])
  }

  predicate LoggedAt(log: seq<Success>, i: nat, c: nat, key: Key) {
    i < |log| && log[i].owner == c && log[i].key == key
  }

  ghost predicate Logged(log: seq<Success>, c: nat, key: Key) {
    exists i: nat :: LoggedAt(log, i, c, key)
  }

  /** A success of the key whose claim had been released as accepted by the given time and had not yet expired. */
  ghost predicate Seen(log: seq<Success>, key: Key, owner: nat, at: Time) {
    exists i: nat :: LoggedAt(log, i, owner, key) && log[i].released.Some?
                   && log[i].released.value <= at < log[i].released.value + log[i].ttl
  }

  predicate ClaimFine(s: State, key: Key) {
    key in s.claims &&
    var owner := s.claims[key].owner;
    && owner < |s.calls| && s.calls[owner].key == key
    && (s.claims[key].expires.Some? ==> s.calls[owner].phase == Done(Persisted))
  }

  /** A released success still holds its key, or its time to live is over. */
  predicate EntryFine(s: State, e: Success) {
    && e.owner < |s.calls| && s.calls[e.owner].key == e.key && s.calls[e.owner].ttl == e.ttl
    && e.at <= s.now
    && (e.released.None? ==> s.calls[e.owner].phase == Enqueued(true))
    && (e.released.Some? ==>
          && s.calls[e.owner].phase == Done(Persisted)
          && e.at <= e.released.value <= s.now
          && ((e.key in s.claims && s.claims[e.key] == Claim(e.owner, Some(e.released.value + e.ttl)))
              || e.released.value + e.ttl <= s.now))
  }

  /** Of two successes of one key, the later comes no sooner than the earlier's release plus its time to live. */
  predicate Apart(e: Success, f: Success) {
    && e.owner != f.owner
    && (e.key == f.key ==> e.released.Some? && e.at + e.ttl <= e.released.value + e.ttl <= f.at)
  }

  ghost predicate CallsFine(s: State) {
    forall c: nat :: c < |s.calls| ==> CallFine(s, c)
  }

  ghost predicate ClaimsFine(s: State) {
    forall key :: key in s.claims ==> ClaimFine(s, key)
  }

  ghost predicate EntriesFine(s: State) {
    forall i: nat :: i < |s.log| ==> EntryFine(s, s.log[i])
  }

  ghost predicate AllApart(log: seq<Success>) {
    forall i: nat, j: nat :: i < j < |log| ==> Apart(log[i], log[j])
  }

  ghost predicate AcceptedLogged(s: State) {
    forall key :: key in s.claims && s.claims[key].expires.Some? ==> AcceptedIn(s.log, key, s.claims[key])
  }

  /** An accepted claim expires its time to live after the release of a logged success. */
  ghost predicate AcceptedIn(log: seq<Success>, key: Key, claim: Claim) {
    claim.expires.Some? && exists i: nat :: LoggedAt(log, i, claim.owner, key) && log[i].released.Some? && claim.expires.value == log[i].released.value + log[i].ttl
  }

  predicate ClosedFine(s: State) {
    forall c :: c in s.closed ==> c < |s.calls|
  }

  ghost predicate Inv(s: State) {
    && CallsFine(s) && ClaimsFine(s) && EntriesFine(s) && AllApart(s.log) && AcceptedLogged(s) && ClosedFine(s)
  }

  // ---- every step keeps it ----

  lemma TickKeeps(s: State, a: Action)
    requires Inv(s) && Enabled(s, a) && a.Tick?
    ensures Inv(Next(s, a))
  {
    var t := Next(s, a);
    hide AllApart, AcceptedIn;
    forall c: nat | c < |t.calls| ensures CallFine(t, c) {
      assert CallFine(s, c);
    }
    forall i: nat | i < |t.log| ensures EntryFine(t, t.log[i]) {
      assert EntryFine(s, s.log[i]);
    }
    forall key | key in t.claims ensures ClaimFine(t, key) {
      assert ClaimFine(s, key);
    }
  }

  lemma ArriveKeeps(s: State, a: Action)
    requires Inv(s) && Enabled(s, a) && a.Arrive?
    ensures Inv(Next(s, a))
  {
    var t := Next(s, a);
    hide AllApart, AcceptedIn, Logged, Seen;
    forall c: nat | c < |t.calls| ensures CallFine(t, c) {
      if c < |s.calls| {
        assert CallFine(s, c);
      } else {
        assert t.calls[c].key in s.claims ==> ClaimFine(s, t.calls[c].key);
      }
    }
    forall i: nat | i < |t.log| ensures EntryFine(t, t.log[i]) {
      assert EntryFine(s, s.log[i]);
    }
    forall key | key in t.claims ensures ClaimFine(t, key) {
      assert ClaimFine(s, key);
    }
  }

  /** A call that holds no claim may move between phases that hold none. */
  lemma IdleMoveKeeps(s: State, c: nat, phase: Phase)
    requires Inv(s) && c < |s.calls| && !Busy(s.calls[c]) && (s.calls[c].phase.Trying? || s.calls[c].phase.Sleeping?)
    requires phase.Trying? || phase == Done(Cancelled)
             || (phase.Sleeping? && (phase.on in s.closed || (phase.on != c && PendingOwner(s, phase.on, s.calls[c].key))))
             || (phase.Done? && phase.result.Accepted? && Seen(s.log, s.calls[c].key, phase.result.owner, phase.result.at))
    ensures Inv(Move(s, c, phase))
  {
    var t := Move(s, c, phase);
    hide AllApart, AcceptedIn, Logged, Seen;
    assert CallFine(s, c);
    forall d: nat | d < |t.calls| ensures CallFine(t, d) {
      assert CallFine(s, d);
    }
    forall i: nat | i < |t.log| ensures EntryFine(t, t.log[i]) {
      assert EntryFine(s, s.log[i]);
    }
    forall key | key in t.claims ensures ClaimFine(t, key) {
      assert ClaimFine(s, key);
    }
  }

  lemma EvictKeeps(s: State)
    requires Inv(s)
    ensures Inv(s.(claims := Evict(s.claims, s.now)))
  {
    var t := s.(claims := Evict(s.claims, s.now));
    hide AllApart, AcceptedIn, Logged, Seen;
    forall d: nat | d < |t.calls| ensures CallFine(t, d) {
      assert CallFine(s, d);
    }
    forall i: nat | i < |t.log| ensures EntryFine(t, t.log[i]) {
      assert EntryFine(s, s.log[i]);
    }
    forall key | key in t.claims ensures ClaimFine(t, key) {
      assert ClaimFine(s, key);
    }
  }

  lemma ClaimKeeps(s: State, c: nat)
    requires Inv(s) && In(s, c, Trying) && s.calls[c].key !in s.claims
    ensures Inv(Move(s.(claims := s.claims[s.calls[c].key := Claim(c, None)]), c, Holding))
  {
    var key := s.calls[c].key;
    var t := Move(s.(claims := s.claims[key := Claim(c, None)]), c, Holding);
    hide AllApart, AcceptedIn, Logged, Seen;
    assert CallFine(s, c);
    forall d: nat | d < |t.calls| ensures CallFine(t, d) {
      assert CallFine(s, d);
    }
    forall i: nat | i < |t.log| ensures EntryFine(t, t.log[i]) {
      assert EntryFine(s, s.log[i]);
    }
    forall k | k in t.claims ensures ClaimFine(t, k) {
      assert k != key ==> ClaimFine(s, k);
    }
  }

  lemma AttemptKeeps(s: State, a: Action)
    requires Inv(s) && Enabled(s, a) && a.Attempt?
    ensures Inv(Next(s, a))
  {
    var key := s.calls[a.c].key;
    var kept := s.(claims := Evict(s.claims, s.now));
    EvictKeeps(s);
    hide Inv;
    if key in kept.claims {
      AttemptOccupied(kept, a.c);
    } else {
      ClaimKeeps(kept, a.c);
    }
  }

  lemma AttemptOccupied(kept: State, c: nat)
    requires Inv(kept) && In(kept, c, Trying) && kept.calls[c].key in kept.claims && !Expired(kept.claims[kept.calls[c].key], kept.now)
    ensures var existing := kept.claims[kept.calls[c].key];
            Inv(Move(kept, c, if existing.expires.Some? then Done(Accepted(existing.owner, kept.now)) else Sleeping(existing.owner)))
  {
    var key := kept.calls[c].key;
    var existing := kept.claims[key];
    assert ClaimFine(kept, key);
    assert CallFine(kept, existing.owner) && CallFine(kept, c);
    if existing.expires.Some? {
      assert AcceptedIn(kept.log, key, existing);
      var i: nat :| LoggedAt(kept.log, i, existing.owner, key) && kept.log[i].released.Some?
                    && existing.expires.value == kept.log[i].released.value + kept.log[i].ttl;
      assert EntryFine(kept, kept.log[i]);
      assert Seen(kept.log, key, existing.owner, kept.now);
      IdleMoveKeeps(kept, c, Done(Accepted(existing.owner, kept.now)));
    } else {
      IdleMoveKeeps(kept, c, Sleeping(existing.owner));
    }
  }

  lemma EnqueueKeeps(s: State, a: Action)
    requires Inv(s) && Enabled(s, a) && a.Enqueue?
    ensures Inv(Next(s, a))
  {
    var t := Next(s, a);
    var c := a.c;
    assert CallFine(s, c);
    forall d: nat | d < |t.calls| ensures CallFine(t, d) {
      assert CallFine(s, d);
      LogGrows(s.log, t.log, d, t.calls[d].key, t.calls[d].phase);
      if d == c && a.ok {
        assert LoggedAt(t.log, |s.log|, c, s.calls[c].key);
      }
    }
    hide CallFine, Logged, Seen;
    EnqueueKeepsLog(s, a);
    forall k | k in t.claims ensures ClaimFine(t, k) {
      assert ClaimFine(s, k);
    }
    forall k | k in t.claims && t.claims[k].expires.Some? ensures AcceptedIn(t.log, k, t.claims[k]) {
      assert AcceptedIn(s.log, k, s.claims[k]);
      var i: nat :| LoggedAt(s.log, i, s.claims[k].owner, k) && s.log[i].released.Some?
                    && s.claims[k].expires.value == s.log[i].released.value + s.log[i].ttl;
      assert LoggedAt(t.log, i, s.claims[k].owner, k);
    }
  }

  lemma LogGrows(log: seq<Success>, longer: seq<Success>, c: nat, key: Key, phase: Phase)
    requires log <= longer
    ensures Logged(log, c, key) ==> Logged(longer, c, key)
    ensures phase.Done? && phase.result.Accepted? && Seen(log, key, phase.result.owner, phase.result.at)
            ==> Seen(longer, key, phase.result.owner, phase.result.at)
  {
    if Logged(log, c, key) {
      var i: nat :| LoggedAt(log, i, c, key);
      assert LoggedAt(longer, i, c, key);
    }
    if phase.Done? && phase.result.Accepted? && Seen(log, key, phase.result.owner, phase.result.at) {
      var i: nat :| LoggedAt(log, i, phase.result.owner, key) && log[i].released.Some?
                    && log[i].released.value <= phase.result.at < log[i].released.value + log[i].ttl;
      assert LoggedAt(longer, i, phase.result.owner, key);
    }
  }

  /** While a call holds the claim of a key, every earlier success of that key was released and has outlived its ttl. */
  lemma EnqueueKeepsLog(s: State, a: Action)
    requires Inv(s) && Enabled(s, a) && a.Enqueue?
    ensures EntriesFine(Next(s, a)) && AllApart(Next(s, a).log)
  {
    var t := Next(s, a);
    var c := a.c;
    assert CallFine(s, c);
    forall i: nat | i < |s.log|
      ensures EntryFine(t, t.log[i])
      ensures a.ok ==> Apart(s.log[i], t.log[|s.log|])
    {
      var e := s.log[i];
      assert EntryFine(s, e);
      assert CallFine(s, e.owner);
    }
    hide CallsFine, ClaimsFine, AcceptedLogged;
    forall i: nat, j: nat | i < j < |t.log| ensures Apart(t.log[i], t.log[j]) {
      if j < |s.log| {
        assert Apart(s.log[i], s.log[j]);
      }
    }
  }

  lemma ReleaseKeepsEntries(s: State, a: Action)
    requires Inv(s) && Enabled(s, a) && a.Release?
    ensures EntriesFine(Next(s, a)) && AllApart(Next(s, a).log)
  {
    var t := Next(s, a);
    var c := a.c;
    assert CallFine(s, c);
    forall i: nat | i < |s.log| ensures EntryFine(t, t.log[i]) {
      var e := s.log[i];
      assert EntryFine(s, e);
    }
    hide CallsFine, ClaimsFine, AcceptedLogged;
    forall i: nat, j: nat | i < j < |t.log| ensures Apart(t.log[i], t.log[j]) {
      assert Apart(s.log[i], s.log[j]) && EntryFine(s, s.log[i]);
    }
  }

  lemma ReleaseKeepsAccepted(s: State, a: Action)
    requires Inv(s) && Enabled(s, a) && a.Release?
    ensures AcceptedLogged(Next(s, a))
  {
    var t := Next(s, a);
    var c := a.c;
    assert CallFine(s, c);
    forall k | k in t.claims && t.claims[k].expires.Some? ensures AcceptedIn(t.log, k, t.claims[k]) {
      if k == s.calls[c].key {
        var i: nat :| LoggedAt(s.log, i, c, k);
        assert EntryFine(s, s.log[i]);
        assert LoggedAt(t.log, i, c, k);
      } else {
        assert AcceptedIn(s.log, k, s.claims[k]) && ClaimFine(s, k);
        var i: nat :| LoggedAt(s.log, i, s.claims[k].owner, k) && s.log[i].released.Some?
                      && s.claims[k].expires.value == s.log[i].released.value + s.log[i].ttl;
        assert LoggedAt(t.log, i, s.claims[k].owner, k);
      }
    }
  }

  lemma SettleKeepsLogged(log: seq<Success>, settled: seq<Success>, who: nat, now: Time, c: nat, key: Key, owner: nat, at: Time)
    requires settled == Settle(log, who, now) || settled == log
    requires forall i: nat :: i < |log| && log[i].owner == who ==> log[i].released.None?
    ensures Logged(log, c, key) ==> Logged(settled, c, key)
    ensures Seen(log, key, owner, at) ==> Seen(settled, key, owner, at)
  {
    if Logged(log, c, key) {
      var i: nat :| LoggedAt(log, i, c, key);
      assert LoggedAt(settled, i, c, key);
    }
    if Seen(log, key, owner, at) {
      var i: nat :| LoggedAt(log, i, owner, key) && log[i].released.Some?
                   && log[i].released.value <= at < log[i].released.value + log[i].ttl;
      assert LoggedAt(settled, i, owner, key);
    }
  }

  lemma ReleaseKeepsCalls(s: State, a: Action)
    requires Inv(s) && Enabled(s, a) && a.Release?
    ensures CallsFine(Next(s, a)) && ClaimsFine(Next(s, a)) && ClosedFine(Next(s, a))
  {
    var t := Next(s, a);
    var c := a.c;
    assert CallFine(s, c);
    forall i: nat | i < |s.log| && s.log[i].owner == c ensures s.log[i].released.None? {
      assert EntryFine(s, s.log[i]);
    }
    forall d: nat | d < |t.calls| ensures CallFine(t, d) {
      assert CallFine(s, d);
      var p := s.calls[d].phase;
      if p.Done? && p.result.Accepted? {
        SettleKeepsLogged(s.log, t.log, c, s.now, d, s.calls[d].key, p.result.owner, p.result.at);
      } else {
        SettleKeepsLogged(s.log, t.log, c, s.now, d, s.calls[d].key, 0, 0);
      }
    }
    forall k | k in t.claims ensures ClaimFine(t, k) {
      assert k in s.claims ==> ClaimFine(s, k);
    }
  }

  lemma StepKeeps(s: State, a: Action)
    requires Inv(s) && Enabled(s, a)
    ensures Inv(Next(s, a))
  {
    match a {
      case Tick(_) => TickKeeps(s, a);
      case Arrive(_, _) => ArriveKeeps(s, a);
      case GiveUp(c) =>
        hide Inv;
        IdleMoveKeeps(s, c, Done(Cancelled));
      case Attempt(_) => AttemptKeeps(s, a);
      case Wake(c) =>
        hide Inv;
        IdleMoveKeeps(s, c, Trying);
      case Enqueue(_, _) =>
        hide CallsFine, ClaimsFine, EntriesFine, AllApart, AcceptedLogged;
        EnqueueKeeps(s, a);
      case Release(_) =>
        ReleaseKeepsCalls(s, a);
        ReleaseKeepsEntries(s, a);
        ReleaseKeepsAccepted(s, a);
        hide CallsFine, ClaimsFine, EntriesFine, AllApart, AcceptedLogged;
    }
  }

  // ---- whole runs ----

  ghost predicate Run(actions: seq<Action>)
    decreases |actions|, 0
  {
    actions == [] ||
    (var before := actions[..|actions| - 1];
     Run(before) && Enabled(After(before), actions[|actions| - 1]))
  }

  ghost function After(actions: seq<Action>): State
    requires Run(actions)
    decreases |actions|, 1
  {
    if actions == [] then EMPTY else Next(After(actions[..|actions| - 1]), actions[|actions| - 1])
  }

  lemma {:induction false} RunIsFine(actions: seq<Action>)
    requires Run(actions)
    ensures Inv(After(actions))
  {
    hide Inv, Enabled, Next;
    if actions == [] {
      assert Inv(EMPTY) by { EmptyIsFine(); }
    } else {
      RunIsFine(actions[..|actions| - 1]);
      StepKeeps(After(actions[..|actions| - 1]), actions[|actions| - 1]);
    }
  }

  lemma EmptyIsFine()
    ensures Inv(EMPTY)
  {
  }

  /** At any moment at most one call per key is between its claim and its release. */
  lemma SingleHolder(actions: seq<Action>, c: nat, d: nat)
    requires Run(actions) && c < |After(actions).calls| && d < |After(actions).calls|
    requires Busy(After(actions).calls[c]) && Busy(After(actions).calls[d])
    requires After(actions).calls[c].key == After(actions).calls[d].key
    ensures c == d
  {
    RunIsFine(actions);
    assert CallFine(After(actions), c) && CallFine(After(actions), d);
  }

  /** A pending claim is only ever taken back by its own call: no eviction, no other call removes it. */
  lemma PendingNeverEvicted(actions: seq<Action>, a: Action, c: nat)
    requires Run(actions) && Enabled(After(actions), a)
    requires c < |After(actions).calls| && Busy(After(actions).calls[c]) && a != Release(c)
    ensures OwnsPending(After(actions), c)
    ensures c < |Next(After(actions), a).calls| && Busy(Next(After(actions), a).calls[c]) && OwnsPending(Next(After(actions), a), c)
  {
    RunIsFine(actions);
    var s := After(actions);
    var t := Next(s, a);
    StepKeeps(s, a);
    assert CallFine(s, c) && CallFine(t, c);
    hide Inv, CallFine, Run, After;
  }

  /** Every `done` channel is closed at most once, and only by the call that made it. */
  lemma DoneClosedOnce(actions: seq<Action>, a: Action, c: nat)
    requires Run(actions) && Enabled(After(actions), a)
    ensures a == Release(c) ==> c !in After(actions).closed
    ensures c in Next(After(actions), a).closed && c !in After(actions).closed ==> a == Release(c)
  {
    RunIsFine(actions);
    if a == Release(c) {
      assert CallFine(After(actions), c);
    }
  }

  /** Successful enqueues of one key are at least the earlier one's time to live apart. */
  lemma SuccessesApart(actions: seq<Action>, i: nat, j: nat)
    requires Run(actions) && i < j < |After(actions).log| && After(actions).log[i].key == After(actions).log[j].key
    ensures After(actions).log[i].at + After(actions).log[i].ttl <= After(actions).log[j].at
  {
    RunIsFine(actions);
    assert Apart(After(actions).log[i], After(actions).log[j]);
  }

  /** A call returns nil only if it persisted the message itself, or met a claim that was accepted and unexpired. */
  lemma NilMeansAccepted(actions: seq<Action>, c: nat)
    requires Run(actions) && c < |After(actions).calls| && After(actions).calls[c].phase.Done?
    ensures var call := After(actions).calls[c];
            && (call.phase.result.Persisted? ==> Logged(After(actions).log, c, call.key))
            && (call.phase.result.Accepted? ==> Seen(After(actions).log, call.key, call.phase.result.owner, call.phase.result.at))
  {
    RunIsFine(actions);
    assert CallFine(After(actions), c);
  }

  // ---- what a call is told ----

  /** A claim that was accepted and whose time is not over. */
  predicate Holds(s: State, key: Key) {
    key in s.claims && s.claims[key].expires.Some? && s.now < s.claims[key].expires.value
  }

  predicate InProgress(s: State, key: Key) {
    key in s.claims && s.claims[key].expires.None?
  }

  /**
   An attempt is accepted when an accepted claim still holds, waits for the owner of a claim in progress, and otherwise
   makes the claim its own. It disturbs no other call, and no other claim but those whose time is over.
   */
  lemma AttemptIsAnswered(actions: seq<Action>, c: nat)
    requires Run(actions) && Run(actions + [Attempt(c)])
    ensures var s, t := After(actions), After(actions + [Attempt(c)]);
            c < |s.calls| && |t.calls| == |s.calls| && t.log == s.log && t.closed == s.closed && t.now == s.now &&
            var key := s.calls[c].key;
            && t.calls[c].key == key && t.calls[c].ttl == s.calls[c].ttl
            && (Holds(s, key) ==> t.calls[c].phase == Done(Accepted(s.claims[key].owner, s.now)))
            && (InProgress(s, key) ==> t.calls[c].phase == Sleeping(s.claims[key].owner) && s.claims[key].owner != c)
            && (!Holds(s, key) && !InProgress(s, key) ==> t.calls[c].phase == Holding && key in t.claims && t.claims[key] == Claim(c, None))
            && (forall d :: 0 <= d < |s.calls| && d != c ==> t.calls[d] == s.calls[d])
            && (forall k :: (k != key || Holds(s, key) || InProgress(s, key)) ==>
                  (k in t.claims <==> Holds(s, k) || InProgress(s, k)) && (k in t.claims ==> t.claims[k] == s.claims[k]))
  {
    RunIsFine(actions);
    assert (actions + [Attempt(c)])[..|actions|] == actions;
    var s := After(actions);
    assert CallFine(s, c);
    var key := s.calls[c].key;
    if key in s.claims {
      assert ClaimFine(s, key);
    }
    hide Inv, CallFine, Logged, Seen;
  }

  /**
   Releasing after a success accepts the claim for the call's time to live, and after a failure frees the key; the
   callers waiting for it may try again from then on.
   */
  lemma ReleaseIsSeen(actions: seq<Action>, c: nat)
    requires Run(actions) && Run(actions + [Release(c)])
    ensures var s, t := After(actions), After(actions + [Release(c)]);
            c < |s.calls| && |t.calls| == |s.calls| && s.calls[c].phase.Enqueued? && c in t.closed &&
            var key := s.calls[c].key;
            && (if s.calls[c].phase.ok
                then t.calls[c].phase == Done(Persisted) && key in t.claims && t.claims[key] == Claim(c, Some(s.now + s.calls[c].ttl))
                else t.calls[c].phase == Done(Failed) && key !in t.claims)
            && (forall d :: 0 <= d < |s.calls| && d != c ==> t.calls[d] == s.calls[d])
            && (forall k :: k != key ==> (k in t.claims <==> k in s.claims) && (k in t.claims ==> t.claims[k] == s.claims[k]))
            && (forall d :: 0 <= d < |s.calls| && s.calls[d].phase == Sleeping(c) ==> Enabled(t, Wake(d)))
  {
    assert (actions + [Release(c)])[..|actions|] == actions;
  }

  /** The action that alone can have led to a phase. */
  predicate Accounted(actions: seq<Action>, c: nat, phase: Phase) {
    match phase
    case Trying => true
    case Sleeping(_) => Attempt(c) in actions
    case Holding => Attempt(c) in actions
    case Enqueued(ok) => Enqueue(c, ok) in actions
    case Done(Cancelled) => GiveUp(c) in actions
    case Done(Accepted(_, _)) => Attempt(c) in actions
    case Done(Persisted) => Enqueue(c, true) in actions && Release(c) in actions
    case Done(Failed) => Enqueue(c, false) in actions && Release(c) in actions
  }

  /** A call is cancelled only when its own context ended, and fails only when its own enqueueing failed. */
  lemma {:induction false} ResultsAreAccounted(actions: seq<Action>, c: nat)
    requires Run(actions) && c < |After(actions).calls|
    ensures Accounted(actions, c, After(actions).calls[c].phase)
  {
    if actions != [] {
      var before, a := actions[..|actions| - 1], actions[|actions| - 1];
      assert actions == before + [a];
      if c < |After(before).calls| {
        ResultsAreAccounted(before, c);
      }
      AccountedStep(After(before), before, a, c);
    }
  }

  lemma AccountedStep(s: State, before: seq<Action>, a: Action, c: nat)
    requires Enabled(s, a) && c < |Next(s, a).calls|
    requires c < |s.calls| ==> Accounted(before, c, s.calls[c].phase)
    ensures Accounted(before + [a], c, Next(s, a).calls[c].phase)
  {
    assert forall b :: b in before ==> b in before + [a];
    assert a in before + [a];
  }

  /** A step that some caller can take now, other than giving up. */
  predicate CanProceed(s: State, a: Action) {
    Enabled(s, a) && !a.Tick? && !a.Arrive? && !a.GiveUp?
  }

  /** No lost wake-up and no deadlock: a call that has not returned can move, or the owner it waits for, busy, can. */
  lemma SomeCallCanMove(actions: seq<Action>, c: nat) returns (a: Action)
    requires Run(actions) && c < |After(actions).calls| && !After(actions).calls[c].phase.Done?
    ensures CanProceed(After(actions), a)
    ensures var phase := After(actions).calls[c].phase;
            a.c == c || (phase.Sleeping? && a.c == phase.on < |After(actions).calls| && Busy(After(actions).calls[a.c])
                         && After(actions).calls[a.c].key == After(actions).calls[c].key)
  {
    RunIsFine(actions);
    var s := After(actions);
    assert CallFine(s, c);
    match s.calls[c].phase {
      case Trying => a := Attempt(c);
      case Holding => a := Enqueue(c, true);
      case Enqueued(_) => a := Release(c);
      case Sleeping(owner) =>
        a := if owner in s.closed then Wake(c) else if s.calls[owner].phase.Holding? then Enqueue(owner, true) else Release(owner);
    }
  }

  // ---- the critical sections ----

  /** The router's claim map; each method is one critical section, carried out for call `c` in state `s`. */
  class ClaimTable {
    var claims: map<Key, Claim>

    constructor ()
      ensures claims == map[]
    {
      claims := map[];
    }

    method EvictExpired(now: Time)
      modifies this
      ensures claims == Evict(old(claims), now)
    {
      var keys := claims.Keys;
      while keys != {}
        invariant keys <= claims.Keys <= old(claims).Keys
        invariant forall k :: k in claims ==> claims[k] == old(claims)[k]
        invariant forall k :: k in old(claims) && k !in keys ==> (k in claims <==> !Expired(old(claims)[k], now))
      {
        var key :| key in keys;
        keys := keys - {key};
        if Expired(claims[key], now) {
          claims := claims - {key};
        }
      }
    }

    /** Takes the key, or finds it taken: accepted already, or pending. */
    method Attempt(ghost s: State, c: nat, key: Key, now: Time) returns (phase: Phase)
      requires c < |s.calls| && s.calls[c].key == key && s.claims == claims && s.now == now
      modifies this
      ensures claims == Tried(s, c).claims && phase == Tried(s, c).calls[c].phase
    {
      EvictExpired(now);
      if key in claims {
        var existing := claims[key];
        return if existing.expires.Some? then Done(Accepted(existing.owner, now)) else Sleeping(existing.owner);
      }
      claims := claims[key := Claim(c, None)];
      return Holding;
    }

    /** Turns the call's claim into an accepted one, or gives it up. */
    method Release(ghost s: State, c: nat, key: Key, ttl: Time, now: Time, ok: bool)
      requires c < |s.calls| && s.calls[c].key == key && s.calls[c].ttl == ttl && s.claims == claims && s.now == now
      modifies this
      ensures claims == Released(s, c, ok).claims
    {
      if ok {
        claims := claims[key := Claim(c, Some(now + ttl))];
      } else {
        claims := claims - {key};
      }
    }
  }

  // ---- draining the router ----

  /** `closed`, `active` and `drained` of the router; `closings` counts how often the channel was closed. */
  class Gate {
    var closed: bool
    var active: nat
    var drained: bool
    var ended: bool        // the router's own context
    ghost var closings: nat

    /** The channel is closed exactly when the router is closed and idle, and has been closed only once. */
    ghost predicate Valid()
      reads this
    {
      && (drained <==> closed && active == 0)
      && (closed ==> ended)
      && closings == (if drained then 1 else 0)
    }

    constructor ()
      ensures Valid() && !closed && active == 0 && !ended
    {
      closed, active, drained, ended, closings := false, 0, false, false, 0;
    }

    /** Closing a closed channel would panic. */
    method CloseDrained()
      requires !drained
      modifies this`drained, this`closings
      ensures drained && closings == old(closings) + 1
    {
      drained, closings := true, closings + 1;
    }

    method Begin(sameAccount: bool) returns (ok: bool)
      requires Valid()
      modifies this`active
      ensures Valid() && (ok <==> !closed && !ended && sameAccount)
      ensures active == old(active) + (if ok then 1 else 0)
    {
      ok := !closed && !ended && sameAccount;
      if ok {
        active := active + 1;
      }
    }

    /** The function returned by `begin`, called once for each admission. */
    method Done()
      requires Valid() && active > 0
      modifies this`active, this`drained, this`closings
      ensures Valid() && active == old(active) - 1
    {
      active := active - 1;
      if closed && active == 0 {
        CloseDrained();
      }
    }

    /** The critical section of `Stop`; it may be called again. */
    method Stop()
      requires Valid()
      modifies this`closed, this`ended, this`drained, this`closings
      ensures Valid() && closed && (drained <==> active == 0)
    {
      if !closed {
        closed := true;
        ended := true;
        if active == 0 {
          CloseDrained();
        }
      }
    }
  }
}
