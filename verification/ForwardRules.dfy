/**
 Forwarding rules: an edited rule list is checked and compiled into a routing table that names, for each source chat,
 where its messages go.
 */
module ForwardRules {
  import opened Decimal
  import opened DependencyGraph
  import opened Text

  type Ref = string

  datatype Mode = Default | Clone | Unsupported

  datatype Rule = Rule(id: string, name: string, enabled: bool, mode: Mode, silent: bool, sources: seq<Ref>, targets: seq<Ref>)

  datatype Destination = Destination(ruleId: string, target: Ref, mode: Mode, silent: bool)

  type Table = map<Ref, seq<Destination>>

  const MAX_RULES := 200
  const MAX_NAME := 100
  const MAX_SOURCES := 500
  const MAX_TARGETS := 100
  const SELF: Ref := "self"

  // ---- chat references ----

  /** `validRef`: a kind and a positive number in its shortest form, or, for a target, the account itself. */
  predicate ValidRef(ref: Ref, self: bool) {
    (self && ref == SELF) ||
    (var parts := Split(ref, ':');
     && |parts| == 2 && Kind(parts[0])
     && (var id := ParseInt64(parts[1]);
         id.Some? && id.value > 0 && FormatInt(id.value) == parts[1]))
  }

  predicate Kind(kind: string) {
    kind in {"user", "chat", "channel"}
  }

  /** Exactly the references `kind:number`, with a positive int64 and no other spelling of it. */
  lemma ValidRefMeans(ref: Ref, self: bool)
    ensures ValidRef(ref, self)
            <==> (self && ref == SELF) || exists kind, n: nat :: Kind(kind) && 0 < n <= MAX_INT64 && ref == kind + ":" + Format(n)
  {
    hide Split, Format, Kind, ParseInt64;
    if ValidRef(ref, self) && !(self && ref == SELF) {
      var n := ValidIsSpelt(ref, self);
    }
    forall kind, n: nat | Kind(kind) && 0 < n <= MAX_INT64 && ref == kind + ":" + Format(n) ensures ValidRef(ref, self) {
      SpeltIsValid(kind, n, self);
    }
  }

  lemma ValidIsSpelt(ref: Ref, self: bool) returns (n: nat)
    requires ValidRef(ref, self) && !(self && ref == SELF)
    ensures 0 < n <= MAX_INT64 && Kind(Split(ref, ':')[0]) && ref == Split(ref, ':')[0] + ":" + Format(n)
  {
    hide Split, ParseInt64, Format;
    var parts := Split(ref, ':');
    n := ParseInt64(parts[1]).value;
    JoinOfSplit(ref, ':');
    assert parts[1..] == [parts[1]];
  }

  lemma SpeltIsValid(kind: string, n: nat, self: bool)
    requires Kind(kind) && 0 < n <= MAX_INT64
    ensures ValidRef(kind + ":" + Format(n), self)
  {
    DigitsAlone(n);
    assert ':' !in kind;
    hide Split, ParseInt64, Format;
    SplitPair(kind, Format(n), ':');
    ParseOfFormat(n);
    assert FormatInt(n) == Format(n);
  }

  lemma DigitsAlone(n: nat)
    ensures ':' !in Format(n)
  {
    hide Format;
    var digits := Format(n);
    forall c | c in digits ensures IsDigit(c) {
    }
  }

  // ---- which rule lists are accepted ----

  predicate Blank(s: string) {
    TrimSpace(s) == []
  }

  predicate WithinLimits(rule: Rule) {
    |rule.name| <= MAX_NAME && |rule.sources| <= MAX_SOURCES && |rule.targets| <= MAX_TARGETS
  }

  predicate TargetFine(source: Ref, target: Ref) {
    ValidRef(target, true) && source != target
  }

  predicate SourceFine(rule: Rule, source: Ref) {
    ValidRef(source, false) && forall target :: target in rule.targets ==> TargetFine(source, target)
  }

  predicate RuleFine(rule: Rule) {
    && !Blank(rule.id) && WithinLimits(rule) && rule.sources != [] && rule.targets != [] && rule.mode != Unsupported
    && forall source :: source in rule.sources ==> SourceFine(rule, source)
  }

  ghost predicate RulesFine(rules: seq<Rule>) {
    && |rules| <= MAX_RULES
    && (forall i :: 0 <= i < |rules| ==> RuleFine(rules[i]))
    && (forall i, j :: 0 <= i < j < |rules| ==> rules[i].id != rules[j].id)
  }

  // ---- what they route ----

  function ByRule(rule: Rule, target: Ref): Destination {
    Destination(rule.id, target, rule.mode, rule.silent)
  }

  /** Every way a message of `source` would go under the rules, in their order, with repetitions. */
  function Flow(rules: seq<Rule>, source: Ref): seq<Destination> {
    if rules == [] then []
    else
      var rule := rules[|rules| - 1];
      Flow(rules[..|rules| - 1], source) + (if rule.enabled then RuleFlow(rule, rule.sources, source) else [])
  }

  function RuleFlow(rule: Rule, sources: seq<Ref>, source: Ref): seq<Destination> {
    if sources == [] then []
    else RuleFlow(rule, sources[..|sources| - 1], source) + (if sources[|sources| - 1] == source then ToAll(rule, rule.targets) else [])
  }

  function ToAll(rule: Rule, targets: seq<Ref>): seq<Destination> {
    seq(|targets|, i requires 0 <= i < |targets| => ByRule(rule, targets[i]))
  }

  predicate Reaches(ds: seq<Destination>, target: Ref) {
    exists i :: 0 <= i < |ds| && ds[i].target == target
  }

  /** Adds the destinations whose targets are new. */
  function Merge(acc: seq<Destination>, ds: seq<Destination>): seq<Destination> {
    if ds == [] then acc
    else
      var merged := Merge(acc, ds[..|ds| - 1]);
      var last := ds[|ds| - 1];
      if Reaches(merged, last.target) then merged else merged + [last]
  }

  function Lookup(table: Table, source: Ref): seq<Destination> {
    if source in table then table[source] else []
  }

  /** The table routes every source to the first destination for each of its targets. */
  ghost predicate Compiled(table: Table, rules: seq<Rule>) {
    && (forall source :: source in table ==> table[source] != [])
    && (forall source :: Lookup(table, source) == Merge([], Flow(rules, source)))
  }

  // ---- what merging means ----

  lemma {:induction false} MergeOfConcat(acc: seq<Destination>, a: seq<Destination>, b: seq<Destination>)
    ensures Merge(Merge(acc, a), b) == Merge(acc, a + b)
  {
    if b == [] {
      assert a + b == a;
    } else {
      MergeOfConcat(acc, a, b[..|b| - 1]);
      assert (a + b)[..|a + b| - 1] == a + b[..|b| - 1];
    }
  }

  predicate FirstAt(ds: seq<Destination>, i: nat) {
    i < |ds| && !Reaches(ds[..i], ds[i].target)
  }

  lemma ReachesLast(ds: seq<Destination>, d: Destination, target: Ref)
    ensures Reaches(ds + [d], target) <==> Reaches(ds, target) || d.target == target
  {
    var longer := ds + [d];
    if Reaches(ds, target) {
      var i :| 0 <= i < |ds| && ds[i].target == target;
      assert longer[i].target == target;
    }
    assert longer[|ds|] == d;
  }

  /** The positions in `ds` whose target appears there for the first time, in order. */
  function Firsts(ds: seq<Destination>): seq<nat> {
    if ds == [] then []
    else
      var n := |ds| - 1;
      Firsts(ds[..n]) + (if Reaches(ds[..n], ds[n].target) then [] else [n])
  }

  /** The merged list holds exactly the first destination for each target, in order of first appearance. */
  lemma {:induction false} MergedAreFirsts(ds: seq<Destination>)
    ensures |Merge([], ds)| == |Firsts(ds)|
    ensures forall k :: 0 <= k < |Firsts(ds)| ==> FirstAt(ds, Firsts(ds)[k]) && Merge([], ds)[k] == ds[Firsts(ds)[k]]
    ensures forall k, l :: 0 <= k < l < |Firsts(ds)| ==> Firsts(ds)[k] < Firsts(ds)[l]
    ensures forall target :: Reaches(Merge([], ds), target) <==> Reaches(ds, target)
  {
    if ds != [] {
      var n := |ds| - 1;
      var init, last := ds[..n], ds[n];
      MergedAreFirsts(init);
      assert ds == init + [last];
      forall k | 0 <= k < |Firsts(init)| ensures FirstAt(ds, Firsts(init)[k]) && ds[Firsts(init)[k]] == init[Firsts(init)[k]] {
        assert FirstAt(init, Firsts(init)[k]);
        assert ds[..Firsts(init)[k]] == init[..Firsts(init)[k]];
      }
      forall target ensures Reaches(Merge([], ds), target) <==> Reaches(ds, target) {
        ReachesLast(init, last, target);
        ReachesLast(Merge([], init), last, target);
      }
    }
  }

  lemma MergedOnceEach(ds: seq<Destination>, k: nat, l: nat)
    requires k < l < |Merge([], ds)|
    ensures Merge([], ds)[k].target != Merge([], ds)[l].target
  {
    MergedAreFirsts(ds);
    assert FirstAt(ds, Firsts(ds)[l]);
    assert ds[..Firsts(ds)[l]][Firsts(ds)[k]] == ds[Firsts(ds)[k]];
  }

  // ---- compiling ----

  method AddTargets(table: Table, source: Ref, rule: Rule) returns (t: Table)
    requires forall s :: s in table ==> table[s] != []
    ensures forall s :: s in t ==> t[s] != []
    ensures forall s :: Lookup(t, s) == if s == source then Merge(Lookup(table, s), ToAll(rule, rule.targets)) else Lookup(table, s)
  {
    t := table;
    for k := 0 to |rule.targets|
      invariant forall s :: s in t ==> t[s] != []
      invariant forall s :: Lookup(t, s) == if s == source then Merge(Lookup(table, s), ToAll(rule, rule.targets[..k])) else Lookup(table, s)
    {
      var target := rule.targets[k];
      var duplicate := Reaches(Lookup(t, source), target);
      OneMoreTarget(rule, k);
      if !duplicate {
        t := t[source := Lookup(t, source) + [Destination(rule.id, target, rule.mode, rule.silent)]];
      }
    }
    assert rule.targets[..|rule.targets|] == rule.targets;
  }

  lemma OneMoreTarget(rule: Rule, k: nat)
    requires k < |rule.targets|
    ensures ToAll(rule, rule.targets[..k + 1]) == ToAll(rule, rule.targets[..k]) + [ByRule(rule, rule.targets[k])]
  {
  }

  /** The nested loops over the sources and targets of one enabled rule. */
  method AddRule(table: Table, rule: Rule) returns (t: Table)
    requires forall s :: s in table ==> table[s] != []
    ensures forall s :: s in t ==> t[s] != []
    ensures forall s :: Lookup(t, s) == Merge(Lookup(table, s), RuleFlow(rule, rule.sources, s))
  {
    t := table;
    for j := 0 to |rule.sources|
      invariant forall s :: s in t ==> t[s] != []
      invariant forall s :: Lookup(t, s) == Merge(Lookup(table, s), RuleFlow(rule, rule.sources[..j], s))
    {
      hide Lookup, Merge, RuleFlow, ToAll;
      ghost var before := t;
      t := AddTargets(t, rule.sources[j], rule);
      forall s ensures Lookup(t, s) == Merge(Lookup(table, s), RuleFlow(rule, rule.sources[..j + 1], s)) {
        OneMoreSource(rule, j, Lookup(table, s), s);
      }
    }
    assert rule.sources[..|rule.sources|] == rule.sources;
  }

  lemma OneMoreSource(rule: Rule, j: nat, acc: seq<Destination>, s: Ref)
    requires j < |rule.sources|
    ensures Merge(acc, RuleFlow(rule, rule.sources[..j + 1], s))
            == if s == rule.sources[j] then Merge(Merge(acc, RuleFlow(rule, rule.sources[..j], s)), ToAll(rule, rule.targets))
               else Merge(acc, RuleFlow(rule, rule.sources[..j], s))
  {
    var longer := rule.sources[..j + 1];
    assert longer[..|longer| - 1] == rule.sources[..j];
    MergeOfConcat(acc, RuleFlow(rule, rule.sources[..j], s), ToAll(rule, rule.targets));
    assert RuleFlow(rule, rule.sources[..j], s) + [] == RuleFlow(rule, rule.sources[..j], s);
  }

  lemma CompiledStep(table: Table, t: Table, rules: seq<Rule>, i: nat)
    requires i < |rules| && Compiled(table, rules[..i])
    requires forall s :: s in t ==> t[s] != []
    requires forall s :: Lookup(t, s) == if rules[i].enabled then Merge(Lookup(table, s), RuleFlow(rules[i], rules[i].sources, s)) else Lookup(table, s)
    ensures Compiled(t, rules[..i + 1])
  {
    var longer := rules[..i + 1];
    assert longer[..|longer| - 1] == rules[..i];
    hide Lookup, RuleFlow;
    forall s ensures Lookup(t, s) == Merge([], Flow(longer, s)) {
      assert Flow(longer, s) == Flow(rules[..i], s) + (if rules[i].enabled then RuleFlow(rules[i], rules[i].sources, s) else []);
      MergeOfConcat([], Flow(rules[..i], s), RuleFlow(rules[i], rules[i].sources, s));
      assert Flow(rules[..i], s) + [] == Flow(rules[..i], s);
    }
  }

  /** The routes as a graph: an edge for each destination. */
  function Routes(table: Table): Graph<Ref> {
    map s | s in table :: seq(|table[s]|, i requires 0 <= i < |table[s]| => table[s][i].target)
  }

  datatype Verdict = Accepted(table: Table) | Malformed | Cyclic(at: Ref)

  /** The checks on one rule, in the order of the source: IDs, limits, emptiness, mode, then every source and target. */
  method CheckRule(rule: Rule, ids: set<string>) returns (fine: bool)
    ensures fine <==> RuleFine(rule) && rule.id !in ids
  {
    if Blank(rule.id) || rule.id in ids {
      return false;
    }
    if |rule.name| > MAX_NAME || |rule.sources| > MAX_SOURCES || |rule.targets| > MAX_TARGETS {
      return false;
    }
    if rule.sources == [] || rule.targets == [] || rule.mode == Unsupported {
      return false;
    }
    for j := 0 to |rule.sources|
      invariant forall source :: source in rule.sources[..j] ==> SourceFine(rule, source)
    {
      var source := rule.sources[j];
      fine := CheckSource(rule, source);
      if !fine {
        return;
      }
    }
    return true;
  }

  method CheckSource(rule: Rule, source: Ref) returns (fine: bool)
    ensures fine <==> SourceFine(rule, source)
  {
    if !ValidRef(source, false) {
      return false;
    }
    hide ValidRef;
    for k := 0 to |rule.targets|
      invariant forall target :: target in rule.targets[..k] ==> TargetFine(source, target)
    {
      if !ValidRef(rule.targets[k], true) || source == rule.targets[k] {
        assert !TargetFine(source, rule.targets[k]);
        return false;
      }
    }
    return true;
  }

  /** The first `n` rules are fine, and `ids` are theirs. */
  ghost predicate Checked(rules: seq<Rule>, n: nat, ids: set<string>) {
    && n <= |rules|
    && (forall k :: 0 <= k < n ==> RuleFine(rules[k]) && rules[k].id in ids)
    && (forall k, l :: 0 <= k < l < n ==> rules[k].id != rules[l].id)
    && (forall id :: id in ids ==> exists k :: 0 <= k < n && rules[k].id == id)
  }

  lemma CheckedStep(rules: seq<Rule>, n: nat, ids: set<string>)
    requires Checked(rules, n, ids) && n < |rules|
    ensures if RuleFine(rules[n]) && rules[n].id !in ids then Checked(rules, n + 1, ids + {rules[n].id}) else !RulesFine(rules)
  {
    hide RuleFine;
  }

  /**
   `PrepareConfig`: a rule list is accepted exactly when it is well formed and its routes form no cycle, and then
   compiles to the routes it describes. A reported cycle is a cycle of those routes.
   */
  method PrepareConfig(rules: seq<Rule>) returns (v: Verdict)
    ensures v.Malformed? <==> !RulesFine(rules)
    ensures v.Accepted? ==> Compiled(v.table, rules) && Acyclic(Routes(v.table))
    ensures v.Cyclic? ==> exists table :: Compiled(table, rules) && !Acyclic(Routes(table))
                                          && exists p :: Cycle(Routes(table), p) && p[0] == v.at
  {
    if |rules| > MAX_RULES {
      return Malformed;
    }
    var next: Table := map[];
    var ids: set<string> := {};
    assert rules[..0] == [];
    for i := 0 to |rules|
      invariant Checked(rules, i, ids)
      invariant Compiled(next, rules[..i])
    {
      hide RuleFine, Compiled, Checked, RulesFine;
      var fine := CheckRule(rules[i], ids);
      CheckedStep(rules, i, ids);
      if !fine {
        return Malformed;
      }
      ids := ids + {rules[i].id};
      next := AddIfEnabled(next, rules, i);
    }
    assert rules[..|rules|] == rules;
    hide RuleFine, Compiled, Acyclic;
    var found := FindCycle(Routes(next));
    if found.Visited? {
      return Accepted(next);
    }
    return Cyclic(found.at);
  }

  method AddIfEnabled(table: Table, rules: seq<Rule>, i: nat) returns (t: Table)
    requires i < |rules| && Compiled(table, rules[..i])
    ensures Compiled(t, rules[..i + 1])
  {
    t := table;
    if rules[i].enabled {
      t := AddRule(table, rules[i]);
    }
    CompiledStep(table, t, rules, i);
  }

  // ---- what Destinations answers ----

  /** Some enabled rule sends messages of the source to the target. */
  predicate Sends(rule: Rule, source: Ref, target: Ref) {
    rule.enabled && source in rule.sources && target in rule.targets
  }

  /** The destination carries the rule's ID, mode and silence. */
  predicate SetBy(rule: Rule, d: Destination) {
    d.ruleId == rule.id && d.mode == rule.mode && d.silent == rule.silent
  }

  predicate OfRule(rule: Rule, d: Destination) {
    SetBy(rule, d) && d.target in rule.targets
  }

  lemma {:induction false} RuleFlowTargets(rule: Rule, sources: seq<Ref>, source: Ref)
    ensures forall d :: d in RuleFlow(rule, sources, source) ==> OfRule(rule, d) && source in sources
    ensures forall target :: source in sources && target in rule.targets ==> Reaches(RuleFlow(rule, sources, source), target)
  {
    if sources != [] {
      var init, last := sources[..|sources| - 1], sources[|sources| - 1];
      RuleFlowTargets(rule, init, source);
      assert sources == init + [last];
      var flow, early := RuleFlow(rule, sources, source), RuleFlow(rule, init, source);
      assert |early| <= |flow| && flow[..|early|] == early;
      forall d | d in flow ensures OfRule(rule, d) && source in sources {
        assert d in early || d in ToAll(rule, rule.targets);
      }
      forall target | source in sources && target in rule.targets ensures Reaches(flow, target) {
        if source in init {
          var i :| 0 <= i < |early| && early[i].target == target;
          assert flow[i] == early[i];
        } else {
          var k :| 0 <= k < |rule.targets| && rule.targets[k] == target;
          assert flow[|early| + k] == ByRule(rule, target);
        }
      }
    }
  }

  /** The rule that a destination in the flow comes from: the first enabled one that sends the source's messages there. */
  predicate FirstRule(rules: seq<Rule>, source: Ref, target: Ref, r: nat) {
    r < |rules| && Sends(rules[r], source, target) && forall k :: 0 <= k < r ==> !Sends(rules[k], source, target)
  }

  ghost predicate FromFirstRule(rules: seq<Rule>, source: Ref, d: Destination) {
    exists r: nat :: FirstRule(rules, source, d.target, r) && SetBy(rules[r], d)
  }

  lemma FirstRuleStays(rules: seq<Rule>, source: Ref, d: Destination)
    requires rules != [] && FromFirstRule(rules[..|rules| - 1], source, d)
    ensures FromFirstRule(rules, source, d)
  {
    var init := rules[..|rules| - 1];
    var r: nat :| FirstRule(init, source, d.target, r) && SetBy(init[r], d);
    assert forall k :: 0 <= k < |init| ==> rules[k] == init[k];
    assert FirstRule(rules, source, d.target, r);
  }

  lemma {:induction false} FlowFirsts(rules: seq<Rule>, source: Ref)
    ensures forall i: nat :: FirstAt(Flow(rules, source), i) ==> FromFirstRule(rules, source, Flow(rules, source)[i])
    ensures forall target :: Reaches(Flow(rules, source), target) <==> exists r :: 0 <= r < |rules| && Sends(rules[r], source, target)
  {
    if rules != [] {
      var init, last := rules[..|rules| - 1], rules[|rules| - 1];
      FlowFirsts(init, source);
      RuleFlowTargets(last, last.sources, source);
      assert rules == init + [last];
      var early, late := Flow(init, source), if last.enabled then RuleFlow(last, last.sources, source) else [];
      assert Flow(rules, source) == early + late;
      hide Flow, RuleFlow;
      forall target ensures Reaches(early + late, target) <==> exists r :: 0 <= r < |rules| && Sends(rules[r], source, target) {
        ReachesConcat(early, late, target);
        SendsConcat(init, last, source, target);
        if Reaches(late, target) {
          var i :| 0 <= i < |late| && late[i].target == target;
          assert late[i] in late;
        }
      }
      forall i: nat | FirstAt(early + late, i) ensures FromFirstRule(rules, source, (early + late)[i]) {
        FirstOfConcat(init, last, source, early, late, i);
      }
    }
  }

  lemma ReachesConcat(a: seq<Destination>, b: seq<Destination>, target: Ref)
    ensures Reaches(a + b, target) <==> Reaches(a, target) || Reaches(b, target)
  {
    if Reaches(a, target) {
      var i :| 0 <= i < |a| && a[i].target == target;
      assert (a + b)[i] == a[i];
    }
    if Reaches(b, target) {
      var i :| 0 <= i < |b| && b[i].target == target;
      assert (a + b)[|a| + i] == b[i];
    }
  }

  lemma SendsConcat(init: seq<Rule>, last: Rule, source: Ref, target: Ref)
    ensures (exists r :: 0 <= r < |init + [last]| && Sends((init + [last])[r], source, target))
            <==> (exists r :: 0 <= r < |init| && Sends(init[r], source, target)) || Sends(last, source, target)
  {
    var rules := init + [last];
    if r :| 0 <= r < |init| && Sends(init[r], source, target) {
      assert rules[r] == init[r];
    }
    assert rules[|init|] == last;
  }

  lemma FirstOfConcat(init: seq<Rule>, last: Rule, source: Ref, early: seq<Destination>, late: seq<Destination>, i: nat)
    requires forall k: nat :: FirstAt(early, k) ==> FromFirstRule(init, source, early[k])
    requires forall target :: Reaches(early, target) <==> exists r :: 0 <= r < |init| && Sends(init[r], source, target)
    requires forall d :: d in late ==> OfRule(last, d) && Sends(last, source, d.target)
    requires FirstAt(early + late, i)
    ensures FromFirstRule(init + [last], source, (early + late)[i])
  {
    var d := (early + late)[i];
    var rules := init + [last];
    assert rules[..|rules| - 1] == init;
    if i < |early| {
      assert (early + late)[..i] == early[..i];
      FirstRuleStays(rules, source, d);
    } else {
      assert (early + late)[..i] == early + late[..i - |early|];
      ReachesConcat(early, late[..i - |early|], d.target);
      assert d in late;
      assert forall k :: 0 <= k < |init| ==> rules[k] == init[k];
      assert FirstRule(rules, source, d.target, |init|);
    }
  }

  /**
   `Destinations` of a compiled rule set: once each, exactly the targets of the enabled rules that name the source,
   with the ID, mode and silence of the first such rule.
   */
  lemma DestinationsMean(table: Table, rules: seq<Rule>, source: Ref)
    requires Compiled(table, rules)
    ensures var ds := Lookup(table, source);
            && (forall k, l :: 0 <= k < l < |ds| ==> ds[k].target != ds[l].target)
            && (forall k :: 0 <= k < |ds| ==> FromFirstRule(rules, source, ds[k]))
            && (forall target :: Reaches(ds, target) <==> exists r :: 0 <= r < |rules| && Sends(rules[r], source, target))
  {
    var flow := Flow(rules, source);
    var ds := Lookup(table, source);
    FlowFirsts(rules, source);
    MergedAreFirsts(flow);
    hide Flow, Merge, Firsts, FromFirstRule;
    forall k, l | 0 <= k < l < |ds| ensures ds[k].target != ds[l].target {
      MergedOnceEach(flow, k, l);
    }
    forall k | 0 <= k < |ds| ensures FromFirstRule(rules, source, ds[k]) {
      assert FirstAt(flow, Firsts(flow)[k]);
    }
  }
}
