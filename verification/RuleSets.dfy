/**
  Compiling a rule set and evaluating it against an event.

  Effects are identified by rule and action index; what an action builds, and whether building it
  fails, is a parameter. Errors keep only whether compilation or evaluation succeeded.
*/
module RuleSets {
  import opened Identity
  import opened Predicates
  import opened Sorting
  import EventProtocol

  datatype Payload = NoPayload | Payload(text: string)

  datatype Emit = Emit(topic: string, data: Payload)

  datatype EmitEvent = EmitEvent(kind: string, key: string, policy: string, keyPath: string, data: Payload)

  datatype Command = Command(destination: string, name: string, data: Payload)

  /** The source's struct of three optional actions. */
  datatype Action = Action(emit: Option<Emit>, emitEvent: Option<EmitEvent>, command: Option<Command>)

  datatype Rule = Rule(id: string, about: string, priority: int, when: Predicate, onMatch: seq<Action>,
                       otherwise: seq<Action>)

  datatype Limits = Limits(rules: int, predicates: int, actions: int, depth: int, idLength: int, payload: int)

  datatype Mode = FirstMatch | AllMatches | OtherMode

  datatype RuleSet = RuleSet(name: string, revision: int, mode: Mode, rules: seq<Rule>)

  // ---------------------------------------------------------------- validation of one rule

  /** payloadSize of a value that is encoded as JSON; a missing value encodes as null. */
  function Size(p: Payload): nat {
    if p.NoPayload? then 4 else |p.text|
  }

  predicate HasWildcard(s: string) {
    exists i | 0 <= i < |s| :: s[i] == '*' || s[i] == '>'
  }

  predicate KeyPolicyOk(e: EmitEvent) {
    var policy := if e.policy == "" then "explicit" else e.policy;
    (policy == "explicit" && e.key != "") || policy == "inherit" ||
    (policy == "from_data" && |e.keyPath| >= 2 && e.keyPath[..2] == "$.")
  }

  /** validateAction: exactly one kind of action, well formed and within its payload budget. */
  predicate ActionOk(a: Action, l: Limits) {
    match (a.emit, a.emitEvent, a.command)
    case (Some(e), None, None) => e.topic != "" && Size(e.data) <= l.payload
    case (None, Some(e), None) =>
      KeyPolicyOk(e) && e.kind != "" && !HasWildcard(e.kind) && e.data.Payload? && |e.data.text| <= l.payload
    case (None, None, Some(c)) => c.destination != "" && c.name != "" && Size(c.data) <= l.payload
    case _ => false
  }

  predicate ActionsOk(actions: seq<Action>, l: Limits) {
    |actions| <= l.actions && forall i | 0 <= i < |actions| :: ActionOk(actions[i], l)
  }

  /** The checks on a rule that do not look at other rules. */
  predicate RuleOk(r: Rule, l: Limits) {
    r.id != "" && |r.id| <= l.idLength && Validate(r.when, 0, l.depth).Accepted? && Count(r.when) <= l.predicates &&
    r.onMatch != [] && ActionsOk(r.onMatch, l) && ActionsOk(r.otherwise, l)
  }

  /** What an accepted action is like, field by field. */
  lemma AcceptedAction(a: Action, l: Limits)
    requires ActionOk(a, l)
    ensures (a.emit.Some? && a.emitEvent.None? && a.command.None?) ||
            (a.emit.None? && a.emitEvent.Some? && a.command.None?) ||
            (a.emit.None? && a.emitEvent.None? && a.command.Some?)
    ensures a.emit.Some? ==> a.emit.value.topic != "" && Size(a.emit.value.data) <= l.payload
    ensures a.command.Some? ==>
              a.command.value.destination != "" && a.command.value.name != "" && Size(a.command.value.data) <= l.payload
    ensures a.emitEvent.Some? ==>
              var e := a.emitEvent.value;
              e.kind != "" && '*' !in e.kind && '>' !in e.kind && e.data.Payload? && |e.data.text| <= l.payload &&
              (e.policy == "" || e.policy == "explicit" ==> e.key != "") &&
              (e.policy == "from_data" ==> "$." <= e.keyPath) &&
              (e.policy == "" || e.policy == "explicit" || e.policy == "inherit" || e.policy == "from_data")
  {
    if a.emitEvent.Some? {
      var e := a.emitEvent.value;
      assert forall i | 0 <= i < |e.kind| :: e.kind[i] != '*' && e.kind[i] != '>';
    }
  }

  // ---------------------------------------------------------------- acceptance of a rule set

  function Work(rules: seq<Rule>): (int, int) {
    if rules == [] then (0, 0)
    else
      var last := rules[|rules| - 1];
      var (p, a) := Work(rules[..|rules| - 1]);
      (p + Count(last.when), a + |last.onMatch| + |last.otherwise|)
  }

  predicate BudgetOk(rules: seq<Rule>, l: Limits) {
    0 < |rules| <= l.rules && Work(rules).0 <= l.predicates && Work(rules).1 <= l.actions
  }

  predicate DistinctRules(rules: seq<Rule>) {
    forall i, j | 0 <= i < j < |rules| :: rules[i].id != rules[j].id && rules[i].priority != rules[j].priority
  }

  /** In first-match mode only the rule with the lowest priority may have an otherwise branch. */
  predicate OtherwiseOk(rules: seq<Rule>) {
    forall r, q | r in rules && q in rules && r.priority > q.priority :: r.otherwise == []
  }

  /** What Compile accepts, said without an order on the rules. */
  predicate Acceptable(s: RuleSet, l: Limits) {
    s.name != "" && s.revision > 0 && !s.mode.OtherMode? && BudgetOk(s.rules, l) &&
    (forall i | 0 <= i < |s.rules| :: RuleOk(s.rules[i], l)) && DistinctRules(s.rules) &&
    (s.mode.FirstMatch? ==> OtherwiseOk(s.rules))
  }

  predicate Descending(rules: seq<Rule>) {
    forall i, j | 0 <= i < j < |rules| :: rules[i].priority > rules[j].priority
  }

  // ---------------------------------------------------------------- compiling

  /** countRuleSetWork. */
  method CountWork(rules: seq<Rule>) returns (predicates: int, actions: int)
    ensures (predicates, actions) == Work(rules)
  {
    predicates, actions := 0, 0;
    for i := 0 to |rules|
      invariant (predicates, actions) == Work(rules[..i])
    {
      assert rules[..i + 1][..i] == rules[..i];
      predicates := predicates + Count(rules[i].when);
      actions := actions + |rules[i].onMatch| + |rules[i].otherwise|;
    }
    assert rules[..|rules|] == rules;
  }

  /** strings.ContainsAny with the two wildcards. */
  method ContainsWildcard(s: string) returns (found: bool)
    ensures found <==> HasWildcard(s)
  {
    for i := 0 to |s|
      invariant forall j | 0 <= j < i :: s[j] != '*' && s[j] != '>'
    {
      if s[i] == '*' || s[i] == '>' {
        return true;
      }
    }
    found := false;
  }

  /** validateEmitEventAction. */
  method ValidateEmitEvent(e: EmitEvent, l: Limits) returns (ok: bool)
    ensures ok <==> ActionOk(Action(None, Some(e), None), l)
  {
    var policy := e.policy;
    if policy == "" {
      policy := "explicit";
    }
    if policy != "explicit" && policy != "inherit" && policy != "from_data" {
      return false;
    }
    if policy == "explicit" && e.key == "" {
      return false;
    }
    if policy == "from_data" && (e.keyPath == "" || !("$." <= e.keyPath)) {
      return false;
    }
    if e.kind == "" {
      return false;
    }
    var wild := ContainsWildcard(e.kind);
    if wild || e.data.NoPayload? {
      return false;
    }
    ok := !(|e.data.text| > l.payload);
  }

  /** validateAction: the count of kinds first, then the checks of the one kind. */
  method ValidateAction(a: Action, l: Limits) returns (ok: bool)
    ensures ok <==> ActionOk(a, l)
  {
    var count := 0;
    if a.emit.Some? {
      count := count + 1;
    }
    if a.emitEvent.Some? {
      count := count + 1;
    }
    if a.command.Some? {
      count := count + 1;
    }
    if count != 1 {
      return false;
    }
    if a.emit.Some? {
      var e := a.emit.value;
      ok := e.topic != "" && !((if e.data.NoPayload? then |"null"| else |e.data.text|) > l.payload);
    } else if a.emitEvent.Some? {
      ok := ValidateEmitEvent(a.emitEvent.value, l);
      assert a == Action(None, Some(a.emitEvent.value), None);
    } else {
      var c := a.command.value;
      ok := c.destination != "" && c.name != "" &&
            !((if c.data.NoPayload? then |"null"| else |c.data.text|) > l.payload);
    }
  }

  /** The loops over a rule's actions. */
  method ValidateActions(actions: seq<Action>, l: Limits) returns (ok: bool)
    ensures ok <==> ActionsOk(actions, l)
  {
    hide ActionOk;
    if |actions| > l.actions {
      return false;
    }
    for i := 0 to |actions|
      invariant forall j | 0 <= j < i :: ActionOk(actions[j], l)
    {
      var good := ValidateAction(actions[i], l);
      if !good {
        return false;
      }
    }
    ok := true;
  }

  /** The checks of validateRuleIdentity that look at the rule alone, and validateRuleActions. */
  method ValidateRule(r: Rule, l: Limits) returns (ok: bool)
    ensures ok <==> RuleOk(r, l)
  {
    hide ActionsOk;
    if r.id == "" || |r.id| > l.idLength {
      return false;
    }
    if !Validate(r.when, 0, l.depth).Accepted? || Count(r.when) > l.predicates {
      return false;
    }
    if |r.onMatch| == 0 {
      return false;
    }
    var onMatch := ValidateActions(r.onMatch, l);
    if !onMatch {
      return false;
    }
    ok := ValidateActions(r.otherwise, l);
  }

  /** compileRules up to the sort: the maps of seen identities and priorities. */
  method CheckRules(rules: seq<Rule>, l: Limits) returns (ok: bool)
    ensures ok == (DistinctRules(rules) && forall i | 0 <= i < |rules| :: RuleOk(rules[i], l))
  {
    hide RuleOk;
    var seenIds: set<string> := {};
    var seenPriorities: set<int> := {};
    for i := 0 to |rules|
      invariant forall x :: x in seenIds <==> exists j | 0 <= j < i :: rules[j].id == x
      invariant forall x :: x in seenPriorities <==> exists j | 0 <= j < i :: rules[j].priority == x
      invariant DistinctRules(rules[..i]) && forall j | 0 <= j < i :: RuleOk(rules[j], l)
    {
      var good := ValidateRule(rules[i], l);
      if rules[i].id in seenIds || rules[i].priority in seenPriorities || !good {
        return false;
      }
      seenIds := seenIds + {rules[i].id};
      seenPriorities := seenPriorities + {rules[i].priority};
    }
    assert rules[..|rules|] == rules;
    ok := true;
  }

  predicate Higher(a: Rule, b: Rule) {
    a.priority > b.priority
  }

  lemma DescendingIsSorted(rules: seq<Rule>)
    ensures Descending(rules) <==> Sorted(Higher, rules)
    ensures Transitive(Higher) && Irreflexive(Higher)
  {
    if Sorted(Higher, rules) {
      forall i, j | 0 <= i < j < |rules|
        ensures rules[i].priority > rules[j].priority
      {
        assert Higher(rules[i], rules[j]);
      }
    }
  }

  /** sort.Slice by descending priority. */
  method SortRules(rules: seq<Rule>) returns (sorted: seq<Rule>)
    requires DistinctRules(rules)
    ensures Descending(sorted) && multiset(sorted) == multiset(rules)
  {
    DescendingIsSorted(rules);
    assert Comparable(Higher, rules);
    sorted := Sort(Higher, rules);
    DescendingIsSorted(sorted);
  }

  lemma OtherwiseOnSorted(rules: seq<Rule>, sorted: seq<Rule>)
    requires Descending(sorted) && multiset(sorted) == multiset(rules)
    ensures OtherwiseOk(rules) <==> forall i | 0 <= i < |sorted| - 1 :: sorted[i].otherwise == []
  {
    SameElements(rules, sorted);
    if OtherwiseOk(rules) {
      forall i | 0 <= i < |sorted| - 1
        ensures sorted[i].otherwise == []
      {
        assert sorted[i] in rules && sorted[|sorted| - 1] in rules;
      }
    }
  }

  /** What a rule set has to be like to get past the compiler, field by field. */
  ghost predicate Guaranteed(s: RuleSet, l: Limits) {
    s.name != "" && s.revision >= 1 && (s.mode.FirstMatch? || s.mode.AllMatches?) && 1 <= |s.rules| <= l.rules &&
    (forall i | 0 <= i < |s.rules| ::
       var r := s.rules[i];
       1 <= |r.id| <= l.idLength && WellFormed(r.when) && Depth(r.when) <= l.depth &&
       |Leaves(r.when)| <= l.predicates && 1 <= |r.onMatch| <= l.actions && |r.otherwise| <= l.actions) &&
    (forall i, j | 0 <= i < j < |s.rules| ::
       s.rules[i].id != s.rules[j].id && s.rules[i].priority != s.rules[j].priority) &&
    (s.mode.FirstMatch? ==>
       forall i, j | 0 <= i < |s.rules| && 0 <= j < |s.rules| && s.rules[i].priority > s.rules[j].priority ::
         s.rules[i].otherwise == [])
  }

  lemma AcceptableGuarantees(s: RuleSet, l: Limits)
    requires Acceptable(s, l)
    ensures Guaranteed(s, l)
  {
    hide ActionOk, WellFormed, Depth, Leaves, Count, Validate, Work;
    forall i | 0 <= i < |s.rules|
      ensures WellFormed(s.rules[i].when) && Depth(s.rules[i].when) <= l.depth
      ensures |Leaves(s.rules[i].when)| <= l.predicates
    {
      AcceptedIff(s.rules[i].when, 0, l.depth);
      CountsLeaves(s.rules[i].when);
    }
  }

  datatype Compilation = Compiled(rules: seq<Rule>) | Refused

  /** Compile: it accepts exactly the acceptable rule sets, and its list is their rules by descending priority. */
  method Compile(s: RuleSet, l: Limits) returns (c: Compilation)
    ensures c.Compiled? <==> Acceptable(s, l)
    ensures c.Compiled? ==> IsCompiled(s.rules, c.rules) && Guaranteed(s, l)
  {
    hide RuleOk, DistinctRules, Descending, OtherwiseOk, Guaranteed;
    if s.name == "" || s.revision <= 0 || s.mode.OtherMode? || |s.rules| == 0 || |s.rules| > l.rules {
      return Refused;
    }
    var predicates, actions := CountWork(s.rules);
    if predicates > l.predicates || actions > l.actions {
      return Refused;
    }
    var ok := CheckRules(s.rules, l);
    if !ok {
      return Refused;
    }
    var sorted := SortRules(s.rules);
    OtherwiseOnSorted(s.rules, sorted);
    if s.mode.FirstMatch? {
      for i := 0 to |sorted| - 1
        invariant forall j | 0 <= j < i :: sorted[j].otherwise == []
      {
        if sorted[i].otherwise != [] {
          return Refused;
        }
      }
    }
    AcceptableGuarantees(s, l);
    c := Compiled(sorted);
  }

  ghost predicate IsCompiled(rules: seq<Rule>, compiled: seq<Rule>) {
    Descending(compiled) && multiset(compiled) == multiset(rules)
  }

  // ---------------------------------------------------------------- the source order does not matter

  lemma RemoveAt(s: seq<Rule>, i: nat)
    requires i < |s|
    ensures multiset(s[..i] + s[i + 1..]) == multiset(s) - multiset{s[i]}
  {
    assert s == s[..i] + ([s[i]] + s[i + 1..]);
  }

  /** A list in strictly descending order is determined by its elements. */
  lemma DescendingIsUnique(a: seq<Rule>, b: seq<Rule>)
    requires Descending(a) && Descending(b) && multiset(a) == multiset(b)
    ensures a == b
  {
    DescendingIsSorted(a);
    DescendingIsSorted(b);
    SortedIsUnique(Higher, a, b);
  }

  lemma {:induction false} Repeats(s: seq<Rule>, i: nat, j: nat)
    requires i < j < |s| && s[i] == s[j]
    ensures multiset(s)[s[i]] >= 2
  {
    assert s == s[..j] + s[j..];
    assert s[i] in s[..j] && s[j] in s[j..];
    assert multiset(s) == multiset(s[..j]) + multiset(s[j..]);
  }

  lemma {:induction false} Repeated(s: seq<Rule>, r: Rule)
    requires multiset(s)[r] >= 2
    ensures exists i, j | 0 <= i < j < |s| :: s[i] == r && s[j] == r
  {
    var n := |s| - 1;
    assert s == s[..n] + [s[n]];
    if s[n] != r {
      Repeated(s[..n], r);
      var i, j :| 0 <= i < j < n && s[..n][i] == r && s[..n][j] == r;
      assert s[i] == r && s[j] == r;
    } else {
      assert multiset(s[..n])[r] >= 1;
      assert r in s[..n];
      var i :| 0 <= i < n && s[i] == r;
      assert s[i] == r && s[n] == r;
    }
  }

  lemma DistinctPermutes(a: seq<Rule>, b: seq<Rule>)
    requires multiset(a) == multiset(b) && DistinctRules(a)
    ensures DistinctRules(b)
  {
    SameElements(a, b);
    forall i, j | 0 <= i < j < |b|
      ensures b[i].id != b[j].id && b[i].priority != b[j].priority
    {
      if b[i] == b[j] {
        Repeats(b, i, j);
        Repeated(a, b[i]);
        assert false;
      } else {
        assert b[i] in a && b[j] in a;
        var m :| 0 <= m < |a| && a[m] == b[i];
        var n :| 0 <= n < |a| && a[n] == b[j];
      }
    }
  }

  function Plus(w: (int, int), r: Rule): (int, int) {
    (w.0 + Count(r.when), w.1 + |r.onMatch| + |r.otherwise|)
  }

  lemma {:induction false} WorkWithout(s: seq<Rule>, i: nat)
    requires i < |s|
    ensures Work(s) == Plus(Work(s[..i] + s[i + 1..]), s[i])
  {
    hide Count;
    var n := |s| - 1;
    if i == n {
      assert s[..i] + s[i + 1..] == s[..n];
    } else {
      var t := s[..i] + s[i + 1..];
      WorkWithout(s[..n], i);
      assert t[..|t| - 1] == s[..n][..i] + s[..n][i + 1..];
      assert t[|t| - 1] == s[n];
    }
  }

  lemma LastOf(a: seq<Rule>, b: seq<Rule>) returns (i: nat)
    requires multiset(a) == multiset(b) && b != []
    ensures i < |a| && a[i] == b[|b| - 1] && multiset(a[..i] + a[i + 1..]) == multiset(b[..|b| - 1])
  {
    var n := |b| - 1;
    SameElements(a, b);
    assert b[n] in a;
    i :| 0 <= i < |a| && a[i] == b[n];
    RemoveAt(a, i);
    RemoveAt(b, n);
    assert b[..n] + b[n + 1..] == b[..n];
  }

  lemma {:induction false} WorkPermutes(a: seq<Rule>, b: seq<Rule>)
    requires multiset(a) == multiset(b)
    ensures Work(a) == Work(b)
    decreases |b|
  {
    hide Count;
    if b == [] {
      assert |multiset(a)| == |a|;
    } else {
      var i := LastOf(a, b);
      WorkWithout(a, i);
      WorkPermutes(a[..i] + a[i + 1..], b[..|b| - 1]);
    }
  }

  lemma AcceptancePermutes(s: RuleSet, t: RuleSet, l: Limits)
    requires multiset(s.rules) == multiset(t.rules) && s == t.(rules := s.rules) && Acceptable(s, l)
    ensures Acceptable(t, l)
  {
    hide RuleOk, Work, DistinctRules;
    SameElements(s.rules, t.rules);
    WorkPermutes(s.rules, t.rules);
    DistinctPermutes(s.rules, t.rules);
    forall i | 0 <= i < |t.rules|
      ensures RuleOk(t.rules[i], l)
    {
      assert t.rules[i] in s.rules;
    }
  }

  /** Permuting the rules of a source changes neither whether it is accepted nor what is compiled. */
  lemma SourceOrderIsIrrelevant(s: RuleSet, t: RuleSet, l: Limits, compiledS: seq<Rule>, compiledT: seq<Rule>)
    requires multiset(s.rules) == multiset(t.rules) && s == t.(rules := s.rules)
    ensures Acceptable(s, l) <==> Acceptable(t, l)
    ensures IsCompiled(s.rules, compiledS) && IsCompiled(t.rules, compiledT) ==> compiledS == compiledT
    ensures forall c: Context, build: Build | IsCompiled(s.rules, compiledS) && IsCompiled(t.rules, compiledT) ::
              Evaluate(compiledS, s.mode, c, build) == Evaluate(compiledT, t.mode, c, build)
  {
    hide Acceptable, Descending;
    if Acceptable(s, l) {
      AcceptancePermutes(s, t, l);
    }
    if Acceptable(t, l) {
      AcceptancePermutes(t, s, l);
    }
    if IsCompiled(s.rules, compiledS) && IsCompiled(t.rules, compiledT) {
      DescendingIsUnique(compiledS, compiledT);
    }
  }

  // ---------------------------------------------------------------- evaluation

  /** One effect of a decision: the rule and the index of the action that produced it, and where it goes. */
  type Decided = EventProtocol.Decided

  /** buildEffect: the destination of an action's effect, or nothing when building it fails. */
  type Build = (string, int, Action) -> Option<string>

  datatype Evaluation = Evaluated(matched: seq<string>, effects: seq<Decided>) | EvaluationError

  /** The effects of the first `n` actions of a rule's branch. */
  function Effects(rule: string, actions: seq<Action>, n: nat, build: Build): Option<seq<Decided>>
    requires n <= |actions|
  {
    if n == 0 then Some([])
    else
      match Effects(rule, actions, n - 1, build)
      case None => None
      case Some(before) =>
        (match build(rule, n - 1, actions[n - 1])
         case None => None
         case Some(d) => Some(before + [EventProtocol.Decided(rule, n - 1, d)]))
  }

  function Branch(r: Rule, matched: bool): seq<Action> {
    if matched then r.onMatch else r.otherwise
  }

  /** evaluateRules over the first `n` rules, all of which were evaluated. */
  function Fold(rules: seq<Rule>, n: nat, c: Context, build: Build): Evaluation
    requires n <= |rules|
  {
    if n == 0 then Evaluated([], [])
    else
      var before := Fold(rules, n - 1, c, build);
      var r := rules[n - 1];
      match (before, Eval(r.when, c))
      case (EvaluationError, _) => EvaluationError
      case (_, Fails(_)) => EvaluationError
      case (Evaluated(matched, effects), Truth(b)) =>
        (match Effects(r.id, Branch(r, b), |Branch(r, b)|, build)
         case None => EvaluationError
         case Some(more) => Evaluated(if b then matched + [r.id] else matched, effects + more))
  }

  /** How many rules the loop looks at: all of them, or in first-match mode those up to the first match. */
  function Reach(rules: seq<Rule>, mode: Mode, c: Context): (n: nat)
    ensures n <= |rules|
  {
    if rules == [] then 0
    else if mode.FirstMatch? && Eval(rules[0].when, c) == Truth(true) then 1
    else 1 + Reach(rules[1..], mode, c)
  }

  lemma {:induction false} ReachStops(rules: seq<Rule>, mode: Mode, c: Context)
    ensures
      var n := Reach(rules, mode, c);
      (forall i | 0 <= i < n - 1 :: mode.FirstMatch? ==> Eval(rules[i].when, c) != Truth(true)) &&
      (n < |rules| ==> n > 0 && mode.FirstMatch? && Eval(rules[n - 1].when, c) == Truth(true))
  {
    if rules != [] && !(mode.FirstMatch? && Eval(rules[0].when, c) == Truth(true)) {
      var rest := rules[1..];
      assert forall i | 0 <= i < |rest| :: rest[i] == rules[i + 1];
      ReachStops(rest, mode, c);
    }
  }

  /** processRuleResult: append the effects of one branch. */
  method AppendEffects(rule: string, actions: seq<Action>, build: Build, effects: seq<Decided>)
    returns (ok: bool, more: seq<Decided>)
    ensures ok == Effects(rule, actions, |actions|, build).Some?
    ensures ok ==> more == effects + Effects(rule, actions, |actions|, build).value
  {
    more := effects;
    for i := 0 to |actions|
      invariant Effects(rule, actions, i, build).Some? && more == effects + Effects(rule, actions, i, build).value
    {
      var built := build(rule, i, actions[i]);
      if built.None? {
        NoneAfter(rule, actions, i + 1, build);
        return false, [];
      }
      more := more + [EventProtocol.Decided(rule, i, built.value)];
    }
    ok := true;
  }

  lemma {:induction false} NoneAfter(rule: string, actions: seq<Action>, n: nat, build: Build)
    requires n <= |actions| && Effects(rule, actions, n, build).None?
    ensures Effects(rule, actions, |actions|, build).None?
    decreases |actions| - n
  {
    if n < |actions| {
      NoneAfter(rule, actions, n + 1, build);
    }
  }

  lemma {:induction false} ErrorAfter(rules: seq<Rule>, m: nat, n: nat, c: Context, build: Build)
    requires m <= n <= |rules| && Fold(rules, m, c, build).EvaluationError?
    ensures Fold(rules, n, c, build).EvaluationError?
    decreases n
  {
    if m < n {
      ErrorAfter(rules, m, n - 1, c, build);
    }
  }

  lemma {:induction false} ReachIs(rules: seq<Rule>, mode: Mode, c: Context, n: nat)
    requires n <= |rules| && forall i | 0 <= i < n - 1 :: !(mode.FirstMatch? && Eval(rules[i].when, c) == Truth(true))
    requires n == |rules| || (n > 0 && mode.FirstMatch? && Eval(rules[n - 1].when, c) == Truth(true))
    ensures Reach(rules, mode, c) == n
  {
    if n > 1 {
      var rest := rules[1..];
      assert forall i | 0 <= i < |rest| :: rest[i] == rules[i + 1];
      ReachIs(rest, mode, c, n - 1);
    }
  }

  function Evaluate(rules: seq<Rule>, mode: Mode, c: Context, build: Build): Evaluation {
    Fold(rules, Reach(rules, mode, c), c, build)
  }

  /** evaluateRules: the loop with its early exits. */
  method EvaluateRules(rules: seq<Rule>, mode: Mode, c: Context, build: Build) returns (e: Evaluation)
    ensures e == Evaluate(rules, mode, c, build)
  {
    hide Reach, Effects;
    var matched: seq<string>, effects: seq<Decided> := [], [];
    ReachStops(rules, mode, c);
    ghost var reach := Reach(rules, mode, c);
    for i := 0 to |rules|
      invariant i <= reach
      invariant Fold(rules, i, c, build) == Evaluated(matched, effects)
      invariant forall j | 0 <= j < i :: !(mode.FirstMatch? && Eval(rules[j].when, c) == Truth(true))
    {
      BeforeReach(rules, mode, c, i);
      var r := rules[i];
      match Eval(r.when, c) {
        case Fails(_) =>
          ErrorAfter(rules, i + 1, reach, c, build);
          return EvaluationError;
        case Truth(b) =>
          var ok, more := AppendEffects(r.id, Branch(r, b), build, effects);
          if !ok {
            ErrorAfter(rules, i + 1, reach, c, build);
            return EvaluationError;
          }
          effects := more;
          matched := if b then matched + [r.id] else matched;
          if mode.FirstMatch? && b {
            ReachIs(rules, mode, c, i + 1);
            return Evaluated(matched, effects);
          }
      }
    }
    ReachIs(rules, mode, c, |rules|);
    e := Evaluated(matched, effects);
  }

  lemma BeforeReach(rules: seq<Rule>, mode: Mode, c: Context, i: nat)
    requires i < |rules| && i <= Reach(rules, mode, c)
    requires forall j | 0 <= j < i :: !(mode.FirstMatch? && Eval(rules[j].when, c) == Truth(true))
    ensures i < Reach(rules, mode, c)
  {
    hide Eval;
    ReachStops(rules, mode, c);
  }

  // ---------------------------------------------------------------- what a decision is

  /** As long as no rule matches and there is no otherwise branch, nothing is decided. */
  lemma {:induction false} FoldOfMisses(rules: seq<Rule>, n: nat, c: Context, build: Build)
    requires n <= |rules| && Fold(rules, n, c, build).Evaluated?
    requires forall i | 0 <= i < n :: Eval(rules[i].when, c) != Truth(true) && rules[i].otherwise == []
    ensures Fold(rules, n, c, build) == Evaluated([], [])
  {
    hide Eval;
    if n > 0 {
      FoldOfMisses(rules, n - 1, c, build);
    }
  }

  lemma EvaluatedUpTo(rules: seq<Rule>, m: nat, n: nat, c: Context, build: Build)
    requires m < n <= |rules| && Fold(rules, n, c, build).Evaluated?
    ensures Fold(rules, m, c, build).Evaluated? && Eval(rules[m].when, c).Truth?
  {
    hide Eval;
    if Fold(rules, m + 1, c, build).EvaluationError? {
      ErrorAfter(rules, m + 1, n, c, build);
    }
  }

  lemma MissesThenOne(rules: seq<Rule>, k: nat, c: Context, build: Build)
    requires k < |rules| && Fold(rules, k + 1, c, build).Evaluated?
    requires forall i | 0 <= i < k :: Eval(rules[i].when, c) != Truth(true) && rules[i].otherwise == []
    ensures Eval(rules[k].when, c).Truth?
    ensures
      var e := Fold(rules, k + 1, c, build);
      var b := Eval(rules[k].when, c).b;
      e.matched == (if b then [rules[k].id] else []) &&
      Effects(rules[k].id, Branch(rules[k], b), |Branch(rules[k], b)|, build) == Some(e.effects)
  {
    hide Eval, Effects;
    EvaluatedUpTo(rules, k, k + 1, c, build);
    FoldOfMisses(rules, k, c, build);
    var b := Eval(rules[k].when, c).b;
    var more := Effects(rules[k].id, Branch(rules[k], b), |Branch(rules[k], b)|, build).value;
    assert [] + more == more;
  }

  /** From `from` on the effects are those of the actions, in order, each under its rule and index. */
  ghost predicate Segment(effects: seq<Decided>, from: nat, rule: string, actions: seq<Action>, build: Build) {
    from + |actions| <= |effects| &&
    forall j | 0 <= j < |actions| ::
      build(rule, j, actions[j]).Some? &&
      effects[from + j] == EventProtocol.Decided(rule, j, build(rule, j, actions[j]).value)
  }

  /**
    First match: without an error, all effects come from one branch of one rule. It is the `then` of
    the matching rule with the highest priority; if no rule matches, it is the `otherwise` of the rule
    with the lowest.
  */
  lemma FirstMatchDecides(s: RuleSet, l: Limits, rules: seq<Rule>, c: Context, build: Build) returns (k: nat)
    requires Acceptable(s, l) && s.mode.FirstMatch? && IsCompiled(s.rules, rules)
    requires Evaluate(rules, FirstMatch, c, build).Evaluated?
    ensures k < |rules| && forall r | r in rules && r.priority > rules[k].priority :: Eval(r.when, c) == Truth(false)
    ensures Eval(rules[k].when, c).Truth?
    ensures
      var e := Evaluate(rules, FirstMatch, c, build);
      var b := Eval(rules[k].when, c).b;
      (b ==> e.matched == [rules[k].id] && |e.effects| == |rules[k].onMatch| &&
             Segment(e.effects, 0, rules[k].id, rules[k].onMatch, build)) &&
      (!b ==> e.matched == [] && k == |rules| - 1 && |e.effects| == |rules[k].otherwise| &&
              Segment(e.effects, 0, rules[k].id, rules[k].otherwise, build))
  {
    hide Eval, Effects, Acceptable, Reach, Fold, OtherwiseOk;
    k := LastLooked(s, l, rules, c);
    forall i | 0 <= i <= k
      ensures Eval(rules[i].when, c).Truth?
    {
      EvaluatedUpTo(rules, i, k + 1, c, build);
    }
    MissesThenOne(rules, k, c, build);
    var actions := Branch(rules[k], Eval(rules[k].when, c).b);
    EffectsAre(rules[k].id, actions, |actions|, build);
  }

  lemma LastLooked(s: RuleSet, l: Limits, rules: seq<Rule>, c: Context) returns (k: nat)
    requires Acceptable(s, l) && s.mode.FirstMatch? && IsCompiled(s.rules, rules)
    ensures k < |rules| && Reach(rules, FirstMatch, c) == k + 1
    ensures forall i | 0 <= i < k :: Eval(rules[i].when, c) != Truth(true) && rules[i].otherwise == []
    ensures k < |rules| - 1 ==> Eval(rules[k].when, c) == Truth(true)
  {
    hide Eval, RuleOk, Reach, BudgetOk, DistinctRules, OtherwiseOk;
    SameElements(s.rules, rules);
    OtherwiseOnSorted(s.rules, rules);
    AcceptableIsNonEmpty(s, l);
    ReachPositive(rules, FirstMatch, c);
    ReachStops(rules, FirstMatch, c);
    k := Reach(rules, FirstMatch, c) - 1;
  }

  lemma AcceptableIsNonEmpty(s: RuleSet, l: Limits)
    requires Acceptable(s, l)
    ensures s.rules != []
  {
  }

  lemma ReachPositive(rules: seq<Rule>, mode: Mode, c: Context)
    requires rules != []
    ensures Reach(rules, mode, c) > 0
  {
  }

  /** A rule that matches can build its `then` actions, one that does not its `otherwise` actions. */
  ghost predicate Decides(r: Rule, c: Context, build: Build) {
    match Eval(r.when, c)
    case Truth(true) => forall j | 0 <= j < |r.onMatch| :: build(r.id, j, r.onMatch[j]).Some?
    case Truth(false) => forall j | 0 <= j < |r.otherwise| :: build(r.id, j, r.otherwise[j]).Some?
    case Fails(_) => false
  }

  /** Between `from` and `to` lie the effects of the rule: of its `then` if it matches, of its `otherwise` if not. */
  ghost predicate Contributes(effects: seq<Decided>, from: nat, to: nat, r: Rule, c: Context, build: Build) {
    match Eval(r.when, c)
    case Truth(true) => to == from + |r.onMatch| && Segment(effects, from, r.id, r.onMatch, build)
    case Truth(false) => to == from + |r.otherwise| && Segment(effects, from, r.id, r.otherwise, build)
    case Fails(_) => false
  }

  /** The effects are those of the first `n` rules, one after the other; `starts` says where each begins. */
  ghost predicate Consecutive(effects: seq<Decided>, starts: seq<nat>, rules: seq<Rule>, n: nat, c: Context,
                              build: Build)
    requires n <= |rules|
  {
    |starts| == n + 1 && starts[0] == 0 && starts[n] == |effects| &&
    forall i | 0 <= i < n :: Contributes(effects, starts[i], starts[i + 1], rules[i], c, build)
  }

  /** The ids of the rules that match, in order. */
  function Matching(rules: seq<Rule>, c: Context): seq<string> {
    if rules == [] then []
    else (if Eval(rules[0].when, c) == Truth(true) then [rules[0].id] else []) + Matching(rules[1..], c)
  }

  lemma {:induction false} EffectsAre(rule: string, actions: seq<Action>, n: nat, build: Build)
    requires n <= |actions|
    ensures Effects(rule, actions, n, build).Some? <==> forall j | 0 <= j < n :: build(rule, j, actions[j]).Some?
    ensures Effects(rule, actions, n, build).Some? ==>
              var es := Effects(rule, actions, n, build).value;
              |es| == n &&
              forall j | 0 <= j < n :: es[j] == EventProtocol.Decided(rule, j, build(rule, j, actions[j]).value)
  {
    if n > 0 {
      EffectsAre(rule, actions, n - 1, build);
    }
  }

  /** One more rule: it succeeds exactly when the rule can decide, and its effects come last. */
  lemma OneMoreRule(before: seq<Decided>, r: Rule, c: Context, build: Build)
    requires Eval(r.when, c).Truth?
    ensures
      var actions := Branch(r, Eval(r.when, c).b);
      var more := Effects(r.id, actions, |actions|, build);
      (more.Some? <==> Decides(r, c, build)) &&
      (more.Some? ==> Contributes(before + more.value, |before|, |before + more.value|, r, c, build))
  {
    hide Eval, Effects;
    var actions := Branch(r, Eval(r.when, c).b);
    EffectsAre(r.id, actions, |actions|, build);
  }

  lemma ContributesStays(effects: seq<Decided>, more: seq<Decided>, from: nat, to: nat, r: Rule, c: Context,
                         build: Build)
    requires Contributes(effects, from, to, r, c, build)
    ensures Contributes(effects + more, from, to, r, c, build)
  {
    hide Eval;
  }

  lemma {:induction false} MatchingSnoc(rules: seq<Rule>, r: Rule, c: Context)
    ensures Matching(rules + [r], c) == Matching(rules, c) + if Eval(r.when, c) == Truth(true) then [r.id] else []
  {
    hide Eval;
    if rules == [] {
      assert rules + [r] == [r] && [r][1..] == [];
    } else {
      MatchingSnoc(rules[1..], r, c);
      assert (rules + [r])[1..] == rules[1..] + [r];
    }
  }

  lemma {:induction false} FoldDecides(rules: seq<Rule>, n: nat, c: Context, build: Build)
    requires n <= |rules|
    ensures Fold(rules, n, c, build).Evaluated? <==> forall i | 0 <= i < n :: Decides(rules[i], c, build)
  {
    hide Eval, Effects, Decides;
    if n > 0 {
      FoldDecides(rules, n - 1, c, build);
      var r := rules[n - 1];
      if Eval(r.when, c).Truth? {
        OneMoreRule([], r, c, build);
      } else {
        FailsDecidesNothing(r, c, build);
      }
    }
  }

  lemma FailsDecidesNothing(r: Rule, c: Context, build: Build)
    requires !Eval(r.when, c).Truth?
    ensures !Decides(r, c, build)
  {
    hide Eval;
  }

  lemma {:induction false} FoldIs(rules: seq<Rule>, n: nat, c: Context, build: Build) returns (starts: seq<nat>)
    requires n <= |rules| && Fold(rules, n, c, build).Evaluated?
    ensures
      var e := Fold(rules, n, c, build);
      e.matched == Matching(rules[..n], c) && Consecutive(e.effects, starts, rules, n, c, build)
  {
    hide Eval, Effects, Contributes;
    starts := [0];
    if n > 0 {
      EvaluatedUpTo(rules, n - 1, n, c, build);
      var before := FoldIs(rules, n - 1, c, build);
      var r := rules[n - 1];
      var effects := Fold(rules, n - 1, c, build).effects;
      var actions := Branch(r, Eval(r.when, c).b);
      var more := Effects(r.id, actions, |actions|, build).value;
      OneMoreRule(effects, r, c, build);
      starts := before + [|effects + more|];
      forall i | 0 <= i < n
        ensures Contributes(effects + more, starts[i], starts[i + 1], rules[i], c, build)
      {
        if i < n - 1 {
          ContributesStays(effects, more, before[i], before[i + 1], rules[i], c, build);
        }
      }
      MatchingSnoc(rules[..n - 1], r, c);
      assert rules[..n] == rules[..n - 1] + [r];
    }
  }

  ghost predicate SomeMatches(rules: seq<Rule>, c: Context, x: string) {
    exists r :: r in rules && r.id == x && Eval(r.when, c) == Truth(true)
  }

  lemma {:induction false} MatchingIs(rules: seq<Rule>, c: Context, x: string)
    ensures x in Matching(rules, c) <==> SomeMatches(rules, c, x)
  {
    hide Eval;
    if rules != [] {
      MatchingIs(rules[1..], c, x);
      assert forall r :: r in rules <==> r == rules[0] || r in rules[1..];
    }
  }

  lemma {:induction false} ReachesAll(rules: seq<Rule>, mode: Mode, c: Context)
    requires !mode.FirstMatch?
    ensures Reach(rules, mode, c) == |rules|
  {
    if rules != [] {
      ReachesAll(rules[1..], mode, c);
    }
  }

  /**
    All matches: the evaluation succeeds if and only if every rule has a truth value and its branch can
    be built. The effects are then those of the `then` branches of the matching rules and of the
    `otherwise` branches of the others, in descending priority, and the matched ids are exactly those
    of the matching rules.
  */
  lemma AllMatchesDecide(rules: seq<Rule>, mode: Mode, c: Context, build: Build) returns (starts: seq<nat>)
    requires !mode.FirstMatch?
    ensures
      var e := Evaluate(rules, mode, c, build);
      (e.Evaluated? <==> forall i | 0 <= i < |rules| :: Decides(rules[i], c, build)) &&
      (e.Evaluated? ==> Consecutive(e.effects, starts, rules, |rules|, c, build)) &&
      (e.Evaluated? ==> e.matched == Matching(rules, c) && forall x :: x in e.matched <==> SomeMatches(rules, c, x))
  {
    hide Eval, Effects, Decides, Consecutive, SomeMatches;
    starts := [];
    forall x
      ensures x in Matching(rules, c) <==> SomeMatches(rules, c, x)
    {
      MatchingIs(rules, c, x);
    }
    ReachesAll(rules, mode, c);
    FoldDecides(rules, |rules|, c, build);
    if Evaluate(rules, mode, c, build).Evaluated? {
      starts := FoldIs(rules, |rules|, c, build);
    }
    assert rules[..|rules|] == rules;
  }

  /**
    First match: the rules up to and including the first that matches are looked at, or all of them;
    the evaluation succeeds if and only if each of these has a truth value and can build its branch.
  */
  lemma FirstMatchSucceedsIff(rules: seq<Rule>, c: Context, build: Build) returns (n: nat)
    ensures n <= |rules| && (forall i | 0 <= i < n - 1 :: Eval(rules[i].when, c) != Truth(true))
    ensures n < |rules| ==> n > 0 && Eval(rules[n - 1].when, c) == Truth(true)
    ensures Evaluate(rules, FirstMatch, c, build).Evaluated? <==> forall i | 0 <= i < n :: Decides(rules[i], c, build)
  {
    hide Eval, Reach, Fold, Decides;
    n := Reach(rules, FirstMatch, c);
    ReachStops(rules, FirstMatch, c);
    FoldDecides(rules, n, c, build);
  }

  lemma {:induction false} EffectsShape(rule: string, actions: seq<Action>, n: nat, build: Build)
    requires n <= |actions| && Effects(rule, actions, n, build).Some?
    ensures
      var es := Effects(rule, actions, n, build).value;
      |es| == n && forall i | 0 <= i < n :: es[i].rule == rule && es[i].index == i
  {
    if n > 0 {
      EffectsShape(rule, actions, n - 1, build);
    }
  }

  ghost predicate IsId(rules: seq<Rule>, n: nat, x: string)
    requires n <= |rules|
  {
    exists j | 0 <= j < n :: rules[j].id == x
  }

  ghost predicate FromFirst(rules: seq<Rule>, n: nat, effects: seq<Decided>)
    requires n <= |rules|
  {
    forall i | 0 <= i < |effects| :: IsId(rules, n, effects[i].rule)
  }

  lemma IdStays(rules: seq<Rule>, n: nat, x: string)
    requires n < |rules| && DistinctRules(rules)
    ensures IsId(rules, n, x) ==> IsId(rules, n + 1, x) && x != rules[n].id
    ensures IsId(rules, n + 1, rules[n].id)
  {
    assert rules[n].id == rules[n].id;
  }

  lemma JoinSources(rules: seq<Rule>, n: nat, before: seq<Decided>, more: seq<Decided>)
    requires n < |rules| && DistinctRules(rules) && FromFirst(rules, n, before) && EventProtocol.DistinctSources(before)
    requires forall i | 0 <= i < |more| :: more[i].rule == rules[n].id && more[i].index == i
    ensures FromFirst(rules, n + 1, before + more) && EventProtocol.DistinctSources(before + more)
  {
    hide IsId, DistinctRules;
    forall i | 0 <= i < |before|
      ensures IsId(rules, n + 1, before[i].rule) && before[i].rule != rules[n].id
    {
      IdStays(rules, n, before[i].rule);
    }
    IdStays(rules, n, rules[n].id);
  }

  lemma {:induction false} FoldSources(rules: seq<Rule>, n: nat, c: Context, build: Build)
    requires n <= |rules| && DistinctRules(rules) && Fold(rules, n, c, build).Evaluated?
    ensures FromFirst(rules, n, Fold(rules, n, c, build).effects)
    ensures EventProtocol.DistinctSources(Fold(rules, n, c, build).effects)
  {
    hide Eval, Effects, DistinctRules, FromFirst, EventProtocol.DistinctSources;
    if n == 0 {
      NoSources(rules);
    } else {
      FoldSources(rules, n - 1, c, build);
      var r := rules[n - 1];
      var b := Eval(r.when, c).b;
      EffectsShape(r.id, Branch(r, b), |Branch(r, b)|, build);
      JoinSources(rules, n - 1, Fold(rules, n - 1, c, build).effects,
                  Effects(r.id, Branch(r, b), |Branch(r, b)|, build).value);
    }
  }

  lemma NoSources(rules: seq<Rule>)
    ensures FromFirst(rules, 0, []) && EventProtocol.DistinctSources([])
  {
  }

  /** In either mode no two effects of a decision share rule and action index. */
  lemma DecisionSourcesAreDistinct(s: RuleSet, l: Limits, rules: seq<Rule>, c: Context, build: Build)
    requires Acceptable(s, l) && IsCompiled(s.rules, rules) && Evaluate(rules, s.mode, c, build).Evaluated?
    ensures EventProtocol.DistinctSources(Evaluate(rules, s.mode, c, build).effects)
  {
    hide Fold, EventProtocol.DistinctSources, RuleOk, BudgetOk, OtherwiseOk, Reach;
    DistinctPermutes(s.rules, rules);
    FoldSources(rules, Reach(rules, s.mode, c), c, build);
  }

  /** The rules of an accepted set fail only in a leaf: path resolution or an ordering of non-numbers. */
  lemma CompiledRulesFailOnlyInLeaves(s: RuleSet, l: Limits, rules: seq<Rule>, c: Context, i: nat)
    requires Acceptable(s, l) && IsCompiled(s.rules, rules) && i < |rules|
    ensures LeafOnly(Eval(rules[i].when, c))
  {
    hide Eval, Validate, BudgetOk, DistinctRules, OtherwiseOk, Count;
    SameElements(s.rules, rules);
    assert rules[i] in s.rules;
    AcceptedFailsOnlyInALeaf(rules[i].when, 0, l.depth, c);
  }

  // ---------------------------------------------------------------- the decision hash

  /** SHA-256 in hexadecimal. */
  type Digest = string -> string

  function Concat(parts: seq<string>): string {
    if parts == [] then "" else Concat(parts[..|parts| - 1]) + parts[|parts| - 1]
  }

  /** ComputeEffectID for every effect of a decision. */
  function EffectIds(digest: Digest, tenant: string, event: string, s: RuleSet, effects: seq<Decided>): seq<string> {
    seq(|effects|, i requires 0 <= i < |effects| =>
      digest(EffectText(EffectKey(tenant, event, s.name, s.revision, effects[i].rule, effects[i].index))))
  }

  /** The text that ComputeDecisionHash digests; the worker evaluates without facts, so no facts hash is appended. */
  function DecisionText(digest: Digest, source: string, tenant: string, event: string, s: RuleSet,
                        e: Evaluation): string
    requires e.Evaluated?
  {
    digest(source) + (Concat(e.matched) + Concat(EffectIds(digest, tenant, event, s, e.effects)) + event)
  }

  lemma ConcatSnoc(parts: seq<string>, i: nat)
    requires i < |parts|
    ensures Concat(parts[..i + 1]) == Concat(parts[..i]) + parts[i]
  {
    assert parts[..i + 1][..i] == parts[..i];
  }

  lemma Regroup(a: string, b: string, c: string)
    ensures (a + b) + c == a + (b + c)
  {
  }

  /** ComputeDecisionHash up to the digest: the appending loops. */
  method BuildDecisionText(digest: Digest, revisionHash: string, tenant: string, event: string, s: RuleSet,
                           matched: seq<string>, effects: seq<Decided>) returns (text: string)
    ensures forall source | digest(source) == revisionHash ::
              text == DecisionText(digest, source, tenant, event, s, Evaluated(matched, effects))
  {
    hide Concat, EffectText;
    text := revisionHash;
    NothingToConcat();
    for i := 0 to |matched|
      invariant text == revisionHash + Concat(matched[..i])
    {
      ConcatSnoc(matched, i);
      Regroup(revisionHash, Concat(matched[..i]), matched[i]);
      text := text + matched[i];
    }
    assert matched[..|matched|] == matched;
    ghost var ids := EffectIds(digest, tenant, event, s, effects);
    for i := 0 to |effects|
      invariant text == revisionHash + (Concat(matched) + Concat(ids[..i]))
    {
      var id := digest(EffectText(EffectKey(tenant, event, s.name, s.revision, effects[i].rule, effects[i].index)));
      assert ids[i] == id;
      ConcatSnoc(ids, i);
      Regroup(revisionHash, Concat(matched) + Concat(ids[..i]), id);
      Regroup(Concat(matched), Concat(ids[..i]), id);
      text := text + id;
    }
    assert ids[..|effects|] == ids;
    Regroup(revisionHash, Concat(matched) + Concat(ids), event);
    text := text + event;
  }

  /** The text of a decision with one matched rule and one effect. */
  lemma DecisionTextExample(digest: Digest, source: string, s: RuleSet)
    requires s.name == "s" && s.revision == 7
    ensures DecisionText(digest, source, "t", "e", s, Evaluated(["r"], [EventProtocol.Decided("r", 2, "d")])) ==
            digest(source) + "r" + digest("t|e|s|7|r|2") + "e"
  {
    hide EffectText;
    EffectTextExample();
    var effects := [EventProtocol.Decided("r", 2, "d")];
    var ids := EffectIds(digest, "t", "e", s, effects);
    assert ids == [digest("t|e|s|7|r|2")];
    OneConcat("r");
    OneConcat(digest("t|e|s|7|r|2"));
  }

  lemma OneConcat(x: string)
    ensures Concat([x]) == x
  {
    assert [x][..0] == [];
  }

  lemma NothingToConcat()
    ensures Concat([]) == ""
  {
  }

  lemma SuffixCancels(a: string, b: string, x: string)
    requires a + x == b + x
    ensures a == b
  {
    assert |a| == |b|;
    assert a == (a + x)[..|a|] && b == (b + x)[..|b|];
  }

  /**
    The decision hash is not free of the source order. Two sources of the same rules in any two orders
    make the same decision, but the texts that are hashed are equal if and only if the sources are
    equal character by character; `parse` reads a source, and the digest does not confuse the two.
  */
  lemma DecisionTextFollowsSource(parse: string -> RuleSet, first: string, second: string, compiled: seq<Rule>,
                                  again: seq<Rule>, c: Context, build: Build, digest: Digest, tenant: string,
                                  event: string)
    requires multiset(parse(first).rules) == multiset(parse(second).rules)
    requires parse(first) == parse(second).(rules := parse(first).rules)
    requires IsCompiled(parse(first).rules, compiled) && IsCompiled(parse(second).rules, again)
    requires Evaluate(compiled, parse(first).mode, c, build).Evaluated?
    requires digest(first) == digest(second) ==> first == second
    ensures
      var e := Evaluate(compiled, parse(first).mode, c, build);
      var f := Evaluate(again, parse(second).mode, c, build);
      var x := DecisionText(digest, first, tenant, event, parse(first), e);
      e == f &&
      var y := DecisionText(digest, second, tenant, event, parse(second), f);
      (x == y <==> first == second) && (parse(first).rules != parse(second).rules ==> x != y)
  {
    hide Evaluate, IsCompiled, Concat, EffectText;
    DescendingAgain(parse(first).rules, parse(second).rules, compiled, again);
    var e := Evaluate(compiled, parse(first).mode, c, build);
    var rest := Concat(e.matched) + Concat(EffectIds(digest, tenant, event, parse(first), e.effects)) + event;
    assert EffectIds(digest, tenant, event, parse(first), e.effects) ==
           EffectIds(digest, tenant, event, parse(second), e.effects);
    if digest(first) + rest == digest(second) + rest {
      SuffixCancels(digest(first), digest(second), rest);
    }
  }

  lemma DescendingAgain(a: seq<Rule>, b: seq<Rule>, compiled: seq<Rule>, again: seq<Rule>)
    requires multiset(a) == multiset(b) && IsCompiled(a, compiled) && IsCompiled(b, again)
    ensures compiled == again
  {
    hide Descending;
    DescendingIsUnique(compiled, again);
  }
}
