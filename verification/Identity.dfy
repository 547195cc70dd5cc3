/**
  The strings that execution and effect identities are digests of.

  A digest is modelled by the string it is computed from: SHA-256 is taken to be collision free, so
  two identities are equal exactly when these strings are. Text is a sequence of bytes.
*/
module Identity {

  datatype Option<T> = None | Some(value: T)

  // ---------------------------------------------------------------- decimal rendering

  predicate IsDigit(c: char) {
    '0' <= c <= '9'
  }

  function Digit(d: nat): char
    requires d < 10
  {
    '0' + d as char
  }

  /** The decimal rendering of a natural number. */
  function Decimal(n: nat): (s: string)
    ensures s != [] && AllDigits(s)
  {
    if n < 10 then [Digit(n)] else Decimal(n / 10) + [Digit(n % 10)]
  }

  /** The rendering of a signed number by the %d verb. */
  function Signed(n: int): string {
    if n < 0 then "-" + Decimal(-n) else Decimal(n)
  }

  predicate AllDigits(s: string) {
    forall c | c in s :: IsDigit(c)
  }

  /** The number a string of digits stands for. */
  function Value(s: string): nat
    requires AllDigits(s)
  {
    if s == [] then 0 else
    assert IsDigit(s[|s| - 1]);
    10 * Value(s[..|s| - 1]) + (s[|s| - 1] as int - '0' as int)
  }

  /** Reads a number in the %d form. */
  function ReadSigned(s: string): Option<int> {
    if s == [] then None
    else if s[0] == '-' && AllDigits(s[1..]) then
      var v: int := Value(s[1..]);
      Some(-v)
    else if AllDigits(s) then
      var v: int := Value(s);
      Some(v)
    else None
  }

  lemma {:induction false} ValueOfDecimal(n: nat)
    ensures Value(Decimal(n)) == n
  {
    var s := Decimal(n);
    if n >= 10 {
      ValueOfDecimal(n / 10);
      assert s[..|s| - 1] == Decimal(n / 10);
    } else {
      assert s[..0] == [];
    }
  }

  lemma ReadOfSigned(n: int)
    ensures ReadSigned(Signed(n)) == Some(n)
  {
    if n < 0 {
      var d := Decimal(-n);
      var s := "-" + d;
      assert s[0] == '-' && s[1..] == d;
      ValueOfDecimal(-n);
    } else {
      var d := Decimal(n);
      assert IsDigit(d[0]);
      ValueOfDecimal(n);
    }
  }

  // ---------------------------------------------------------------- length-prefixed fields

  /** The length of the leading run of digits. */
  function DigitRun(s: string): (k: nat)
    ensures k <= |s| && AllDigits(s[..k])
  {
    if s == [] || !IsDigit(s[0]) then 0 else 1 + DigitRun(s[1..])
  }

  lemma {:induction false} DigitRunStops(d: string, rest: string)
    requires AllDigits(d)
    requires rest != [] && !IsDigit(rest[0])
    ensures DigitRun(d + rest) == |d|
  {
    if d == [] {
      assert d + rest == rest;
    } else {
      assert (d + rest)[1..] == d[1..] + rest;
      assert (d + rest)[0] == d[0] && d[0] in d;
      DigitRunStops(d[1..], rest);
    }
  }

  /** `%d:%s` of a field's length and the field. */
  function Prefixed(f: string): string {
    Decimal(|f|) + ":" + f
  }

  /** Reads one length-prefixed field. */
  function ReadField(s: string): Option<(string, string)> {
    var k := DigitRun(s);
    if k == 0 || k >= |s| || s[k] != ':' then None
    else
      var n := Value(s[..k]);
      if |s| < k + 1 + n then None
      else Some((s[k + 1..k + 1 + n], s[k + 1 + n..]))
  }

  lemma ReadPrefixed(f: string, rest: string)
    ensures ReadField(Prefixed(f) + rest) == Some((f, rest))
  {
    var d := Decimal(|f|);
    var s := Prefixed(f) + rest;
    assert s == d + (":" + f + rest);
    DigitRunStops(d, ":" + f + rest);
    assert s[..|d|] == d;
    ValueOfDecimal(|f|);
    assert s[|d| + 1..|d| + 1 + |f|] == f;
    assert s[|d| + 1 + |f|..] == rest;
  }

  // ---------------------------------------------------------------- execution identity

  datatype ExecutionKey = ExecutionKey(tenant: string, event: string, ruleSet: string, revision: int)

  /** What ComputeExecutionID hashes. */
  function ExecutionText(x: ExecutionKey): string {
    "execution|" + (Prefixed(x.tenant) + ("|" + EventPart(x)))
  }

  function EventPart(x: ExecutionKey): string {
    Prefixed(x.event) + ("|" + RuleSetPart(x))
  }

  function RuleSetPart(x: ExecutionKey): string {
    Prefixed(x.ruleSet) + ("|" + Signed(x.revision))
  }

  /** The format of the text, field by field. */
  lemma ExecutionTextLayout(x: ExecutionKey)
    ensures ExecutionText(x) == "execution|" + Decimal(|x.tenant|) + ":" + x.tenant + "|" +
                                Decimal(|x.event|) + ":" + x.event + "|" +
                                Decimal(|x.ruleSet|) + ":" + x.ruleSet + "|" + Signed(x.revision)
  {
    hide Decimal, Signed;
  }

  lemma ExecutionTextExample()
    ensures ExecutionText(ExecutionKey("t", "ev", "set", -1)) == "execution|1:t|2:ev|3:set|-1"
  {
    assert Signed(-1) == "-1";
    assert Decimal(1) == "1" && Decimal(2) == "2" && Decimal(3) == "3";
  }

  /** Reads one length-prefixed field and the bar behind it. */
  function ReadBarred(s: string): Option<(string, string)> {
    match ReadField(s)
    case None => None
    case Some((f, rest)) => if rest != [] && rest[0] == '|' then Some((f, rest[1..])) else None
  }

  lemma ReadOfBarred(f: string, rest: string)
    ensures ReadBarred(Prefixed(f) + ("|" + rest)) == Some((f, rest))
  {
    ReadPrefixed(f, "|" + rest);
    assert ("|" + rest)[1..] == rest;
  }

  /** A reader for execution texts. */
  function ReadExecution(s: string): Option<ExecutionKey> {
    if |s| < 10 || s[..10] != "execution|" then None else
    match ReadBarred(s[10..])
    case None => None
    case Some((tenant, s1)) =>
      match ReadBarred(s1)
      case None => None
      case Some((event, s2)) =>
        match ReadBarred(s2)
        case None => None
        case Some((ruleSet, s3)) =>
          match ReadSigned(s3)
          case None => None
          case Some(revision) => Some(ExecutionKey(tenant, event, ruleSet, revision))
  }

  /** The text parses back to exactly the key it was made from, whatever bytes the names contain. */
  lemma ExecutionRoundTrip(x: ExecutionKey)
    ensures ReadExecution(ExecutionText(x)) == Some(x)
  {
    var s := ExecutionText(x);
    var body := Prefixed(x.tenant) + ("|" + EventPart(x));
    assert s == "execution|" + body;
    assert s[..10] == "execution|" && s[10..] == body;
    ReadOfBarred(x.tenant, EventPart(x));
    ReadOfBarred(x.event, RuleSetPart(x));
    ReadOfBarred(x.ruleSet, Signed(x.revision));
    ReadOfSigned(x.revision);
  }

  /** Different executions never share an identity. */
  lemma ExecutionTextInjective(x: ExecutionKey, y: ExecutionKey)
    requires ExecutionText(x) == ExecutionText(y)
    ensures x == y
  {
    ExecutionRoundTrip(x);
    ExecutionRoundTrip(y);
  }

  // ---------------------------------------------------------------- effect identity

  datatype EffectKey = EffectKey(tenant: string, event: string, ruleSet: string, revision: int, rule: string,
                                 index: nat)

  /** What ComputeEffectID hashes: plain fields joined by bars. */
  function EffectText(x: EffectKey): string {
    x.tenant + ("|" + (x.event + ("|" + (x.ruleSet +
        ("|" + (Signed(x.revision) + ("|" + RuleAndIndex(x.rule, x.index))))))))
  }

  function RuleAndIndex(rule: string, index: nat): string {
    rule + ("|" + Decimal(index))
  }

  /** The format of the text, field by field. */
  lemma EffectTextLayout(x: EffectKey)
    ensures EffectText(x) == x.tenant + "|" + x.event + "|" + x.ruleSet + "|" + Signed(x.revision) + "|" + x.rule +
                             "|" + Decimal(x.index)
  {
    hide Decimal, Signed;
  }

  lemma EffectTextExample()
    ensures EffectText(EffectKey("t", "e", "s", 7, "r", 2)) == "t|e|s|7|r|2"
  {
    assert Decimal(7) == "7" && Decimal(2) == "2";
  }

  predicate BarFree(s: string) {
    '|' !in s
  }

  function FirstBar(s: string): nat {
    if s == [] || s[0] == '|' then 0 else 1 + FirstBar(s[1..])
  }

  /** The number of characters behind the last bar. */
  function AfterLastBar(s: string): nat {
    if s == [] || s[|s| - 1] == '|' then 0 else 1 + AfterLastBar(s[..|s| - 1])
  }

  lemma {:induction false} FirstBarAt(a: string, x: string)
    requires BarFree(a)
    ensures FirstBar(a + ("|" + x)) == |a|
  {
    var s := a + ("|" + x);
    if a == [] {
      assert s[0] == '|';
    } else {
      assert s[0] == a[0] && a[0] in a;
      assert s[1..] == a[1..] + ("|" + x);
      FirstBarAt(a[1..], x);
    }
  }

  lemma {:induction false} LastBarAt(a: string, x: string)
    requires BarFree(x)
    ensures AfterLastBar(a + ("|" + x)) == |x|
  {
    var s := a + ("|" + x);
    if x == [] {
      assert s[|s| - 1] == '|';
    } else {
      assert s[|s| - 1] == x[|x| - 1] && x[|x| - 1] in x;
      assert s[..|s| - 1] == a + ("|" + x[..|x| - 1]);
      LastBarAt(a, x[..|x| - 1]);
    }
  }

  lemma SplitAt(a: string, b: string, x: string, y: string)
    requires |a| == |b| && a + ("|" + x) == b + ("|" + y)
    ensures a == b && x == y
  {
    var s := a + ("|" + x);
    assert a == s[..|a|] && x == s[|a| + 1..];
    assert b == s[..|a|] && y == s[|a| + 1..];
  }

  /** Splitting at the first bar is unambiguous when the left parts hold none. */
  lemma SplitFirst(a: string, b: string, x: string, y: string)
    requires BarFree(a) && BarFree(b) && a + ("|" + x) == b + ("|" + y)
    ensures a == b && x == y
  {
    FirstBarAt(a, x);
    FirstBarAt(b, y);
    SplitAt(a, b, x, y);
  }

  /** Splitting at the last bar is unambiguous when the right parts hold none. */
  lemma SplitLast(a: string, b: string, x: string, y: string)
    requires BarFree(x) && BarFree(y) && a + ("|" + x) == b + ("|" + y)
    ensures a == b && x == y
  {
    LastBarAt(a, x);
    LastBarAt(b, y);
    assert |a + ("|" + x)| == |a| + 1 + |x| && |b + ("|" + y)| == |b| + 1 + |y|;
    SplitAt(a, b, x, y);
  }

  lemma NumbersAreBarFree(n: int)
    ensures BarFree(Signed(n)) && (n >= 0 ==> BarFree(Decimal(n)))
  {
    if n < 0 {
      assert AllDigits(Decimal(-n));
    } else {
      assert AllDigits(Decimal(n));
    }
  }

  lemma RuleAndIndexInjective(rule: string, i: nat, rule': string, i': nat)
    requires RuleAndIndex(rule, i) == RuleAndIndex(rule', i')
    ensures rule == rule' && i == i'
  {
    NumbersAreBarFree(i);
    NumbersAreBarFree(i');
    SplitLast(rule, rule', Decimal(i), Decimal(i'));
    ValueOfDecimal(i);
    ValueOfDecimal(i');
  }

  /**
    Within one decision, distinct (rule, action index) pairs have distinct identities, with no condition
    on the names.
  */
  lemma EffectTextInjectiveWithinDecision(x: EffectKey, y: EffectKey)
    requires x.tenant == y.tenant && x.event == y.event && x.ruleSet == y.ruleSet && x.revision == y.revision
    requires EffectText(x) == EffectText(y)
    ensures x == y
  {
    var x4, y4 := RuleAndIndex(x.rule, x.index), RuleAndIndex(y.rule, y.index);
    var x3, y3 := Signed(x.revision) + ("|" + x4), Signed(y.revision) + ("|" + y4);
    var x2, y2 := x.ruleSet + ("|" + x3), y.ruleSet + ("|" + y3);
    var x1, y1 := x.event + ("|" + x2), y.event + ("|" + y2);
    SplitAt(x.tenant, y.tenant, x1, y1);
    SplitAt(x.event, y.event, x2, y2);
    SplitAt(x.ruleSet, y.ruleSet, x3, y3);
    SplitAt(Signed(x.revision), Signed(y.revision), x4, y4);
    RuleAndIndexInjective(x.rule, x.index, y.rule, y.index);
  }

  /** Tenant, event and rule set are where a bar can make two identities collide; rule names may hold bars. */
  predicate PlainNames(x: EffectKey) {
    BarFree(x.tenant) && BarFree(x.event) && BarFree(x.ruleSet)
  }

  /** Globally, identities are distinct when tenant, event and rule set contain no bar. */
  lemma EffectTextInjective(x: EffectKey, y: EffectKey)
    requires PlainNames(x) && PlainNames(y) && EffectText(x) == EffectText(y)
    ensures x == y
  {
    var x4, y4 := RuleAndIndex(x.rule, x.index), RuleAndIndex(y.rule, y.index);
    var x3, y3 := Signed(x.revision) + ("|" + x4), Signed(y.revision) + ("|" + y4);
    var x2, y2 := x.ruleSet + ("|" + x3), y.ruleSet + ("|" + y3);
    var x1, y1 := x.event + ("|" + x2), y.event + ("|" + y2);
    SplitFirst(x.tenant, y.tenant, x1, y1);
    SplitFirst(x.event, y.event, x2, y2);
    SplitFirst(x.ruleSet, y.ruleSet, x3, y3);
    NumbersAreBarFree(x.revision);
    NumbersAreBarFree(y.revision);
    SplitFirst(Signed(x.revision), Signed(y.revision), x4, y4);
    ReadOfSigned(x.revision);
    ReadOfSigned(y.revision);
    RuleAndIndexInjective(x.rule, x.index, y.rule, y.index);
  }

  /** Without that condition two tenants' effects can share an identity. */
  lemma EffectTextCollision(ruleSet: string, revision: int, rule: string, index: nat)
    ensures EffectText(EffectKey("a", "b|c", ruleSet, revision, rule, index)) ==
            EffectText(EffectKey("a|b", "c", ruleSet, revision, rule, index))
  {
    var rest := "|" + (ruleSet + ("|" + (Signed(revision) + ("|" + RuleAndIndex(rule, index)))));
    assert "a" + ("|" + ("b|c" + rest)) == "a|b|c" + rest;
    assert "a|b" + ("|" + ("c" + rest)) == "a|b|c" + rest;
  }
}
