/**
  Rule predicates: validation by the compiler, evaluation with short circuits, and the stored JSON form.

  A predicate is the source's struct: nil and empty lists differ, list entries may be nil, and nothing
  stops a struct from having several shapes at once.
*/
module Predicates {

  datatype Json = Null | Text(s: string) | Array(items: Values) | Object(fields: Fields)

  datatype Values = NoValues | Value(head: Json, tail: Values)

  datatype Fields = NoFields | Field(name: string, value: Json, rest: Fields)

  /** `value` is Null for a nil value. */
  datatype Predicate = Predicate(all: List, any: List, not: Entry, path: string, op: string, value: Json)

  datatype List = NoList | Items(items: Entries)

  datatype Entries = Nil | Cons(head: Entry, tail: Entries)

  datatype Entry = Absent | Present(p: Predicate)

  predicate ValidOp(op: string) {
    op == "eq" || op == "neq" || op == "gt" || op == "gte" || op == "lt" || op == "lte" || op == "in" ||
    op == "not_in" ||
    op == "exists" || op == "not_exists"
  }

  // ---------------------------------------------------------------- validation

  datatype Verdict = Accepted | TooDeep | InvalidPredicate | InvalidOperator

  predicate IsLeaf(p: Predicate) {
    p.path != ""
  }

  predicate IsComposite(p: Predicate) {
    p.all.Items? || p.any.Items? || p.not.Present?
  }

  /** validateCompositePredicateShape: exactly one of all, any and not, and no empty list. */
  predicate ShapeOk(p: Predicate) {
    p.all != Items(Nil) && p.any != Items(Nil) &&
    (if p.all.Items? then 1 else 0) + (if p.any.Items? then 1 else 0) + (if p.not.Present? then 1 else 0) == 1
  }

  /** validatePredicate. */
  function Validate(p: Predicate, depth: int, maxDepth: int): Verdict {
    if depth > maxDepth then TooDeep
    else if IsLeaf(p) == IsComposite(p) then InvalidPredicate
    else if IsLeaf(p) then (if ValidOp(p.op) then Accepted else InvalidOperator)
    else if !ShapeOk(p) then InvalidPredicate
    else if p.all.Items? then ValidateAll(p.all.items, depth + 1, maxDepth)
    else if p.any.Items? then ValidateAll(p.any.items, depth + 1, maxDepth)
    else Validate(p.not.p, depth + 1, maxDepth)
  }

  function ValidateAll(ps: Entries, depth: int, maxDepth: int): Verdict {
    match ps
    case Nil => Accepted
    case Cons(Absent, _) => InvalidPredicate
    case Cons(Present(p), rest) =>
      var v := Validate(p, depth, maxDepth);
      if v.Accepted? then ValidateAll(rest, depth, maxDepth) else v
  }

  // ---------------------------------------------------------------- evaluation

  datatype Resolved = Missing | Found(value: Json) | PathError

  /** What a leaf needs of the event and its facts; a comparison of 2 means not comparable. */
  datatype Context = Context(resolve: string -> Resolved, same: (Json, Json) -> bool, among: (Json, Json) -> bool,
                             compare: (Json, Json) -> int)

  datatype Failure = BadPredicate | BadOperator | LeafFailed

  datatype Outcome = Truth(b: bool) | Fails(why: Failure)

  /** evalLeaf. */
  function EvalLeaf(path: string, op: string, value: Json, c: Context): Outcome {
    match c.resolve(path)
    case PathError => Fails(LeafFailed)
    case Missing => if op == "exists" then Truth(false) else if op == "not_exists" then Truth(true) else Truth(false)
    case Found(v) =>
      if op == "exists" then Truth(true)
      else if op == "not_exists" then Truth(false)
      else if op == "eq" then Truth(c.same(v, value))
      else if op == "neq" then Truth(!c.same(v, value))
      else if op == "gt" || op == "gte" || op == "lt" || op == "lte" then
        var k := c.compare(v, value);
        if k == 2 then Fails(LeafFailed)
        else Truth(if op == "gt" then k > 0 else if op == "gte" then k >= 0 else if op == "lt" then k < 0 else k <= 0)
      else if op == "in" then Truth(c.among(v, value))
      else if op == "not_in" then Truth(!c.among(v, value))
      else Fails(BadOperator)
  }

  function Negated(r: Outcome): Outcome {
    match r
    case Truth(b) => Truth(!b)
    case Fails(_) => r
  }

  /** evalPredicate: the first shape present decides. */
  function Eval(p: Predicate, c: Context): Outcome {
    if p.all.Items? then EvalAll(p.all.items, c)
    else if p.any.Items? then EvalAny(p.any.items, c)
    else if p.not.Present? then Negated(Eval(p.not.p, c))
    else EvalLeaf(p.path, p.op, p.value, c)
  }

  function EvalAll(ps: Entries, c: Context): Outcome {
    match ps
    case Nil => Truth(true)
    case Cons(Absent, _) => Fails(BadPredicate)
    case Cons(Present(p), rest) =>
      var r := Eval(p, c);
      if r == Truth(true) then EvalAll(rest, c) else r
  }

  function EvalAny(ps: Entries, c: Context): Outcome {
    match ps
    case Nil => Truth(false)
    case Cons(Absent, rest) => EvalAny(rest, c)
    case Cons(Present(p), rest) =>
      var r := Eval(p, c);
      if r == Truth(false) then EvalAny(rest, c) else r
  }

  // ---------------------------------------------------------------- the formula it stands for

  type Valuation = (string, string, Json) -> bool

  /** The classical truth value when every leaf has one; `hole` is the value of a missing conjunct. */
  predicate Meaning(p: Predicate, v: Valuation, hole: bool) {
    if p.all.Items? then Conjunction(p.all.items, v, hole)
    else if p.any.Items? then Disjunction(p.any.items, v, hole)
    else if p.not.Present? then !Meaning(p.not.p, v, hole)
    else v(p.path, p.op, p.value)
  }

  predicate Conjunction(ps: Entries, v: Valuation, hole: bool) {
    match ps
    case Nil => true
    case Cons(e, rest) => (if e.Present? then Meaning(e.p, v, hole) else hole) && Conjunction(rest, v, hole)
  }

  predicate Disjunction(ps: Entries, v: Valuation, hole: bool) {
    match ps
    case Nil => false
    case Cons(e, rest) => (e.Present? && Meaning(e.p, v, hole)) || Disjunction(rest, v, hole)
  }

  /** A valuation may fill in whatever it likes for leaves that fail, but not for those that evaluate. */
  ghost predicate Agrees(v: Valuation, c: Context) {
    forall path, op, value :: EvalLeaf(path, op, value, c).Truth? ==>
      v(path, op, value) == EvalLeaf(path, op, value, c).b
  }

  /**
    Short circuits are sound: a boolean answer is the truth value of the formula under every way of
    filling in the leaves that were skipped or that fail.
  */
  lemma {:induction false} ShortCircuitIsSound(p: Predicate, c: Context, v: Valuation, hole: bool)
    requires Agrees(v, c) && Eval(p, c).Truth?
    ensures Meaning(p, v, hole) == Eval(p, c).b
  {
    hide EvalLeaf;
    if p.all.Items? {
      AllIsSound(p.all.items, c, v, hole);
    } else if p.any.Items? {
      AnyIsSound(p.any.items, c, v, hole);
    } else if p.not.Present? {
      ShortCircuitIsSound(p.not.p, c, v, hole);
    }
  }

  lemma {:induction false} AllIsSound(ps: Entries, c: Context, v: Valuation, hole: bool)
    requires Agrees(v, c) && EvalAll(ps, c).Truth?
    ensures Conjunction(ps, v, hole) == EvalAll(ps, c).b
  {
    hide EvalLeaf, Agrees;
    if ps.Cons? {
      ShortCircuitIsSound(ps.head.p, c, v, hole);
      if Eval(ps.head.p, c) == Truth(true) {
        AllIsSound(ps.tail, c, v, hole);
      }
    }
  }

  lemma {:induction false} AnyIsSound(ps: Entries, c: Context, v: Valuation, hole: bool)
    requires Agrees(v, c) && EvalAny(ps, c).Truth?
    ensures Disjunction(ps, v, hole) == EvalAny(ps, c).b
  {
    hide EvalLeaf, Agrees;
    if ps.Cons? {
      if ps.head.Present? {
        ShortCircuitIsSound(ps.head.p, c, v, hole);
      }
      if ps.head.Absent? || Eval(ps.head.p, c) == Truth(false) {
        AnyIsSound(ps.tail, c, v, hole);
      }
    }
  }

  /** No conjunction anywhere in the predicate has a missing entry. */
  predicate Whole(p: Predicate) {
    if p.all.Items? then WholeAll(p.all.items)
    else if p.any.Items? then WholeAny(p.any.items)
    else p.not.Present? ==> Whole(p.not.p)
  }

  predicate WholeAll(ps: Entries) {
    match ps
    case Nil => true
    case Cons(e, rest) => e.Present? && Whole(e.p) && WholeAll(rest)
  }

  predicate WholeAny(ps: Entries) {
    match ps
    case Nil => true
    case Cons(e, rest) => (e.Present? ==> Whole(e.p)) && WholeAny(rest)
  }

  /**
    The converse: if every leaf has a truth value and no conjunct is missing, evaluation gives an answer;
    missing disjuncts do not matter.
  */
  lemma {:induction false} EvaluationIsComplete(p: Predicate, c: Context)
    requires Whole(p) && forall path, op, value :: EvalLeaf(path, op, value, c).Truth?
    ensures Eval(p, c).Truth?
  {
    hide EvalLeaf;
    if p.all.Items? {
      AllIsComplete(p.all.items, c);
    } else if p.any.Items? {
      AnyIsComplete(p.any.items, c);
    } else if p.not.Present? {
      EvaluationIsComplete(p.not.p, c);
    }
  }

  lemma {:induction false} AllIsComplete(ps: Entries, c: Context)
    requires WholeAll(ps) && forall path, op, value :: EvalLeaf(path, op, value, c).Truth?
    ensures EvalAll(ps, c).Truth?
  {
    hide EvalLeaf;
    if ps.Cons? {
      EvaluationIsComplete(ps.head.p, c);
      AllIsComplete(ps.tail, c);
    }
  }

  lemma {:induction false} AnyIsComplete(ps: Entries, c: Context)
    requires WholeAny(ps) && forall path, op, value :: EvalLeaf(path, op, value, c).Truth?
    ensures EvalAny(ps, c).Truth?
  {
    hide EvalLeaf;
    if ps.Cons? {
      if ps.head.Present? {
        EvaluationIsComplete(ps.head.p, c);
      }
      AnyIsComplete(ps.tail, c);
    }
  }

  // ---------------------------------------------------------------- operators

  /**
    What each operator means for a value that is there. Order operators fail on values that cannot be
    compared, and only they do.
  */
  lemma OperatorMeans(path: string, value: Json, c: Context)
    requires c.resolve(path).Found?
    ensures
      var v := c.resolve(path).value;
      EvalLeaf(path, "eq", value, c) == Truth(c.same(v, value)) &&
      EvalLeaf(path, "neq", value, c) == Truth(!c.same(v, value)) &&
      EvalLeaf(path, "in", value, c) == Truth(c.among(v, value)) &&
      EvalLeaf(path, "not_in", value, c) == Truth(!c.among(v, value)) &&
      EvalLeaf(path, "exists", value, c) == Truth(true) && EvalLeaf(path, "not_exists", value, c) == Truth(false)
    ensures
      var k := c.compare(c.resolve(path).value, value);
      EvalLeaf(path, "gt", value, c) == (if k == 2 then Fails(LeafFailed) else Truth(k > 0)) &&
      EvalLeaf(path, "gte", value, c) == (if k == 2 then Fails(LeafFailed) else Truth(k >= 0)) &&
      EvalLeaf(path, "lt", value, c) == (if k == 2 then Fails(LeafFailed) else Truth(k < 0)) &&
      EvalLeaf(path, "lte", value, c) == (if k == 2 then Fails(LeafFailed) else Truth(k <= 0))
  {
  }

  predicate Opposite(a: string, b: string) {
    (a == "eq" && b == "neq") || (a == "in" && b == "not_in") || (a == "gt" && b == "lte") || (a == "lt" && b == "gte")
  }

  /**
    An operator and its opposite disagree exactly when the path is present: on a missing value both
    are false, so `not` of a comparison is not the opposite comparison. Existence has no such gap.
  */
  lemma OppositesDisagreeIff(path: string, a: string, b: string, value: Json, c: Context)
    requires Opposite(a, b)
    ensures EvalLeaf(path, b, value, c) == Negated(EvalLeaf(path, a, value, c)) <==> !c.resolve(path).Missing?
    ensures c.resolve(path).Missing? ==> EvalLeaf(path, a, value, c) == EvalLeaf(path, b, value, c) == Truth(false)
    ensures EvalLeaf(path, "not_exists", value, c) == Negated(EvalLeaf(path, "exists", value, c))
  {
  }

  /** The operators the compiler knows are exactly those evaluation knows. */
  lemma KnownOperators(path: string, op: string, value: Json, c: Context)
    requires c.resolve(path).Found?
    ensures ValidOp(op) <==> EvalLeaf(path, op, value, c) != Fails(BadOperator)
  {
  }

  // ---------------------------------------------------------------- what the compiler accepts

  /** A leaf with a known operator, or exactly one composite of one or more well-formed parts. */
  predicate WellFormed(p: Predicate) {
    if p.path != "" then p.all.NoList? && p.any.NoList? && p.not.Absent? && ValidOp(p.op)
    else match (p.all, p.any, p.not)
      case (Items(ps), NoList, Absent) => ps.Cons? && AllWellFormed(ps)
      case (NoList, Items(ps), Absent) => ps.Cons? && AllWellFormed(ps)
      case (NoList, NoList, Present(q)) => WellFormed(q)
      case _ => false
  }

  predicate AllWellFormed(ps: Entries) {
    match ps
    case Nil => true
    case Cons(e, rest) => e.Present? && WellFormed(e.p) && AllWellFormed(rest)
  }

  function Max(a: nat, b: nat): nat {
    if a >= b then a else b
  }

  /** Levels of nesting below the predicate. */
  function Depth(p: Predicate): nat {
    Max(ListDepth(p.all), Max(ListDepth(p.any), match p.not case Absent => 0 case Present(q) => 1 + Depth(q)))
  }

  function ListDepth(l: List): nat {
    match l
    case NoList => 0
    case Items(items) => EntriesDepth(items)
  }

  function EntriesDepth(ps: Entries): nat {
    match ps
    case Nil => 0
    case Cons(Absent, rest) => EntriesDepth(rest)
    case Cons(Present(p), rest) => Max(1 + Depth(p), EntriesDepth(rest))
  }

  /** The compiler accepts a predicate if and only if it is well formed and not nested too deeply. */
  lemma {:induction false} AcceptedIff(p: Predicate, depth: int, maxDepth: int)
    ensures Validate(p, depth, maxDepth).Accepted? <==> WellFormed(p) && depth + Depth(p) <= maxDepth
  {
    if p.all.Items? {
      AcceptedAllIff(p.all.items, depth + 1, maxDepth);
    }
    if p.any.Items? {
      AcceptedAllIff(p.any.items, depth + 1, maxDepth);
    }
    if p.not.Present? {
      AcceptedIff(p.not.p, depth + 1, maxDepth);
    }
  }

  lemma {:induction false} AcceptedAllIff(ps: Entries, depth: int, maxDepth: int)
    ensures ValidateAll(ps, depth, maxDepth).Accepted? <==>
            AllWellFormed(ps) && (ps.Cons? ==> depth - 1 + EntriesDepth(ps) <= maxDepth)
  {
    if ps.Cons? && ps.head.Present? {
      AcceptedIff(ps.head.p, depth, maxDepth);
      AcceptedAllIff(ps.tail, depth, maxDepth);
    }
  }

  // ---------------------------------------------------------------- accepted predicates fail only in leaves

  predicate LeafOnly(r: Outcome) {
    r.Truth? || r == Fails(LeafFailed)
  }

  /** A predicate the compiler accepts never evaluates to an invalid predicate or operator. */
  lemma {:induction false} AcceptedFailsOnlyInALeaf(p: Predicate, depth: int, maxDepth: int, c: Context)
    requires Validate(p, depth, maxDepth).Accepted?
    ensures LeafOnly(Eval(p, c))
  {
    if p.all.Items? {
      AcceptedList(p.all.items, depth + 1, maxDepth, c);
    } else if p.any.Items? {
      AcceptedList(p.any.items, depth + 1, maxDepth, c);
    } else if p.not.Present? {
      AcceptedFailsOnlyInALeaf(p.not.p, depth + 1, maxDepth, c);
    }
  }

  lemma {:induction false} AcceptedList(ps: Entries, depth: int, maxDepth: int, c: Context)
    requires ValidateAll(ps, depth, maxDepth).Accepted?
    ensures LeafOnly(EvalAll(ps, c)) && LeafOnly(EvalAny(ps, c))
  {
    if ps.Cons? {
      AcceptedFailsOnlyInALeaf(ps.head.p, depth, maxDepth, c);
      AcceptedList(ps.tail, depth, maxDepth, c);
    }
  }

  // ---------------------------------------------------------------- the stored form

  function With(omit: bool, name: string, value: Json, rest: Fields): Fields {
    if omit then rest else Field(name, value, rest)
  }

  /** json.Marshal with omitempty on every field: nil and empty lists are both left out. */
  function Encode(p: Predicate): Json {
    Object(
      With(p.all.NoList? || p.all.items.Nil?, "all", EncodeList(p.all),
      With(p.any.NoList? || p.any.items.Nil?, "any", EncodeList(p.any),
      With(p.not.Absent?, "not", EncodeEntry(p.not),
      With(p.path == "", "path", Text(p.path),
      With(p.op == "", "op", Text(p.op),
      With(p.value == Null, "value", p.value, NoFields)))))))
  }

  function EncodeList(l: List): Json {
    match l
    case NoList => Null
    case Items(items) => Array(EncodeEntries(items))
  }

  function EncodeEntries(ps: Entries): Values {
    match ps
    case Nil => NoValues
    case Cons(e, rest) => Value(EncodeEntry(e), EncodeEntries(rest))
  }

  function EncodeEntry(e: Entry): Json {
    match e
    case Absent => Null
    case Present(p) => Encode(p)
  }

  function Lookup(fields: Fields, name: string): (j: Json)
    ensures j == Null || j < fields
  {
    match fields
    case NoFields => Null
    case Field(n, value, rest) => if n == name then value else Lookup(rest, name)
  }

  function TextOf(j: Json): string {
    if j.Text? then j.s else ""
  }

  /** json.Unmarshal into the struct: absent fields keep their zero value, null entries are nil. */
  function Decode(j: Json): Predicate
    decreases j, 0
  {
    if j.Object? then
      var all, any, not := Lookup(j.fields, "all"), Lookup(j.fields, "any"), Lookup(j.fields, "not");
      Predicate(if all.Null? then NoList else DecodeList(all), if any.Null? then NoList else DecodeList(any),
                if not.Null? then Absent else DecodeEntry(not),
                TextOf(Lookup(j.fields, "path")), TextOf(Lookup(j.fields, "op")), Lookup(j.fields, "value"))
    else Predicate(NoList, NoList, Absent, "", "", Null)
  }

  function DecodeList(j: Json): List
    decreases j, 1
  {
    if j.Array? then Items(DecodeEntries(j.items)) else NoList
  }

  function DecodeEntries(vs: Values): Entries
    decreases vs, 1
  {
    match vs
    case NoValues => Nil
    case Value(j, rest) => Cons(DecodeEntry(j), DecodeEntries(rest))
  }

  function DecodeEntry(j: Json): Entry
    decreases j, 1
  {
    if j.Null? then Absent else Present(Decode(j))
  }

  /** No list anywhere in the predicate is empty without being nil. */
  predicate NoEmptyLists(p: Predicate) {
    ListFull(p.all) && ListFull(p.any) && EntryFull(p.not)
  }

  predicate ListFull(l: List) {
    match l
    case NoList => true
    case Items(items) => items.Cons? && EntriesFull(items)
  }

  predicate EntriesFull(ps: Entries) {
    match ps
    case Nil => true
    case Cons(e, rest) => EntryFull(e) && EntriesFull(rest)
  }

  predicate EntryFull(e: Entry) {
    match e
    case Absent => true
    case Present(p) => NoEmptyLists(p)
  }

  lemma WithLookup(omit: bool, name: string, value: Json, rest: Fields, q: string)
    ensures Lookup(With(omit, name, value, rest), q) == if !omit && q == name then value else Lookup(rest, q)
  {
  }

  /** What is stored under a field name. */
  function Stored(p: Predicate, q: string): Json {
    if q == "all" && !(p.all.NoList? || p.all.items.Nil?) then EncodeList(p.all)
    else if q == "any" && !(p.any.NoList? || p.any.items.Nil?) then EncodeList(p.any)
    else if q == "not" && p.not.Present? then EncodeEntry(p.not)
    else if q == "path" && p.path != "" then Text(p.path)
    else if q == "op" && p.op != "" then Text(p.op)
    else if q == "value" then p.value
    else Null
  }

  lemma StoredAt(p: Predicate, q: string)
    ensures Lookup(Encode(p).fields, q) == Stored(p, q)
  {
    hide With, Lookup, EncodeList, EncodeEntry;
    var v := With(p.value == Null, "value", p.value, NoFields);
    var o := With(p.op == "", "op", Text(p.op), v);
    var h := With(p.path == "", "path", Text(p.path), o);
    var n := With(p.not.Absent?, "not", EncodeEntry(p.not), h);
    var a := With(p.any.NoList? || p.any.items.Nil?, "any", EncodeList(p.any), n);
    NothingStored(q);
    WithLookup(p.value == Null, "value", p.value, NoFields, q);
    WithLookup(p.op == "", "op", Text(p.op), v, q);
    WithLookup(p.path == "", "path", Text(p.path), o, q);
    WithLookup(p.not.Absent?, "not", EncodeEntry(p.not), h, q);
    WithLookup(p.any.NoList? || p.any.items.Nil?, "any", EncodeList(p.any), n, q);
    WithLookup(p.all.NoList? || p.all.items.Nil?, "all", EncodeList(p.all), a, q);
  }

  lemma NothingStored(q: string)
    ensures Lookup(NoFields, q) == Null
  {
  }

  lemma FieldsOf(p: Predicate)
    ensures
      var f := Encode(p).fields;
      Lookup(f, "all") == Stored(p, "all") && Lookup(f, "any") == Stored(p, "any") &&
      Lookup(f, "not") == Stored(p, "not") &&
      Lookup(f, "path") == Stored(p, "path") && Lookup(f, "op") == Stored(p, "op") &&
      Lookup(f, "value") == Stored(p, "value")
  {
    hide Lookup, Encode, Stored;
    StoredAt(p, "all");
    StoredAt(p, "any");
    StoredAt(p, "not");
    StoredAt(p, "path");
    StoredAt(p, "op");
    StoredAt(p, "value");
  }

  /** Storing and loading a predicate gives it back exactly when it has no empty list. */
  lemma {:induction false} StorageRoundTripIff(p: Predicate)
    ensures Decode(Encode(p)) == p <==> NoEmptyLists(p)
  {
    hide Lookup, With;
    FieldsOf(p);
    ListRoundTrip(p.all);
    ListRoundTrip(p.any);
    EntryRoundTrip(p.not);
  }

  lemma {:induction false} ListRoundTrip(l: List)
    ensures l.Items? && l.items.Cons? ==> (DecodeList(EncodeList(l)) == l <==> ListFull(l))
  {
    if l.Items? {
      EntriesRoundTrip(l.items);
    }
  }

  lemma {:induction false} EntriesRoundTrip(ps: Entries)
    ensures DecodeEntries(EncodeEntries(ps)) == ps <==> EntriesFull(ps)
  {
    if ps.Cons? {
      EntryRoundTrip(ps.head);
      EntriesRoundTrip(ps.tail);
    }
  }

  lemma {:induction false} EntryRoundTrip(e: Entry)
    ensures DecodeEntry(EncodeEntry(e)) == e <==> EntryFull(e)
  {
    if e.Present? {
      StorageRoundTripIff(e.p);
    }
  }

  lemma {:induction false} AcceptedHasNoEmptyLists(p: Predicate, depth: int, maxDepth: int)
    requires Validate(p, depth, maxDepth).Accepted?
    ensures NoEmptyLists(p)
  {
    if p.all.Items? {
      AcceptedEntriesFull(p.all.items, depth + 1, maxDepth);
    } else if p.any.Items? {
      AcceptedEntriesFull(p.any.items, depth + 1, maxDepth);
    } else if p.not.Present? {
      AcceptedHasNoEmptyLists(p.not.p, depth + 1, maxDepth);
    }
  }

  lemma {:induction false} AcceptedEntriesFull(ps: Entries, depth: int, maxDepth: int)
    requires ValidateAll(ps, depth, maxDepth).Accepted?
    ensures EntriesFull(ps)
  {
    if ps.Cons? {
      AcceptedHasNoEmptyLists(ps.head.p, depth, maxDepth);
      AcceptedEntriesFull(ps.tail, depth, maxDepth);
    }
  }

  /** What the compiler accepts is loaded from storage as it was, and so evaluates as it did. */
  lemma AcceptedSurvivesStorage(p: Predicate, depth: int, maxDepth: int, c: Context)
    requires Validate(p, depth, maxDepth).Accepted?
    ensures Decode(Encode(p)) == p && Eval(Decode(Encode(p)), c) == Eval(p, c)
  {
    AcceptedHasNoEmptyLists(p, depth, maxDepth);
    StorageRoundTripIff(p);
  }

  /** Without the compiler's check the stored form can mean something else: an empty `any` is false, but is lost. */
  lemma EmptyListIsLost(c: Context)
    requires c.resolve("").PathError?
    ensures
      var p := Predicate(NoList, Items(Nil), Absent, "", "", Null);
      Eval(p, c) == Truth(false) && Eval(Decode(Encode(p)), c) == Fails(LeafFailed)
  {
    var p := Predicate(NoList, Items(Nil), Absent, "", "", Null);
    FieldsOf(p);
  }

  // ---------------------------------------------------------------- budgets

  /** countPredicates: the number of leaves. */
  function Count(p: Predicate): nat {
    CountList(p.all) + CountList(p.any) + CountEntry(p.not) + if p.path != "" then 1 else 0
  }

  function CountList(l: List): nat {
    match l
    case NoList => 0
    case Items(items) => CountEntries(items)
  }

  function CountEntries(ps: Entries): nat {
    match ps
    case Nil => 0
    case Cons(e, rest) => CountEntry(e) + CountEntries(rest)
  }

  function CountEntry(e: Entry): nat {
    match e
    case Absent => 0
    case Present(p) => Count(p)
  }

  /** The leaves of a predicate, as the source's three loops meet them. */
  ghost function Leaves(p: Predicate): seq<Predicate> {
    (match p.all case NoList => [] case Items(ps) => LeavesOf(ps)) +
    (match p.any case NoList => [] case Items(ps) => LeavesOf(ps)) +
    (match p.not case Absent => [] case Present(q) => Leaves(q)) +
    if IsLeaf(p) then [p] else []
  }

  ghost function LeavesOf(ps: Entries): seq<Predicate> {
    match ps
    case Nil => []
    case Cons(Absent, rest) => LeavesOf(rest)
    case Cons(Present(p), rest) => Leaves(p) + LeavesOf(rest)
  }

  /** What is counted is the number of leaves. */
  lemma {:induction false} CountsLeaves(p: Predicate)
    ensures Count(p) == |Leaves(p)|
  {
    if p.all.Items? {
      CountsLeavesOf(p.all.items);
    }
    if p.any.Items? {
      CountsLeavesOf(p.any.items);
    }
    if p.not.Present? {
      CountsLeaves(p.not.p);
    }
  }

  lemma {:induction false} CountsLeavesOf(ps: Entries)
    ensures CountEntries(ps) == |LeavesOf(ps)|
  {
    if ps.Cons? {
      if ps.head.Present? {
        CountsLeaves(ps.head.p);
      }
      CountsLeavesOf(ps.tail);
    }
  }

  /** How many leaves an evaluation looks at, short circuits included. */
  function Looked(p: Predicate, c: Context): nat {
    if p.all.Items? then LookedAll(p.all.items, c)
    else if p.any.Items? then LookedAny(p.any.items, c)
    else if p.not.Present? then Looked(p.not.p, c)
    else 1
  }

  function LookedAll(ps: Entries, c: Context): nat {
    match ps
    case Nil => 0
    case Cons(Absent, _) => 0
    case Cons(Present(p), rest) => Looked(p, c) + if Eval(p, c) == Truth(true) then LookedAll(rest, c) else 0
  }

  function LookedAny(ps: Entries, c: Context): nat {
    match ps
    case Nil => 0
    case Cons(Absent, rest) => LookedAny(rest, c)
    case Cons(Present(p), rest) => Looked(p, c) + if Eval(p, c) == Truth(false) then LookedAny(rest, c) else 0
  }

  /** The budget is one on work: evaluating a well-formed predicate looks at no more leaves than were counted. */
  lemma {:induction false} CountBoundsEvaluation(p: Predicate, c: Context)
    requires WellFormed(p)
    ensures Looked(p, c) <= Count(p)
  {
    if p.all.Items? {
      CountBoundsEntries(p.all.items, c);
    } else if p.any.Items? {
      CountBoundsEntries(p.any.items, c);
    } else if p.not.Present? {
      CountBoundsEvaluation(p.not.p, c);
    }
  }

  lemma {:induction false} CountBoundsEntries(ps: Entries, c: Context)
    requires AllWellFormed(ps)
    ensures LookedAll(ps, c) <= CountEntries(ps) && LookedAny(ps, c) <= CountEntries(ps)
  {
    if ps.Cons? {
      CountBoundsEvaluation(ps.head.p, c);
      CountBoundsEntries(ps.tail, c);
    }
  }
}
