/** Payload filters: what a filter tree means (core/filter.hpp). Payload values
    are strings; `parse` stands for reading one as a number or a date. */
module Filters {
  import opened Wrappers

  type Parse = string -> Option<real>

  const CREATED_AT := "created_at"
  const ID := "_id"

  datatype Op = AND | OR | NOT | EQ | NE | IN | NIN | RANGE | EXISTS

  datatype FilterValue = FilterValue(str: string, num: Option<real>)

  /** A missing bound is infinite. */
  datatype Range = Range(lo: Option<real>, loIncl: bool, hi: Option<real>, hiIncl: bool)

  datatype FilterExpr = FilterExpr(
    op: Op, key: string, values: seq<FilterValue>, range: Range, present: bool, children: seq<FilterExpr>)

  datatype Doc = Doc(id: string, payload: map<string, string>, createdAt: int)

  const EVERYTHING := Range(None, true, None, true)

  predicate InRange(r: Range, v: real) {
    && (r.lo.Some? ==> if r.loIncl then v >= r.lo.value else v > r.lo.value)
    && (r.hi.Some? ==> if r.hiIncl then v <= r.hi.value else v < r.hi.value)
  }

  /** The number the key has in the document. */
  function NumberOf(parse: Parse, key: string, d: Doc): Option<real> {
    if key == CREATED_AT then Some(d.createdAt as real)
    else if key == ID then parse(d.id)
    else if key in d.payload then parse(d.payload[key]) else None
  }

  predicate HasKey(key: string, d: Doc) {
    key == CREATED_AT || key == ID || key in d.payload
  }

  predicate ValueEq(parse: Parse, key: string, v: FilterValue, d: Doc) {
    HasKey(key, d)
    && if v.num.Some? then NumberOf(parse, key, d) == v.num
       else if key == CREATED_AT then parse(v.str) == Some(d.createdAt as real)
       else if key == ID then d.id == v.str
       else d.payload[key] == v.str
  }

  predicate SomeValueEq(parse: Parse, key: string, values: seq<FilterValue>, d: Doc) {
    exists i :: 0 <= i < |values| && ValueEq(parse, key, values[i], d)
  }

  predicate Matches(parse: Parse, f: FilterExpr, d: Doc)
    decreases f
  {
    match f.op
    case AND => forall i :: 0 <= i < |f.children| ==> Matches(parse, f.children[i], d)
    case OR => f.children == [] || exists i :: 0 <= i < |f.children| && Matches(parse, f.children[i], d)
    case NOT => f.children == [] || !Matches(parse, f.children[0], d)
    case EXISTS => HasKey(f.key, d) == f.present
    case EQ => SomeValueEq(parse, f.key, f.values, d)
    case IN => SomeValueEq(parse, f.key, f.values, d)
    case NE => !SomeValueEq(parse, f.key, f.values, d)
    case NIN => !SomeValueEq(parse, f.key, f.values, d)
    case RANGE =>
      var n := NumberOf(parse, f.key, d);
      n.Some? && InRange(f.range, n.value)
  }

  // ---------- laws ----------

  /** $ne and $nin select exactly what $eq and $in leave out, and `exists` works both ways. */
  lemma LeafComplements(parse: Parse, f: FilterExpr, d: Doc)
    ensures Matches(parse, f.(op := NE), d) <==> !Matches(parse, f.(op := EQ), d)
    ensures Matches(parse, f.(op := NIN), d) <==> !Matches(parse, f.(op := IN), d)
    ensures Matches(parse, f.(op := EXISTS, present := false), d) <==> !Matches(parse, f.(op := EXISTS, present := true), d)
  {
  }

  /** A key the document has, and a payload key it lacks. */
  lemma ExistsMeans(parse: Parse, f: FilterExpr, d: Doc)
    ensures f.key in {CREATED_AT, ID} || f.key in d.payload ==> Matches(parse, f.(op := EXISTS, present := true), d)
    ensures f.key !in {CREATED_AT, ID} && f.key !in d.payload ==> Matches(parse, f.(op := EXISTS, present := false), d)
  {
  }

  /** $in is the disjunction of $eq over its values, and $nin the conjunction of $ne. */
  lemma InIsSomeEq(parse: Parse, f: FilterExpr, d: Doc)
    ensures Matches(parse, f.(op := IN), d) <==>
      exists i :: 0 <= i < |f.values| && Matches(parse, f.(op := EQ, values := [f.values[i]]), d)
    ensures Matches(parse, f.(op := NIN), d) <==>
      forall i :: 0 <= i < |f.values| ==> Matches(parse, f.(op := NE, values := [f.values[i]]), d)
  {
    if i :| 0 <= i < |f.values| && ValueEq(parse, f.key, f.values[i], d) {
      assert [f.values[i]][0] == f.values[i];
      assert Matches(parse, f.(op := EQ, values := [f.values[i]]), d);
      assert !Matches(parse, f.(op := NE, values := [f.values[i]]), d);
    }
    forall i | 0 <= i < |f.values|
      ensures Matches(parse, f.(op := EQ, values := [f.values[i]]), d) <==> ValueEq(parse, f.key, f.values[i], d)
      ensures Matches(parse, f.(op := NE, values := [f.values[i]]), d) <==> !ValueEq(parse, f.key, f.values[i], d)
    {
      var one := [f.values[i]];
      assert one[0] == f.values[i];
      assert SomeValueEq(parse, f.key, one, d) <==> ValueEq(parse, f.key, f.values[i], d);
    }
  }

  /** A payload key equals a text exactly when the document stores that text under it;
      it equals a number exactly when what is stored reads as that number. */
  lemma EqMeans(parse: Parse, key: string, v: FilterValue, d: Doc)
    requires key != CREATED_AT && key != ID
    ensures var f := FilterExpr(EQ, key, [v], EVERYTHING, true, []);
      Matches(parse, f, d) <==>
        key in d.payload && (if v.num.Some? then parse(d.payload[key]) == v.num else d.payload[key] == v.str)
  {
    assert [v][0] == v;
  }

  /** The id is compared as text, the time stamp as a number. */
  lemma EqOfFields(parse: Parse, text: string, d: Doc)
    ensures Matches(parse, EqText(ID, text), d) <==> d.id == text
    ensures Matches(parse, EqText(CREATED_AT, text), d) <==> parse(text) == Some(d.createdAt as real)
  {
    var v := FilterValue(text, None);
    assert EqText(ID, text).values[0] == v && EqText(CREATED_AT, text).values[0] == v;
  }

  function Negate(f: FilterExpr): FilterExpr {
    FilterExpr(NOT, "", [], EVERYTHING, true, [f])
  }

  function AnyOf(parts: seq<FilterExpr>): FilterExpr {
    FilterExpr(OR, "", [], EVERYTHING, true, parts)
  }

  function Negations(parts: seq<FilterExpr>): (r: seq<FilterExpr>)
    ensures |r| == |parts| && forall i :: 0 <= i < |parts| ==> r[i] == Negate(parts[i])
  {
    if parts == [] then [] else [Negate(parts[0])] + Negations(parts[1..])
  }

  lemma NegateMeans(parse: Parse, f: FilterExpr, d: Doc)
    ensures Matches(parse, Negate(f), d) <==> !Matches(parse, f, d)
  {
    assert Negate(f).children[0] == f;
  }

  /** Negation turns $and into $or and back, on lists that are not empty. */
  lemma DeMorgan(parse: Parse, parts: seq<FilterExpr>, d: Doc)
    requires parts != []
    ensures Matches(parse, Negate(AllOf(parts)), d) <==> Matches(parse, AnyOf(Negations(parts)), d)
    ensures Matches(parse, Negate(AnyOf(parts)), d) <==> Matches(parse, AllOf(Negations(parts)), d)
  {
    var nots := Negations(parts);
    NegateMeans(parse, AllOf(parts), d);
    NegateMeans(parse, AnyOf(parts), d);
    forall i | 0 <= i < |parts| ensures Matches(parse, nots[i], d) <==> !Matches(parse, parts[i], d) {
      NegateMeans(parse, parts[i], d);
    }
    AllOfMeans(parse, parts, d);
    AllOfMeans(parse, nots, d);
    AnyOfMeans(parse, parts, d);
    AnyOfMeans(parse, nots, d);
    hide Matches;
  }

  lemma AllOfMeans(parse: Parse, parts: seq<FilterExpr>, d: Doc)
    ensures Matches(parse, AllOf(parts), d) <==> forall i :: 0 <= i < |parts| ==> Matches(parse, parts[i], d)
  {
    assert AllOf(parts).children == parts;
  }

  lemma AnyOfMeans(parse: Parse, parts: seq<FilterExpr>, d: Doc)
    ensures Matches(parse, AnyOf(parts), d) <==> parts == [] || exists i :: 0 <= i < |parts| && Matches(parse, parts[i], d)
  {
    assert AnyOf(parts).children == parts;
  }

  /** $and of two lists asks for both, $or for either; so nesting and order do not matter.
      An empty $or is not the empty disjunction: it holds of everything. */
  lemma ListsJoin(parse: Parse, a: seq<FilterExpr>, b: seq<FilterExpr>, d: Doc)
    ensures Matches(parse, AllOf(a + b), d) <==> Matches(parse, AllOf(a), d) && Matches(parse, AllOf(b), d)
    ensures a != [] && b != [] ==>
      (Matches(parse, AnyOf(a + b), d) <==> Matches(parse, AnyOf(a), d) || Matches(parse, AnyOf(b), d))
    ensures Matches(parse, AnyOf([]), d) && Matches(parse, AllOf([]), d)
  {
    var ab := a + b;
    AllOfMeans(parse, ab, d);
    AllOfMeans(parse, a, d);
    AllOfMeans(parse, b, d);
    AnyOfMeans(parse, ab, d);
    AnyOfMeans(parse, a, d);
    AnyOfMeans(parse, b, d);
    AnyOfMeans(parse, [], d);
    AllOfMeans(parse, [], d);
    hide Matches;
    assert forall i :: 0 <= i < |a| ==> ab[i] == a[i];
    assert forall i :: 0 <= i < |b| ==> ab[|a| + i] == b[i];
    if i :| 0 <= i < |ab| && !Matches(parse, ab[i], d) {
      if i < |a| { assert ab[i] == a[i]; } else { assert ab[i] == b[i - |a|]; }
    }
    if i :| 0 <= i < |ab| && Matches(parse, ab[i], d) {
      if i < |a| { assert ab[i] == a[i]; } else { assert ab[i] == b[i - |a|]; }
    }
  }

  // ---------- builders ----------

  function RangeOf(gte: Option<real>, lte: Option<real>, gt: Option<real>, lt: Option<real>): Range {
    var strictLo := gt.Some? && (gte.None? || gt.value >= gte.value);
    var strictHi := lt.Some? && (lte.None? || lt.value <= lte.value);
    Range(if strictLo then gt else gte, !strictLo, if strictHi then lt else lte, !strictHi)
  }

  /** The four optional bounds all apply, however they overlap. */
  lemma RangeOfMeans(gte: Option<real>, lte: Option<real>, gt: Option<real>, lt: Option<real>, v: real)
    ensures InRange(RangeOf(gte, lte, gt, lt), v) <==>
      && (gte.Some? ==> v >= gte.value) && (gt.Some? ==> v > gt.value)
      && (lte.Some? ==> v <= lte.value) && (lt.Some? ==> v < lt.value)
  {
  }

  /** A range selects the documents whose key reads as a number within the bounds. */
  lemma RangeSelects(parse: Parse, key: string, gte: Option<real>, lte: Option<real>, gt: Option<real>, lt: Option<real>, d: Doc)
    requires key != CREATED_AT && key != ID
    ensures Matches(parse, FilterExpr(RANGE, key, [], RangeOf(gte, lte, gt, lt), true, []), d) <==>
      && key in d.payload && parse(d.payload[key]).Some?
      && var v := parse(d.payload[key]).value;
      && (gte.Some? ==> v >= gte.value) && (gt.Some? ==> v > gt.value)
      && (lte.Some? ==> v <= lte.value) && (lt.Some? ==> v < lt.value)
  {
    if key in d.payload && parse(d.payload[key]).Some? { RangeOfMeans(gte, lte, gt, lt, parse(d.payload[key]).value); }
  }

  function AllOf(parts: seq<FilterExpr>): FilterExpr {
    FilterExpr(AND, "", [], EVERYTHING, true, parts)
  }

  function EqText(key: string, value: string): FilterExpr {
    FilterExpr(EQ, key, [FilterValue(value, None)], EVERYTHING, true, [])
  }

  /** Up to the first '=' the key, after it the value; without one there is no filter. */
  function Legacy(s: string, i: nat): Option<FilterExpr>
    requires i <= |s|
    decreases |s| - i
  {
    if i == |s| then None
    else if s[i] == '=' then Some(EqText(s[..i], s[i + 1..]))
    else Legacy(s, i + 1)
  }

  /** A legacy filter is split at its first '='; the value may hold more of them. */
  lemma {:induction false} LegacySplits(key: string, value: string, i: nat)
    requires '=' !in key && i <= |key|
    ensures Legacy(key + "=" + value, i) == Some(EqText(key, value))
    decreases |key| - i
  {
    var s := key + "=" + value;
    if i < |key| {
      assert s[i] == key[i];
      LegacySplits(key, value, i + 1);
    } else {
      assert s[..i] == key && s[i + 1..] == value;
    }
  }

  /** A text has the form of a legacy filter exactly when it holds a '='. */
  lemma {:induction false} LegacyIff(s: string, i: nat)
    requires i <= |s|
    ensures Legacy(s, i).Some? <==> '=' in s[i..]
    decreases |s| - i
  {
    if i < |s| {
      assert s[i..] == [s[i]] + s[i + 1..];
      LegacyIff(s, i + 1);
    }
  }

  /** "key=value" selects exactly the documents that store the value under the key. */
  lemma LegacySelects(parse: Parse, key: string, value: string, d: Doc)
    requires '=' !in key && key != CREATED_AT && key != ID
    ensures Legacy(key + "=" + value, 0).Some?
    ensures Matches(parse, Legacy(key + "=" + value, 0).value, d) <==> key in d.payload && d.payload[key] == value
  {
    LegacySplits(key, value, 0);
    EqMeans(parse, key, FilterValue(value, None), d);
  }

  /** Structured filter, legacy filter and as_of cut-off together. */
  method EffectiveFilter(expr: Option<FilterExpr>, legacy: string, asOf: Option<int>) returns (f: Option<FilterExpr>)
    ensures forall parse: Parse, d: Doc ::
      (f.None? || Matches(parse, f.value, d)) <==> Effective(parse, expr, legacy, asOf, d)
  {
    var parts: seq<FilterExpr> := [];
    if expr.Some? { parts := parts + [expr.value]; }
    if legacy != "" {
      var l := Legacy(legacy, 0);
      if l.Some? { parts := parts + [l.value]; }
    }
    if asOf.Some? {
      parts := parts + [FilterExpr(RANGE, CREATED_AT, [], RangeOf(None, Some(asOf.value as real), None, None), true, [])];
    }
    forall parse: Parse, d: Doc
      ensures (forall i :: 0 <= i < |parts| ==> Matches(parse, parts[i], d)) <==> Effective(parse, expr, legacy, asOf, d)
    {
      PartsMean(parse, parts, expr, legacy, asOf, d);
    }
    if parts == [] { return None; }
    if |parts| == 1 { return Some(parts[0]); }
    return Some(AllOf(parts));
  }

  /** What a query asks for: each restriction that is given holds. */
  predicate Effective(parse: Parse, expr: Option<FilterExpr>, legacy: string, asOf: Option<int>, d: Doc) {
    && (expr.Some? ==> Matches(parse, expr.value, d))
    && (legacy != "" && Legacy(legacy, 0).Some? ==> Matches(parse, Legacy(legacy, 0).value, d))
    && (asOf.Some? ==> d.createdAt <= asOf.value)
  }

  lemma PartsMean(parse: Parse, parts: seq<FilterExpr>, expr: Option<FilterExpr>, legacy: string, asOf: Option<int>, d: Doc)
    requires var l := if legacy != "" then Legacy(legacy, 0) else None;
      parts == (if expr.Some? then [expr.value] else []) + (if l.Some? then [l.value] else [])
        + (if asOf.Some?
           then [FilterExpr(RANGE, CREATED_AT, [], RangeOf(None, Some(asOf.value as real), None, None), true, [])] else [])
    ensures (forall i :: 0 <= i < |parts| ==> Matches(parse, parts[i], d)) <==> Effective(parse, expr, legacy, asOf, d)
  {
    var l := if legacy != "" then Legacy(legacy, 0) else None;
    hide Legacy;
    if expr.Some? { assert parts[0] == expr.value; }
    if l.Some? { assert parts[if expr.Some? then 1 else 0] == l.value; }
    if asOf.Some? { assert parts[|parts| - 1].op == RANGE; }
  }
}
