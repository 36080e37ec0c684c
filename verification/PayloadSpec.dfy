/** What PayloadIndex knows after a sequence of adds, read off the sequence
    itself, and why its estimates bound the number of matching documents. */
module PayloadSpec {
  import opened Wrappers
  import opened Filters
  import opened NumericIndex

  /** One call of add: the internal id and the document as it was then. */
  datatype Added = Added(iid: nat, doc: Doc)

  /** Resolves a document id to an internal id. */
  type Lookup = string -> Option<nat>

  const MAX_KEYWORD := 128

  datatype History = History(parse: Parse, enabled: bool, text: string, adds: seq<Added>)

  // ---------- what the index holds ----------

  predicate Indexable(text: string, key: string, value: string) {
    key != text && |value| <= MAX_KEYWORD
  }

  function CreatedItems(adds: seq<Added>): seq<Item> {
    if adds == [] then []
    else
      var a := adds[|adds| - 1];
      CreatedItems(adds[..|adds| - 1]) + [Item(a.doc.createdAt as real, a.iid)]
  }

  function NumberItem(parse: Parse, a: Added, key: string): seq<Item> {
    if key in a.doc.payload && parse(a.doc.payload[key]).Some? then [Item(parse(a.doc.payload[key]).value, a.iid)] else []
  }

  function NumberItems(parse: Parse, adds: seq<Added>, key: string): seq<Item> {
    if adds == [] then []
    else NumberItems(parse, adds[..|adds| - 1], key) + NumberItem(parse, adds[|adds| - 1], key)
  }

  predicate HasValue(text: string, a: Added, key: string, value: string) {
    key in a.doc.payload && a.doc.payload[key] == value && Indexable(text, key, value)
  }

  function Postings(text: string, adds: seq<Added>, key: string, value: string): seq<nat> {
    if adds == [] then []
    else
      var a := adds[|adds| - 1];
      Postings(text, adds[..|adds| - 1], key, value) + (if HasValue(text, a, key, value) then [a.iid] else [])
  }

  predicate KeyComplete(text: string, adds: seq<Added>, key: string) {
    forall i :: 0 <= i < |adds| && key in adds[i].doc.payload ==> Indexable(text, key, adds[i].doc.payload[key])
  }

  predicate KeyUsed(adds: seq<Added>, key: string) {
    exists i :: 0 <= i < |adds| && key in adds[i].doc.payload
  }

  // ---------- estimates ----------

  function Point(x: real): Range {
    Range(Some(x), true, Some(x), true)
  }

  function EstimateValue(h: History, key: string, v: FilterValue, ids: Lookup): Option<nat> {
    if key == ID then Some(if ids(v.str).Some? then 1 else 0)
    else if key == CREATED_AT then
      var n := if v.num.Some? then v.num else h.parse(v.str);
      Some(if n.Some? then Hits(CreatedItems(h.adds), Point(n.value)) else 0)
    else if !h.enabled then None
    else if v.num.Some? then Some(Hits(NumberItems(h.parse, h.adds, key), Point(v.num.value)))
    else if !KeyComplete(h.text, h.adds, key) then None
    else Some(|Postings(h.text, h.adds, key, v.str)|)
  }

  function EstimateValues(h: History, key: string, values: seq<FilterValue>, ids: Lookup): Option<nat> {
    if values == [] then Some(0)
    else
      var rest := EstimateValues(h, key, values[..|values| - 1], ids);
      var e := EstimateValue(h, key, values[|values| - 1], ids);
      if rest.None? || e.None? then None else Some(rest.value + e.value)
  }

  function Smaller(a: Option<nat>, b: Option<nat>): Option<nat> {
    if b.Some? && (a.None? || b.value < a.value) then b else a
  }

  /** Smallest answer among the first i children. */
  function EstimateAll(h: History, f: FilterExpr, ids: Lookup, i: nat): Option<nat>
    requires i <= |f.children|
    decreases f, i
  {
    if i == 0 then None else Smaller(EstimateAll(h, f, ids, i - 1), EstimateOf(h, f.children[i - 1], ids))
  }

  /** Sum of the answers of the first i children; none if one gives none. */
  function EstimateAny(h: History, f: FilterExpr, ids: Lookup, i: nat): Option<nat>
    requires i <= |f.children|
    decreases f, i
  {
    if i == 0 then Some(0)
    else
      var rest := EstimateAny(h, f, ids, i - 1);
      var e := EstimateOf(h, f.children[i - 1], ids);
      if rest.None? || e.None? then None else Some(rest.value + e.value)
  }

  function EstimateOf(h: History, f: FilterExpr, ids: Lookup): Option<nat>
    decreases f, |f.children| + 1
  {
    match f.op
    case AND => EstimateAll(h, f, ids, |f.children|)
    case OR => EstimateAny(h, f, ids, |f.children|)
    case EQ => EstimateValues(h, f.key, f.values, ids)
    case IN => EstimateValues(h, f.key, f.values, ids)
    case RANGE =>
      if f.key == CREATED_AT then Some(Hits(CreatedItems(h.adds), f.range))
      else if f.key == ID || !h.enabled then None
      else Some(Hits(NumberItems(h.parse, h.adds, f.key), f.range))
    case _ => None
  }

  // ---------- the documents that exist now ----------

  /** Every live document was added as it is now, and the lookup finds it. */
  ghost predicate Consistent(h: History, ids: Lookup, live: set<Added>) {
    && (forall a :: a in live ==> a in h.adds && ids(a.doc.id) == Some(a.iid))
    && (forall a, b :: a in live && b in live && a.iid == b.iid ==> a == b)
  }

  /** No empty OR, and no number compared with the document id. */
  predicate Sane(f: FilterExpr)
    decreases f
  {
    && (f.op == OR ==> f.children != [])
    && (f.op == EQ || f.op == IN ==> f.key == ID ==> forall i :: 0 <= i < |f.values| ==> f.values[i].num.None?)
    && (f.op == AND || f.op == OR ==> forall i :: 0 <= i < |f.children| ==> Sane(f.children[i]))
  }

  ghost function Matching(parse: Parse, f: FilterExpr, live: set<Added>): set<Added> {
    set a | a in live && Matches(parse, f, a.doc)
  }

  ghost function WithValue(parse: Parse, key: string, v: FilterValue, live: set<Added>): set<Added> {
    set a | a in live && ValueEq(parse, key, v, a.doc)
  }

  // ---------- counting adds ----------

  ghost function Count(adds: seq<Added>, p: Added -> bool): nat {
    if adds == [] then 0 else Count(adds[..|adds| - 1], p) + if p(adds[|adds| - 1]) then 1 else 0
  }

  /** Distinct documents that were all added are no more than the adds. */
  lemma {:induction false} CountCovers(adds: seq<Added>, s: set<Added>, p: Added -> bool)
    requires forall a :: a in s ==> a in adds && p(a)
    ensures |s| <= Count(adds, p)
  {
    if adds == [] {
      assert s == {};
    } else {
      var init, last := adds[..|adds| - 1], adds[|adds| - 1];
      assert adds == init + [last];
      CountCovers(init, s - {last}, p);
      if last in s { assert |s| == |s - {last}| + 1; }
    }
  }

  lemma {:induction false} HitsOfCreated(adds: seq<Added>, r: Range)
    ensures Hits(CreatedItems(adds), r) == Count(adds, (a: Added) => InRange(r, a.doc.createdAt as real))
  {
    if adds != [] {
      var init, last := adds[..|adds| - 1], adds[|adds| - 1];
      HitsOfCreated(init, r);
      ScanConcat(CreatedItems(init), [Item(last.doc.createdAt as real, last.iid)], r);
      OneHit(Item(last.doc.createdAt as real, last.iid), r);
    }
  }

  lemma OneHit(x: Item, r: Range)
    ensures Hits([x], r) == (if InRange(r, x.value) then 1 else 0) && Hits([], r) == 0
    ensures IdsIn([x], r) == (if InRange(r, x.value) then [x.id] else []) && IdsIn([], r) == []
  {
    assert [x][..0] == [];
  }

  predicate NumberIn(parse: Parse, key: string, r: Range, a: Added) {
    key in a.doc.payload && parse(a.doc.payload[key]).Some? && InRange(r, parse(a.doc.payload[key]).value)
  }

  lemma {:induction false} HitsOfNumbers(parse: Parse, adds: seq<Added>, key: string, r: Range)
    ensures Hits(NumberItems(parse, adds, key), r) == Count(adds, (a: Added) => NumberIn(parse, key, r, a))
  {
    if adds != [] {
      var init, last := adds[..|adds| - 1], adds[|adds| - 1];
      HitsOfNumbers(parse, init, key, r);
      ScanConcat(NumberItems(parse, init, key), NumberItem(parse, last, key), r);
      if NumberItem(parse, last, key) != [] { OneHit(NumberItem(parse, last, key)[0], r); } else { OneHit(Item(0.0, 0), r); }
    }
  }

  lemma {:induction false} SizeOfPostings(text: string, adds: seq<Added>, key: string, value: string)
    ensures |Postings(text, adds, key, value)| == Count(adds, (a: Added) => HasValue(text, a, key, value))
  {
    if adds != [] {
      SizeOfPostings(text, adds[..|adds| - 1], key, value);
    }
  }

  // ---------- the bound ----------

  lemma PointIs(x: real, v: real)
    ensures InRange(Point(x), v) <==> v == x
  {
  }

  lemma ValueBound(h: History, key: string, v: FilterValue, ids: Lookup, live: set<Added>)
    requires Consistent(h, ids, live) && EstimateValue(h, key, v, ids).Some? && (key == ID ==> v.num.None?)
    ensures |WithValue(h.parse, key, v, live)| <= EstimateValue(h, key, v, ids).value
  {
    var s := WithValue(h.parse, key, v, live);
    if key == ID {
      IdBound(h, v, ids, live);
    } else if key == CREATED_AT {
      var n := if v.num.Some? then v.num else h.parse(v.str);
      if n.Some? {
        HitsOfCreated(h.adds, Point(n.value));
        CountCovers(h.adds, s, (a: Added) => InRange(Point(n.value), a.doc.createdAt as real));
      } else {
        assert s == {};
      }
    } else if v.num.Some? {
      HitsOfNumbers(h.parse, h.adds, key, Point(v.num.value));
      CountCovers(h.adds, s, (a: Added) => NumberIn(h.parse, key, Point(v.num.value), a));
    } else {
      SizeOfPostings(h.text, h.adds, key, v.str);
      forall a | a in s ensures HasValue(h.text, a, key, v.str) {
        var i :| 0 <= i < |h.adds| && h.adds[i] == a;
      }
      CountCovers(h.adds, s, (a: Added) => HasValue(h.text, a, key, v.str));
    }
  }

  lemma IdBound(h: History, v: FilterValue, ids: Lookup, live: set<Added>)
    requires Consistent(h, ids, live) && v.num.None?
    ensures |WithValue(h.parse, ID, v, live)| <= if ids(v.str).Some? then 1 else 0
  {
    var s := WithValue(h.parse, ID, v, live);
    if s != {} {
      var a :| a in s;
      forall b | b in s ensures b == a {
        assert ids(b.doc.id) == ids(a.doc.id);
      }
      assert s == {a};
    }
  }

  lemma {:induction false} ValuesBound(h: History, key: string, values: seq<FilterValue>, ids: Lookup, live: set<Added>)
    requires Consistent(h, ids, live) && EstimateValues(h, key, values, ids).Some?
    requires key == ID ==> forall i :: 0 <= i < |values| ==> values[i].num.None?
    ensures |set a | a in live && SomeValueEq(h.parse, key, values, a.doc)| <= EstimateValues(h, key, values, ids).value
  {
    var s := set a | a in live && SomeValueEq(h.parse, key, values, a.doc);
    if values == [] {
      assert s == {};
    } else {
      var init, last := values[..|values| - 1], values[|values| - 1];
      ValuesBound(h, key, init, ids, live);
      ValueBound(h, key, last, ids, live);
      var t := set a | a in live && SomeValueEq(h.parse, key, init, a.doc);
      LastValue(h.parse, key, values, live);
      hide SomeValueEq, ValueEq;
      UnionBound(s, t, WithValue(h.parse, key, last, live));
    }
  }

  lemma LastValue(parse: Parse, key: string, values: seq<FilterValue>, live: set<Added>)
    requires values != []
    ensures (set a | a in live && SomeValueEq(parse, key, values, a.doc))
      <= (set a | a in live && SomeValueEq(parse, key, values[..|values| - 1], a.doc))
         + WithValue(parse, key, values[|values| - 1], live)
  {
    hide ValueEq;
    var init := values[..|values| - 1];
    forall a | a in live && SomeValueEq(parse, key, values, a.doc)
      ensures SomeValueEq(parse, key, init, a.doc) || ValueEq(parse, key, values[|values| - 1], a.doc)
    {
      var i :| 0 <= i < |values| && ValueEq(parse, key, values[i], a.doc);
      if i < |init| { assert ValueEq(parse, key, init[i], a.doc); }
    }
  }

  lemma UnionBound(s: set<Added>, t: set<Added>, u: set<Added>)
    requires s <= t + u
    ensures |s| <= |t| + |u|
  {
    SubsetSize(s, t + u);
    assert |t + u| + |t * u| == |t| + |u|;
  }

  lemma SubsetSize(s: set<Added>, t: set<Added>)
    requires s <= t
    ensures |s| <= |t|
  {
    assert t == s + (t - s);
  }

  ghost function AnyMatching(parse: Parse, f: FilterExpr, live: set<Added>, i: nat): set<Added>
    requires i <= |f.children|
  {
    if i == 0 then {} else AnyMatching(parse, f, live, i - 1) + Matching(parse, f.children[i - 1], live)
  }

  lemma {:induction false} AnyBound(h: History, f: FilterExpr, ids: Lookup, live: set<Added>, i: nat)
    requires Consistent(h, ids, live) && i <= |f.children| && EstimateAny(h, f, ids, i).Some?
    requires forall j :: 0 <= j < |f.children| ==> Sane(f.children[j])
    ensures |AnyMatching(h.parse, f, live, i)| <= EstimateAny(h, f, ids, i).value
    decreases f, i
  {
    hide Sane, Consistent, Matches, EstimateOf;
    if i > 0 {
      AnyBound(h, f, ids, live, i - 1);
      EstimateBounds(h, f.children[i - 1], ids, live);
      hide Matching;
      UnionBound(AnyMatching(h.parse, f, live, i), AnyMatching(h.parse, f, live, i - 1),
                 Matching(h.parse, f.children[i - 1], live));
    }
  }

  lemma {:induction false} AnyMatchingIs(parse: Parse, f: FilterExpr, live: set<Added>, i: nat)
    requires i <= |f.children|
    ensures AnyMatching(parse, f, live, i) ==
      set a | a in live && exists j :: 0 <= j < i && Matches(parse, f.children[j], a.doc)
  {
    if i > 0 { AnyMatchingIs(parse, f, live, i - 1); }
  }

  lemma {:induction false} AllBound(h: History, f: FilterExpr, ids: Lookup, live: set<Added>, i: nat)
    requires Consistent(h, ids, live) && i <= |f.children| && EstimateAll(h, f, ids, i).Some? && f.op == AND
    requires forall j :: 0 <= j < |f.children| ==> Sane(f.children[j])
    ensures |Matching(h.parse, f, live)| <= EstimateAll(h, f, ids, i).value
    decreases f, i
  {
    if EstimateAll(h, f, ids, i) == EstimateOf(h, f.children[i - 1], ids) {
      EstimateBounds(h, f.children[i - 1], ids, live);
      SubsetSize(Matching(h.parse, f, live), Matching(h.parse, f.children[i - 1], live));
    } else {
      AllBound(h, f, ids, live, i - 1);
    }
  }

  /** When estimate() answers, no more live documents match. */
  lemma {:induction false} EstimateBounds(h: History, f: FilterExpr, ids: Lookup, live: set<Added>)
    requires Consistent(h, ids, live) && Sane(f) && EstimateOf(h, f, ids).Some?
    ensures |Matching(h.parse, f, live)| <= EstimateOf(h, f, ids).value
    decreases f, |f.children| + 1
  {
    var s := Matching(h.parse, f, live);
    match f.op
    case AND => AllBound(h, f, ids, live, |f.children|);
    case OR =>
      AnyBound(h, f, ids, live, |f.children|);
      AnyMatchingIs(h.parse, f, live, |f.children|);
      SubsetSize(s, AnyMatching(h.parse, f, live, |f.children|));
    case EQ =>
      ValuesBound(h, f.key, f.values, ids, live);
      assert s == set a | a in live && SomeValueEq(h.parse, f.key, f.values, a.doc);
    case IN =>
      ValuesBound(h, f.key, f.values, ids, live);
      assert s == set a | a in live && SomeValueEq(h.parse, f.key, f.values, a.doc);
    case RANGE =>
      if f.key == CREATED_AT {
        HitsOfCreated(h.adds, f.range);
        CountCovers(h.adds, s, (a: Added) => InRange(f.range, a.doc.createdAt as real));
      } else {
        HitsOfNumbers(h.parse, h.adds, f.key, f.range);
        CountCovers(h.adds, s, (a: Added) => NumberIn(h.parse, f.key, f.range, a));
      }
    case _ =>
  }

  // ---------- how tight it is ----------

  lemma {:induction false} SameCount(adds: seq<Added>, p: Added -> bool, q: Added -> bool)
    requires forall a :: a in adds ==> p(a) == q(a)
    ensures Count(adds, p) == Count(adds, q)
  {
    if adds != [] {
      var init, last := adds[..|adds| - 1], adds[|adds| - 1];
      assert adds == init + [last];
      assert last in adds;
      SameCount(init, p, q);
    }
  }

  /** The estimate of a range is exactly the number of adds that match it. */
  lemma RangeIsExact(h: History, f: FilterExpr, ids: Lookup)
    requires f.op == RANGE && EstimateOf(h, f, ids).Some?
    ensures EstimateOf(h, f, ids).value == Count(h.adds, (a: Added) => Matches(h.parse, f, a.doc))
  {
    var p := (a: Added) => Matches(h.parse, f, a.doc);
    if f.key == CREATED_AT {
      HitsOfCreated(h.adds, f.range);
      SameCount(h.adds, (a: Added) => InRange(f.range, a.doc.createdAt as real), p);
    } else {
      HitsOfNumbers(h.parse, h.adds, f.key, f.range);
      SameCount(h.adds, (a: Added) => NumberIn(h.parse, f.key, f.range, a), p);
    }
  }

  /** So is that of one value of a key, unless the key is the document id. */
  lemma ValueIsExact(h: History, key: string, v: FilterValue, ids: Lookup)
    requires key != ID && EstimateValue(h, key, v, ids).Some?
    ensures EstimateValue(h, key, v, ids).value == Count(h.adds, (a: Added) => ValueEq(h.parse, key, v, a.doc))
  {
    var p := (a: Added) => ValueEq(h.parse, key, v, a.doc);
    if key == CREATED_AT {
      CreatedIsExact(h, v);
    } else if v.num.Some? {
      HitsOfNumbers(h.parse, h.adds, key, Point(v.num.value));
      SameCount(h.adds, (a: Added) => NumberIn(h.parse, key, Point(v.num.value), a), p);
    } else {
      TextIsExact(h, key, v);
    }
  }

  lemma CreatedIsExact(h: History, v: FilterValue)
    ensures var n := if v.num.Some? then v.num else h.parse(v.str);
      (if n.Some? then Hits(CreatedItems(h.adds), Point(n.value)) else 0)
        == Count(h.adds, (a: Added) => ValueEq(h.parse, CREATED_AT, v, a.doc))
  {
    var p := (a: Added) => ValueEq(h.parse, CREATED_AT, v, a.doc);
    var n := if v.num.Some? then v.num else h.parse(v.str);
    if n.Some? {
      HitsOfCreated(h.adds, Point(n.value));
      SameCount(h.adds, (a: Added) => InRange(Point(n.value), a.doc.createdAt as real), p);
    } else {
      SameCount(h.adds, (a: Added) => false, p);
      CountNone(h.adds);
    }
  }

  lemma TextIsExact(h: History, key: string, v: FilterValue)
    requires key != ID && key != CREATED_AT && v.num.None? && KeyComplete(h.text, h.adds, key)
    ensures |Postings(h.text, h.adds, key, v.str)| == Count(h.adds, (a: Added) => ValueEq(h.parse, key, v, a.doc))
  {
    SizeOfPostings(h.text, h.adds, key, v.str);
    forall a | a in h.adds ensures HasValue(h.text, a, key, v.str) == ValueEq(h.parse, key, v, a.doc) {
      var i :| 0 <= i < |h.adds| && h.adds[i] == a;
    }
    SameCount(h.adds, (a: Added) => HasValue(h.text, a, key, v.str), (a: Added) => ValueEq(h.parse, key, v, a.doc));
  }

  /** So is that of an equality with one value. */
  lemma EqIsExact(h: History, f: FilterExpr, ids: Lookup)
    requires f.op == EQ && |f.values| == 1 && f.key != ID && EstimateOf(h, f, ids).Some?
    ensures EstimateOf(h, f, ids).value == Count(h.adds, (a: Added) => Matches(h.parse, f, a.doc))
  {
    var v := f.values[0];
    assert f.values[..0] == [] && EstimateValues(h, f.key, [], ids) == Some(0);
    assert EstimateOf(h, f, ids) == EstimateValue(h, f.key, v, ids);
    ValueIsExact(h, f.key, v, ids);
    hide EstimateValue, ValueEq;
    SameCount(h.adds, (a: Added) => ValueEq(h.parse, f.key, v, a.doc), (a: Added) => Matches(h.parse, f, a.doc));
  }

  lemma {:induction false} CountNone(adds: seq<Added>)
    ensures Count(adds, (a: Added) => false) == 0
  {
    if adds != [] { CountNone(adds[..|adds| - 1]); }
  }

  lemma {:induction false} LeastOfFirst(h: History, f: FilterExpr, ids: Lookup, i: nat)
    requires i <= |f.children|
    ensures var e := EstimateAll(h, f, ids, i);
      && (forall j :: 0 <= j < i && EstimateOf(h, f.children[j], ids).Some? ==>
            e.Some? && e.value <= EstimateOf(h, f.children[j], ids).value)
      && (e.Some? ==> exists j :: 0 <= j < i && EstimateOf(h, f.children[j], ids) == e)
    decreases i
  {
    hide EstimateOf;
    if i > 0 { LeastOfFirst(h, f, ids, i - 1); }
  }

  /** $and is estimated as its most selective part that can be estimated, and not at
      all only when no part can be. */
  lemma AndIsLeast(h: History, f: FilterExpr, ids: Lookup)
    requires f.op == AND
    ensures var e := EstimateOf(h, f, ids);
      && (forall j :: 0 <= j < |f.children| && EstimateOf(h, f.children[j], ids).Some? ==>
            e.Some? && e.value <= EstimateOf(h, f.children[j], ids).value)
      && (e.Some? ==> exists j :: 0 <= j < |f.children| && EstimateOf(h, f.children[j], ids) == e)
  {
    LeastOfFirst(h, f, ids, |f.children|);
  }

  lemma {:induction false} FirstOfBoth(h: History, a: seq<FilterExpr>, b: seq<FilterExpr>, ids: Lookup, i: nat)
    requires i <= |a| + |b|
    ensures var part, rest := EstimateAny(h, AnyOf(a), ids, if i < |a| then i else |a|),
                              EstimateAny(h, AnyOf(b), ids, if i < |a| then 0 else i - |a|);
      EstimateAny(h, AnyOf(a + b), ids, i) ==
        if part.None? || rest.None? then None else Some(part.value + rest.value)
    decreases i
  {
    hide EstimateOf;
    if i > 0 {
      FirstOfBoth(h, a, b, ids, i - 1);
      assert AnyOf(a + b).children == a + b && AnyOf(a).children == a && AnyOf(b).children == b;
      if i <= |a| { assert (a + b)[i - 1] == a[i - 1]; } else { assert (a + b)[i - 1] == b[i - 1 - |a|]; }
    }
  }

  /** $or is estimated as the sum of its parts, and only when all of them can be. */
  lemma OrAdds(h: History, a: seq<FilterExpr>, b: seq<FilterExpr>, ids: Lookup)
    ensures var x, y := EstimateOf(h, AnyOf(a), ids), EstimateOf(h, AnyOf(b), ids);
      EstimateOf(h, AnyOf(a + b), ids) == if x.None? || y.None? then None else Some(x.value + y.value)
  {
    assert AnyOf(a + b).children == a + b && AnyOf(a).children == a && AnyOf(b).children == b;
    FirstOfBoth(h, a, b, ids, |a| + |b|);
  }

  lemma OrOfOne(h: History, f: FilterExpr, ids: Lookup)
    ensures EstimateOf(h, AnyOf([f]), ids) == EstimateOf(h, f, ids)
  {
    var g := AnyOf([f]);
    assert g.children == [f] && g.children[0] == f;
    assert EstimateAny(h, g, ids, 0) == Some(0);
  }

  // ---------- the two filters the index answers wrongly ----------

  /** {"$or": []} matches every document, but is estimated at none. */
  lemma EmptyOrIsWrong(h: History, f: FilterExpr, ids: Lookup, live: set<Added>)
    requires f.op == OR && f.children == [] && live != {}
    ensures !Sane(f) && EstimateOf(h, f, ids) == Some(0) && Matching(h.parse, f, live) == live
  {
  }

  /** The document id compared with one value. */
  function IdIs(v: FilterValue): FilterExpr {
    FilterExpr(EQ, ID, [v], EVERYTHING, true, [])
  }

  lemma IdEstimate(h: History, v: FilterValue, ids: Lookup)
    ensures EstimateOf(h, IdIs(v), ids) == Some(if ids(v.str).Some? then 1 else 0)
  {
    assert EstimateValues(h, ID, [v][..0], ids) == Some(0);
    assert EstimateValue(h, ID, v, ids) == Some(if ids(v.str).Some? then 1 else 0);
  }

  lemma IdMatches(parse: Parse, v: FilterValue, d: Doc)
    ensures Matches(parse, IdIs(v), d) <==> if v.num.Some? then parse(d.id) == v.num else d.id == v.str
  {
    assert [v][0] == v;
  }

  /** Whatever was added, no more live documents match than estimate() says. */
  ghost predicate IdBounded(parse: Parse, v: FilterValue) {
    forall h: History, ids: Lookup, live: set<Added> {:trigger Consistent(h, ids, live)} ::
      h.parse == parse && Consistent(h, ids, live)
      ==> EstimateOf(h, IdIs(v), ids).Some? && |Matching(parse, IdIs(v), live)| <= EstimateOf(h, IdIs(v), ids).value
  }

  /** Document `id`, which matches by its number, is the only one there is. */
  lemma OtherText(parse: Parse, v: FilterValue, id: string)
    requires v.num.Some? && parse(id) == v.num && id != v.str
    ensures !IdBounded(parse, v)
  {
    var x := Added(1, Doc(id, map[], 0));
    var h := History(parse, true, "", [x]);
    var ids := s => if s == id then Some(1) else None;
    assert h.adds[0] == x;
    assert Consistent(h, ids, {x});
    IdEstimate(h, v, ids);
    IdMatches(parse, v, x.doc);
    assert Matching(parse, IdIs(v), {x}) == {x};
  }

  lemma OneText(h: History, v: FilterValue, ids: Lookup, live: set<Added>)
    requires v.num.Some? && Consistent(h, ids, live) && forall id: string :: h.parse(id) == v.num ==> id == v.str
    ensures EstimateOf(h, IdIs(v), ids).Some? && |Matching(h.parse, IdIs(v), live)| <= EstimateOf(h, IdIs(v), ids).value
  {
    IdEstimate(h, v, ids);
    var s := Matching(h.parse, IdIs(v), live);
    if a :| a in s {
      IdMatches(h.parse, v, a.doc);
      forall b | b in s ensures b == a {
        IdMatches(h.parse, v, b.doc);
      }
      assert s == {a};
    } else {
      assert s == {};
    }
  }

  /** A number compared with the document id is matched as a number but looked
      up as text: the estimate is a bound exactly when no other text is that number. */
  lemma NumericIdIff(parse: Parse, v: FilterValue)
    requires v.num.Some?
    ensures IdBounded(parse, v) <==> forall id: string :: parse(id) == v.num ==> id == v.str
  {
    if id: string :| parse(id) == v.num && id != v.str {
      OtherText(parse, v, id);
    } else {
      forall h: History, ids: Lookup, live: set<Added> | h.parse == parse && Consistent(h, ids, live)
        ensures EstimateOf(h, IdIs(v), ids).Some? && |Matching(parse, IdIs(v), live)| <= EstimateOf(h, IdIs(v), ids).value
      {
        OneText(h, v, ids, live);
      }
    }
  }
}
