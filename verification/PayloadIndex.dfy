/** The payload index as the program keeps it: keyword postings, one numeric
    index per key and one over creation times (index/payload_index.hpp). */
module PayloadIndex {
  import opened Wrappers
  import opened Filters
  import opened NumericIndex
  import opened PayloadSpec

  datatype Keyword = Keyword(postings: map<string, seq<nat>>, complete: bool)

  function PostingsAt(keyword: map<string, Keyword>, key: string, value: string): seq<nat> {
    if key in keyword && value in keyword[key].postings then keyword[key].postings[value] else []
  }

  /** The keyword index of a key is what the adds say. */
  ghost predicate KeywordOk(keyword: map<string, Keyword>, text: string, adds: seq<Added>, key: string) {
    && (key in keyword <==> KeyUsed(adds, key))
    && (key in keyword ==> keyword[key].complete == KeyComplete(text, adds, key))
    && forall v {:trigger Postings(text, adds, key, v)} :: PostingsAt(keyword, key, v) == Postings(text, adds, key, v)
  }

  // ---------- how the specification moves with one add ----------

  /** x and y are the same add as far as the key goes. */
  predicate SameAt(x: Added, y: Added, key: string) {
    && x.iid == y.iid && (key in x.doc.payload <==> key in y.doc.payload)
    && (key in x.doc.payload ==> x.doc.payload[key] == y.doc.payload[key])
  }

  lemma SameKeyword(text: string, h: seq<Added>, x: Added, y: Added, key: string)
    requires SameAt(x, y, key)
    ensures KeyUsed(h + [x], key) <==> KeyUsed(h + [y], key)
    ensures KeyComplete(text, h + [x], key) <==> KeyComplete(text, h + [y], key)
    ensures forall v :: Postings(text, h + [x], key, v) == Postings(text, h + [y], key, v)
  {
    UsedWith(h, x, key);
    UsedWith(h, y, key);
    CompleteWith(text, h, x, key);
    CompleteWith(text, h, y, key);
    assert (h + [x])[..|h|] == h && (h + [y])[..|h|] == h;
  }

  lemma UsedWith(h: seq<Added>, x: Added, key: string)
    ensures KeyUsed(h + [x], key) <==> KeyUsed(h, key) || key in x.doc.payload
  {
    if KeyUsed(h, key) {
      var i :| 0 <= i < |h| && key in h[i].doc.payload;
      assert (h + [x])[i] == h[i];
    }
    assert (h + [x])[|h|] == x;
  }

  lemma CompleteWith(text: string, h: seq<Added>, x: Added, key: string)
    ensures KeyComplete(text, h + [x], key) <==>
      KeyComplete(text, h, key) && (key in x.doc.payload ==> Indexable(text, key, x.doc.payload[key]))
  {
    if KeyComplete(text, h + [x], key) {
      forall i | 0 <= i < |h| && key in h[i].doc.payload ensures Indexable(text, key, h[i].doc.payload[key]) {
        assert (h + [x])[i] == h[i];
      }
      assert (h + [x])[|h|] == x;
    }
  }

  lemma PostingsWith(text: string, h: seq<Added>, x: Added, key: string, v: string)
    ensures Postings(text, h + [x], key, v) == Postings(text, h, key, v) + if HasValue(text, x, key, v) then [x.iid] else []
  {
    assert (h + [x])[..|h|] == h;
  }

  lemma NumbersWith(parse: Parse, h: seq<Added>, x: Added, key: string)
    ensures NumberItems(parse, h + [x], key) == NumberItems(parse, h, key) + NumberItem(parse, x, key)
  {
    assert (h + [x])[..|h|] == h;
  }

  /** The keyword index of one key after one more value. */
  function WithValueAdded(keyword: map<string, Keyword>, text: string, key: string, value: string, iid: nat): map<string, Keyword> {
    var kw := if key in keyword then keyword[key] else Keyword(map[], true);
    keyword[key :=
      if !Indexable(text, key, value) then kw.(complete := false)
      else kw.(postings := kw.postings[value := PostingsAt(keyword, key, value) + [iid]])]
  }

  lemma KeywordStep(keyword: map<string, Keyword>, text: string, h: seq<Added>, x: Added, y: Added, key: string, value: string)
    requires forall k :: KeywordOk(keyword, text, h + [x], k)
    requires key !in x.doc.payload && y == x.(doc := x.doc.(payload := x.doc.payload[key := value]))
    ensures forall k :: KeywordOk(WithValueAdded(keyword, text, key, value, x.iid), text, h + [y], k)
  {
    var keyword2 := WithValueAdded(keyword, text, key, value, x.iid);
    forall k ensures KeywordOk(keyword2, text, h + [y], k) {
      assert KeywordOk(keyword, text, h + [x], k);
      if k != key {
        SameKeyword(text, h, x, y, k);
      } else {
        ThisKey(keyword, text, h, x, y, key, value);
      }
    }
  }

  lemma ThisKey(keyword: map<string, Keyword>, text: string, h: seq<Added>, x: Added, y: Added, key: string, value: string)
    requires KeywordOk(keyword, text, h + [x], key)
    requires key !in x.doc.payload && y == x.(doc := x.doc.(payload := x.doc.payload[key := value]))
    ensures KeywordOk(WithValueAdded(keyword, text, key, value, x.iid), text, h + [y], key)
  {
    var keyword2 := WithValueAdded(keyword, text, key, value, x.iid);
    UsedWith(h, x, key);
    UsedWith(h, y, key);
    CompleteWith(text, h, x, key);
    CompleteWith(text, h, y, key);
    if key !in keyword { UnusedIsComplete(text, h, key); }
    hide KeyUsed, KeyComplete, Postings;
    forall v ensures PostingsAt(keyword2, key, v) == Postings(text, h + [y], key, v) {
      PostingsStep(keyword, text, h, x, y, key, value, v);
    }
    hide Indexable;
  }

  lemma PostingsStep(keyword: map<string, Keyword>, text: string, h: seq<Added>, x: Added, y: Added, key: string, value: string, v: string)
    requires PostingsAt(keyword, key, v) == Postings(text, h + [x], key, v)
    requires key !in x.doc.payload && y == x.(doc := x.doc.(payload := x.doc.payload[key := value]))
    ensures PostingsAt(WithValueAdded(keyword, text, key, value, x.iid), key, v) == Postings(text, h + [y], key, v)
  {
    PostingsWith(text, h, x, key, v);
    PostingsWith(text, h, y, key, v);
    hide Postings, Indexable;
  }

  lemma UnusedIsComplete(text: string, h: seq<Added>, key: string)
    requires !KeyUsed(h, key)
    ensures KeyComplete(text, h, key)
  {
  }

  lemma NothingAdded(parse: Parse, text: string, h: seq<Added>, x: Added, key: string)
    requires x.doc.payload == map[]
    ensures KeyUsed(h + [x], key) <==> KeyUsed(h, key)
    ensures KeyComplete(text, h + [x], key) <==> KeyComplete(text, h, key)
    ensures forall v :: Postings(text, h + [x], key, v) == Postings(text, h, key, v)
    ensures NumberItems(parse, h + [x], key) == NumberItems(parse, h, key)
  {
    UsedWith(h, x, key);
    CompleteWith(text, h, x, key);
    NumbersWith(parse, h, x, key);
    forall v ensures Postings(text, h + [x], key, v) == Postings(text, h, key, v) {
      PostingsWith(text, h, x, key, v);
    }
  }

  // ---------- sorted candidate lists ----------

  predicate Ascending(s: seq<nat>) {
    forall i, j :: 0 <= i < j < |s| ==> s[i] <= s[j]
  }

  predicate StrictlyAscending(s: seq<nat>) {
    forall i, j :: 0 <= i < j < |s| ==> s[i] < s[j]
  }

  method SortIds(s: seq<nat>) returns (t: seq<nat>)
    ensures |t| == |s| && Ascending(t) && forall x :: x in t <==> x in s
  {
    t := [];
    for i := 0 to |s|
      invariant |t| == i && Ascending(t) && forall x :: x in t <==> x in s[..i]
    {
      var k := |t|;
      while k > 0 && t[k - 1] > s[i]
        invariant 0 <= k <= |t| && forall j :: k <= j < |t| ==> t[j] > s[i]
      {
        k := k - 1;
      }
      Inserted(t, k, s[i]);
      hide Ascending;
      t := t[..k] + [s[i]] + t[k..];
      assert s[..i + 1] == s[..i] + [s[i]];
    }
    assert s[..|s|] == s;
  }

  lemma Inserted(t: seq<nat>, k: nat, x: nat)
    requires Ascending(t) && k <= |t| && (k > 0 ==> t[k - 1] <= x) && forall j :: k <= j < |t| ==> t[j] > x
    ensures Ascending(t[..k] + [x] + t[k..])
    ensures forall y :: y in t[..k] + [x] + t[k..] <==> y in t || y == x
  {
    InsertedOrder(t, k, x);
    InsertedElements(t, k, x);
    hide Ascending;
  }

  lemma InsertedOrder(t: seq<nat>, k: nat, x: nat)
    requires Ascending(t) && k <= |t| && (k > 0 ==> t[k - 1] <= x) && forall j :: k <= j < |t| ==> t[j] > x
    ensures Ascending(t[..k] + [x] + t[k..])
  {
    var u := t[..k] + [x] + t[k..];
    assert forall i :: 0 <= i < |u| ==> u[i] == if i < k then t[i] else if i == k then x else t[i - 1];
    assert forall i :: 0 <= i < k ==> t[i] <= x;
  }

  lemma InsertedElements(t: seq<nat>, k: nat, x: nat)
    requires k <= |t|
    ensures forall y :: y in t[..k] + [x] + t[k..] <==> y in t || y == x
  {
    forall y ensures y in t <==> y in t[..k] || y in t[k..] {
      assert t == t[..k] + t[k..];
    }
  }

  method Unique(s: seq<nat>) returns (t: seq<nat>)
    requires Ascending(s)
    ensures |t| <= |s| && StrictlyAscending(t) && forall x :: x in t <==> x in s
  {
    t := [];
    for i := 0 to |s|
      invariant |t| <= i && StrictlyAscending(t) && (forall x :: x in t <==> x in s[..i])
      invariant t != [] ==> i > 0 && t[|t| - 1] == s[i - 1]
      invariant i > 0 ==> t != []
    {
      assert s[..i + 1] == s[..i] + [s[i]];
      if t == [] || t[|t| - 1] != s[i] { t := t + [s[i]]; }
    }
    assert s[..|s|] == s;
  }

  /** Both lists are walked once, as std::set_intersection does. */
  method Intersect(a: seq<nat>, b: seq<nat>) returns (both: seq<nat>)
    requires StrictlyAscending(a) && Ascending(b)
    ensures |both| <= |a| && StrictlyAscending(both) && forall x :: x in both <==> x in a && x in b
  {
    both := [];
    var i, j := 0, 0;
    while i < |a| && j < |b|
      invariant |both| <= i <= |a| && 0 <= j <= |b| && StrictlyAscending(both)
      invariant forall x :: x in both <==> x in a[..i] && x in b
      invariant forall p, q :: 0 <= p < j && i <= q < |a| ==> b[p] < a[q]
      decreases |a| - i + |b| - j
    {
      assert a[..i + 1] == a[..i] + [a[i]];
      if a[i] < b[j] {
        NotAhead(a, b, i, j);
        i := i + 1;
      } else if b[j] < a[i] {
        j := j + 1;
      } else {
        forall y | 0 <= y < |both| ensures both[y] < a[i] {
          assert both[y] in a[..i];
        }
        both := both + [a[i]];
        i, j := i + 1, j + 1;
      }
    }
    forall x | x in a && x in b ensures x in both {
      var q :| 0 <= q < |a| && a[q] == x;
      var p :| 0 <= p < |b| && b[p] == x;
      if q < i { assert a[..i][q] == x; }
    }
  }

  lemma NotAhead(a: seq<nat>, b: seq<nat>, i: nat, j: nat)
    requires i < |a| && j < |b| && Ascending(b) && a[i] < b[j]
    requires forall p, q :: 0 <= p < j && i <= q < |a| ==> b[p] < a[q]
    ensures a[i] !in b
  {
    forall p | 0 <= p < |b| ensures b[p] != a[i] {
    }
  }

  predicate SmallestFirst(parts: seq<(nat, FilterExpr)>) {
    forall i, j :: 0 <= i < j < |parts| ==> parts[i].0 <= parts[j].0
  }

  lemma InsertedPart(t: seq<(nat, FilterExpr)>, k: nat, x: (nat, FilterExpr))
    requires k <= |t| && SmallestFirst(t)
    requires (k > 0 ==> t[k - 1].0 <= x.0) && forall y :: k <= y < |t| ==> t[y].0 > x.0
    ensures var u := t[..k] + [x] + t[k..];
      SmallestFirst(u) && forall p :: p in u <==> p in t || p == x
  {
    var u := t[..k] + [x] + t[k..];
    assert t == t[..k] + t[k..];
    forall i, j | 0 <= i < j < |u| ensures u[i].0 <= u[j].0 {
      if i < k && j >= k && k > 0 { assert t[i].0 <= t[k - 1].0; }
    }
    assert forall p :: p in u <==> p in t[..k] || p == x || p in t[k..];
    assert forall p :: p in t <==> p in t[..k] || p in t[k..];
  }

  /** The parts of an AND that can be answered, smallest first. */
  method SortParts(parts: seq<(nat, FilterExpr)>) returns (t: seq<(nat, FilterExpr)>)
    ensures |t| == |parts| && SmallestFirst(t) && forall p :: p in t <==> p in parts
  {
    t := [];
    for i := 0 to |parts|
      invariant |t| == i && SmallestFirst(t) && forall p :: p in t <==> p in parts[..i]
    {
      var k := |t|;
      while k > 0 && t[k - 1].0 > parts[i].0
        invariant 0 <= k <= |t| && forall y :: k <= y < |t| ==> t[y].0 > parts[i].0
      {
        k := k - 1;
      }
      InsertedPart(t, k, parts[i]);
      assert parts[..i + 1] == parts[..i] + [parts[i]];
      hide SmallestFirst;
      t := t[..k] + [parts[i]] + t[k..];
    }
    assert parts[..|parts|] == parts;
  }

  const MAX_INTERSECT_RATIO := 64

  /** Every live match is among the candidates. */
  ghost predicate Covers(parse: Parse, f: FilterExpr, live: set<Added>, out: seq<nat>) {
    forall a {:trigger Matches(parse, f, a.doc)} :: a in live && Matches(parse, f, a.doc) ==> a.iid in out
  }

  ghost predicate CoversValue(parse: Parse, key: string, v: FilterValue, live: set<Added>, out: seq<nat>) {
    forall a {:trigger ValueEq(parse, key, v, a.doc)} :: a in live && ValueEq(parse, key, v, a.doc) ==> a.iid in out
  }

  // ---------- a document that was added is among the ids of its entries ----------

  lemma {:induction false} CreatedListed(adds: seq<Added>, r: Range, a: Added)
    requires a in adds && InRange(r, a.doc.createdAt as real)
    ensures a.iid in IdsIn(CreatedItems(adds), r)
  {
    var init, last := adds[..|adds| - 1], adds[|adds| - 1];
    assert adds == init + [last];
    var x := Item(last.doc.createdAt as real, last.iid);
    ScanConcat(CreatedItems(init), [x], r);
    OneHit(x, r);
    if a != last { CreatedListed(init, r, a); }
  }

  lemma {:induction false} NumberListed(parse: Parse, adds: seq<Added>, key: string, r: Range, a: Added)
    requires a in adds && NumberIn(parse, key, r, a)
    ensures a.iid in IdsIn(NumberItems(parse, adds, key), r)
  {
    var init, last := adds[..|adds| - 1], adds[|adds| - 1];
    assert adds == init + [last];
    ScanConcat(NumberItems(parse, init, key), NumberItem(parse, last, key), r);
    if NumberItem(parse, last, key) != [] { OneHit(NumberItem(parse, last, key)[0], r); }
    if a != last { NumberListed(parse, init, key, r, a); }
  }

  lemma {:induction false} PostingListed(text: string, adds: seq<Added>, key: string, v: string, a: Added)
    requires a in adds && HasValue(text, a, key, v)
    ensures a.iid in Postings(text, adds, key, v)
  {
    var init, last := adds[..|adds| - 1], adds[|adds| - 1];
    assert adds == init + [last];
    if a != last { PostingListed(text, init, key, v, a); }
  }

  /** The candidates for one value. */
  function ValueIds(h: History, key: string, v: FilterValue, ids: Lookup): seq<nat> {
    if key == ID then (if ids(v.str).Some? then [ids(v.str).value] else [])
    else if key == CREATED_AT then
      var n := if v.num.Some? then v.num else h.parse(v.str);
      if n.Some? then IdsIn(CreatedItems(h.adds), Point(n.value)) else []
    else if v.num.Some? then IdsIn(NumberItems(h.parse, h.adds, key), Point(v.num.value))
    else Postings(h.text, h.adds, key, v.str)
  }

  lemma ValueListed(h: History, key: string, v: FilterValue, ids: Lookup, live: set<Added>)
    requires Consistent(h, ids, live) && EstimateValue(h, key, v, ids).Some? && (key == ID ==> v.num.None?)
    ensures CoversValue(h.parse, key, v, live, ValueIds(h, key, v, ids))
  {
    forall a | a in live && ValueEq(h.parse, key, v, a.doc) ensures a.iid in ValueIds(h, key, v, ids) {
      if key == CREATED_AT {
        CreatedListed(h.adds, Point(a.doc.createdAt as real), a);
      } else if key != ID && v.num.Some? {
        NumberListed(h.parse, h.adds, key, Point(v.num.value), a);
      } else if key != ID {
        var i :| 0 <= i < |h.adds| && h.adds[i] == a;
        PostingListed(h.text, h.adds, key, v.str, a);
      }
    }
  }

  lemma RangeListed(h: History, f: FilterExpr, ids: Lookup, live: set<Added>, out: seq<nat>)
    requires Consistent(h, ids, live) && f.op == RANGE && EstimateOf(h, f, ids).Some?
    requires var items := if f.key == CREATED_AT then CreatedItems(h.adds) else NumberItems(h.parse, h.adds, f.key);
      forall x :: x in IdsIn(items, f.range) ==> x in out
    ensures Covers(h.parse, f, live, out)
  {
    forall a | a in live && Matches(h.parse, f, a.doc) ensures a.iid in out {
      if f.key == CREATED_AT {
        CreatedListed(h.adds, f.range, a);
      } else {
        NumberListed(h.parse, h.adds, f.key, f.range, a);
      }
    }
  }

  /** Distinct keys have distinct index objects. */
  ghost predicate Separate(numeric: map<string, Index>, created: Index) {
    && (forall k :: k in numeric ==> numeric[k] != created)
    && forall k, l :: k in numeric && l in numeric && k != l ==> numeric[k] != numeric[l]
  }

  lemma StillSeparate(numeric: map<string, Index>, key: string, index: Index, created: Index)
    requires Separate(numeric, created) && index !in numeric.Values && index != created
    ensures Separate(numeric[key := index], created)
  {
  }

  class PayloadIndex {
    const parse: Parse
    const enabled: bool
    const text: string
    var keyword: map<string, Keyword>
    var numeric: map<string, Index>
    var created: Index
    ghost var adds: seq<Added>

    ghost predicate NumbersOk(h: seq<Added>)
      reads this, numeric.Values
    {
      && (forall k :: k in numeric ==> numeric[k].Valid())
      && (forall k {:trigger NumberItems(parse, h, k)} ::
            NumberItems(parse, h, k) == if k in numeric then numeric[k].added else [])
    }

    ghost predicate Valid()
      reads this, created, numeric.Values
    {
      && Separate(numeric, created) && created.Valid() && created.added == CreatedItems(adds)
      && (enabled ==> (forall k :: KeywordOk(keyword, text, adds, k)) && NumbersOk(adds))
    }

    ghost function H(): History
      reads this
    {
      History(parse, enabled, text, adds)
    }

    constructor (parse: Parse, enabled: bool, text: string)
      ensures Valid() && adds == [] && this.parse == parse && this.enabled == enabled && this.text == text
    {
      this.parse, this.enabled, this.text := parse, enabled, text;
      keyword, numeric, adds := map[], map[], [];
      created := new Index();
    }

    /** Adds one value under one key. */
    method AddKey(key: string, value: string, iid: nat, ghost h: seq<Added>, ghost x: Added)
      requires Separate(numeric, created) && NumbersOk(h + [x]) && forall k :: KeywordOk(keyword, text, h + [x], k)
      requires key !in x.doc.payload && x.iid == iid
      modifies this`keyword, this`numeric, numeric.Values
      ensures Separate(numeric, created) && (forall k :: k in numeric && k !in old(numeric) ==> fresh(numeric[k]))
      ensures forall k :: k in old(numeric) ==> k in numeric && numeric[k] == old(numeric[k])
      ensures var y := x.(doc := x.doc.(payload := x.doc.payload[key := value]));
        NumbersOk(h + [y]) && forall k :: KeywordOk(keyword, text, h + [y], k)
    {
      ghost var y := x.(doc := x.doc.(payload := x.doc.payload[key := value]));
      KeywordStep(keyword, text, h, x, y, key, value);
      keyword := WithValueAdded(keyword, text, key, value, iid);
      AddNumber(key, value, iid, h, x);
    }

    method AddNumber(key: string, value: string, iid: nat, ghost h: seq<Added>, ghost x: Added)
      requires Separate(numeric, created) && NumbersOk(h + [x]) && key !in x.doc.payload && x.iid == iid
      modifies this`numeric, numeric.Values
      ensures Separate(numeric, created) && (forall k :: k in numeric && k !in old(numeric) ==> fresh(numeric[k]))
      ensures forall k :: k in old(numeric) ==> k in numeric && numeric[k] == old(numeric[k])
      ensures NumbersOk(h + [x.(doc := x.doc.(payload := x.doc.payload[key := value]))])
    {
      ghost var y := x.(doc := x.doc.(payload := x.doc.payload[key := value]));
      NumbersStep(parse, h, x, y, key);
      hide NumberItems, NumberItem;
      var n := parse(value);
      if n.Some? {
        OpenNumeric(key, h + [x]);
        PushNumber(key, n.value, iid, h + [x], h + [y]);
      }
    }

    /** Makes sure the key has a numeric index. */
    method OpenNumeric(key: string, ghost h: seq<Added>)
      requires Separate(numeric, created) && NumbersOk(h)
      modifies this`numeric
      ensures Separate(numeric, created) && NumbersOk(h) && key in numeric
      ensures forall k :: k in old(numeric) ==> k in numeric && numeric[k] == old(numeric[k])
      ensures forall k :: k in numeric && k !in old(numeric) ==> fresh(numeric[k])
    {
      hide NumberItems, Ordered, Separate;
      if key !in numeric {
        var index := new Index();
        numeric := numeric[key := index];
        StillSeparate(old(numeric), key, index, created);
      }
    }

    method PushNumber(key: string, v: real, iid: nat, ghost h: seq<Added>, ghost h2: seq<Added>)
      requires Separate(numeric, created) && NumbersOk(h) && key in numeric
      requires forall k {:trigger NumberItems(parse, h2, k)} ::
        NumberItems(parse, h2, k) == NumberItems(parse, h, k) + if k == key then [Item(v, iid)] else []
      modifies numeric[key]
      ensures NumbersOk(h2)
    {
      hide NumberItems, Index.Valid;
      forall k ensures NumberItems(parse, h, k) == if k in numeric then numeric[k].added else [] {
      }
      numeric[key].Add(v, iid);
      forall k ensures NumberItems(parse, h2, k) == if k in numeric then numeric[k].added else [] {
        assert NumberItems(parse, h, k) == if k in numeric then old(numeric[k].added) else [];
      }
    }

    method Add(iid: nat, doc: Doc)
      requires Valid()
      modifies this, created, numeric.Values
      ensures Valid() && adds == old(adds) + [Added(iid, doc)]
    {
      ghost var h := adds;
      created.Add(doc.createdAt as real, iid);
      assert (h + [Added(iid, doc)])[..|h|] == h;
      adds := adds + [Added(iid, doc)];
      if enabled { AddPayload(iid, doc, h); }
    }

    method AddPayload(iid: nat, doc: Doc, ghost h: seq<Added>)
      requires Separate(numeric, created) && NumbersOk(h) && forall k :: KeywordOk(keyword, text, h, k)
      modifies this`keyword, this`numeric, numeric.Values
      ensures Separate(numeric, created) && (forall k :: k in numeric && k !in old(numeric) ==> fresh(numeric[k]))
      ensures forall k :: k in old(numeric) ==> k in numeric && numeric[k] == old(numeric[k])
      ensures NumbersOk(h + [Added(iid, doc)]) && forall k :: KeywordOk(keyword, text, h + [Added(iid, doc)], k)
    {
      ghost var x := Added(iid, doc.(payload := map[]));
      NothingYet(h, x);
      var rest := doc.payload.Keys;
      while rest != {}
        invariant rest <= doc.payload.Keys && x.iid == iid && x.doc == doc.(payload := x.doc.payload)
        invariant x.doc.payload == doc.payload - rest
        invariant Separate(numeric, created) && (forall k :: k in numeric && k !in old(numeric) ==> fresh(numeric[k]))
        invariant forall k :: k in old(numeric) ==> k in numeric && numeric[k] == old(numeric[k])
        invariant NumbersOk(h + [x]) && forall k :: KeywordOk(keyword, text, h + [x], k)
      {
        var key :| key in rest;
        AddKey(key, doc.payload[key], iid, h, x);
        x := x.(doc := x.doc.(payload := x.doc.payload[key := doc.payload[key]]));
        rest := rest - {key};
      }
      assert x.doc.payload == doc.payload;
    }

    lemma NothingYet(h: seq<Added>, x: Added)
      requires x.doc.payload == map[] && NumbersOk(h) && forall k :: KeywordOk(keyword, text, h, k)
      ensures NumbersOk(h + [x]) && forall k :: KeywordOk(keyword, text, h + [x], k)
    {
      forall k ensures KeywordOk(keyword, text, h + [x], k) && NumberItems(parse, h + [x], k) == NumberItems(parse, h, k) {
        assert KeywordOk(keyword, text, h, k);
        NothingAdded(parse, text, h, x, k);
      }
      hide NumberItems;
    }

    // ---------- estimates ----------

    method CountNumbers(key: string, r: Range) returns (n: nat)
      requires Valid() && enabled
      ensures n == Hits(NumberItems(parse, adds, key), r)
    {
      hide Hits, NumberItems;
      assert NumberItems(parse, adds, key) == if key in numeric then numeric[key].added else [];
      if key !in numeric {
        EmptyScan(r);
        return 0;
      }
      n := numeric[key].Count(r);
    }

    method ValueEstimate(key: string, v: FilterValue, ids: Lookup) returns (n: Option<nat>)
      requires Valid()
      ensures n == EstimateValue(H(), key, v, ids)
    {
      if key == ID { return Some(if ids(v.str).Some? then 1 else 0); }
      if key == CREATED_AT {
        var x := if v.num.Some? then v.num else parse(v.str);
        if x.None? { return Some(0); }
        var c := created.Count(Point(x.value));
        return Some(c);
      }
      if !enabled { return None; }
      if v.num.Some? {
        var c := CountNumbers(key, Point(v.num.value));
        return Some(c);
      }
      assert KeywordOk(keyword, text, adds, key);
      assert PostingsAt(keyword, key, v.str) == Postings(text, adds, key, v.str);
      if key !in keyword {
        UnusedIsComplete(text, adds, key);
        return Some(0);
      }
      if !keyword[key].complete { return None; }
      return Some(|PostingsAt(keyword, key, v.str)|);
    }

    method ValuesEstimate(key: string, values: seq<FilterValue>, ids: Lookup) returns (n: Option<nat>)
      requires Valid()
      ensures n == EstimateValues(H(), key, values, ids)
    {
      hide EstimateValue, Separate, NumberItems;
      var sum := 0;
      for i := 0 to |values|
        invariant EstimateValues(H(), key, values[..i], ids) == Some(sum)
      {
        assert values[..i + 1][..i] == values[..i];
        var e := ValueEstimate(key, values[i], ids);
        if e.None? {
          NoneStays(H(), key, values, ids, i + 1);
          return None;
        }
        sum := sum + e.value;
      }
      assert values[..|values|] == values;
      return Some(sum);
    }

    /** Smallest answer of the children. */
    method BestOf(f: FilterExpr, ids: Lookup) returns (n: Option<nat>)
      requires Valid()
      ensures n == EstimateAll(H(), f, ids, |f.children|)
      decreases f, 0
    {
      n := None;
      for i := 0 to |f.children|
        invariant n == EstimateAll(H(), f, ids, i)
      {
        var e := Estimate(f.children[i], ids);
        if e.Some? && (n.None? || e.value < n.value) { n := e; }
      }
    }

    method SumOf(f: FilterExpr, ids: Lookup) returns (n: Option<nat>)
      requires Valid()
      ensures n == EstimateAny(H(), f, ids, |f.children|)
      decreases f, 0
    {
      var sum := 0;
      for i := 0 to |f.children|
        invariant EstimateAny(H(), f, ids, i) == Some(sum)
      {
        var e := Estimate(f.children[i], ids);
        if e.None? {
          NoneStaysAny(H(), f, ids, i + 1, |f.children|);
          return None;
        }
        sum := sum + e.value;
      }
      return Some(sum);
    }

    /** An upper bound on the matching live documents, when the index can tell. */
    method Estimate(f: FilterExpr, ids: Lookup) returns (n: Option<nat>)
      requires Valid()
      ensures n == EstimateOf(H(), f, ids)
      decreases f, 1
    {
      match f.op
      case AND => n := BestOf(f, ids);
      case OR => n := SumOf(f, ids);
      case EQ => n := ValuesEstimate(f.key, f.values, ids);
      case IN => n := ValuesEstimate(f.key, f.values, ids);
      case RANGE =>
        if f.key == CREATED_AT {
          var c := created.Count(f.range);
          return Some(c);
        }
        if f.key == ID || !enabled { return None; }
        var c := CountNumbers(f.key, f.range);
        return Some(c);
      case _ => n := None;
    }

    // ---------- candidates ----------

    method CollectNumbers(key: string, r: Range, out: seq<nat>) returns (res: seq<nat>)
      requires Valid() && enabled
      ensures multiset(res) == multiset(out) + multiset(IdsIn(NumberItems(parse, adds, key), r))
    {
      hide IdsIn, NumberItems;
      assert NumberItems(parse, adds, key) == if key in numeric then numeric[key].added else [];
      if key !in numeric {
        EmptyScan(r);
        return out;
      }
      res := numeric[key].Collect(r, out);
    }

    method CollectValue(key: string, v: FilterValue, ids: Lookup, out: seq<nat>) returns (res: seq<nat>)
      requires Valid() && EstimateValue(H(), key, v, ids).Some?
      ensures multiset(res) == multiset(out) + multiset(ValueIds(H(), key, v, ids))
    {
      hide IdsIn, NumberItems, CreatedItems, Postings;
      if key == ID {
        var iid := ids(v.str);
        return if iid.Some? then out + [iid.value] else out;
      }
      if key == CREATED_AT {
        var x := if v.num.Some? then v.num else parse(v.str);
        if x.None? { return out; }
        res := created.Collect(Point(x.value), out);
        return;
      }
      if v.num.Some? {
        res := CollectNumbers(key, Point(v.num.value), out);
        return;
      }
      assert KeywordOk(keyword, text, adds, key);
      assert PostingsAt(keyword, key, v.str) == Postings(text, adds, key, v.str);
      return out + PostingsAt(keyword, key, v.str);
    }

    method CollectValues(f: FilterExpr, ids: Lookup, out: seq<nat>, ghost live: set<Added>) returns (res: seq<nat>)
      requires Valid() && Consistent(H(), ids, live) && Sane(f) && (f.op == EQ || f.op == IN)
      requires EstimateOf(H(), f, ids).Some?
      ensures (forall x :: x in out ==> x in res) && Covers(parse, f, live, res)
      ensures |res| == |out| + EstimateOf(H(), f, ids).value
    {
      hide EstimateValue, EstimateValues, EstimateOf, ValueIds, ValueEq, Consistent;
      res := out;
      ValuesOnly(H(), f, ids);
      for i := 0 to |f.values|
        invariant forall x :: x in out ==> x in res
        invariant forall j {:trigger f.values[j]} :: 0 <= j < i ==> CoversValue(parse, f.key, f.values[j], live, res)
        invariant EstimateValues(H(), f.key, f.values[..i], ids) == Some(|res| - |out|)
      {
        EachAnswered(H(), f.key, f.values, ids, i);
        ValueListed(H(), f.key, f.values[i], ids, live);
        ghost var was := res;
        res := CollectValue(f.key, f.values[i], ids, res);
        MoreIds(was, ValueIds(H(), f.key, f.values[i], ids), res);
        ValueSize(H(), f.key, f.values[i], ids);
        OneMoreValue(H(), f.key, f.values, ids, i);
      }
      assert f.values[..|f.values|] == f.values;
    }

    /** Candidates for a filter that Estimate answers: every live match is among them,
        and there are no more of them than Estimate says. */
    method Collect(f: FilterExpr, ids: Lookup, out: seq<nat>, ghost live: set<Added>) returns (res: seq<nat>)
      requires Valid() && Consistent(H(), ids, live) && Sane(f) && EstimateOf(H(), f, ids).Some?
      ensures (forall x :: x in out ==> x in res) && Covers(parse, f, live, res)
      ensures |res| <= |out| + EstimateOf(H(), f, ids).value
      decreases f, 1
    {
      match f.op
      case AND => res := CollectAll(f, ids, out, live);
      case OR => res := CollectAny(f, ids, out, live);
      case EQ => res := CollectValues(f, ids, out, live);
      case IN => res := CollectValues(f, ids, out, live);
      case RANGE =>
        if f.key == CREATED_AT {
          res := created.Collect(f.range, out);
          MoreIds(out, IdsIn(CreatedItems(adds), f.range), res);
          AsManyIds(CreatedItems(adds), f.range);
        } else {
          res := CollectNumbers(f.key, f.range, out);
          MoreIds(out, IdsIn(NumberItems(parse, adds, f.key), f.range), res);
          AsManyIds(NumberItems(parse, adds, f.key), f.range);
        }
        RangeListed(H(), f, ids, live, res);
      case _ => res := out;
    }

    method CollectAny(f: FilterExpr, ids: Lookup, out: seq<nat>, ghost live: set<Added>) returns (res: seq<nat>)
      requires Valid() && Consistent(H(), ids, live) && Sane(f) && f.op == OR && EstimateOf(H(), f, ids).Some?
      ensures (forall x :: x in out ==> x in res) && Covers(parse, f, live, res)
      ensures |res| <= |out| + EstimateOf(H(), f, ids).value
      decreases f, 0
    {
      hide EstimateOf, EstimateAny, Consistent;
      res := out;
      AnyOnly(H(), f, ids, 0);
      for i := 0 to |f.children|
        invariant forall x :: x in out ==> x in res
        invariant EstimateAny(H(), f, ids, i).Some? && |res| <= |out| + EstimateAny(H(), f, ids, i).value
        invariant forall j {:trigger f.children[j]} :: 0 <= j < i ==> Covers(parse, f.children[j], live, res)
      {
        EachAnsweredAny(H(), f, ids, i, |f.children|);
        AnyOnly(H(), f, ids, i);
        res := Collect(f.children[i], ids, res, live);
      }
      AnyCovers(parse, f, live, res);
    }

    /** Intersects the answerable children, smallest first, as long as it pays. */
    method CollectAll(f: FilterExpr, ids: Lookup, out: seq<nat>, ghost live: set<Added>) returns (res: seq<nat>)
      requires Valid() && Consistent(H(), ids, live) && Sane(f) && f.op == AND && EstimateOf(H(), f, ids).Some?
      ensures (forall x :: x in out ==> x in res) && Covers(parse, f, live, res)
      ensures |res| <= |out| + EstimateOf(H(), f, ids).value
      decreases f, 0
    {
      var parts := Parts(f, ids);
      if parts == [] {
        SomeAnswered(H(), f, ids, |f.children|);
        return out;
      }
      parts := SortParts(parts);
      assert parts[0] in parts;
      FirstIsLeast(H(), f, ids, parts);
      var acc := Collect(parts[0].1, ids, [], live);
      acc := SortIds(acc);
      acc := Unique(acc);
      var i := 1;
      while i < |parts| && acc != []
        invariant 1 <= i <= |parts| && StrictlyAscending(acc) && Covers(parse, f, live, acc)
        invariant |acc| <= parts[0].0
      {
        if parts[i].0 > |acc| * MAX_INTERSECT_RATIO { break; }
        assert parts[i] in parts;
        var next := Collect(parts[i].1, ids, [], live);
        next := SortIds(next);
        acc := Intersect(acc, next);
        i := i + 1;
      }
      return out + acc;
    }

    /** The children that can be answered, with their estimates. */
    method Parts(f: FilterExpr, ids: Lookup) returns (parts: seq<(nat, FilterExpr)>)
      requires Valid()
      ensures forall p :: p in parts ==> p.1 in f.children && EstimateOf(H(), p.1, ids) == Some(p.0)
      ensures Complete(H(), f, ids, parts, |f.children|)
      decreases f, 0
    {
      parts := [];
      for i := 0 to |f.children|
        invariant forall p :: p in parts ==> p.1 in f.children && EstimateOf(H(), p.1, ids) == Some(p.0)
        invariant Complete(H(), f, ids, parts, i)
      {
        var e := Estimate(f.children[i], ids);
        ghost var was := parts;
        if e.Some? { parts := parts + [(e.value, f.children[i])]; }
        assert forall p :: p in was ==> p in parts;
        assert e.Some? ==> (e.value, f.children[i]) in parts;
      }
    }
  }

  /** Every child that can be answered is among the parts, with its estimate. */
  ghost predicate Complete(h: History, f: FilterExpr, ids: Lookup, parts: seq<(nat, FilterExpr)>, i: nat)
    requires i <= |f.children|
  {
    forall j :: 0 <= j < i && EstimateOf(h, f.children[j], ids).Some? ==>
      (EstimateOf(h, f.children[j], ids).value, f.children[j]) in parts
  }

  /** The smallest part is what the AND is estimated as. */
  lemma FirstIsLeast(h: History, f: FilterExpr, ids: Lookup, parts: seq<(nat, FilterExpr)>)
    requires f.op == AND && EstimateOf(h, f, ids).Some? && parts != [] && Complete(h, f, ids, parts, |f.children|)
    requires SmallestFirst(parts)
    ensures parts[0].0 <= EstimateOf(h, f, ids).value
  {
    AndIsLeast(h, f, ids);
    hide EstimateOf;
    var j :| 0 <= j < |f.children| && EstimateOf(h, f.children[j], ids) == EstimateOf(h, f, ids);
    var p := (EstimateOf(h, f.children[j], ids).value, f.children[j]);
    assert p in parts;
    var k :| 0 <= k < |parts| && parts[k] == p;
  }

  lemma {:induction false} AsManyIds(s: seq<Item>, r: Range)
    ensures |IdsIn(s, r)| == Hits(s, r)
  {
    if s != [] { AsManyIds(s[..|s| - 1], r); }
  }

  lemma ValueSize(h: History, key: string, v: FilterValue, ids: Lookup)
    requires EstimateValue(h, key, v, ids).Some?
    ensures |ValueIds(h, key, v, ids)| == EstimateValue(h, key, v, ids).value
  {
    var n := if v.num.Some? then v.num else h.parse(v.str);
    if key == CREATED_AT && n.Some? { AsManyIds(CreatedItems(h.adds), Point(n.value)); }
    if v.num.Some? { AsManyIds(NumberItems(h.parse, h.adds, key), Point(v.num.value)); }
  }

  lemma ValuesOnly(h: History, f: FilterExpr, ids: Lookup)
    requires f.op == EQ || f.op == IN
    ensures EstimateOf(h, f, ids) == EstimateValues(h, f.key, f.values, ids)
    ensures EstimateValues(h, f.key, f.values[..0], ids) == Some(0)
  {
    hide EstimateValue;
  }

  lemma AnyCovers(parse: Parse, f: FilterExpr, live: set<Added>, out: seq<nat>)
    requires f.op == OR && f.children != []
    requires forall j {:trigger f.children[j]} :: 0 <= j < |f.children| ==> Covers(parse, f.children[j], live, out)
    ensures Covers(parse, f, live, out)
  {
    forall a | a in live && Matches(parse, f, a.doc) ensures a.iid in out {
      var j :| 0 <= j < |f.children| && Matches(parse, f.children[j], a.doc);
      assert Covers(parse, f.children[j], live, out);
    }
  }

  lemma AnyOnly(h: History, f: FilterExpr, ids: Lookup, i: nat)
    requires f.op == OR
    ensures EstimateOf(h, f, ids) == EstimateAny(h, f, ids, |f.children|) && EstimateAny(h, f, ids, 0) == Some(0)
    ensures i < |f.children| ==>
      var rest, e := EstimateAny(h, f, ids, i), EstimateOf(h, f.children[i], ids);
      EstimateAny(h, f, ids, i + 1) == if rest.None? || e.None? then None else Some(rest.value + e.value)
  {
  }

  lemma OneMoreValue(h: History, key: string, values: seq<FilterValue>, ids: Lookup, i: nat)
    requires i < |values|
    ensures var rest, e := EstimateValues(h, key, values[..i], ids), EstimateValue(h, key, values[i], ids);
      EstimateValues(h, key, values[..i + 1], ids) == if rest.None? || e.None? then None else Some(rest.value + e.value)
  {
    hide EstimateValue;
    assert values[..i + 1][..i] == values[..i];
  }

  lemma EmptyScan(r: Range)
    ensures Hits([], r) == 0 && IdsIn([], r) == []
  {
  }

  lemma MoreIds(out: seq<nat>, more: seq<nat>, res: seq<nat>)
    requires multiset(res) == multiset(out) + multiset(more)
    ensures |res| == |out| + |more| && forall x :: (x in out || x in more) ==> x in res
  {
    assert |multiset(res)| == |multiset(out)| + |multiset(more)|;
    forall x | x in out || x in more ensures x in res {
      assert x in multiset(out) || x in multiset(more);
      assert x in multiset(res);
    }
  }

  lemma {:induction false} NoneStays(h: History, key: string, values: seq<FilterValue>, ids: Lookup, i: nat)
    requires i <= |values| && EstimateValues(h, key, values[..i], ids).None?
    ensures EstimateValues(h, key, values, ids).None?
    decreases |values| - i
  {
    if i < |values| {
      assert values[..i + 1][..i] == values[..i];
      NoneStays(h, key, values, ids, i + 1);
    } else {
      assert values[..i] == values;
    }
  }

  lemma {:induction false} NoneStaysAny(h: History, f: FilterExpr, ids: Lookup, i: nat, n: nat)
    requires i <= n <= |f.children| && EstimateAny(h, f, ids, i).None?
    ensures EstimateAny(h, f, ids, n).None?
  {
    if i < n { NoneStaysAny(h, f, ids, i, n - 1); }
  }

  lemma {:induction false} EachAnswered(h: History, key: string, values: seq<FilterValue>, ids: Lookup, i: nat)
    requires EstimateValues(h, key, values, ids).Some? && i < |values|
    ensures EstimateValue(h, key, values[i], ids).Some?
    decreases values
  {
    if i < |values| - 1 { EachAnswered(h, key, values[..|values| - 1], ids, i); }
  }

  lemma {:induction false} EachAnsweredAny(h: History, f: FilterExpr, ids: Lookup, i: nat, n: nat)
    requires i < n <= |f.children| && EstimateAny(h, f, ids, n).Some?
    ensures EstimateOf(h, f.children[i], ids).Some?
  {
    if i < n - 1 { EachAnsweredAny(h, f, ids, i, n - 1); }
  }

  lemma {:induction false} SomeAnswered(h: History, f: FilterExpr, ids: Lookup, n: nat)
    requires n <= |f.children| && forall i :: 0 <= i < |f.children| ==> EstimateOf(h, f.children[i], ids).None?
    ensures EstimateAll(h, f, ids, n).None?
  {
    if n > 0 { SomeAnswered(h, f, ids, n - 1); }
  }

  lemma NumbersStep(parse: Parse, h: seq<Added>, x: Added, y: Added, key: string)
    requires key !in x.doc.payload && key in y.doc.payload && y == x.(doc := x.doc.(payload := x.doc.payload[key := y.doc.payload[key]]))
    ensures forall k {:trigger NumberItems(parse, h + [y], k)} ::
      NumberItems(parse, h + [y], k) == NumberItems(parse, h + [x], k) + if k == key then NumberItem(parse, y, k) else []
  {
    forall k ensures NumberItems(parse, h + [y], k)
      == NumberItems(parse, h + [x], k) + if k == key then NumberItem(parse, y, k) else []
    {
      NumbersWith(parse, h, x, k);
      NumbersWith(parse, h, y, k);
    }
  }
}
