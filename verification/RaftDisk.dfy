/** The log file of a Raft node: the record format, recovery of a torn tail
    and the crash between writing a snapshot and rewriting the log. */
module RaftDisk {
  import opened Wrappers
  import opened RaftTypes
  import opened Quotients

  type u32 = x: nat | x < 0x1_0000_0000

  /** Recovery assumes nothing of the checksum. */
  type Checksum = Bytes -> u32

  datatype Record = Record(term: nat, index: nat, op: Bytes, payload: Bytes)

  // ---------- integers, least significant byte first ----------

  function Pow256(n: nat): (p: nat)
    ensures p > 0
  {
    if n == 0 then 1 else 256 * Pow256(n - 1)
  }

  /** The last n bytes of v; more of it is cut off, as a cast does. */
  function Put(v: nat, n: nat): (b: Bytes)
    ensures |b| == n
  {
    if n == 0 then [] else [(v % 256) as byte] + Put(v / 256, n - 1)
  }

  function Get(b: Bytes): nat {
    if b == [] then 0 else b[0] as nat + 256 * Get(b[1..])
  }

  lemma {:induction false} GetPut(v: nat, n: nat)
    ensures Get(Put(v, n)) == v % Pow256(n)
  {
    if n > 0 {
      GetPut(v / 256, n - 1);
      var q, p := v / 256, Pow256(n - 1);
      assert Put(v, n)[1..] == Put(q, n - 1);
      DigitsOf(v, p);
    }
  }

  /** Byte k is digit k to the base 256, the lowest first. */
  lemma {:induction false} PutDigit(v: nat, n: nat, k: nat)
    requires k < n
    ensures Put(v, n)[k] as nat == (v / Pow256(k)) % 256
  {
    if k == 0 {
      assert Pow256(0) == 1;
    } else {
      PutDigit(v / 256, n - 1, k - 1);
      DivideTwice(v, Pow256(k - 1));
    }
  }

  lemma DivideTwice(v: nat, p: nat)
    requires p > 0
    ensures 256 * p > 0 && (v / 256) / p == v / (256 * p)
  {
    var w := v / 256;
    var q, r := w / p, w % p;
    assert w == p * q + r;
    assert v == (256 * p) * q + (256 * r + v % 256) by { assert 256 * (p * q) == (256 * p) * q; }
    QuotientIs(v, 256 * p, q, 256 * r + v % 256);
  }

  lemma DigitsOf(v: nat, p: nat)
    requires p > 0
    ensures 256 * p > 0 && v % 256 + 256 * ((v / 256) % p) == v % (256 * p)
  {
    var q := v / 256;
    var r := v % 256 + 256 * (q % p);
    assert q == p * (q / p) + q % p;
    assert v == 256 * q + v % 256;
    assert v == (256 * p) * (q / p) + r by {
      assert 256 * (p * (q / p)) == (256 * p) * (q / p);
    }
    assert 0 <= r < 256 * p;
    QuotientIs(v, 256 * p, q / p, r);
  }

  lemma Widths()
    ensures Pow256(4) == 0x1_0000_0000 && Pow256(8) == 0x1_0000_0000_0000_0000
  {
    assert Pow256(1) == 256 && Pow256(2) == 0x1_0000 && Pow256(3) == 0x100_0000;
    assert Pow256(5) == 0x100_0000_0000 && Pow256(6) == 0x1_0000_0000_0000 && Pow256(7) == 0x100_0000_0000_0000;
  }

  function ReadInt(b: Bytes, off: nat, n: nat): Option<nat> {
    if off + n > |b| then None else Some(Get(b[off..off + n]))
  }

  lemma ReadPut(b: Bytes, off: nat, v: nat, n: nat)
    requires v < Pow256(n) && off + n <= |b| && b[off..off + n] == Put(v, n)
    ensures ReadInt(b, off, n) == Some(v)
  {
    GetPut(v, n);
    hide Get, Put, Pow256;
    var p := Pow256(n);
    assert p * 0 == 0;
    QuotientIs(v, p, 0, v);
  }

  // ---------- records ----------

  function Body(r: Record): Bytes {
    Put(r.term, 8) + Put(r.index, 8) + Put(|r.op|, 4) + r.op + Put(|r.payload|, 4) + r.payload
  }

  function Encode(sum: Checksum, r: Record): Bytes {
    var body := Body(r);
    Put(|body|, 4) + Put(sum(body), 4) + body
  }

  /** What fits the record format: 64-bit term and index, a body below 4 GiB. */
  predicate Sized(r: Record) {
    r.term < 0x1_0000_0000_0000_0000 && r.index < 0x1_0000_0000_0000_0000 && |Body(r)| < 0x1_0000_0000
  }

  function DecodeBody(b: Bytes): Option<Record> {
    match (ReadInt(b, 0, 8), ReadInt(b, 8, 8), ReadInt(b, 16, 4))
    case (Some(term), Some(index), Some(opLen)) =>
      if 20 + opLen > |b| then None
      else (match ReadInt(b, 20 + opLen, 4)
            case Some(payloadLen) =>
              if 24 + opLen + payloadLen > |b| then None
              else Some(Record(term, index, b[20..20 + opLen], b[24 + opLen..24 + opLen + payloadLen]))
            case None => None)
    case _ => None
  }

  /** The record at off and the offset after it, if a whole one is there. */
  function ReadRecord(sum: Checksum, buf: Bytes, off: nat): (r: Option<(Record, nat)>)
    ensures r.Some? ==> off < r.value.1 <= |buf|
  {
    match (ReadInt(buf, off, 4), ReadInt(buf, off + 4, 4))
    case (Some(len), Some(want)) =>
      if off + 8 + len > |buf| then None
      else
        var body := buf[off + 8..off + 8 + len];
        if sum(body) != want then None
        else (match DecodeBody(body)
              case Some(r) => Some((r, off + 8 + len))
              case None => None)
    case _ => None
  }

  lemma BodyRoundTrip(r: Record)
    requires Sized(r)
    ensures DecodeBody(Body(r)) == Some(r)
  {
    Widths();
    var b := Body(r);
    BodyParts(r);
    hide Body, Put, Get, Pow256;
    ReadPut(b, 0, r.term, 8);
    ReadPut(b, 8, r.index, 8);
    ReadPut(b, 16, |r.op|, 4);
    ReadPut(b, 20 + |r.op|, |r.payload|, 4);
  }

  lemma BodyParts(r: Record)
    ensures var b, o, l := Body(r), |r.op|, |r.payload|;
      && |b| == 24 + o + l
      && b[0..8] == Put(r.term, 8) && b[8..16] == Put(r.index, 8) && b[16..20] == Put(o, 4)
      && b[20..20 + o] == r.op && b[20 + o..24 + o] == Put(l, 4) && b[24 + o..24 + o + l] == r.payload
  {
    var b := Body(r);
    var head := Put(r.term, 8) + Put(r.index, 8) + Put(|r.op|, 4);
    assert b[..20] == head;
    assert head[0..8] == Put(r.term, 8) && head[8..16] == Put(r.index, 8) && head[16..20] == Put(|r.op|, 4);
    assert b[0..8] == head[0..8] && b[8..16] == head[8..16] && b[16..20] == head[16..20];
  }

  lemma EncodeParts(sum: Checksum, r: Record)
    ensures var b, body := Encode(sum, r), Body(r);
      && |b| == 8 + |body|
      && b[0..4] == Put(|body|, 4) && b[4..8] == Put(sum(body), 4) && b[8..8 + |body|] == body
  {
  }

  /** Where the parts of b lie in pre + b + post. */
  lemma Inside(pre: Bytes, b: Bytes, post: Bytes, i: nat, j: nat)
    requires i <= j <= |b|
    ensures (pre + b + post)[|pre| + i..|pre| + j] == b[i..j]
  {
  }

  /** A whole record is read back whatever surrounds it. */
  lemma RecordRoundTrip(sum: Checksum, pre: Bytes, r: Record, post: Bytes)
    requires Sized(r)
    ensures ReadRecord(sum, pre + Encode(sum, r) + post, |pre|) == Some((r, |pre| + |Encode(sum, r)|))
  {
    hide Encode, Put, ReadInt, DecodeBody, Pow256, Get;
    Widths();
    var body, e := Body(r), Encode(sum, r);
    var b := pre + e + post;
    EncodeParts(sum, r);
    hide Encode, Body;
    Inside(pre, e, post, 0, 4);
    Inside(pre, e, post, 4, 8);
    Inside(pre, e, post, 8, 8 + |body|);
    ReadPut(b, |pre|, |body|, 4);
    ReadPut(b, |pre| + 4, sum(body), 4);
    BodyRoundTrip(r);
  }

  /** A record of which the last bytes are missing is never read. */
  lemma TornRecord(sum: Checksum, pre: Bytes, r: Record, k: nat)
    requires Sized(r) && k < |Encode(sum, r)|
    ensures ReadRecord(sum, pre + Encode(sum, r)[..k], |pre|) == None
  {
    Widths();
    var e := Encode(sum, r);
    var b := pre + e[..k];
    EncodeParts(sum, r);
    if k >= 8 {
      assert b[|pre|..|pre| + 4] == e[0..4];
      ReadPut(b, |pre|, |Body(r)|, 4);
    }
  }

  // ---------- the file ----------

  function EncodeAll(sum: Checksum, rs: seq<Record>): Bytes {
    if rs == [] then [] else EncodeAll(sum, rs[..|rs| - 1]) + Encode(sum, rs[|rs| - 1])
  }

  lemma {:induction false} EncodeAllConcat(sum: Checksum, a: seq<Record>, b: seq<Record>)
    ensures EncodeAll(sum, a + b) == EncodeAll(sum, a) + EncodeAll(sum, b)
  {
    if b == [] {
      assert a + b == a;
    } else {
      var init, last := b[..|b| - 1], Encode(sum, b[|b| - 1]);
      assert (a + b)[..|a + b| - 1] == a + init;
      EncodeAllConcat(sum, a, init);
      hide Encode;
      assert EncodeAll(sum, a) + EncodeAll(sum, init) + last == EncodeAll(sum, a) + (EncodeAll(sum, init) + last);
    }
  }

  lemma EncodeAllFirst(sum: Checksum, rs: seq<Record>)
    requires rs != []
    ensures EncodeAll(sum, rs) == Encode(sum, rs[0]) + EncodeAll(sum, rs[1..])
  {
    hide Encode;
    EncodeAllConcat(sum, rs[..1], rs[1..]);
    assert rs == rs[..1] + rs[1..];
    assert rs[..1][..0] == [];
  }

  predicate AllSized(rs: seq<Record>) {
    forall i :: 0 <= i < |rs| ==> Sized(rs[i])
  }

  /** Records above the snapshot. */
  function Kept(rs: seq<Record>, snapIndex: nat): seq<Record> {
    if rs == [] then []
    else (if rs[0].index <= snapIndex then [] else [rs[0]]) + Kept(rs[1..], snapIndex)
  }

  /** Consecutive indices, leaving no gap after the snapshot. */
  predicate Follows(rs: seq<Record>, snapIndex: nat) {
    && (forall i :: 0 <= i < |rs| ==> rs[i].index == rs[0].index + i)
    && (rs != [] ==> rs[0].index <= snapIndex + 1)
  }

  /** What _load finds from `off` on, when `last` is the last index so far: the
      entries, and the end of the last good record. */
  function Scan(sum: Checksum, buf: Bytes, off: nat, snapIndex: nat, last: nat): (seq<Record>, nat)
    decreases |buf| - off
  {
    match ReadRecord(sum, buf, off)
    case None => ([], off)
    case Some((r, next)) =>
      if r.index <= snapIndex then Scan(sum, buf, next, snapIndex, last)
      else if r.index != last + 1 then ([], off)
      else
        var rest := Scan(sum, buf, next, snapIndex, last + 1);
        ([r] + rest.0, rest.1)
  }

  /** How many records lie wholly within the first k bytes. */
  function Wholes(sum: Checksum, rs: seq<Record>, k: nat): (w: nat)
    ensures w <= |rs|
  {
    if rs == [] || k < |Encode(sum, rs[0])| then 0
    else 1 + Wholes(sum, rs[1..], k - |Encode(sum, rs[0])|)
  }

  /** Recovery finds exactly the whole records and the end of the last one,
      wherever the file was cut. */
  lemma {:induction false} ScanOfCut(sum: Checksum, pre: Bytes, rs: seq<Record>, k: nat, snapIndex: nat, last: nat)
    requires AllSized(rs) && k <= |EncodeAll(sum, rs)| && snapIndex <= last
    requires forall i :: 0 <= i < |rs| ==> rs[i].index == rs[0].index + i
    requires rs != [] ==> rs[0].index == last + 1 || (last == snapIndex && rs[0].index <= snapIndex)
    ensures var w := Wholes(sum, rs, k);
      Scan(sum, pre + EncodeAll(sum, rs)[..k], |pre|, snapIndex, last)
      == (Kept(rs[..w], snapIndex), |pre| + |EncodeAll(sum, rs[..w])|)
    decreases |rs|
  {
    NothingKept(sum, rs, snapIndex);
    hide Encode, EncodeAll, ReadRecord, Kept;
    if rs == [] {
      NothingToRead(sum, pre + EncodeAll(sum, rs)[..k]);
    } else {
      EncodeAllFirst(sum, rs);
      var first, rest := Encode(sum, rs[0]), EncodeAll(sum, rs[1..]);
      if k < |first| {
        assert EncodeAll(sum, rs)[..k] == first[..k];
        TornRecord(sum, pre, rs[0], k);
      } else {
        var last2 := if rs[0].index <= snapIndex then last else last + 1;
        var k2, w := k - |first|, Wholes(sum, rs, k);
        CutAfterFirst(pre, first, rest, k);
        var buf := pre + first + rest[..k2];
        RecordRoundTrip(sum, pre, rs[0], rest[..k2]);
        ScanOfCut(sum, pre + first, rs[1..], k2, snapIndex, last2);
        ScanStep(sum, buf, |pre|, rs[0], |pre| + |first|, snapIndex, last);
        hide *;
        FoundAfterFirst(sum, rs, |pre|, w, snapIndex, Scan(sum, buf, |pre|, snapIndex, last),
                        Scan(sum, buf, |pre| + |first|, snapIndex, last2));
      }
    }
  }

  lemma ScanStep(sum: Checksum, buf: Bytes, off: nat, r: Record, next: nat, snapIndex: nat, last: nat)
    requires ReadRecord(sum, buf, off) == Some((r, next)) && (r.index <= snapIndex || r.index == last + 1)
    ensures var rest := Scan(sum, buf, next, snapIndex, if r.index <= snapIndex then last else last + 1);
      Scan(sum, buf, off, snapIndex, last) == ((if r.index <= snapIndex then [] else [r]) + rest.0, rest.1)
  {
    hide ReadRecord;
    var rest := Scan(sum, buf, next, snapIndex, if r.index <= snapIndex then last else last + 1);
    assert [] + rest.0 == rest.0;
  }

  lemma FoundAfterFirst(sum: Checksum, rs: seq<Record>, off: nat, w: nat, snapIndex: nat,
                        found: (seq<Record>, nat), rest: (seq<Record>, nat))
    requires 0 < w <= |rs|
    requires found == ((if rs[0].index <= snapIndex then [] else [rs[0]]) + rest.0, rest.1)
    requires rest.0 == Kept(rs[1..][..w - 1], snapIndex)
    requires rest.1 == off + |Encode(sum, rs[0])| + |EncodeAll(sum, rs[1..][..w - 1])|
    ensures found == (Kept(rs[..w], snapIndex), off + |EncodeAll(sum, rs[..w])|)
  {
    WholePrefix(sum, rs, w, snapIndex);
    hide *;
  }

  lemma NothingKept(sum: Checksum, rs: seq<Record>, snapIndex: nat)
    ensures Kept(rs[..0], snapIndex) == [] && EncodeAll(sum, rs[..0]) == []
    ensures rs == [] ==> EncodeAll(sum, rs) == []
  {
  }

  lemma CutAfterFirst(pre: Bytes, first: Bytes, rest: Bytes, k: nat)
    requires |first| <= k <= |first| + |rest|
    ensures pre + (first + rest)[..k] == pre + first + rest[..k - |first|]
  {
  }

  lemma WholePrefix(sum: Checksum, rs: seq<Record>, w: nat, snapIndex: nat)
    requires 0 < w <= |rs|
    ensures Kept(rs[..w], snapIndex) == (if rs[0].index <= snapIndex then [] else [rs[0]]) + Kept(rs[1..][..w - 1], snapIndex)
    ensures |EncodeAll(sum, rs[..w])| == |Encode(sum, rs[0])| + |EncodeAll(sum, rs[1..][..w - 1])|
  {
    assert rs[..w][1..] == rs[1..][..w - 1];
    EncodeAllFirst(sum, rs[..w]);
  }

  lemma NothingToRead(sum: Checksum, buf: Bytes)
    ensures ReadRecord(sum, buf, |buf|) == None
  {
  }

  // ---------- a file that was cut while entries were being added ----------

  lemma {:induction false} WholesConcat(sum: Checksum, a: seq<Record>, b: seq<Record>, k: nat)
    ensures Wholes(sum, a + b, |EncodeAll(sum, a)| + k) == |a| + Wholes(sum, b, k)
  {
    hide Encode;
    if a == [] {
      assert a + b == b && EncodeAll(sum, a) == [];
    } else {
      EncodeAllFirst(sum, a);
      hide EncodeAll;
      assert (a + b)[0] == a[0] && (a + b)[1..] == a[1..] + b;
      WholesConcat(sum, a[1..], b, k);
      assert |EncodeAll(sum, a)| + k - |Encode(sum, a[0])| == |EncodeAll(sum, a[1..])| + k;
    }
  }

  lemma {:induction false} KeptConcat(a: seq<Record>, b: seq<Record>, snapIndex: nat)
    ensures Kept(a + b, snapIndex) == Kept(a, snapIndex) + Kept(b, snapIndex)
  {
    if a == [] {
      assert a + b == b;
    } else {
      assert (a + b)[0] == a[0] && (a + b)[1..] == a[1..] + b;
      KeptConcat(a[1..], b, snapIndex);
    }
  }

  lemma {:induction false} AllKept(rs: seq<Record>, snapIndex: nat)
    requires forall i :: 0 <= i < |rs| ==> rs[i].index > snapIndex
    ensures Kept(rs, snapIndex) == rs
  {
    if rs != [] { AllKept(rs[1..], snapIndex); }
  }

  /** What the file holds and how it relates to the log in memory. */
  ghost predicate Holds(sum: Checksum, file: Bytes, stored: seq<Record>, snapIndex: nat, log: seq<Record>) {
    && AllSized(stored) && Follows(stored, snapIndex) && file == EncodeAll(sum, stored) && log == Kept(stored, snapIndex)
    && (stored != [] ==> stored[|stored| - 1].index == snapIndex + |log|)
  }

  /** The entries extend a log that ends at index last. */
  predicate Extend(entries: seq<Record>, last: nat) {
    AllSized(entries) && forall i :: 0 <= i < |entries| ==> entries[i].index == last + 1 + i
  }

  lemma HoldsMore(sum: Checksum, file: Bytes, stored: seq<Record>, snapIndex: nat, log: seq<Record>, entries: seq<Record>)
    requires Holds(sum, file, stored, snapIndex, log) && Extend(entries, snapIndex + |log|)
    ensures Holds(sum, file + EncodeAll(sum, entries), stored + entries, snapIndex, log + entries)
  {
    hide EncodeAll, Follows, AllSized;
    EncodeAllConcat(sum, stored, entries);
    KeptConcat(stored, entries, snapIndex);
    AllKept(entries, snapIndex);
    FollowsMore(stored, snapIndex, |log|, entries);
    hide Sized;
  }

  lemma FollowsMore(stored: seq<Record>, snapIndex: nat, n: nat, entries: seq<Record>)
    requires AllSized(stored) && Follows(stored, snapIndex) && Extend(entries, snapIndex + n)
    requires stored != [] ==> stored[|stored| - 1].index == snapIndex + n
    requires stored == [] ==> n == 0
    ensures AllSized(stored + entries) && Follows(stored + entries, snapIndex)
    ensures stored + entries != [] ==> (stored + entries)[|stored + entries| - 1].index == snapIndex + n + |entries|
  {
    hide Sized;
    var all := stored + entries;
    forall i | 0 <= i < |all| ensures all[i].index == all[0].index + i {
      if i >= |stored| { assert all[i] == entries[i - |stored|]; }
    }
  }

  lemma ScanFile(sum: Checksum, rs: seq<Record>, k: nat, snapIndex: nat, file: Bytes, w: nat)
    requires AllSized(rs) && Follows(rs, snapIndex) && k <= |EncodeAll(sum, rs)|
    requires file == EncodeAll(sum, rs)[..k] && w == Wholes(sum, rs, k)
    ensures Scan(sum, file, 0, snapIndex, snapIndex) == (Kept(rs[..w], snapIndex), |EncodeAll(sum, rs[..w])|)
  {
    hide Scan, Kept, Wholes, EncodeAll, Sized;
    ScanOfCut(sum, [], rs, k, snapIndex, snapIndex);
    EmptyFirst(file);
  }

  lemma ScanTorn(sum: Checksum, file: Bytes, stored: seq<Record>, snapIndex: nat, log: seq<Record>, torn: seq<Record>, k: nat)
    requires Holds(sum, file, stored, snapIndex, log) && Extend(torn, snapIndex + |log|) && k <= |EncodeAll(sum, torn)|
    ensures var rs := (stored + torn)[..|stored| + Wholes(sum, torn, k)];
      Scan(sum, file + EncodeAll(sum, torn)[..k], 0, snapIndex, snapIndex) == (Kept(rs, snapIndex), |EncodeAll(sum, rs)|)
  {
    hide *;
    HoldsMore(sum, file, stored, snapIndex, log, torn);
    HoldsIs(sum, file, stored, snapIndex, log);
    HoldsIs(sum, file + EncodeAll(sum, torn), stored + torn, snapIndex, log + torn);
    CutOfAll(sum, file, stored, torn, k);
    ScanFile(sum, stored + torn, |file| + k, snapIndex, file + EncodeAll(sum, torn)[..k], |stored| + Wholes(sum, torn, k));
  }

  lemma CutOfAll(sum: Checksum, file: Bytes, stored: seq<Record>, torn: seq<Record>, k: nat)
    requires file == EncodeAll(sum, stored) && k <= |EncodeAll(sum, torn)|
    ensures var all, n := stored + torn, |file| + k;
      && n <= |EncodeAll(sum, all)| && EncodeAll(sum, all)[..n] == file + EncodeAll(sum, torn)[..k]
      && Wholes(sum, all, n) == |stored| + Wholes(sum, torn, k)
  {
    EncodeAllConcat(sum, stored, torn);
    WholesConcat(sum, stored, torn, k);
    hide EncodeAll, Wholes;
    CutConcat(file, EncodeAll(sum, torn), k, k);
  }

  lemma EmptyFirst(b: Bytes)
    ensures [] + b == b
  {
  }

  lemma CutConcat(a: Bytes, b: Bytes, k: nat, e: nat)
    requires e <= k <= |b|
    ensures (a + b)[..|a| + k] == a + b[..k] && (a + b[..k])[..|a| + e] == a + b[..e]
  {
  }

  /** A crash at any byte of an append loses exactly the records not wholly
      written, and recovery cuts the file back to the last whole one. */
  lemma RecoveryIsExact(sum: Checksum, file: Bytes, stored: seq<Record>, snapIndex: nat, log: seq<Record>, torn: seq<Record>, k: nat)
    requires Holds(sum, file, stored, snapIndex, log) && Extend(torn, snapIndex + |log|) && k <= |EncodeAll(sum, torn)|
    ensures var w := Wholes(sum, torn, k);
      var whole := file + EncodeAll(sum, torn[..w]);
      && Scan(sum, file + EncodeAll(sum, torn)[..k], 0, snapIndex, snapIndex) == (log + torn[..w], |whole|)
      && |whole| <= |file| + k && (file + EncodeAll(sum, torn)[..k])[..|whole|] == whole
      && Holds(sum, whole, stored + torn[..w], snapIndex, log + torn[..w])
  {
    hide *;
    var w := Wholes(sum, torn, k);
    var e := EncodeAll(sum, torn[..w]);
    ExtendPrefix(torn, snapIndex + |log|, w);
    ScanTorn(sum, file, stored, snapIndex, log, torn, k);
    TakeConcat(stored, torn, w);
    HoldsMore(sum, file, stored, snapIndex, log, torn[..w]);
    WholesFit(sum, torn, k);
    HoldsIs(sum, file + e, stored + torn[..w], snapIndex, log + torn[..w]);
    CutConcat(file, EncodeAll(sum, torn), k, |e|);
  }

  lemma ExtendPrefix(entries: seq<Record>, last: nat, w: nat)
    requires Extend(entries, last) && w <= |entries|
    ensures Extend(entries[..w], last)
  {
    hide Sized;
  }

  lemma TakeConcat(a: seq<Record>, b: seq<Record>, w: nat)
    requires w <= |b|
    ensures (a + b)[..|a| + w] == a + b[..w]
  {
  }

  lemma HoldsIs(sum: Checksum, file: Bytes, stored: seq<Record>, snapIndex: nat, log: seq<Record>)
    requires Holds(sum, file, stored, snapIndex, log)
    ensures file == EncodeAll(sum, stored) && log == Kept(stored, snapIndex)
    ensures AllSized(stored) && Follows(stored, snapIndex)
  {
  }

  lemma {:induction false} WholesFit(sum: Checksum, rs: seq<Record>, k: nat)
    ensures var e := EncodeAll(sum, rs[..Wholes(sum, rs, k)]);
      |e| <= k && |e| <= |EncodeAll(sum, rs)| && EncodeAll(sum, rs)[..|e|] == e
  {
    hide Encode, EncodeAll;
    var w := Wholes(sum, rs, k);
    assert rs == rs[..w] + rs[w..];
    EncodeAllConcat(sum, rs[..w], rs[w..]);
    if w == 0 {
      NothingKept(sum, rs, 0);
    } else {
      WholesFit(sum, rs[1..], k - |Encode(sum, rs[0])|);
      EncodeAllFirst(sum, rs[..w]);
      assert rs[..w][1..] == rs[1..][..w - 1];
    }
  }

  // ---------- compaction ----------

  lemma {:induction false} KeptAgain(rs: seq<Record>, low: nat, high: nat)
    requires low <= high
    ensures Kept(Kept(rs, low), high) == Kept(rs, high)
    ensures AllSized(rs) ==> AllSized(Kept(rs, low))
  {
    if rs != [] {
      KeptAgain(rs[1..], low, high);
      if rs[0].index <= low {
        assert [] + Kept(rs[1..], low) == Kept(rs[1..], low);
      } else {
        assert ([rs[0]] + Kept(rs[1..], low))[1..] == Kept(rs[1..], low);
      }
    }
  }

  /** Consecutive records above an index are a suffix. */
  lemma {:induction false} KeptIsSuffix(rs: seq<Record>, idx: nat)
    requires forall i :: 0 <= i < |rs| ==> rs[i].index == rs[0].index + i
    ensures Kept(rs, idx) ==
      if rs == [] || rs[0].index > idx then rs else if idx - rs[0].index + 1 <= |rs| then rs[idx - rs[0].index + 1..] else []
  {
    if rs != [] {
      KeptIsSuffix(rs[1..], idx);
      if rs[0].index > idx { AllKept(rs, idx); }
    }
  }

  /** A snapshot at idx moves the boundary; the file may stay as it is. */
  lemma HoldsAfterSnapshot(sum: Checksum, file: Bytes, stored: seq<Record>, snapIndex: nat, log: seq<Record>, idx: nat)
    requires Holds(sum, file, stored, snapIndex, log) && snapIndex <= idx <= snapIndex + |log|
    ensures Holds(sum, file, stored, idx, Kept(log, idx))
  {
    KeptAgain(stored, snapIndex, idx);
    KeptIsSuffix(stored, idx);
  }

  lemma HoldsRewritten(sum: Checksum, file: Bytes, stored: seq<Record>, snapIndex: nat, log: seq<Record>)
    requires Holds(sum, file, stored, snapIndex, log)
    ensures Holds(sum, EncodeAll(sum, log), log, snapIndex, log)
  {
    KeptAgain(stored, snapIndex, snapIndex);
    KeptIsSuffix(stored, snapIndex);
  }

  /** A crash between writing the snapshot and rewriting the log recovers the
      same entries as a completed compaction. */
  lemma CompactionIsAtomic(sum: Checksum, file: Bytes, stored: seq<Record>, snapIndex: nat, log: seq<Record>, idx: nat)
    requires Holds(sum, file, stored, snapIndex, log) && snapIndex <= idx <= snapIndex + |log|
    ensures Scan(sum, file, 0, idx, idx).0 == Kept(log, idx)
    ensures Scan(sum, EncodeAll(sum, Kept(log, idx)), 0, idx, idx) == (Kept(log, idx), |EncodeAll(sum, Kept(log, idx))|)
  {
    HoldsAfterSnapshot(sum, file, stored, snapIndex, log, idx);
    WholeFile(sum, file, stored, idx, Kept(log, idx));
    HoldsRewritten(sum, file, stored, idx, Kept(log, idx));
    WholeFile(sum, EncodeAll(sum, Kept(log, idx)), Kept(log, idx), idx, Kept(log, idx));
  }

  /** A file that was not cut is read in full. */
  lemma WholeFile(sum: Checksum, file: Bytes, stored: seq<Record>, snapIndex: nat, log: seq<Record>)
    requires Holds(sum, file, stored, snapIndex, log)
    ensures Scan(sum, file, 0, snapIndex, snapIndex) == (log, |file|)
  {
    RecoveryIsExact(sum, file, stored, snapIndex, log, [], 0);
    assert file + EncodeAll(sum, [])[..0] == file;
    assert log + [] == log;
  }

  // ---------- the file and the log in memory, updated in place ----------

  class LogFile {
    const sum: Checksum
    var file: Bytes
    var log: seq<Record>
    var snapIndex: nat
    ghost var stored: seq<Record>

    ghost predicate Valid()
      reads this
    {
      Holds(sum, file, stored, snapIndex, log)
    }

    function Last(): nat
      reads this
    {
      snapIndex + |log|
    }

    constructor (sum: Checksum)
      ensures Valid() && log == [] && snapIndex == 0 && this.sum == sum
    {
      this.sum := sum;
      file, log, snapIndex, stored := [], [], 0, [];
    }

    /** Appends records to the file; when a write fails the file is cut back. */
    method PersistEntries(entries: seq<Record>, accepted: nat, synced: bool) returns (ok: bool)
      modifies this`file
      ensures ok <==> accepted >= |entries| && synced
      ensures file == if ok then old(file) + EncodeAll(sum, entries) else old(file)
    {
      var start := |file|;
      ok := true;
      var i := 0;
      assert file == old(file) + EncodeAll(sum, entries[..0]);
      while i < |entries| && ok
        invariant 0 <= i <= |entries| && i <= accepted
        invariant ok ==> file == old(file) + EncodeAll(sum, entries[..i])
        invariant !ok ==> accepted < |entries|
        invariant start == |old(file)| <= |file| && file[..start] == old(file)
        decreases |entries| - i, ok
      {
        if i == accepted {
          ok := false;
        } else {
          assert entries[..i + 1][..i] == entries[..i];
          assert file + Encode(sum, entries[i]) == old(file) + (EncodeAll(sum, entries[..i]) + Encode(sum, entries[i]));
          file := file + Encode(sum, entries[i]);
          i := i + 1;
        }
      }
      assert ok ==> entries[..i] == entries;
      if ok { ok := synced; }
      if !ok { file := file[..start]; }
    }

    method Append(entries: seq<Record>, accepted: nat, synced: bool) returns (ok: bool)
      requires Valid() && Extend(entries, Last())
      modifies this
      ensures Valid() && snapIndex == old(snapIndex)
      ensures log == if ok then old(log) + entries else old(log)
      ensures file == if ok then old(file) + EncodeAll(sum, entries) else old(file)
    {
      hide EncodeAll;
      ok := PersistEntries(entries, accepted, synced);
      if ok {
        HoldsMore(sum, old(file), stored, snapIndex, log, entries);
        hide Holds;
        log, stored := log + entries, stored + entries;
      }
    }

    /** Replaces the log from position keep on; the new file takes its place as a whole. */
    method Overwrite(keep: nat, tail: seq<Record>)
      requires Valid() && keep <= |log| && Extend(tail, snapIndex + keep)
      modifies this
      ensures Valid() && snapIndex == old(snapIndex) && log == old(log)[..keep] + tail
      ensures file == EncodeAll(sum, log)
    {
      HoldsRewritten(sum, file, stored, snapIndex, log);
      HoldsPrefix(sum, log, snapIndex, keep);
      HoldsMore(sum, EncodeAll(sum, log[..keep]), log[..keep], snapIndex, log[..keep], tail);
      hide Holds, EncodeAll, Sized;
      log := log[..keep] + tail;
      file, stored := EncodeAll(sum, log), log;
      EncodeAllConcat(sum, old(log)[..keep], tail);
    }

    /** Takes a snapshot at idx; rewriting the log file afterwards may fail. */
    method Compact(idx: nat, rewritten: bool)
      requires Valid() && snapIndex < idx <= Last()
      modifies this
      ensures Valid() && snapIndex == idx && log == old(log)[idx - old(snapIndex)..]
    {
      KeptAbove(sum, file, stored, snapIndex, log, idx);
      HoldsAfterSnapshot(sum, file, stored, snapIndex, log, idx);
      hide Holds, Kept, EncodeAll;
      log, snapIndex := log[idx - snapIndex..], idx;
      if rewritten {
        HoldsRewritten(sum, file, stored, snapIndex, log);
        file, stored := EncodeAll(sum, log), log;
      }
    }

    /** Reads the file record by record and cuts off what is not whole. */
    method Load()
      modifies this`file, this`log
      ensures (log, |file|) == Scan(sum, old(file), 0, snapIndex, snapIndex)
      ensures |file| <= |old(file)| && file == old(file)[..|file|]
    {
      hide ReadRecord;
      var good := 0;
      log := [];
      assert [] + Scan(sum, file, 0, snapIndex, snapIndex).0 == Scan(sum, file, 0, snapIndex, snapIndex).0;
      while true
        invariant good <= |file| && file == old(file)
        invariant Scan(sum, file, 0, snapIndex, snapIndex) ==
          (log + Scan(sum, file, good, snapIndex, Last()).0, Scan(sum, file, good, snapIndex, Last()).1)
        decreases |file| - good
      {
        ghost var rest := Scan(sum, file, good, snapIndex, Last());
        match ReadRecord(sum, file, good) {
          case None => break;
          case Some((r, next)) =>
            if r.index > snapIndex {
              if r.index != Last() + 1 { break; }
              assert rest.0 == [r] + Scan(sum, file, next, snapIndex, Last() + 1).0;
              Regroup(log, r, Scan(sum, file, next, snapIndex, Last() + 1).0);
              log := log + [r];
            }
            good := next;
        }
      }
      assert Scan(sum, file, good, snapIndex, Last()) == ([], good) && log + [] == log;
      file := file[..good];
    }

    /** Power is lost at byte k of appending `torn`, and the process starts again. */
    method CrashAndRecover(torn: seq<Record>, k: nat)
      requires Valid() && Extend(torn, Last()) && k <= |EncodeAll(sum, torn)|
      modifies this
      ensures Valid() && snapIndex == old(snapIndex)
      ensures log == old(log) + torn[..Wholes(sum, torn, k)]
    {
      hide Holds, Scan, Kept, EncodeAll, Sized;
      RecoveryIsExact(sum, file, stored, snapIndex, log, torn, k);
      ghost var w := Wholes(sum, torn, k);
      file := file + EncodeAll(sum, torn)[..k];
      Load();
      stored := stored + torn[..w];
    }
  }

  lemma Regroup(log: seq<Record>, r: Record, rest: seq<Record>)
    ensures log + ([r] + rest) == log + [r] + rest
  {
  }

  lemma LogIndices(sum: Checksum, file: Bytes, stored: seq<Record>, snapIndex: nat, log: seq<Record>)
    requires Holds(sum, file, stored, snapIndex, log)
    ensures forall i :: 0 <= i < |log| ==> log[i].index == snapIndex + 1 + i
  {
    KeptIsSuffix(stored, snapIndex);
  }

  lemma KeptAbove(sum: Checksum, file: Bytes, stored: seq<Record>, snapIndex: nat, log: seq<Record>, idx: nat)
    requires Holds(sum, file, stored, snapIndex, log) && snapIndex <= idx <= snapIndex + |log|
    ensures Kept(log, idx) == log[idx - snapIndex..]
  {
    hide EncodeAll, Kept, Sized, Holds;
    LogIndices(sum, file, stored, snapIndex, log);
    KeptIsSuffix(log, idx);
  }

  lemma HoldsPrefix(sum: Checksum, log: seq<Record>, snapIndex: nat, keep: nat)
    requires Holds(sum, EncodeAll(sum, log), log, snapIndex, log) && keep <= |log|
    ensures Holds(sum, EncodeAll(sum, log[..keep]), log[..keep], snapIndex, log[..keep])
  {
    hide *;
    LogIndices(sum, EncodeAll(sum, log), log, snapIndex, log);
    HoldsIs(sum, EncodeAll(sum, log), log, snapIndex, log);
    PrefixFits(sum, log, snapIndex, keep);
  }

  lemma PrefixFits(sum: Checksum, log: seq<Record>, snapIndex: nat, keep: nat)
    requires AllSized(log) && keep <= |log| && forall i :: 0 <= i < |log| ==> log[i].index == snapIndex + 1 + i
    ensures Holds(sum, EncodeAll(sum, log[..keep]), log[..keep], snapIndex, log[..keep])
  {
    hide Sized, EncodeAll;
    AllKept(log[..keep], snapIndex);
    hide Kept;
  }
}
