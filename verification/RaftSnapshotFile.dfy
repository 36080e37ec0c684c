/** The snapshot file of a Raft node: written as a whole, checked as a whole. */
module RaftSnapshotFile {
  import opened Wrappers
  import opened RaftTypes
  import opened RaftDisk
  import opened Quotients

  datatype Snapshot = Snapshot(index: nat, term: nat, members: Bytes, data: Bytes)

  predicate Fits(s: Snapshot) {
    && s.index < 0x1_0000_0000_0000_0000 && s.term < 0x1_0000_0000_0000_0000
    && |s.members| < 0x1_0000_0000 && |s.data| < 0x1_0000_0000_0000_0000
  }

  const MAGIC: Bytes := [0x54, 0x56, 0x52, 0x53]

  function Head(s: Snapshot): (b: Bytes)
    ensures |b| == 28
  {
    MAGIC + Put(1, 4) + Put(s.index, 8) + Put(s.term, 8) + Put(|s.members|, 4)
  }

  function Content(s: Snapshot): (b: Bytes)
    ensures |b| == 36 + |s.members| + |s.data|
  {
    Head(s) + s.members + Put(|s.data|, 8) + s.data
  }

  function EncodeSnapshot(sum: Checksum, s: Snapshot): Bytes {
    Content(s) + Put(sum(Content(s)), 4)
  }

  /** None stands for "corrupt": the node then refuses to start. */
  function DecodeSnapshot(sum: Checksum, buf: Bytes): Option<Snapshot> {
    if |buf| < 40 || buf[..4] != MAGIC then None
    else if Get(buf[|buf| - 4..]) != sum(buf[..|buf| - 4]) then None
    else
      var membersLen := Get(buf[24..28]);
      if Get(buf[4..8]) != 1 || 28 + membersLen > |buf| then None
      else if 28 + membersLen + 8 > |buf| then None
      else
        var dataLen := Get(buf[28 + membersLen..36 + membersLen]);
        if 36 + membersLen + dataLen + 4 != |buf| then None
        else Some(Snapshot(Get(buf[8..16]), Get(buf[16..24]), buf[28..28 + membersLen],
                           buf[36 + membersLen..36 + membersLen + dataLen]))
  }

  lemma HeadParts(s: Snapshot)
    ensures var h := Head(s);
      && h[..4] == MAGIC && h[4..8] == Put(1, 4) && h[8..16] == Put(s.index, 8)
      && h[16..24] == Put(s.term, 8) && h[24..28] == Put(|s.members|, 4)
  {
    var h8, i, t, m := MAGIC + Put(1, 4), Put(s.index, 8), Put(s.term, 8), Put(|s.members|, 4);
    hide Put;
    var h16 := h8 + i;
    var h24 := h16 + t;
    Within(h24, m, 0, 4);
    Within(h24, m, 4, 8);
    Within(h24, m, 8, 16);
    Within(h24, m, 16, 24);
    Within(h16, t, 0, 4);
    Within(h16, t, 4, 8);
    Within(h16, t, 8, 16);
    Within(h8, i, 0, 4);
    Within(h8, i, 4, 8);
  }

  /** A slice of a is found in a + b, which ends in b. */
  lemma Within(a: Bytes, b: Bytes, i: nat, j: nat)
    requires i <= j <= |a|
    ensures (a + b)[i..j] == a[i..j] && (a + b)[|a|..|a| + |b|] == b
  {
  }

  lemma ContentParts(s: Snapshot)
    ensures var c, m := Content(s), |s.members|;
      && c[..28] == Head(s) && c[28..28 + m] == s.members
      && c[28 + m..36 + m] == Put(|s.data|, 8) && c[36 + m..] == s.data
  {
    var h, l := Head(s), Put(|s.data|, 8);
    var front := h + s.members + l;
    assert Content(s) == front + s.data && |front| == 36 + |s.members|;
    assert front[28 + |s.members|..] == l;
  }

  lemma GetPutFits(v: nat, n: nat)
    requires v < Pow256(n)
    ensures Get(Put(v, n)) == v
  {
    GetPut(v, n);
    assert Pow256(n) * 0 == 0;
    QuotientIs(v, Pow256(n), 0, v);
  }

  lemma SnapshotRoundTrip(sum: Checksum, s: Snapshot)
    requires Fits(s)
    ensures DecodeSnapshot(sum, EncodeSnapshot(sum, s)) == Some(s)
  {
    Widths();
    var c, b, h := Content(s), EncodeSnapshot(sum, s), Head(s);
    HeadParts(s);
    ContentParts(s);
    GetPutFits(1, 4);
    GetPutFits(s.index, 8);
    GetPutFits(s.term, 8);
    GetPutFits(|s.members|, 4);
    GetPutFits(|s.data|, 8);
    GetPutFits(sum(c), 4);
    EncodedParts(sum, s);
  }

  lemma EncodedParts(sum: Checksum, s: Snapshot)
    ensures var b, c, h, m := EncodeSnapshot(sum, s), Content(s), Head(s), |s.members|;
      && |b| == |c| + 4 && b[..|c|] == c && b[|c|..] == Put(sum(c), 4)
      && b[..4] == h[..4] && b[4..8] == h[4..8] && b[8..16] == h[8..16] && b[16..24] == h[16..24] && b[24..28] == h[24..28]
      && b[28..28 + m] == s.members && b[28 + m..36 + m] == Put(|s.data|, 8) && b[36 + m..36 + m + |s.data|] == s.data
  {
    var b, c, h, m := EncodeSnapshot(sum, s), Content(s), Head(s), |s.members|;
    ContentParts(s);
    forall i: nat, j: nat | i <= j <= |c| ensures b[i..j] == c[i..j] {
    }
    forall i: nat, j: nat | i <= j <= 28 ensures c[i..j] == h[i..j] {
      assert c[..28][i..j] == c[i..j];
    }
  }

  lemma {:induction false} PutGet(b: Bytes)
    ensures Put(Get(b), |b|) == b
  {
    if b != [] { PutGet(b[1..]); }
  }

  /** A file that passes the checks is exactly what would be written for the
      snapshot it yields: no other file is taken for it. */
  lemma DecodedIsEncoded(sum: Checksum, buf: Bytes)
    requires DecodeSnapshot(sum, buf).Some?
    ensures EncodeSnapshot(sum, DecodeSnapshot(sum, buf).value) == buf
  {
    var s := DecodeSnapshot(sum, buf).value;
    var m := |s.members|;
    PutGet(buf[4..8]);
    PutGet(buf[8..16]);
    PutGet(buf[16..24]);
    PutGet(buf[24..28]);
    PutGet(buf[28 + m..36 + m]);
    PutGet(buf[|buf| - 4..]);
    Pieces(buf, m);
    assert Content(s) == buf[..|buf| - 4];
  }

  lemma Pieces(buf: Bytes, m: nat)
    requires 40 + m <= |buf|
    ensures buf[..|buf| - 4] == buf[..4] + buf[4..8] + buf[8..16] + buf[16..24] + buf[24..28] + buf[28..28 + m]
      + buf[28 + m..36 + m] + buf[36 + m..|buf| - 4]
    ensures buf == buf[..|buf| - 4] + buf[|buf| - 4..]
  {
  }
}
