/** BM25 over the live documents, by direct scoring (index/bm25_index.hpp). */
module Bm25Spec {
  import opened Multisets

  type Term = string

  // ---------- tokens ----------

  predicate IsWordChar(c: char) {
    'a' <= c <= 'z' || 'A' <= c <= 'Z' || '0' <= c <= '9' || c as int >= 0x80
  }

  function Lower(c: char): char {
    if 'A' <= c <= 'Z' then (c as int + 32) as char else c
  }

  /** Lower-cased maximal runs of word characters, `cur` being the run before s. */
  function TokensAfter(cur: string, s: string): seq<Term>
    decreases |s|
  {
    if s == [] then (if cur == [] then [] else [cur])
    else if IsWordChar(s[0]) then TokensAfter(cur + [Lower(s[0])], s[1..])
    else (if cur == [] then [] else [cur]) + TokensAfter([], s[1..])
  }

  function Tokens(s: string): seq<Term> {
    TokensAfter([], s)
  }

  /** No token is empty, and tokens hold only lower-cased word characters. */
  lemma {:induction false} TokensAreWords(cur: string, s: string)
    requires forall i :: 0 <= i < |cur| ==> IsWordChar(cur[i]) && Lower(cur[i]) == cur[i]
    ensures forall t :: t in TokensAfter(cur, s) ==>
      t != [] && forall i :: 0 <= i < |t| ==> IsWordChar(t[i]) && Lower(t[i]) == t[i]
    decreases |s|
  {
    if s != [] {
      if IsWordChar(s[0]) {
        TokensAreWords(cur + [Lower(s[0])], s[1..]);
      } else {
        TokensAreWords([], s[1..]);
      }
    }
  }

  /** The word characters of a text, lower-cased. */
  function Letters(s: string): string {
    if s == [] then [] else (if IsWordChar(s[0]) then [Lower(s[0])] else []) + Letters(s[1..])
  }

  function Joined(tokens: seq<Term>): string {
    if tokens == [] then [] else tokens[0] + Joined(tokens[1..])
  }

  /** Nothing of a text is lost or made up: its tokens, joined, are its lower-cased word characters. */
  lemma {:induction false} TokensKeepLetters(cur: string, s: string)
    ensures Joined(TokensAfter(cur, s)) == cur + Letters(s)
    decreases |s|
  {
    if s == [] {
      hide *;
      NoLetters(cur);
    } else if IsWordChar(s[0]) {
      TokensKeepLetters(cur + [Lower(s[0])], s[1..]);
      Regrouped(cur, Lower(s[0]), Letters(s[1..]));
    } else {
      var rest := TokensAfter([], s[1..]);
      TokensKeepLetters([], s[1..]);
      JoinedFirst(cur, rest);
      assert [] + rest == rest && [] + Letters(s[1..]) == Letters(s[1..]);
      assert Letters(s) == Letters(s[1..]);
    }
  }

  lemma NoLetters(cur: string)
    ensures Joined(TokensAfter(cur, [])) == cur + Letters([])
  {
    JoinedFirst(cur, []);
  }

  lemma Regrouped(a: string, c: char, b: string)
    ensures a + [c] + b == a + ([c] + b)
  {
  }

  lemma JoinedFirst(cur: Term, rest: seq<Term>)
    ensures Joined([cur] + rest) == cur + Joined(rest) && Joined([]) == []
  {
    assert ([cur] + rest)[1..] == rest;
  }

  /** Every other character separates. */
  lemma {:induction false} TokensSplit(cur: string, a: string, sep: char, b: string)
    requires !IsWordChar(sep)
    ensures TokensAfter(cur, a + [sep] + b) == TokensAfter(cur, a) + Tokens(b)
    decreases |a|
  {
    var s := a + [sep] + b;
    if a == [] {
      assert s[0] == sep && s[1..] == b;
    } else {
      assert s[0] == a[0] && s[1..] == a[1..] + [sep] + b;
      if IsWordChar(a[0]) {
        TokensSplit(cur + [Lower(a[0])], a[1..], sep, b);
      } else {
        TokensSplit([], a[1..], sep, b);
      }
    }
  }

  /** Word characters do not: a run of them is one token. */
  lemma {:induction false} RunIsToken(cur: string, s: string)
    requires (cur != [] || s != []) && forall i :: 0 <= i < |s| ==> IsWordChar(s[i])
    ensures TokensAfter(cur, s) == [cur + Letters(s)]
    decreases |s|
  {
    if s == [] {
      assert cur + [] == cur;
    } else {
      RunIsToken(cur + [Lower(s[0])], s[1..]);
      Regrouped(cur, Lower(s[0]), Letters(s[1..]));
    }
  }

  // ---------- the corpus ----------

  type Texts = map<nat, string>

  function Tf(tokens: seq<Term>, term: Term): nat {
    if tokens == [] then 0 else Tf(tokens[..|tokens| - 1], term) + if tokens[|tokens| - 1] == term then 1 else 0
  }

  lemma {:induction false} TfPositive(tokens: seq<Term>, term: Term)
    ensures Tf(tokens, term) > 0 <==> term in tokens
  {
    if tokens != [] {
      TfPositive(tokens[..|tokens| - 1], term);
      assert tokens == tokens[..|tokens| - 1] + [tokens[|tokens| - 1]];
    }
  }

  predicate Contains(texts: Texts, doc: nat, term: Term) {
    doc in texts && Tf(Tokens(texts[doc]), term) > 0
  }

  /** Documents below n. */
  function DocCount(texts: Texts, n: nat): nat {
    if n == 0 then 0 else DocCount(texts, n - 1) + if n - 1 in texts then 1 else 0
  }

  function TotalLength(texts: Texts, n: nat): nat {
    if n == 0 then 0 else TotalLength(texts, n - 1) + if n - 1 in texts then |Tokens(texts[n - 1])| else 0
  }

  function DocFrequency(texts: Texts, n: nat, term: Term): nat {
    if n == 0 then 0 else DocFrequency(texts, n - 1, term) + if Contains(texts, n - 1, term) then 1 else 0
  }

  predicate Below(texts: Texts, n: nat) {
    forall d :: d in texts ==> d < n
  }

  /** The counts do not depend on n once every document is below it. */
  lemma {:induction false} MoreRoom(texts: Texts, n: nat, m: nat, term: Term)
    requires Below(texts, n) && n <= m
    ensures DocCount(texts, m) == DocCount(texts, n) && TotalLength(texts, m) == TotalLength(texts, n)
    ensures DocFrequency(texts, m, term) == DocFrequency(texts, n, term)
  {
    if n < m { MoreRoom(texts, n, m - 1, term); }
  }

  lemma {:induction false} AddedCounts(texts: Texts, n: nat, doc: nat, text: string, term: Term)
    requires doc !in texts
    ensures var t2 := texts[doc := text];
      && DocCount(t2, n) == DocCount(texts, n) + (if doc < n then 1 else 0)
      && TotalLength(t2, n) == TotalLength(texts, n) + (if doc < n then |Tokens(text)| else 0)
      && DocFrequency(t2, n, term) == DocFrequency(texts, n, term)
           + (if doc < n && Tf(Tokens(text), term) > 0 then 1 else 0)
  {
    hide Tokens, Tf;
    if n > 0 { AddedCounts(texts, n - 1, doc, text, term); }
  }

  lemma {:induction false} PositiveFrequency(texts: Texts, n: nat, doc: nat, term: Term)
    requires Contains(texts, doc, term) && doc < n
    ensures DocFrequency(texts, n, term) > 0
  {
    hide Contains;
    if doc < n - 1 { PositiveFrequency(texts, n - 1, doc, term); }
  }

  lemma {:induction false} SomeDocument(texts: Texts, n: nat, term: Term)
    requires DocFrequency(texts, n, term) > 0
    ensures exists d: nat :: d < n && Contains(texts, d, term)
  {
    hide Contains;
    if !Contains(texts, n - 1, term) { SomeDocument(texts, n - 1, term); }
  }

  // ---------- scores ----------

  datatype Params = Params(k1: real, b: real)

  /** k1 and b as BM25 takes them. */
  predicate Sensible(p: Params) {
    p.k1 >= 0.0 && 0.0 <= p.b <= 1.0
  }

  function AvgLength(total: nat, docs: nat): (avg: real)
    requires docs > 0
    ensures avg >= 1.0
  {
    var a := total as real / docs as real;
    if a > 1.0 then a else 1.0
  }

  lemma NormPositive(p: Params, tf: nat, len: nat, avg: real)
    requires Sensible(p) && tf > 0 && avg >= 1.0
    ensures tf as real + p.k1 * (1.0 - p.b + p.b * len as real / avg) > 0.0
  {
    var x := p.b * len as real;
    assert x >= 0.0;
    assert x / avg >= 0.0;
    assert p.k1 * (1.0 - p.b + x / avg) >= 0.0;
  }

  /** What one term adds to the score of a document that contains it. */
  function Weight(p: Params, log: real -> real, n: nat, df: nat, tf: nat, len: nat, avg: real): real
    requires Sensible(p) && tf > 0 && avg >= 1.0
  {
    NormPositive(p, tf, len, avg);
    var idf := log(1.0 + (n as real - df as real + 0.5) / (df as real + 0.5));
    idf * tf as real * (p.k1 + 1.0) / (tf as real + p.k1 * (1.0 - p.b + p.b * len as real / avg))
  }

  datatype Corpus = Corpus(texts: Texts, bound: nat, p: Params, log: real -> real)

  predicate CorpusOk(c: Corpus) {
    Sensible(c.p) && Below(c.texts, c.bound)
  }

  function TermScore(c: Corpus, doc: nat, term: Term): real
    requires CorpusOk(c) && DocCount(c.texts, c.bound) > 0
  {
    if !Contains(c.texts, doc, term) then 0.0
    else
      var n := DocCount(c.texts, c.bound);
      Weight(c.p, c.log, n, DocFrequency(c.texts, c.bound, term), Tf(Tokens(c.texts[doc]), term),
             |Tokens(c.texts[doc])|, AvgLength(TotalLength(c.texts, c.bound), n))
  }

  /** Score of a document: the sum over the given terms. */
  function Score(c: Corpus, doc: nat, terms: seq<Term>): real
    requires CorpusOk(c) && DocCount(c.texts, c.bound) > 0
  {
    if terms == [] then 0.0
    else Score(c, doc, terms[..|terms| - 1]) + TermScore(c, doc, terms[|terms| - 1])
  }

  predicate Shares(texts: Texts, doc: nat, terms: seq<Term>) {
    exists i :: 0 <= i < |terms| && Contains(texts, doc, terms[i])
  }

  lemma {:induction false} ScoreConcat(c: Corpus, doc: nat, a: seq<Term>, b: seq<Term>)
    requires CorpusOk(c) && DocCount(c.texts, c.bound) > 0
    ensures Score(c, doc, a + b) == Score(c, doc, a) + Score(c, doc, b)
  {
    hide TermScore;
    if b == [] {
      assert a + b == a;
    } else {
      assert (a + b)[..|a + b| - 1] == a + b[..|b| - 1];
      ScoreConcat(c, doc, a, b[..|b| - 1]);
    }
  }

  /** The order in which the query's terms are visited does not matter. */
  lemma {:induction false} ScoreOrder(c: Corpus, doc: nat, a: seq<Term>, b: seq<Term>)
    requires CorpusOk(c) && DocCount(c.texts, c.bound) > 0 && multiset(a) == multiset(b)
    ensures Score(c, doc, a) == Score(c, doc, b)
  {
    hide TermScore;
    if a == [] {
      assert |multiset(b)| == 0;
    } else {
      var init, x := a[..|a| - 1], a[|a| - 1];
      assert a == init + [x];
      assert x in multiset(b);
      var k :| 0 <= k < |b| && b[k] == x;
      var rest := b[..k] + b[k + 1..];
      TakenOut(b, k);
      assert multiset(a) == multiset(init) + multiset{x};
      Cancel(multiset(init), multiset(rest), x);
      ScoreOrder(c, doc, init, rest);
      ScoreWithout(c, doc, b, k);
    }
  }

  lemma ScoreWithout(c: Corpus, doc: nat, b: seq<Term>, k: nat)
    requires CorpusOk(c) && DocCount(c.texts, c.bound) > 0 && k < |b|
    ensures Score(c, doc, b) == Score(c, doc, b[..k] + b[k + 1..]) + TermScore(c, doc, b[k])
  {
    hide TermScore;
    var pre, one, post := b[..k], [b[k]], b[k + 1..];
    assert b == pre + one + post;
    assert one[..0] == [];
    ScoreConcat(c, doc, pre, post);
    ScoreConcat(c, doc, pre + one, post);
    ScoreConcat(c, doc, pre, one);
  }

  // ---------- the answer ----------

  datatype Hit = Hit(score: real, doc: nat)

  /** Higher score first; equal scores by document id. */
  predicate Ranks(a: Hit, b: Hit) {
    if a.score != b.score then a.score > b.score else a.doc < b.doc
  }

  predicate Ranked(hits: seq<Hit>) {
    forall i, j :: 0 <= i < j < |hits| ==> Ranks(hits[i], hits[j])
  }

  predicate Eligible(c: Corpus, terms: seq<Term>, ok: nat -> bool, doc: nat) {
    Shares(c.texts, doc, terms) && ok(doc)
  }

  /** hits are the k best of the eligible documents, best first, with their direct scores. */
  ghost predicate IsTopK(c: Corpus, terms: seq<Term>, ok: nat -> bool, k: nat, hits: seq<Hit>)
    requires CorpusOk(c) && DocCount(c.texts, c.bound) > 0
  {
    && Ranked(hits) && |hits| <= k
    && (forall i :: 0 <= i < |hits| ==>
          Eligible(c, terms, ok, hits[i].doc) && hits[i].score == Score(c, hits[i].doc, terms))
    && forall d {:trigger Eligible(c, terms, ok, d)} :: Eligible(c, terms, ok, d) ==>
         (exists i :: 0 <= i < |hits| && hits[i].doc == d)
         || (|hits| == k && forall i :: 0 <= i < k ==> Ranks(hits[i], Hit(Score(c, d, terms), d)))
  }
}
