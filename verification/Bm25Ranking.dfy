/** What BM25 ranks first (index/bm25_index.hpp): rare terms count more than
    common ones, frequent occurrences more than single ones, short documents
    more than long ones. All that is asked of the logarithm is that it rises
    and is zero at one. */
module Bm25Ranking {
  import opened Bm25Spec

  ghost predicate Logarithm(log: real -> real) {
    log(1.0) == 0.0 && forall x: real, y: real :: 0.0 < x < y ==> log(x) < log(y)
  }

  // ---------- quotients ----------

  lemma QuotientIs(a: real, c: real, x: real)
    requires c > 0.0 && x * c == a
    ensures a / c == x
  {
    var y := a / c;
    assert y * c == a;
    if y < x { ProductRises(y, x, c); }
    if x < y { ProductRises(x, y, c); }
  }

  lemma ProductRises(x: real, y: real, c: real)
    requires x < y && c > 0.0
    ensures x * c < y * c
  {
    assert (y - x) * c > 0.0;
  }

  lemma QuotientLess(a: real, c: real, b: real, d: real)
    requires c > 0.0 && d > 0.0 && a * d < b * c
    ensures a / c < b / d
  {
    var x, y := a / c, b / d;
    assert x * c == a && y * d == b;
    assert a * d == x * (c * d) && b * c == y * (c * d);
    Cancelled(x, y, c * d);
  }

  lemma Cancelled(x: real, y: real, m: real)
    requires m > 0.0 && x * m < y * m
    ensures x < y
  {
    assert (y - x) * m > 0.0;
  }

  // ---------- the two factors of a weight ----------

  function Idf(log: real -> real, n: nat, df: nat): real {
    log(1.0 + (n as real - df as real + 0.5) / (df as real + 0.5))
  }

  /** How much the length of a document damps its term frequencies. */
  function Damping(p: Params, len: nat, avg: real): real
    requires avg >= 1.0
  {
    p.k1 * (1.0 - p.b + p.b * len as real / avg)
  }

  function Saturated(p: Params, tf: nat, damping: real): real
    requires tf > 0 && damping >= 0.0
  {
    tf as real * (p.k1 + 1.0) / (tf as real + damping)
  }

  lemma DampingPositive(p: Params, len: nat, avg: real)
    requires Sensible(p) && avg >= 1.0
    ensures Damping(p, len, avg) >= 0.0
    ensures p.k1 > 0.0 && len > 0 ==> Damping(p, len, avg) > 0.0
  {
    var x := p.b * len as real;
    assert x >= 0.0;
    var y := x / avg;
    assert y >= 0.0;
    var z := 1.0 - p.b + y;
    if len > 0 && p.b > 0.0 {
      assert x > 0.0;
      assert y > 0.0;
    }
    assert p.k1 * z >= 0.0;
    if p.k1 > 0.0 && len > 0 {
      assert z > 0.0;
      ProductRises(0.0, z, p.k1);
      assert z * p.k1 == Damping(p, len, avg);
    }
  }

  /** A longer document is damped more; at the average length b does not matter. */
  lemma DampingRises(p: Params, len: nat, len2: nat, avg: real)
    requires p.k1 > 0.0 && p.b > 0.0 && avg >= 1.0 && len < len2
    ensures Damping(p, len, avg) < Damping(p, len2, avg)
  {
    ShareRises(p.b, len as real, len2 as real, avg);
    var y, y2 := p.b * len as real / avg, p.b * len2 as real / avg;
    ProductRises(1.0 - p.b + y, 1.0 - p.b + y2, p.k1);
    assert Damping(p, len, avg) == (1.0 - p.b + y) * p.k1;
    assert Damping(p, len2, avg) == (1.0 - p.b + y2) * p.k1;
  }

  lemma ShareRises(b: real, x: real, x2: real, avg: real)
    requires b > 0.0 && avg > 0.0 && x < x2
    ensures b * x / avg < b * x2 / avg
  {
    ProductRises(x, x2, b);
    assert x * b == b * x && x2 * b == b * x2;
    ProductRises(b * x, b * x2, avg);
    QuotientLess(b * x, avg, b * x2, avg);
  }

  lemma DampingAtAverage(p: Params, len: nat)
    requires len > 0
    ensures Damping(p, len, len as real) == p.k1
  {
    QuotientIs(p.b * len as real, len as real, p.b);
  }

  lemma IdfFalls(log: real -> real, n: nat, df: nat, df2: nat)
    requires Logarithm(log) && df <= df2 <= n
    ensures Idf(log, n, df2) > 0.0 && (df < df2 ==> Idf(log, n, df2) < Idf(log, n, df))
  {
    var a, c := n as real - df as real + 0.5, df as real + 0.5;
    var a2, c2 := n as real - df2 as real + 0.5, df2 as real + 0.5;
    QuotientLess(0.0, 1.0, a2, c2);
    assert log(1.0) < log(1.0 + a2 / c2);
    if df < df2 {
      ProductRises(c, c2, a2);
      ProductRises(a2, a, c2);
      assert a2 * c < a2 * c2 < a * c2;
      QuotientLess(a2, c2, a, c);
    }
  }

  lemma SaturatedRises(p: Params, tf: nat, tf2: nat, k: real)
    requires Sensible(p) && 0 < tf < tf2 && k > 0.0
    ensures Saturated(p, tf, k) < Saturated(p, tf2, k)
  {
    var g, t, t2 := p.k1 + 1.0, tf as real, tf2 as real;
    assert g * k > 0.0;
    ProductRises(t, t2, g * k);
    assert t * g * (t2 + k) == t * t2 * g + t * (g * k);
    assert t2 * g * (t + k) == t * t2 * g + t2 * (g * k);
    QuotientLess(t * g, t + k, t2 * g, t2 + k);
  }

  lemma SaturatedFalls(p: Params, tf: nat, k: real, k2: real)
    requires Sensible(p) && 0 < tf && 0.0 <= k < k2
    ensures Saturated(p, tf, k2) < Saturated(p, tf, k)
  {
    var g, t := p.k1 + 1.0, tf as real;
    assert t * g > 0.0;
    ProductRises(t + k, t + k2, t * g);
    assert t * g * (t + k) < t * g * (t + k2);
    QuotientLess(t * g, t + k2, t * g, t + k);
  }

  /** It is positive and, without damping at one, never more than k1 + 1. */
  lemma SaturatedBounds(p: Params, tf: nat, k: real)
    requires Sensible(p) && tf > 0 && k >= 0.0
    ensures 0.0 < Saturated(p, tf, k) <= p.k1 + 1.0
  {
    var g, t := p.k1 + 1.0, tf as real;
    assert t * g > 0.0;
    QuotientLess(0.0, 1.0, t * g, t + k);
    assert 0.0 / 1.0 == 0.0;
    if k == 0.0 {
      QuotientIs(t * g, t + k, g);
      assert Saturated(p, tf, k) == t * g / (t + k) == g;
    } else {
      assert g * k > 0.0;
      assert t * g * 1.0 < g * (t + k);
      QuotientLess(t * g, t + k, g, 1.0);
      QuotientIs(g, 1.0, g);
    }
  }

  lemma WeightIs(p: Params, log: real -> real, n: nat, df: nat, tf: nat, len: nat, avg: real)
    requires Sensible(p) && tf > 0 && avg >= 1.0
    ensures Damping(p, len, avg) >= 0.0
    ensures Weight(p, log, n, df, tf, len, avg) == Idf(log, n, df) * Saturated(p, tf, Damping(p, len, avg))
  {
    DampingPositive(p, len, avg);
    var i := Idf(log, n, df);
    Scaled(i, tf as real, p.k1 + 1.0, tf as real + Damping(p, len, avg));
  }

  lemma Scaled(i: real, t: real, g: real, m: real)
    requires m > 0.0
    ensures i * t * g / m == i * (t * g / m)
  {
    var x := t * g / m;
    assert x * m == t * g;
    assert (i * x) * m == i * (x * m);
    assert i * t * g == i * (t * g);
    QuotientIs(i * t * g, m, i * x);
  }

  // ---------- weights ----------

  /** A term's weight is positive, and the rarer the term the higher. */
  lemma RarerWeighsMore(p: Params, log: real -> real, n: nat, df: nat, df2: nat, tf: nat, len: nat, avg: real)
    requires Sensible(p) && Logarithm(log) && tf > 0 && avg >= 1.0 && df <= df2 <= n
    ensures 0.0 < Weight(p, log, n, df2, tf, len, avg)
    ensures df < df2 ==> Weight(p, log, n, df2, tf, len, avg) < Weight(p, log, n, df, tf, len, avg)
  {
    hide Weight, Idf, Saturated, Damping, Logarithm;
    WeightIs(p, log, n, df, tf, len, avg);
    WeightIs(p, log, n, df2, tf, len, avg);
    IdfFalls(log, n, df, df2);
    SaturatedBounds(p, tf, Damping(p, len, avg));
    var s := Saturated(p, tf, Damping(p, len, avg));
    ProductRises(0.0, Idf(log, n, df2), s);
    if df < df2 { ProductRises(Idf(log, n, df2), Idf(log, n, df), s); }
  }

  /** The more often the term occurs in a document of that length, the higher. */
  lemma OftenerWeighsMore(p: Params, log: real -> real, n: nat, df: nat, tf: nat, tf2: nat, len: nat, avg: real)
    requires Sensible(p) && Logarithm(log) && p.k1 > 0.0 && 0 < tf < tf2 && len > 0 && avg >= 1.0 && df <= n
    ensures Weight(p, log, n, df, tf, len, avg) < Weight(p, log, n, df, tf2, len, avg)
  {
    hide Weight, Idf, Saturated, Damping, Logarithm;
    WeightIs(p, log, n, df, tf, len, avg);
    WeightIs(p, log, n, df, tf2, len, avg);
    IdfFalls(log, n, df, df);
    DampingPositive(p, len, avg);
    SaturatedRises(p, tf, tf2, Damping(p, len, avg));
    var d := Damping(p, len, avg);
    ProductRises(Saturated(p, tf, d), Saturated(p, tf2, d), Idf(log, n, df));
  }

  /** The longer the document, the lower. */
  lemma LongerWeighsLess(p: Params, log: real -> real, n: nat, df: nat, tf: nat, len: nat, len2: nat, avg: real)
    requires Sensible(p) && Logarithm(log) && p.k1 > 0.0 && p.b > 0.0 && tf > 0 && len < len2 && avg >= 1.0 && df <= n
    ensures Weight(p, log, n, df, tf, len2, avg) < Weight(p, log, n, df, tf, len, avg)
  {
    hide Weight, Idf, Saturated, Damping, Logarithm;
    WeightIs(p, log, n, df, tf, len, avg);
    WeightIs(p, log, n, df, tf, len2, avg);
    IdfFalls(log, n, df, df);
    DampingRises(p, len, len2, avg);
    var d, d2 := Damping(p, len, avg), Damping(p, len2, avg);
    SaturatedFalls(p, tf, d, d2);
    ProductRises(Saturated(p, tf, d2), Saturated(p, tf, d), Idf(log, n, df));
  }

  /** In a document of average length a term that occurs once weighs exactly its idf, whatever k1 and b are. */
  lemma OnceAtAverage(p: Params, log: real -> real, n: nat, df: nat, len: nat)
    requires Sensible(p) && len > 0
    ensures Weight(p, log, n, df, 1, len, len as real) == Idf(log, n, df)
  {
    WeightIs(p, log, n, df, 1, len, len as real);
    DampingAtAverage(p, len);
    hide Weight, Idf, Damping;
    QuotientIs(p.k1 + 1.0, 1.0 + p.k1, 1.0);
  }

  // ---------- scores ----------

  /** Of the given terms the document contains x and no other. */
  predicate HoldsOnly(c: Corpus, doc: nat, terms: seq<Term>, x: Term) {
    Contains(c.texts, doc, x) && forall i :: 0 <= i < |terms| && terms[i] != x ==> !Contains(c.texts, doc, terms[i])
  }

  predicate Once(terms: seq<Term>) {
    forall i, j :: 0 <= i < j < |terms| ==> terms[i] != terms[j]
  }

  lemma {:induction false} OneTermScores(c: Corpus, doc: nat, terms: seq<Term>, x: Term)
    requires CorpusOk(c) && DocCount(c.texts, c.bound) > 0 && HoldsOnly(c, doc, terms, x) && Once(terms)
    ensures Score(c, doc, terms) == if x in terms then TermScore(c, doc, x) else 0.0
    ensures x in terms ==> Shares(c.texts, doc, terms)
  {
    hide Contains;
    if terms != [] {
      var init, last := terms[..|terms| - 1], terms[|terms| - 1];
      OneTermScores(c, doc, init, x);
      assert terms == init + [last];
      if last == x {
        assert x !in init;
      } else {
        assert TermScore(c, doc, last) == 0.0;
      }
      if x in terms { var i :| 0 <= i < |terms| && terms[i] == x; }
    }
  }

  lemma {:induction false} NoMoreThanAll(texts: Texts, n: nat, term: Term)
    ensures DocFrequency(texts, n, term) <= DocCount(texts, n)
  {
    if n > 0 { NoMoreThanAll(texts, n - 1, term); }
  }

  lemma {:induction false} NoMoreThanTokens(tokens: seq<Term>, term: Term)
    ensures Tf(tokens, term) <= |tokens|
  {
    if tokens != [] { NoMoreThanTokens(tokens[..|tokens| - 1], term); }
  }

  function Often(c: Corpus, doc: nat, term: Term): nat {
    if doc in c.texts then Tf(Tokens(c.texts[doc]), term) else 0
  }

  function Length(c: Corpus, doc: nat): nat {
    if doc in c.texts then |Tokens(c.texts[doc])| else 0
  }

  /** The average length is the tokens per document, and never taken below one. */
  lemma AverageIs(total: nat, docs: nat)
    requires docs > 0
    ensures total >= docs ==> AvgLength(total, docs) * docs as real == total as real
    ensures total < docs ==> AvgLength(total, docs) == 1.0
  {
    var a := total as real / docs as real;
    assert a * docs as real == total as real;
    if total < docs { QuotientLess(total as real, docs as real, 1.0, 1.0); }
    if total == docs { QuotientIs(total as real, docs as real, 1.0); }
    if total > docs { QuotientLess(1.0, 1.0, total as real, docs as real); }
  }

  /** The term's weight in the document, with the corpus' counts. */
  lemma TermScoreIs(c: Corpus, doc: nat, x: Term)
    requires CorpusOk(c) && DocCount(c.texts, c.bound) > 0 && Contains(c.texts, doc, x)
    ensures var n := DocCount(c.texts, c.bound);
      && 0 < Often(c, doc, x) <= Length(c, doc) && DocFrequency(c.texts, c.bound, x) <= n
      && TermScore(c, doc, x) == Weight(c.p, c.log, n, DocFrequency(c.texts, c.bound, x), Often(c, doc, x), Length(c, doc),
                                        AvgLength(TotalLength(c.texts, c.bound), n))
  {
    NoMoreThanAll(c.texts, c.bound, x);
    NoMoreThanTokens(Tokens(c.texts[doc]), x);
    hide Tokens, Tf, Weight;
  }

  // ---------- rankings ----------

  /** Among the hits, whoever stands at position j has d before it. */
  predicate Before(hits: seq<Hit>, d: nat, j: nat) {
    exists i :: 0 <= i < j && i < |hits| && hits[i].doc == d
  }

  /** A document with a higher score comes first, also when only k hits are returned. */
  lemma HigherFirst(c: Corpus, terms: seq<Term>, ok: nat -> bool, k: nat, hits: seq<Hit>, d: nat, j: nat)
    requires CorpusOk(c) && DocCount(c.texts, c.bound) > 0 && IsTopK(c, terms, ok, k, hits)
    requires j < |hits| && Eligible(c, terms, ok, d) && Score(c, d, terms) > Score(c, hits[j].doc, terms)
    ensures Before(hits, d, j)
  {
    hide Score;
    var own := Hit(Score(c, d, terms), d);
    assert !Ranks(hits[j], own);
    var i :| 0 <= i < |hits| && hits[i].doc == d;
    assert !Ranks(hits[j], hits[i]);
  }

  /** A document that holds one of the query's terms, as often as the hit at j holds
      another one, and is as long, comes before it if its term is rarer. */
  lemma RarerFirst(c: Corpus, terms: seq<Term>, ok: nat -> bool, k: nat, hits: seq<Hit>, d: nat, x: Term, j: nat, y: Term)
    requires CorpusOk(c) && Logarithm(c.log) && DocCount(c.texts, c.bound) > 0 && IsTopK(c, terms, ok, k, hits)
    requires Once(terms) && x in terms && y in terms && j < |hits| && ok(d)
    requires HoldsOnly(c, d, terms, x) && HoldsOnly(c, hits[j].doc, terms, y)
    requires Often(c, d, x) == Often(c, hits[j].doc, y) && Length(c, d) == Length(c, hits[j].doc)
    requires DocFrequency(c.texts, c.bound, x) < DocFrequency(c.texts, c.bound, y)
    ensures Before(hits, d, j)
  {
    var e, n := hits[j].doc, DocCount(c.texts, c.bound);
    OneTermScores(c, d, terms, x);
    OneTermScores(c, e, terms, y);
    TermScoreIs(c, d, x);
    TermScoreIs(c, e, y);
    RarerWeighsMore(c.p, c.log, n, DocFrequency(c.texts, c.bound, x), DocFrequency(c.texts, c.bound, y),
                    Often(c, d, x), Length(c, d), AvgLength(TotalLength(c.texts, c.bound), n));
    hide Score, TermScore, IsTopK, Often, Length, Contains, Shares;
    HigherFirst(c, terms, ok, k, hits, d, j);
  }

  /** Of two documents of one length with the same query term, the one that holds it more often comes first. */
  lemma OftenerFirst(c: Corpus, terms: seq<Term>, ok: nat -> bool, k: nat, hits: seq<Hit>, d: nat, x: Term, j: nat)
    requires CorpusOk(c) && Logarithm(c.log) && c.p.k1 > 0.0 && DocCount(c.texts, c.bound) > 0 && IsTopK(c, terms, ok, k, hits)
    requires Once(terms) && x in terms && j < |hits| && ok(d)
    requires HoldsOnly(c, d, terms, x) && HoldsOnly(c, hits[j].doc, terms, x)
    requires Often(c, d, x) > Often(c, hits[j].doc, x) && Length(c, d) == Length(c, hits[j].doc)
    ensures Before(hits, d, j)
  {
    var e, n := hits[j].doc, DocCount(c.texts, c.bound);
    OneTermScores(c, d, terms, x);
    OneTermScores(c, e, terms, x);
    TermScoreIs(c, d, x);
    TermScoreIs(c, e, x);
    OftenerWeighsMore(c.p, c.log, n, DocFrequency(c.texts, c.bound, x), Often(c, e, x), Often(c, d, x), Length(c, d),
                      AvgLength(TotalLength(c.texts, c.bound), n));
    hide Score, TermScore, IsTopK, Often, Length, Contains, Shares;
    HigherFirst(c, terms, ok, k, hits, d, j);
  }

  /** Of two documents that hold the same query term equally often, the shorter one comes first. */
  lemma ShorterFirst(c: Corpus, terms: seq<Term>, ok: nat -> bool, k: nat, hits: seq<Hit>, d: nat, x: Term, j: nat)
    requires CorpusOk(c) && Logarithm(c.log) && c.p.k1 > 0.0 && c.p.b > 0.0
    requires DocCount(c.texts, c.bound) > 0 && IsTopK(c, terms, ok, k, hits)
    requires Once(terms) && x in terms && j < |hits| && ok(d)
    requires HoldsOnly(c, d, terms, x) && HoldsOnly(c, hits[j].doc, terms, x)
    requires Often(c, d, x) == Often(c, hits[j].doc, x) && Length(c, d) < Length(c, hits[j].doc)
    ensures Before(hits, d, j)
  {
    var e, n := hits[j].doc, DocCount(c.texts, c.bound);
    OneTermScores(c, d, terms, x);
    OneTermScores(c, e, terms, x);
    TermScoreIs(c, d, x);
    TermScoreIs(c, e, x);
    LongerWeighsLess(c.p, c.log, n, DocFrequency(c.texts, c.bound, x), Often(c, d, x), Length(c, d), Length(c, e),
                     AvgLength(TotalLength(c.texts, c.bound), n));
    hide Score, TermScore, IsTopK, Often, Length, Contains, Shares;
    HigherFirst(c, terms, ok, k, hits, d, j);
  }

  /** Every document that contains a query term scores above those that contain none. */
  lemma {:induction false} ScoresPositive(c: Corpus, doc: nat, terms: seq<Term>)
    requires CorpusOk(c) && Logarithm(c.log) && DocCount(c.texts, c.bound) > 0
    ensures Score(c, doc, terms) >= 0.0 && (Score(c, doc, terms) > 0.0 <==> Shares(c.texts, doc, terms))
  {
    hide Contains;
    if terms != [] {
      var init, last := terms[..|terms| - 1], terms[|terms| - 1];
      ScoresPositive(c, doc, init);
      var n := DocCount(c.texts, c.bound);
      if Contains(c.texts, doc, last) {
        TermScoreIs(c, doc, last);
        var df := DocFrequency(c.texts, c.bound, last);
        RarerWeighsMore(c.p, c.log, n, df, df, Often(c, doc, last), Length(c, doc), AvgLength(TotalLength(c.texts, c.bound), n));
      }
      SharesLast(c.texts, doc, terms);
    }
  }

  lemma SharesLast(texts: Texts, doc: nat, terms: seq<Term>)
    requires terms != []
    ensures Shares(texts, doc, terms) <==> Shares(texts, doc, terms[..|terms| - 1]) || Contains(texts, doc, terms[|terms| - 1])
  {
    hide Contains;
    var init := terms[..|terms| - 1];
    if i :| 0 <= i < |terms| && Contains(texts, doc, terms[i]) {
      if i < |init| { assert init[i] == terms[i]; }
    }
  }
}
