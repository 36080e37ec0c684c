/** The BM25 index as the program keeps it: versioned postings of which stale
    ones are skipped, and exact document frequencies and lengths. */
module Bm25Index {
  import opened Bm25Spec

  datatype Posting = Posting(doc: nat, tf: nat, ver: nat)
  datatype DocState = DocState(len: nat, ver: nat, live: bool)

  // ---------- what the index holds about one term ----------

  /** search uses this posting. */
  predicate Accepted(p: Posting, docs: seq<DocState>) {
    p.doc < |docs| && docs[p.doc].live && docs[p.doc].ver == p.ver
  }

  /** Old versions stay below the document's; a current posting has the right frequency. */
  predicate PostingOk(p: Posting, docs: seq<DocState>, texts: Texts, term: Term) {
    && p.doc < |docs| && p.ver <= docs[p.doc].ver && (p.doc !in texts ==> p.ver < docs[p.doc].ver)
    && (p.doc in texts && p.ver == docs[p.doc].ver ==> p.tf == Tf(Tokens(texts[p.doc]), term) > 0)
  }

  ghost predicate Listed(posts: seq<Posting>, docs: seq<DocState>, doc: nat) {
    doc < |docs| && exists i :: 0 <= i < |posts| && posts[i].doc == doc && posts[i].ver == docs[doc].ver
  }

  predicate DistinctVersions(posts: seq<Posting>) {
    forall i, j :: 0 <= i < j < |posts| ==> posts[i].doc != posts[j].doc || posts[i].ver != posts[j].ver
  }

  /** Exactly one current posting per live document that contains the term. */
  ghost predicate PostingsOk(posts: seq<Posting>, docs: seq<DocState>, texts: Texts, term: Term) {
    && (forall i :: 0 <= i < |posts| ==> PostingOk(posts[i], docs, texts, term))
    && DistinctVersions(posts)
    && forall d {:trigger Contains(texts, d, term)} :: Contains(texts, d, term) ==> Listed(posts, docs, d)
  }

  predicate FrequencyOk(df: map<Term, nat>, n: nat, texts: Texts, term: Term) {
    && (if term in df then df[term] else 0) == DocFrequency(texts, n, term)
    && (term in df ==> df[term] > 0)
  }

  ghost predicate DocsOk(docs: seq<DocState>, texts: Texts) {
    && (forall d {:trigger d in texts} :: d in texts <==> 0 <= d < |docs| && docs[d].live)
    && forall d {:trigger docs[d]} :: 0 <= d < |docs| && docs[d].live ==> docs[d].len == |Tokens(texts[d])|
  }

  function PostsAt(postings: map<Term, seq<Posting>>, term: Term): seq<Posting> {
    if term in postings then postings[term] else []
  }

  // ---------- adding a document ----------

  /** docs2 is docs with room for doc, which got a new version. */
  ghost predicate Renewed(docs: seq<DocState>, docs2: seq<DocState>, doc: nat) {
    && |docs| <= |docs2| && doc < |docs2|
    && (forall i :: 0 <= i < |docs| && i != doc ==> docs2[i] == docs[i])
    && (forall i :: |docs| <= i < |docs2| && i != doc ==> !docs2[i].live)
    && (doc < |docs| ==> docs[doc].ver < docs2[doc].ver) && docs2[doc].ver > 0
  }

  lemma OtherPosts(posts: seq<Posting>, docs: seq<DocState>, docs2: seq<DocState>, texts: Texts, texts2: Texts, doc: nat, term: Term)
    requires PostingsOk(posts, docs, texts, term) && Renewed(docs, docs2, doc) && DocsOk(docs, texts)
    requires (forall d :: d != doc ==> (d in texts <==> d in texts2)) && (forall d :: d in texts && d != doc ==> texts2[d] == texts[d])
    requires !Contains(texts2, doc, term)
    ensures PostingsOk(posts, docs2, texts2, term)
  {
    hide Tokens, Tf;
    forall i | 0 <= i < |posts| ensures PostingOk(posts[i], docs2, texts2, term) {
      assert PostingOk(posts[i], docs, texts, term);
    }
    forall d: nat | Contains(texts2, d, term) ensures Listed(posts, docs2, d) {
      assert Contains(texts, d, term);
    }
  }

  lemma NewPost(posts: seq<Posting>, docs: seq<DocState>, docs2: seq<DocState>, texts: Texts, doc: nat, text: string, term: Term)
    requires PostingsOk(posts, docs, texts, term) && Renewed(docs, docs2, doc) && DocsOk(docs, texts) && doc !in texts
    requires Tf(Tokens(text), term) > 0
    ensures PostingsOk(posts + [Posting(doc, Tf(Tokens(text), term), docs2[doc].ver)], docs2, texts[doc := text], term)
  {
    hide Tokens, Tf;
    var texts2 := texts[doc := text];
    var posts2 := posts + [Posting(doc, Tf(Tokens(text), term), docs2[doc].ver)];
    forall i | 0 <= i < |posts2| ensures PostingOk(posts2[i], docs2, texts2, term) {
      if i < |posts| { assert PostingOk(posts[i], docs, texts, term); }
    }
    forall i, j | 0 <= i < j < |posts2| ensures posts2[i].doc != posts2[j].doc || posts2[i].ver != posts2[j].ver {
      if j == |posts| { assert PostingOk(posts[i], docs, texts, term); }
    }
    forall d: nat | Contains(texts2, d, term) ensures Listed(posts2, docs2, d) {
      if d == doc {
        assert posts2[|posts|].doc == doc;
      } else {
        assert Contains(texts, d, term) && Listed(posts, docs, d);
        var i :| 0 <= i < |posts| && posts[i].doc == d && posts[i].ver == docs[d].ver;
        assert posts2[i] == posts[i];
      }
    }
  }

  lemma FrequencyAfterAdd(df: map<Term, nat>, n: nat, n2: nat, texts: Texts, doc: nat, text: string, term: Term)
    requires FrequencyOk(df, n, texts, term) && Below(texts, n) && n <= n2 && doc < n2 && doc !in texts
    ensures DocFrequency(texts[doc := text], n2, term)
      == (if term in df then df[term] else 0) + if Tf(Tokens(text), term) > 0 then 1 else 0
  {
    MoreRoom(texts, n, n2, term);
    AddedCounts(texts, n2, doc, text, term);
  }

  // ---------- removing a document ----------

  lemma PostsAfterRemove(posts: seq<Posting>, docs: seq<DocState>, texts: Texts, doc: nat, term: Term)
    requires PostingsOk(posts, docs, texts, term) && doc < |docs| && DocsOk(docs, texts)
    ensures PostingsOk(posts, docs[doc := DocState(docs[doc].len, docs[doc].ver + 1, false)], texts - {doc}, term)
  {
    hide Tokens, Tf;
    var docs2, texts2 := docs[doc := DocState(docs[doc].len, docs[doc].ver + 1, false)], texts - {doc};
    forall i | 0 <= i < |posts| ensures PostingOk(posts[i], docs2, texts2, term) {
      assert PostingOk(posts[i], docs, texts, term);
    }
    forall d: nat | Contains(texts2, d, term) ensures Listed(posts, docs2, d) {
      assert Contains(texts, d, term);
    }
  }

  lemma DocsAfterRemove(docs: seq<DocState>, texts: Texts, doc: nat)
    requires DocsOk(docs, texts) && doc < |docs|
    ensures DocsOk(docs[doc := DocState(docs[doc].len, docs[doc].ver + 1, false)], texts - {doc})
    ensures docs[doc].live ==> docs[doc].len == |Tokens(texts[doc])|
  {
    hide Tokens;
  }

  lemma CountsAfterRemove(texts: Texts, n: nat, doc: nat, term: Term)
    requires doc in texts && doc < n
    ensures var t2 := texts - {doc};
      && DocCount(texts, n) == DocCount(t2, n) + 1
      && TotalLength(texts, n) == TotalLength(t2, n) + |Tokens(texts[doc])|
      && DocFrequency(texts, n, term) == DocFrequency(t2, n, term) + (if Tf(Tokens(texts[doc]), term) > 0 then 1 else 0)
  {
    AddedCounts(texts - {doc}, n, doc, texts[doc], term);
    assert (texts - {doc})[doc := texts[doc]] == texts;
    hide Tokens, Tf, DocCount, TotalLength, DocFrequency;
  }

  // ---------- scoring ----------

  /** One of the first j postings is a current one of d. */
  ghost predicate Seen(posts: seq<Posting>, j: nat, docs: seq<DocState>, d: nat) {
    j <= |posts| && exists i :: 0 <= i < j && posts[i].doc == d && Accepted(posts[i], docs)
  }

  /** The accepted postings of a term are those of the live documents that contain it. */
  lemma SeenIffContains(posts: seq<Posting>, docs: seq<DocState>, texts: Texts, term: Term, d: nat)
    requires PostingsOk(posts, docs, texts, term) && DocsOk(docs, texts)
    ensures Seen(posts, |posts|, docs, d) <==> Contains(texts, d, term)
  {
    hide Tokens, Tf;
    if Seen(posts, |posts|, docs, d) {
      var i :| 0 <= i < |posts| && posts[i].doc == d && Accepted(posts[i], docs);
      assert PostingOk(posts[i], docs, texts, term);
    }
    if Contains(texts, d, term) {
      assert Listed(posts, docs, d);
      var i :| 0 <= i < |posts| && posts[i].doc == d && posts[i].ver == docs[d].ver;
      assert Accepted(posts[i], docs);
    }
  }

  ghost predicate AccOk(c: Corpus, acc: map<nat, real>, terms: seq<Term>)
    requires CorpusOk(c) && DocCount(c.texts, c.bound) > 0
  {
    && (forall d {:trigger d in acc} :: d in acc <==> d >= 0 && Shares(c.texts, d, terms))
    && forall d {:trigger acc[d]} :: d in acc ==> acc[d] == Score(c, d, terms)
  }

  ghost predicate AccMid(c: Corpus, acc0: map<nat, real>, acc: map<nat, real>, posts: seq<Posting>, j: nat,
                         docs: seq<DocState>, term: Term)
    requires CorpusOk(c) && DocCount(c.texts, c.bound) > 0
  {
    && (forall d {:trigger d in acc} :: d in acc <==> d in acc0 || (d >= 0 && Seen(posts, j, docs, d)))
    && forall d {:trigger acc[d]} :: d in acc ==>
         acc[d] == (if d in acc0 then acc0[d] else 0.0) + (if Seen(posts, j, docs, d) then TermScore(c, d, term) else 0.0)
  }

  lemma {:induction false} NoShareNoScore(c: Corpus, d: nat, terms: seq<Term>)
    requires CorpusOk(c) && DocCount(c.texts, c.bound) > 0 && !Shares(c.texts, d, terms)
    ensures Score(c, d, terms) == 0.0
  {
    if terms != [] {
      var init := terms[..|terms| - 1];
      assert forall i :: 0 <= i < |init| ==> init[i] == terms[i];
      NoShareNoScore(c, d, init);
    }
  }

  lemma SharesMore(texts: Texts, d: nat, terms: seq<Term>, term: Term)
    ensures Shares(texts, d, terms + [term]) <==> Shares(texts, d, terms) || Contains(texts, d, term)
  {
    hide Contains;
    var more := terms + [term];
    if Shares(texts, d, terms) {
      var i :| 0 <= i < |terms| && Contains(texts, d, terms[i]);
      assert more[i] == terms[i];
    }
    assert more[|terms|] == term;
  }

  lemma ScoreMore(c: Corpus, d: nat, terms: seq<Term>, term: Term)
    requires CorpusOk(c) && DocCount(c.texts, c.bound) > 0
    ensures Score(c, d, terms + [term]) == Score(c, d, terms) + TermScore(c, d, term)
  {
    assert (terms + [term])[..|terms|] == terms;
  }

  /** After all postings of a term the accumulator covers it. */
  lemma TermDone(c: Corpus, acc0: map<nat, real>, acc: map<nat, real>, posts: seq<Posting>, docs: seq<DocState>, terms: seq<Term>, term: Term)
    requires CorpusOk(c) && DocCount(c.texts, c.bound) > 0 && AccOk(c, acc0, terms)
    requires PostingsOk(posts, docs, c.texts, term) && DocsOk(docs, c.texts)
    requires AccMid(c, acc0, acc, posts, |posts|, docs, term)
    ensures AccOk(c, acc, terms + [term])
  {
    hide TermScore, Score, Shares, Contains, Seen;
    forall d: nat ensures d in acc <==> Shares(c.texts, d, terms + [term]) {
      SeenIffContains(posts, docs, c.texts, term, d);
      SharesMore(c.texts, d, terms, term);
    }
    forall d | d in acc ensures acc[d] == Score(c, d, terms + [term]) {
      SeenIffContains(posts, docs, c.texts, term, d);
      ScoreMore(c, d, terms, term);
      if d !in acc0 { NoShareNoScore(c, d, terms); }
      if !Contains(c.texts, d, term) { ScoreOfMissing(c, d, term); }
    }
  }

  lemma ScoreOfMissing(c: Corpus, d: nat, term: Term)
    requires CorpusOk(c) && DocCount(c.texts, c.bound) > 0 && !Contains(c.texts, d, term)
    ensures TermScore(c, d, term) == 0.0
  {
  }

  /** A term no live document contains changes nothing. */
  lemma TermSkipped(c: Corpus, acc: map<nat, real>, terms: seq<Term>, term: Term)
    requires CorpusOk(c) && DocCount(c.texts, c.bound) > 0 && AccOk(c, acc, terms)
    requires DocFrequency(c.texts, c.bound, term) == 0
    ensures AccOk(c, acc, terms + [term])
  {
    hide TermScore, Score, Shares, Contains;
    forall d: nat ensures !Contains(c.texts, d, term) && (Shares(c.texts, d, terms + [term]) <==> Shares(c.texts, d, terms)) {
      NotContained(c, d, term);
      SharesMore(c.texts, d, terms, term);
    }
    forall d | d in acc ensures acc[d] == Score(c, d, terms + [term]) {
      ScoreMore(c, d, terms, term);
      ScoreOfMissing(c, d, term);
    }
  }

  lemma NotContained(c: Corpus, d: nat, term: Term)
    requires CorpusOk(c) && DocFrequency(c.texts, c.bound, term) == 0
    ensures !Contains(c.texts, d, term)
  {
    if Contains(c.texts, d, term) { PositiveFrequency(c.texts, c.bound, d, term); }
  }

  lemma SeenMore(posts: seq<Posting>, j: nat, docs: seq<DocState>, d: nat)
    requires j < |posts|
    ensures Seen(posts, j + 1, docs, d) <==> Seen(posts, j, docs, d) || (posts[j].doc == d && Accepted(posts[j], docs))
  {
  }

  lemma NoPostYet(c: Corpus, acc0: map<nat, real>, posts: seq<Posting>, docs: seq<DocState>, term: Term)
    requires CorpusOk(c) && DocCount(c.texts, c.bound) > 0
    ensures AccMid(c, acc0, acc0, posts, 0, docs, term)
  {
  }

  /** One posting later. */
  lemma PostDone(c: Corpus, acc0: map<nat, real>, acc: map<nat, real>, posts: seq<Posting>, j: nat, docs: seq<DocState>, term: Term)
    requires CorpusOk(c) && DocCount(c.texts, c.bound) > 0 && j < |posts| && AccMid(c, acc0, acc, posts, j, docs, term)
    requires PostingsOk(posts, docs, c.texts, term) && DocsOk(docs, c.texts)
    ensures var x := posts[j];
      AccMid(c, acc0,
        if Accepted(x, docs) then acc[x.doc := (if x.doc in acc then acc[x.doc] else 0.0) + TermScore(c, x.doc, term)] else acc,
        posts, j + 1, docs, term)
  {
    var x := posts[j];
    if Accepted(x, docs) { OnePerDocument(posts, j, docs); }
    hide TermScore, PostingsOk, Seen;
    var acc2 := if Accepted(x, docs) then acc[x.doc := (if x.doc in acc then acc[x.doc] else 0.0) + TermScore(c, x.doc, term)] else acc;
    forall d: nat ensures Seen(posts, j + 1, docs, d) <==> Seen(posts, j, docs, d) || (x.doc == d && Accepted(x, docs)) {
      SeenMore(posts, j, docs, d);
    }
  }

  lemma OnePerDocument(posts: seq<Posting>, j: nat, docs: seq<DocState>)
    requires DistinctVersions(posts) && j < |posts| && Accepted(posts[j], docs)
    ensures !Seen(posts, j, docs, posts[j].doc)
  {
  }

  method CountTerms(tokens: seq<Term>) returns (tf: map<Term, nat>)
    ensures forall t :: t in tf <==> Tf(tokens, t) > 0
    ensures forall t :: t in tf ==> tf[t] == Tf(tokens, t)
  {
    tf := map[];
    for i := 0 to |tokens|
      invariant forall t :: t in tf <==> Tf(tokens[..i], t) > 0
      invariant forall t :: t in tf ==> tf[t] == Tf(tokens[..i], t)
    {
      assert tokens[..i + 1][..i] == tokens[..i];
      tf := tf[tokens[i] := (if tokens[i] in tf then tf[tokens[i]] else 0) + 1];
    }
    assert tokens[..|tokens|] == tokens;
  }

  method Tokenize(text: string) returns (out: seq<Term>)
    ensures out == Tokens(text)
  {
    out := [];
    var cur := "";
    for i := 0 to |text|
      invariant Tokens(text) == out + TokensAfter(cur, text[i..])
    {
      assert text[i..][1..] == text[i + 1..];
      if IsWordChar(text[i]) {
        cur := cur + [Lower(text[i])];
      } else if cur != "" {
        assert out + ([cur] + TokensAfter([], text[i + 1..])) == out + [cur] + TokensAfter([], text[i + 1..]);
        out, cur := out + [cur], "";
      }
    }
    if cur != "" { out := out + [cur]; }
  }

  class Index {
    const p: Params
    const log: real -> real
    var postings: map<Term, seq<Posting>>
    var df: map<Term, nat>
    var docs: seq<DocState>
    var nDocs: nat
    var totalLen: nat
    /** The live documents and what was indexed for them. */
    ghost var texts: Texts

    ghost predicate TermOk(docs: seq<DocState>, texts: Texts, t: Term)
      reads this
    {
      PostingsOk(PostsAt(postings, t), docs, texts, t) && FrequencyOk(df, |docs|, texts, t) && (t in df ==> t in postings)
    }

    ghost predicate TermsOk(docs: seq<DocState>, texts: Texts)
      reads this
    {
      forall t {:trigger TermOk(docs, texts, t)} :: TermOk(docs, texts, t)
    }

    ghost predicate Valid()
      reads this
    {
      && DocsOk(docs, texts) && TermsOk(docs, texts)
      && nDocs == DocCount(texts, |docs|) && totalLen == TotalLength(texts, |docs|)
    }

    constructor (p: Params, log: real -> real)
      ensures Valid() && texts == map[] && this.p == p && this.log == log
    {
      this.p, this.log := p, log;
      postings, df, docs, nDocs, totalLen, texts := map[], map[], [], 0, 0, map[];
      new;
      assert DocsOk(docs, texts);
      forall t ensures TermOk(docs, texts, t) {
        assert DocFrequency(texts, 0, t) == 0 && PostsAt(postings, t) == [];
      }
    }

    predicate Live(doc: nat)
      reads this
    {
      doc < |docs| && docs[doc].live
    }

    /** The state of a document that is being indexed under a new version. */
    method Renew(doc: nat, len: nat)
      modifies this`docs
      ensures Renewed(old(docs), docs, doc) && docs[doc].len == len && docs[doc].live
    {
      if doc >= |docs| {
        docs := docs + seq(doc + 1 - |docs|, i => DocState(0, 0, false));
      }
      docs := docs[doc := DocState(len, docs[doc].ver + 1, true)];
    }

    /** The terms in done are indexed for the new document, the others are not yet. */
    ghost predicate Adding(done: set<Term>, docs0: seq<DocState>, doc: nat, text: string)
      reads this
    {
      forall t {:trigger AddingTerm(done, docs0, doc, text, t)} :: AddingTerm(done, docs0, doc, text, t)
    }

    ghost predicate AddingTerm(done: set<Term>, docs0: seq<DocState>, doc: nat, text: string, t: Term)
      reads this
    {
      if t in done || Tf(Tokens(text), t) == 0 then TermOk(docs, texts[doc := text], t) else TermOk(docs0, texts, t)
    }

    method AddTerm(term: Term, n: nat, doc: nat, ghost done: set<Term>, ghost docs0: seq<DocState>, ghost text: string)
      requires doc < |docs| && Adding(done, docs0, doc, text) && term !in done && n == Tf(Tokens(text), term) > 0
      requires DocsOk(docs0, texts) && Renewed(docs0, docs, doc) && doc !in texts
      modifies this`postings, this`df
      ensures Adding(done + {term}, docs0, doc, text)
    {
      hide Tokens, Tf;
      assert AddingTerm(done, docs0, doc, text, term);
      NewPost(PostsAt(postings, term), docs0, docs, texts, doc, text, term);
      FrequencyAfterAdd(df, |docs0|, |docs|, texts, doc, text, term);
      hide PostingsOk, DocFrequency;
      postings := postings[term := PostsAt(postings, term) + [Posting(doc, n, docs[doc].ver)]];
      df := df[term := (if term in df then df[term] else 0) + 1];
      forall t ensures AddingTerm(done + {term}, docs0, doc, text, t) {
        assert t != term ==> old(AddingTerm(done, docs0, doc, text, t));
      }
    }

    lemma StartAdding(docs0: seq<DocState>, doc: nat, text: string)
      requires TermsOk(docs0, texts) && DocsOk(docs0, texts) && Renewed(docs0, docs, doc) && doc !in texts
      ensures Adding({}, docs0, doc, text)
    {
      hide Tokens, Tf;
      forall t ensures AddingTerm({}, docs0, doc, text, t) {
        assert TermOk(docs0, texts, t);
        if Tf(Tokens(text), t) == 0 {
          OtherPosts(PostsAt(postings, t), docs0, docs, texts, texts[doc := text], doc, t);
          FrequencyAfterAdd(df, |docs0|, |docs|, texts, doc, text, t);
        }
        hide PostingsOk;
      }
    }

    lemma FinishAdding(done: set<Term>, docs0: seq<DocState>, doc: nat, text: string)
      requires Adding(done, docs0, doc, text) && forall t {:trigger Tf(Tokens(text), t)} :: t in done <==> Tf(Tokens(text), t) > 0
      ensures TermsOk(docs, texts[doc := text])
    {
      hide Tokens, Tf, TermOk;
      var texts2 := texts[doc := text];
      forall t ensures TermOk(docs, texts2, t) {
        assert AddingTerm(done, docs0, doc, text, t);
      }
    }

    method Add(doc: nat, text: string)
      requires Valid()
      modifies this
      ensures Valid() && texts == if doc in old(texts) then old(texts) else old(texts)[doc := text]
    {
      hide Tokens, Tf, Adding, PostingsOk, FrequencyOk, DocFrequency;
      if Live(doc) { return; }
      var tokens := Tokenize(text);
      var tf := CountTerms(tokens);
      ghost var docs0 := docs;
      label before:
      Renew(doc, |tokens|);
      forall t ensures TermOk(docs0, texts, t) {
        assert old@before(TermOk(docs0, texts, t));
      }
      StartAdding(docs0, doc, text);
      AddTerms(tf, doc, docs0, text);
      FinishAdding(tf.Keys, docs0, doc, text);
      MoreRoom(texts, |docs0|, |docs|, "");
      AddedCounts(texts, |docs|, doc, text, "");
      ghost var texts2 := texts[doc := text];
      assert DocsOk(docs, texts2) && TermsOk(docs, texts2);
      hide DocCount, TotalLength, DocsOk;
      label indexed:
      nDocs, totalLen, texts := nDocs + 1, totalLen + |tokens|, texts2;
      forall t ensures TermOk(docs, texts, t) {
        assert old@indexed(TermOk(docs, texts2, t));
      }
    }

    method AddTerms(tf: map<Term, nat>, doc: nat, ghost docs0: seq<DocState>, ghost text: string)
      requires doc < |docs| && Adding({}, docs0, doc, text)
      requires DocsOk(docs0, texts) && Renewed(docs0, docs, doc) && doc !in texts
      requires forall t :: t in tf ==> tf[t] == Tf(Tokens(text), t) > 0
      modifies this`postings, this`df
      ensures Adding(tf.Keys, docs0, doc, text)
    {
      hide Adding, Tf, Tokens;
      var rest := tf.Keys;
      assert tf.Keys - rest == {};
      while rest != {}
        invariant rest <= tf.Keys && Adding(tf.Keys - rest, docs0, doc, text)
      {
        var t :| t in rest;
        AddTerm(t, tf[t], doc, tf.Keys - rest, docs0, text);
        assert tf.Keys - rest + {t} == tf.Keys - (rest - {t});
        rest := rest - {t};
      }
      assert tf.Keys - rest == tf.Keys;
    }

    /** `text` must be what was indexed for doc. */
    method Remove(doc: nat, text: string)
      requires Valid() && (doc in texts ==> text == texts[doc])
      modifies this
      ensures Valid() && texts == old(texts) - {doc}
    {
      hide Tokens, Tf, DocCount, TotalLength, PostingsOk, DocFrequency, FrequencyOk;
      if !Live(doc) { return; }
      ghost var texts2, docs2 := texts - {doc}, RemovedDocs(doc);
      PostingsAfter(doc);
      DropFrequencies(doc, text);
      CountsAfterRemove(texts, |docs|, doc, "");
      DocsAfterRemove(docs, texts, doc);
      hide DocsOk, TermOk;
      label dropped:
      nDocs, totalLen := nDocs - 1, totalLen - docs[doc].len;
      docs := docs[doc := DocState(docs[doc].len, docs[doc].ver + 1, false)];
      texts := texts2;
      forall t ensures TermOk(docs, texts, t) {
        assert PostingsOk(old@dropped(PostsAt(postings, t)), docs2, texts2, t);
        assert old@dropped(FrequencyOk(df, |docs|, texts2, t));
        TermOkIs(docs, texts, t);
      }
    }

    lemma TermOkIs(docs: seq<DocState>, texts: Texts, t: Term)
      requires PostingsOk(PostsAt(postings, t), docs, texts, t) && FrequencyOk(df, |docs|, texts, t) && (t in df ==> t in postings)
      ensures TermOk(docs, texts, t)
    {
      hide PostingsOk, FrequencyOk;
    }

    lemma PostingsAfter(doc: nat)
      requires Valid() && doc < |docs|
      ensures forall t {:trigger PostsAt(postings, t)} :: PostingsOk(PostsAt(postings, t), RemovedDocs(doc), texts - {doc}, t)
    {
      var texts2 := texts - {doc};
      forall t ensures PostingsOk(PostsAt(postings, t), RemovedDocs(doc), texts2, t) {
        assert TermOk(docs, texts, t);
        PostsAfterRemove(PostsAt(postings, t), docs, texts, doc, t);
        hide PostingsOk;
      }
    }

    ghost function RemovedDocs(doc: nat): seq<DocState>
      requires doc < |docs|
      reads this
    {
      docs[doc := DocState(docs[doc].len, docs[doc].ver + 1, false)]
    }

    /** Takes one document out of the frequency of each of its terms. */
    method DropFrequencies(doc: nat, text: string)
      requires Valid() && doc in texts && text == texts[doc]
      modifies this`df
      ensures forall t :: t in df ==> t in postings
      ensures forall t {:trigger FrequencyOk(df, |docs|, texts - {doc}, t)} :: FrequencyOk(df, |docs|, texts - {doc}, t)
    {
      ghost var texts2, n := texts - {doc}, |docs|;
      forall t ensures FrequencyOk(df, n, texts, t) && (t in df ==> t in postings) {
        assert TermOk(docs, texts, t);
      }
      var tokens := Tokenize(text);
      var seen: set<Term> := {};
      hide Tokens, PostingsOk, DocFrequency;
      for i := 0 to |tokens|
        invariant forall t :: t in df ==> t in postings
        invariant forall t :: t in seen <==> Tf(tokens[..i], t) > 0
        invariant forall t {:trigger t in seen} :: FrequencyOk(df, n, if t in seen then texts2 else texts, t)
      {
        var t := tokens[i];
        PrefixTf(tokens, i);
        if t !in seen {
          TfPositive(tokens, t);
          CountsAfterRemove(texts, n, doc, t);
          assert FrequencyOk(df, n, if t in seen then texts2 else texts, t);
          df := if df[t] == 1 then df - {t} else df[t := df[t] - 1];
          seen := seen + {t};
        }
      }
      assert tokens[..|tokens|] == tokens;
      forall t ensures FrequencyOk(df, n, texts2, t) {
        CountsAfterRemove(texts, n, doc, t);
        assert t in seen || t !in seen;
      }
    }

    /** Adds up the scores of one term's accepted postings. */
    method ScoreTerm(term: Term, acc0: map<nat, real>, ghost terms: seq<Term>) returns (acc: map<nat, real>)
      requires Valid() && Sensible(p) && nDocs > 0 && AccOk(C(), acc0, terms)
      ensures AccOk(C(), acc, terms + [term])
    {
      assert TermOk(docs, texts, term);
      hide PostingsOk, AccOk, DocsOk, TermsOk, TermScore;
      if term !in df {
        TermSkipped(C(), acc0, terms, term);
        return acc0;
      }
      acc := ScorePosts(term, acc0);
      TermDone(C(), acc0, acc, postings[term], docs, terms, term);
    }

    method ScorePosts(term: Term, acc0: map<nat, real>) returns (acc: map<nat, real>)
      requires Valid() && Sensible(p) && nDocs > 0 && term in df && term in postings
      requires PostingsOk(postings[term], docs, texts, term)
      ensures AccMid(C(), acc0, acc, postings[term], |postings[term]|, docs, term)
    {
      hide TermsOk, TermScore, Tokens, Tf, DocFrequency, Score, Weight, AvgLength, AccMid, Seen, CorpusOk;
      var avg := AvgLength(totalLen, nDocs);
      var posts := postings[term];
      acc := acc0;
      CorpusIsOk();
      NoPostYet(C(), acc0, posts, docs, term);
      for j := 0 to |posts|
        invariant AccMid(C(), acc0, acc, posts, j, docs, term)
      {
        PostDone(C(), acc0, acc, posts, j, docs, term);
        var post := posts[j];
        assert PostingOk(post, docs, texts, term);
        hide PostingsOk, DocsOk;
        if Accepted(post, docs) {
          PostWeight(post, term);
          var w := Weight(p, log, nDocs, df[term], post.tf, docs[post.doc].len, avg);
          acc := acc[post.doc := (if post.doc in acc then acc[post.doc] else 0.0) + w];
        }
      }
    }

    lemma CorpusIsOk()
      requires Valid() && Sensible(p) && nDocs > 0
      ensures CorpusOk(C()) && DocCount(texts, |docs|) > 0
    {
    }

    lemma PostWeight(post: Posting, term: Term)
      requires Valid() && Sensible(p) && nDocs > 0 && term in df
      requires PostingOk(post, docs, texts, term) && Accepted(post, docs)
      ensures CorpusOk(C()) && DocCount(texts, |docs|) > 0 && post.tf > 0
      ensures Weight(p, log, nDocs, df[term], post.tf, docs[post.doc].len, AvgLength(totalLen, nDocs))
        == TermScore(C(), post.doc, term)
    {
      assert TermOk(docs, texts, term);
      hide Tokens, Tf, Weight, AvgLength, PostingsOk, DocCount, TotalLength, DocFrequency;
    }

    ghost function C(): Corpus
      reads this
    {
      Corpus(texts, |docs|, p, log)
    }

    /** The k best documents among those with ok, by direct scoring of the live ones. */
    method Search(query: string, k: nat, ok: nat -> bool) returns (hits: seq<Hit>, ghost terms: seq<Term>)
      requires Valid() && Sensible(p)
      ensures multiset(terms) == multiset(set t | t in Tokens(query))
      ensures nDocs == 0 || k == 0 ==> hits == []
      ensures nDocs > 0 && k > 0 ==> IsTopK(C(), terms, ok, k, hits)
    {
      var tokens := Tokenize(query);
      var order := Distinct(tokens);
      terms := order;
      if nDocs == 0 || k == 0 { return [], terms; }
      var acc: map<nat, real> := map[];
      assert AccOk(C(), acc, order[..0]);
      for i := 0 to |order|
        invariant AccOk(C(), acc, order[..i])
      {
        assert order[..i + 1] == order[..i] + [order[i]];
        acc := ScoreTerm(order[i], acc, order[..i]);
      }
      assert order[..|order|] == order;
      var found := Gather(acc, ok);
      var sorted := SortHits(found);
      hits := if |sorted| > k then sorted[..k] else sorted;
      TopKOf(C(), order, ok, k, acc, found, sorted, hits);
    }
  }

  lemma PrefixTf(tokens: seq<Term>, i: nat)
    requires i < |tokens|
    ensures forall t :: Tf(tokens[..i + 1], t) == Tf(tokens[..i], t) + if tokens[i] == t then 1 else 0
  {
    assert tokens[..i + 1][..i] == tokens[..i];
  }

  /** The query's terms once each. */
  method Distinct(tokens: seq<Term>) returns (order: seq<Term>)
    ensures multiset(order) == multiset(set t | t in tokens)
  {
    order := [];
    ghost var s: set<Term> := {};
    for i := 0 to |tokens|
      invariant s == set t | t in tokens[..i]
      invariant (forall t :: t in order <==> t in s) && multiset(order) == multiset(s)
    {
      assert tokens[..i + 1] == tokens[..i] + [tokens[i]];
      if tokens[i] !in order {
        order := order + [tokens[i]];
        s := s + {tokens[i]};
      }
    }
    assert tokens[..|tokens|] == tokens;
  }

  method Gather(acc: map<nat, real>, ok: nat -> bool) returns (found: seq<Hit>)
    ensures forall i :: 0 <= i < |found| ==> found[i].doc in acc && found[i].score == acc[found[i].doc] && ok(found[i].doc)
    ensures forall d :: d in acc && ok(d) ==> exists i :: 0 <= i < |found| && found[i].doc == d
    ensures forall i, j :: 0 <= i < j < |found| ==> found[i].doc != found[j].doc
  {
    found := [];
    var rest := acc.Keys;
    while rest != {}
      invariant rest <= acc.Keys
      invariant forall i :: 0 <= i < |found| ==>
        found[i].doc in acc && found[i].doc !in rest && found[i].score == acc[found[i].doc] && ok(found[i].doc)
      invariant forall d :: d in acc && d !in rest && ok(d) ==> exists i :: 0 <= i < |found| && found[i].doc == d
      invariant forall i, j :: 0 <= i < j < |found| ==> found[i].doc != found[j].doc
    {
      var d :| d in rest;
      ghost var was := found;
      if ok(d) { found := found + [Hit(acc[d], d)]; }
      rest := rest - {d};
      forall e | e in acc && e !in rest && ok(e) ensures exists i :: 0 <= i < |found| && found[i].doc == e {
        if e == d {
          assert found[|was|].doc == d;
        } else {
          var i :| 0 <= i < |was| && was[i].doc == e;
          assert found[i] == was[i];
        }
      }
    }
  }

  method SortHits(found: seq<Hit>) returns (t: seq<Hit>)
    requires forall i, j :: 0 <= i < j < |found| ==> found[i].doc != found[j].doc
    ensures Ranked(t) && |t| == |found| && forall h :: h in t <==> h in found
  {
    t := [];
    for i := 0 to |found|
      invariant Ranked(t) && |t| == i && forall h :: h in t <==> h in found[..i]
    {
      var x := found[i];
      forall h | h in t ensures h.doc != x.doc {
        var j :| 0 <= j < i && found[..i][j] == h;
      }
      var k := |t|;
      while k > 0 && Ranks(x, t[k - 1])
        invariant 0 <= k <= |t| && forall j :: k <= j < |t| ==> Ranks(x, t[j])
      {
        k := k - 1;
      }
      Ranking(t, k, x);
      hide Ranked;
      t := t[..k] + [x] + t[k..];
      assert found[..i + 1] == found[..i] + [x];
    }
    assert found[..|found|] == found;
  }

  lemma Ranking(t: seq<Hit>, k: nat, x: Hit)
    requires Ranked(t) && k <= |t| && (k > 0 ==> !Ranks(x, t[k - 1])) && forall j :: k <= j < |t| ==> Ranks(x, t[j])
    requires forall h :: h in t ==> h.doc != x.doc
    ensures Ranked(t[..k] + [x] + t[k..]) && forall h :: h in t[..k] + [x] + t[k..] <==> h in t || h == x
  {
    RankedWith(t, k, x);
    forall h ensures h in t <==> h in t[..k] || h in t[k..] {
      assert t == t[..k] + t[k..];
    }
    hide Ranked;
  }

  lemma RankedWith(t: seq<Hit>, k: nat, x: Hit)
    requires Ranked(t) && k <= |t| && (k > 0 ==> !Ranks(x, t[k - 1])) && forall j :: k <= j < |t| ==> Ranks(x, t[j])
    requires forall h :: h in t ==> h.doc != x.doc
    ensures Ranked(t[..k] + [x] + t[k..])
  {
    var u := t[..k] + [x] + t[k..];
    assert forall i :: 0 <= i < |u| ==> u[i] == if i < k then t[i] else if i == k then x else t[i - 1];
    if k > 0 {
      assert t[k - 1] in t;
      forall i | 0 <= i < k ensures Ranks(t[i], x) {
      }
    }
  }

  lemma TopKOf(c: Corpus, terms: seq<Term>, ok: nat -> bool, k: nat, acc: map<nat, real>, found: seq<Hit>, sorted: seq<Hit>, hits: seq<Hit>)
    requires CorpusOk(c) && DocCount(c.texts, c.bound) > 0 && AccOk(c, acc, terms)
    requires forall i :: 0 <= i < |found| ==> found[i].doc in acc && found[i].score == acc[found[i].doc] && ok(found[i].doc)
    requires forall d :: d in acc && ok(d) ==> exists i :: 0 <= i < |found| && found[i].doc == d
    requires Ranked(sorted) && |sorted| == |found| && forall h :: h in sorted <==> h in found
    requires hits == if |sorted| > k then sorted[..k] else sorted
    ensures IsTopK(c, terms, ok, k, hits)
  {
    hide Score, Shares;
    forall i | 0 <= i < |hits|
      ensures Eligible(c, terms, ok, hits[i].doc) && hits[i].score == Score(c, hits[i].doc, terms)
    {
      assert sorted[i] in found;
      var j :| 0 <= j < |found| && found[j] == sorted[i];
    }
    forall d: nat | Eligible(c, terms, ok, d)
      ensures (exists i :: 0 <= i < |hits| && hits[i].doc == d)
        || (|hits| == k && forall i :: 0 <= i < k ==> Ranks(hits[i], Hit(Score(c, d, terms), d)))
    {
      assert d in acc;
      var j :| 0 <= j < |found| && found[j].doc == d;
      assert found[j] in sorted;
      var i :| 0 <= i < |sorted| && sorted[i] == found[j];
      if i < |hits| { assert hits[i].doc == d; }
    }
  }
}
