/** Ranking without an index, and its agreement with the index it stands in for. */
module Ranker {
  import opened Wrappers
  import opened Bytes
  import opened Order
  import opened Keyspace
  import opened Tokens
  import opened Ranking
  import opened TextIndex
  import opened TextSearch

  datatype Text = Text(text: string, weight: real)

  function Tokenized(l: Lang, texts: seq<Text>): (docs: seq<Doc>)
    ensures |docs| == |texts|
    ensures forall i :: 0 <= i < |texts| ==> docs[i] == Doc(Tokenize(l, texts[i].text), texts[i].weight)
  {
    seq(|texts|, i requires 0 <= i < |texts| => Doc(Tokenize(l, texts[i].text), texts[i].weight))
  }

  function TotalTokens(docs: seq<Doc>): nat {
    if docs == [] then 0 else TotalTokens(docs[..|docs| - 1]) + |docs[|docs| - 1].tokens|
  }

  /** How many documents hold the term. */
  function Df(docs: seq<Doc>, t: Bytes): nat {
    if docs == [] then 0
    else Df(docs[..|docs| - 1], t) + if Count(docs[|docs| - 1].tokens, t) > 0 then 1 else 0
  }

  /** What one term adds to one document, among `n` of `total` length. */
  function Worth(score: Score, doc: Doc, t: Bytes, df: nat, n: nat, total: nat): real {
    if Count(doc.tokens, t) == 0 then 0.0
    else score(Count(doc.tokens, t), df, |doc.tokens|, n, total) * doc.weight
  }

  /** The score of one document, when the corpus is taken to have `n` documents. */
  function ScoreAmong(score: Score, docs: seq<Doc>, terms: seq<Bytes>, n: nat, at: nat): real
    requires at < |docs|
  {
    if terms == [] then 0.0
    else
      var m := |terms| - 1;
      ScoreAmong(score, docs, terms[..m], n, at)
      + Worth(score, docs[at], terms[m], Df(docs, terms[m]), n, TotalTokens(docs))
  }

  function RankScore(score: Score, docs: seq<Doc>, terms: seq<Bytes>, at: nat): real
    requires at < |docs|
  {
    ScoreAmong(score, docs, terms, |docs|, at)
  }

  lemma {:induction false} CountIsMultiplicity(tokens: seq<Bytes>, t: Bytes)
    ensures Count(tokens, t) == multiset(tokens)[t]
    decreases |tokens|
  {
    if tokens != [] {
      var n := |tokens| - 1;
      CountIsMultiplicity(tokens[..n], t);
      assert tokens == tokens[..n] + [tokens[n]];
    }
  }

  function Holding(docs: seq<Doc>, t: Bytes): set<nat> {
    set i: nat | i < |docs| && t in docs[i].tokens
  }

  lemma {:induction false} DfIsHolders(docs: seq<Doc>, t: Bytes)
    ensures Df(docs, t) == |Holding(docs, t)|
    decreases |docs|
  {
    if docs == [] {
      assert Holding(docs, t) == {};
    } else {
      var n := |docs| - 1;
      DfIsHolders(docs[..n], t);
      CountPositive(docs[n].tokens, t);
      HoldingMore(docs, t);
      hide Count, Holding;
    }
  }

  lemma HoldingMore(docs: seq<Doc>, t: Bytes)
    requires docs != []
    ensures var n := |docs| - 1;
            |Holding(docs, t)| == |Holding(docs[..n], t)| + if t in docs[n].tokens then 1 else 0
  {
    var n := |docs| - 1;
    var front := Holding(docs[..n], t);
    assert n !in front;
    if t in docs[n].tokens {
      assert Holding(docs, t) == front + {n};
    } else {
      assert Holding(docs, t) == front;
    }
  }

  /**
   * One term's score: its multiplicity in the document, how many documents hold it, the document's
   * length, the number of documents and their length in all, times the weight.
   */
  lemma OneTermScores(score: Score, docs: seq<Doc>, t: Bytes, at: nat)
    requires at < |docs|
    ensures RankScore(score, docs, [t], at)
         == if t !in docs[at].tokens then 0.0
            else score(multiset(docs[at].tokens)[t], |Holding(docs, t)|, |docs[at].tokens|, |docs|, TotalTokens(docs))
                 * docs[at].weight
  {
    CountIsMultiplicity(docs[at].tokens, t);
    DfIsHolders(docs, t);
    ScoreUnfold(score, docs, [t], |docs|, at);
    assert [t][..0] == [];
    hide Df, Count, TotalTokens, Holding;
  }

  /** The terms of a query add up, a repeated one as often as it is asked for. */
  lemma {:induction false} TermsAdd(score: Score, docs: seq<Doc>, a: seq<Bytes>, b: seq<Bytes>, at: nat)
    requires at < |docs|
    ensures RankScore(score, docs, a + b, at) == RankScore(score, docs, a, at) + RankScore(score, docs, b, at)
    decreases |b|
  {
    if b == [] {
      assert a + b == a;
    } else {
      var m := |b| - 1;
      assert (a + b)[..|a + b| - 1] == a + b[..m];
      ScoreUnfold(score, docs, a + b, |docs|, at);
      ScoreUnfold(score, docs, b, |docs|, at);
      TermsAdd(score, docs, a, b[..m], at);
      hide ScoreAmong, Worth, Df, TotalTokens;
    }
  }

  lemma {:induction false} NobodyHolds(docs: seq<Doc>, t: Bytes)
    requires Df(docs, t) == 0
    ensures forall at :: 0 <= at < |docs| ==> Count(docs[at].tokens, t) == 0
    decreases |docs|
  {
    if docs != [] {
      hide Count;
      var n := |docs| - 1;
      NobodyHolds(docs[..n], t);
      forall at | 0 <= at < |docs|
        ensures Count(docs[at].tokens, t) == 0
      {
        assert at < n ==> docs[at] == docs[..n][at];
      }
    }
  }

  /** One term over every document: the inner loop. */
  method AddTerm(docs: seq<Doc>, terms: seq<Bytes>, i: nat, score: Score, scores: array<real>)
    requires i < |terms| && scores.Length == |docs|
    requires forall at :: 0 <= at < |docs| ==> scores[at] == RankScore(score, docs, terms[..i], at)
    modifies scores
    ensures forall at :: 0 <= at < |docs| ==> scores[at] == RankScore(score, docs, terms[..i + 1], at)
  {
    var term := terms[i];
    var df := Df(docs, term);
    assert terms[..i + 1][..i] == terms[..i];
    forall at | 0 <= at < |docs|
      ensures RankScore(score, docs, terms[..i + 1], at)
           == RankScore(score, docs, terms[..i], at) + Worth(score, docs[at], term, df, |docs|, TotalTokens(docs))
    {
      ScoreUnfold(score, docs, terms[..i + 1], |docs|, at);
    }
    hide ScoreAmong, RankScore, Df, TotalTokens, Count;
    if df == 0 {
      NobodyHolds(docs, term);
      return;
    }
    var total := TotalTokens(docs);
    for at := 0 to |docs|
      invariant forall k :: 0 <= k < at ==> scores[k] == RankScore(score, docs, terms[..i + 1], k)
      invariant forall k :: at <= k < |docs| ==> scores[k] == RankScore(score, docs, terms[..i], k)
    {
      var tf := Count(docs[at].tokens, term);
      if tf == 0 {
        continue;
      }
      scores[at] := scores[at] + score(tf, df, |docs[at].tokens|, |docs|, total) * docs[at].weight;
    }
  }

  method ScoreAll(docs: seq<Doc>, terms: seq<Bytes>, score: Score) returns (scores: array<real>)
    ensures fresh(scores) && scores.Length == |docs|
    ensures forall at :: 0 <= at < |docs| ==> scores[at] == RankScore(score, docs, terms, at)
  {
    scores := new real[|docs|](_ => 0.0);
    for i := 0 to |terms|
      invariant forall at :: 0 <= at < |docs| ==> scores[at] == RankScore(score, docs, terms[..i], at)
    {
      hide RankScore;
      AddTerm(docs, terms, i, score, scores);
    }
    assert terms[..|terms|] == terms;
  }

  function Unstopped(l: Lang, tokens: seq<Bytes>): seq<Bytes> {
    if tokens == [] then []
    else (if l.stop(tokens[0]) then [] else [tokens[0]]) + Unstopped(l, tokens[1..])
  }

  lemma {:induction false} AlreadyUnstopped(l: Lang, tokens: seq<Bytes>)
    requires forall t :: t in tokens ==> !l.stop(t)
    ensures Unstopped(l, tokens) == tokens
  {
    if tokens != [] {
      assert tokens == [tokens[0]] + tokens[1..];
      AlreadyUnstopped(l, tokens[1..]);
    }
  }

  /** Ties go to the document that comes first: the sort is stable. */
  const Earlier: (nat, nat) -> bool := (a, b) => a < b

  ghost function PositiveAt(score: Score, docs: seq<Doc>, terms: seq<Bytes>): set<Scored<nat>> {
    set at: nat | at < |docs| && RankScore(score, docs, terms, at) > 0.0 :: Scored(at, RankScore(score, docs, terms, at))
  }

  lemma EarlierIsTotal()
    ensures StrictTotal(Earlier)
  {
  }

  /** The ranking of the texts by their position, cut off after `limit`. */
  method Rank(l: Lang, texts: seq<Text>, query: string, limit: nat, score: Score) returns (ranked: seq<Scored<nat>>)
    requires Sane(l)
    ensures StrictTotal(Earlier)
    ensures ranked == Cut(Ranked(Earlier, PositiveAt(score, Tokenized(l, texts), Tokenize(l, query))), limit)
    ensures BestFirst(Earlier, ranked, PositiveAt(score, Tokenized(l, texts), Tokenize(l, query)), limit)
  {
    EarlierIsTotal();
    TokensAreTerms(l, query);
    AlreadyUnstopped(l, Tokenize(l, query));
    hide StrictTotal, Tokenize, Sane, Unstopped, BestFirst;
    var terms := Unstopped(l, Tokenize(l, query));
    var docs := Tokenized(l, texts);
    if terms == [] || limit == 0 || docs == [] || TotalTokens(docs) == 0 {
      NothingRanked(score, docs, terms, limit);
      CutIsBest(Earlier, PositiveAt(score, docs, terms), limit);
      return [];
    }
    hide RankScore;
    var scores := ScoreAll(docs, terms, score);
    var found: set<Scored<nat>> := set at: nat | 0 <= at < scores.Length && scores[at] > 0.0 :: Scored(at, scores[at]);
    assert found == PositiveAt(score, docs, terms);
    ranked := SortCut(Earlier, found, limit);
  }

  lemma {:induction false} EmptyDocs(docs: seq<Doc>)
    requires TotalTokens(docs) == 0
    ensures forall at :: 0 <= at < |docs| ==> docs[at].tokens == []
    decreases |docs|
  {
    if docs != [] {
      var n := |docs| - 1;
      EmptyDocs(docs[..n]);
      assert forall at :: 0 <= at < n ==> docs[at] == docs[..n][at];
    }
  }

  lemma {:induction false} NoTermHeld(score: Score, docs: seq<Doc>, terms: seq<Bytes>, n: nat, at: nat)
    requires at < |docs|
    requires docs[at].weight == 0.0 || forall t :: t in terms ==> t !in docs[at].tokens
    ensures ScoreAmong(score, docs, terms, n, at) == 0.0
    decreases |terms|
  {
    if terms != [] {
      var m := |terms| - 1;
      NoTermHeld(score, docs, terms[..m], n, at);
      CountPositive(docs[at].tokens, terms[m]);
      assert terms[m] in terms;
    }
  }

  lemma NothingRanked(score: Score, docs: seq<Doc>, terms: seq<Bytes>, limit: nat)
    requires terms == [] || limit == 0 || docs == [] || TotalTokens(docs) == 0
    ensures StrictTotal(Earlier) && Cut(Ranked(Earlier, PositiveAt(score, docs, terms)), limit) == []
  {
    EarlierIsTotal();
    hide StrictTotal, Df, Worth;
    if limit > 0 {
      if TotalTokens(docs) == 0 {
        EmptyDocs(docs);
      }
      hide TotalTokens;
      forall at | 0 <= at < |docs|
        ensures RankScore(score, docs, terms, at) == 0.0
      {
        NoTermHeld(score, docs, terms, |docs|, at);
      }
      assert PositiveAt(score, docs, terms) == {};
      EmptyTogether(Ranked(Earlier, {}), {});
    }
  }

  // ----- The same documents, indexed -----

  /** What an index holds after these documents were indexed one by one. */
  function Filled(keys: seq<Bytes>, docs: seq<Doc>): Docs
    requires |keys| == |docs|
  {
    if docs == [] then map[]
    else
      var n := |docs| - 1;
      Filing(Filled(keys[..n], docs[..n]), keys[n], docs[n])
  }

  function Tokened(docs: seq<Doc>): nat {
    if docs == [] then 0 else Tokened(docs[..|docs| - 1]) + if docs[|docs| - 1].tokens != [] then 1 else 0
  }

  ghost function Holders(docs: Docs, t: Bytes): set<Bytes> {
    set k | k in docs && t in docs[k].tokens
  }

  lemma {:induction false} FilledAt(keys: seq<Bytes>, docs: seq<Doc>)
    requires |keys| == |docs| && Distinct(keys)
    ensures forall k :: k in Filled(keys, docs) ==> k in keys
    ensures forall i :: 0 <= i < |keys| ==> (keys[i] in Filled(keys, docs) <==> docs[i].tokens != [])
    ensures forall i :: 0 <= i < |keys| && docs[i].tokens != [] ==> Filled(keys, docs)[keys[i]] == docs[i]
    decreases |docs|
  {
    if docs != [] {
      var n := |docs| - 1;
      FilledAt(keys[..n], docs[..n]);
      assert forall i :: 0 <= i < n ==> keys[i] == keys[..n][i] && docs[i] == docs[..n][i];
    }
  }

  lemma {:induction false} FilledCounts(keys: seq<Bytes>, docs: seq<Doc>, t: Bytes)
    requires |keys| == |docs| && Distinct(keys)
    ensures |Filled(keys, docs)| == Tokened(docs)
    ensures TotalLen(Filled(keys, docs)) == TotalTokens(docs)
    ensures |Holders(Filled(keys, docs), t)| == Df(docs, t)
    decreases |docs|
  {
    if docs != [] {
      var n := |docs| - 1;
      var before, key, doc := Filled(keys[..n], docs[..n]), keys[n], docs[n];
      CountPositive(doc.tokens, t);
      CountsUnfold(keys, docs, t);
      hide *;
      FrontKeys(keys);
      FilledCounts(keys[..n], docs[..n], t);
      FilledAt(keys[..n], docs[..n]);
      FiledCounts(before, key, doc, t);
    } else {
      assert Holders(map[], t) == {};
    }
  }

  lemma CountsUnfold(keys: seq<Bytes>, docs: seq<Doc>, t: Bytes)
    requires |keys| == |docs| > 0
    ensures var n := |docs| - 1;
            && Filled(keys, docs) == Filing(Filled(keys[..n], docs[..n]), keys[n], docs[n])
            && Tokened(docs) == Tokened(docs[..n]) + (if docs[n].tokens != [] then 1 else 0)
            && TotalTokens(docs) == TotalTokens(docs[..n]) + |docs[n].tokens|
            && Df(docs, t) == Df(docs[..n], t) + if t in docs[n].tokens then 1 else 0
  {
    CountPositive(docs[|docs| - 1].tokens, t);
    hide Filing, Count;
  }

  lemma FrontKeys(keys: seq<Bytes>)
    requires keys != [] && Distinct(keys)
    ensures Distinct(keys[..|keys| - 1]) && keys[|keys| - 1] !in keys[..|keys| - 1]
  {
  }

  lemma FiledCounts(docs: Docs, key: Bytes, doc: Doc, t: Bytes)
    requires key !in docs
    ensures var after := Filing(docs, key, doc);
            && |after| == |docs| + (if doc.tokens != [] then 1 else 0)
            && TotalLen(after) == TotalLen(docs) + |doc.tokens|
            && |Holders(after, t)| == |Holders(docs, t)| + if t in doc.tokens then 1 else 0
  {
    hide TotalLen, Holders;
    if doc.tokens == [] {
      assert docs - {key} == docs;
    } else {
      hide Count;
      FiledHolders(docs, key, doc, t);
      AddedCounts(docs, key, doc);
    }
  }

  lemma AddedCounts(docs: Docs, key: Bytes, doc: Doc)
    requires key !in docs
    ensures |docs[key := doc]| == |docs| + 1 && TotalLen(docs[key := doc]) == TotalLen(docs) + |doc.tokens|
  {
    var after := docs[key := doc];
    assert after - {key} == docs;
    TotalRemove(after, key);
    hide TotalLen;
    assert after.Keys == docs.Keys + {key};
  }

  lemma FiledHolders(docs: Docs, key: Bytes, doc: Doc, t: Bytes)
    requires key !in docs
    ensures |Holders(docs[key := doc], t)| == |Holders(docs, t)| + if t in doc.tokens then 1 else 0
  {
    var before, after := Holders(docs, t), Holders(docs[key := doc], t);
    assert key !in before;
    assert forall k :: k != key ==> (k in after <==> k in before);
    assert key in after <==> t in doc.tokens;
    hide Holders;
    if t in doc.tokens {
      assert after == before + {key};
    } else {
      assert after == before;
    }
  }

  // ----- Agreement -----

  lemma {:induction false} DistinctLength<T>(s: seq<T>, elems: set<T>)
    requires forall i, j :: 0 <= i < j < |s| ==> s[i] != s[j]
    requires forall x :: x in elems <==> x in s
    ensures |s| == |elems|
  {
    if s == [] {
      assert elems == {};
    } else {
      var n := |s| - 1;
      assert s == s[..n] + [s[n]];
      assert s[n] in s;
      DistinctLength(s[..n], elems - {s[n]});
    }
  }

  /** A term asked for exactly has one posting per document that holds it. */
  lemma ExactPostings(docs: Docs, t: Bytes, ts: seq<Bytes>, hits: seq<Hit>)
    requires PostingsAre(docs, Term(t, false), ts, hits)
    ensures |hits| == |Holders(docs, t)|
    ensures forall i, j :: 0 <= i < j < |hits| ==> hits[i].key != hits[j].key
    ensures forall i :: 0 <= i < |hits| ==> hits[i].key in docs && hits[i].tf == Count(docs[hits[i].key].tokens, t) > 0
    ensures forall k :: k in docs && t in docs[k].tokens ==> exists i :: 0 <= i < |hits| && hits[i].key == k
  {
    forall i | 0 <= i < |hits|
      ensures ts[i] == t && hits[i].key in docs && t in docs[hits[i].key].tokens
      ensures hits[i].tf == Count(docs[hits[i].key].tokens, t) > 0
    {
      assert IsHit(docs, Term(t, false), ts[i], hits[i]);
      CountPositive(docs[hits[i].key].tokens, t);
    }
    hide Count;
    assert Matches(t, false, t);
    var keys := seq(|hits|, i requires 0 <= i < |hits| => hits[i].key);
    forall k
      ensures k in Holders(docs, t) <==> k in keys
    {
      if k in Holders(docs, t) {
        var i :| 0 <= i < |hits| && ts[i] == t && hits[i].key == k;
        assert keys[i] == k;
      }
    }
    DistinctLength(keys, Holders(docs, t));
  }

  /** Distinct hits give a document at most one part. */
  lemma {:induction false} ShareOnce(score: Score, docs: Docs, df: nat, hits: seq<Hit>, key: Bytes)
    requires key in docs && forall i, j :: 0 <= i < j < |hits| ==> hits[i].key != hits[j].key
    ensures (forall i :: 0 <= i < |hits| ==> hits[i].key != key) ==> Share(score, docs, df, hits, key) == 0.0
    ensures forall i :: 0 <= i < |hits| && hits[i].key == key ==>
              Share(score, docs, df, hits, key) == Part(score, docs, df, hits[i])
    decreases |hits|
  {
    if hits != [] {
      ShareOnce(score, docs, df, hits[..|hits| - 1], key);
      hide Part;
      forall i | 0 <= i < |hits| && hits[i].key == key
        ensures Share(score, docs, df, hits, key) == Part(score, docs, df, hits[i])
      {
        if i < |hits| - 1 {
          assert hits[..|hits| - 1][i] == hits[i];
        }
      }
    }
  }

  lemma ExactShare(score: Score, docs: Docs, t: Bytes, ts: seq<Bytes>, hits: seq<Hit>, key: Bytes)
    requires key in docs && PostingsAre(docs, Term(t, false), ts, hits)
    ensures Share(score, docs, |hits|, hits, key)
         == Worth(score, docs[key], t, |Holders(docs, t)|, |docs|, TotalLen(docs))
  {
    CountPositive(docs[key].tokens, t);
    NoWorth(score, docs[key], t, |Holders(docs, t)|, |docs|, TotalLen(docs));
    hide *;
    ExactPostings(docs, t, ts, hits);
    ShareOnce(score, docs, |hits|, hits, key);
    if t in docs[key].tokens {
      var i :| 0 <= i < |hits| && hits[i].key == key;
      PartIsWorth(score, docs, |hits|, hits[i], t);
    }
  }

  lemma NoWorth(score: Score, doc: Doc, t: Bytes, df: nat, n: nat, total: nat)
    ensures Count(doc.tokens, t) == 0 ==> Worth(score, doc, t, df, n, total) == 0.0
  {
  }

  lemma PartIsWorth(score: Score, docs: Docs, df: nat, h: Hit, t: Bytes)
    requires h.key in docs && h.tf == Count(docs[h.key].tokens, t) > 0
    ensures Part(score, docs, df, h) == Worth(score, docs[h.key], t, df, |docs|, TotalLen(docs))
  {
  }

  /** One term gives one document the same share on either side. */
  lemma TermScores(score: Score, keys: seq<Bytes>, docs: seq<Doc>, t: Bytes, ts: seq<Bytes>, hits: seq<Hit>, at: nat)
    requires |keys| == |docs| && Distinct(keys) && at < |docs| && docs[at].tokens != []
    requires PostingsAre(Filled(keys, docs), Term(t, false), ts, hits)
    ensures keys[at] in Filled(keys, docs)
    ensures Share(score, Filled(keys, docs), |hits|, hits, keys[at])
         == Worth(score, docs[at], t, Df(docs, t), Tokened(docs), TotalTokens(docs))
  {
    FilledAt(keys, docs);
    hide *;
    FilledCounts(keys, docs, t);
    ExactShare(score, Filled(keys, docs), t, ts, hits, keys[at]);
  }

  lemma ListsSplit(docs: Docs, terms: seq<Bytes>, tss: seq<seq<Bytes>>, lists: seq<seq<Hit>>)
    requires terms != [] && ListsAre(docs, ExactTerms(terms), tss, lists)
    ensures |tss| == |lists| == |terms|
    ensures var n := |terms| - 1;
            && ListsAre(docs, ExactTerms(terms[..n]), tss[..n], lists[..n])
            && PostingsAre(docs, Term(terms[n], false), tss[n], lists[n])
  {
    hide PostingsAre;
    var n := |terms| - 1;
    assert forall i :: 0 <= i < n ==> ExactTerms(terms[..n])[i] == ExactTerms(terms)[i];
    assert ExactTerms(terms)[n] == Term(terms[n], false);
  }

  /**
   * The index feeds the score the same term frequency, document frequency, length and total as
   * the ranker; only the number of documents leaves out those without a token.
   */
  lemma {:induction false} IndexScores(score: Score, keys: seq<Bytes>, docs: seq<Doc>, terms: seq<Bytes>,
                                       tss: seq<seq<Bytes>>, lists: seq<seq<Hit>>, at: nat)
    requires |keys| == |docs| && Distinct(keys) && at < |docs| && docs[at].tokens != []
    requires ListsAre(Filled(keys, docs), ExactTerms(terms), tss, lists)
    ensures keys[at] in Filled(keys, docs)
    ensures Sum(score, Filled(keys, docs), lists, keys[at]) == ScoreAmong(score, docs, terms, Tokened(docs), at)
    decreases |terms|
  {
    FilledAt(keys, docs);
    var corpus := Filled(keys, docs);
    if terms == [] {
      NoTerms(score, keys, docs, terms, tss, lists, at);
    } else {
      var n := |terms| - 1;
      ListsSplit(corpus, terms, tss, lists);
      SumUnfold(score, corpus, lists, keys[at]);
      ScoreUnfold(score, docs, terms, Tokened(docs), at);
      hide *;
      IndexScores(score, keys, docs, terms[..n], tss[..n], lists[..n], at);
      TermScores(score, keys, docs, terms[n], tss[n], lists[n], at);
    }
  }

  lemma SumUnfold(score: Score, docs: Docs, lists: seq<seq<Hit>>, key: Bytes)
    requires key in docs && lists != []
    ensures var n := |lists| - 1;
            Sum(score, docs, lists, key) == Sum(score, docs, lists[..n], key) + Share(score, docs, |lists[n]|, lists[n], key)
  {
    hide Share;
  }

  lemma ScoreUnfold(score: Score, docs: seq<Doc>, terms: seq<Bytes>, n: nat, at: nat)
    requires at < |docs| && terms != []
    ensures var m := |terms| - 1;
            ScoreAmong(score, docs, terms, n, at)
            == ScoreAmong(score, docs, terms[..m], n, at) + Worth(score, docs[at], terms[m], Df(docs, terms[m]), n, TotalTokens(docs))
  {
    hide Worth, Df, TotalTokens;
  }

  lemma NoTerms(score: Score, keys: seq<Bytes>, docs: seq<Doc>, terms: seq<Bytes>,
                tss: seq<seq<Bytes>>, lists: seq<seq<Hit>>, at: nat)
    requires |keys| == |docs| && at < |docs| && keys[at] in Filled(keys, docs)
    requires terms == [] && ListsAre(Filled(keys, docs), ExactTerms(terms), tss, lists)
    ensures Sum(score, Filled(keys, docs), lists, keys[at]) == 0.0 == ScoreAmong(score, docs, terms, Tokened(docs), at)
  {
    hide Filled, Tokened, PostingsAre;
    assert lists == [];
  }

  /** No document the ranker would score. */
  ghost predicate NothingToScore(docs: seq<Doc>, terms: seq<Bytes>) {
    forall at :: 0 <= at < |docs| ==> docs[at].weight == 0.0 || forall t :: t in terms ==> t !in docs[at].tokens
  }

  ghost predicate SameScores(docs: seq<Doc>, terms: seq<Bytes>, score: Score) {
    forall at :: 0 <= at < |docs| && docs[at].tokens != [] ==>
      ScoreAmong(score, docs, terms, Tokened(docs), at) == RankScore(score, docs, terms, at)
  }

  /**
   * Whatever the formula, the two scores agree exactly when every document has a token, or there
   * is nothing to score: documents without one count for the ranker and not for the index.
   */
  lemma ScoresAgreeIff(docs: seq<Doc>, terms: seq<Bytes>)
    ensures (forall score: Score :: SameScores(docs, terms, score))
       <==> Tokened(docs) == |docs| || NothingToScore(docs, terms)
  {
    hide Tokened;
    if NothingToScore(docs, terms) {
      forall score: Score, at | 0 <= at < |docs|
        ensures ScoreAmong(score, docs, terms, Tokened(docs), at) == 0.0 == RankScore(score, docs, terms, at)
      {
        NoTermHeld(score, docs, terms, Tokened(docs), at);
        NoTermHeld(score, docs, terms, |docs|, at);
      }
    } else if Tokened(docs) != |docs| {
      var at :| 0 <= at < |docs| && docs[at].weight != 0.0 && exists t :: t in terms && t in docs[at].tokens;
      CountsTell(docs, terms, at);
    }
  }

  /** A score that shows the number of documents. */
  function ByDocs(): Score {
    (tf, df, len, n, total) => n as real
  }

  function Held(doc: Doc, terms: seq<Bytes>): nat {
    if terms == [] then 0
    else Held(doc, terms[..|terms| - 1]) + if Count(doc.tokens, terms[|terms| - 1]) > 0 then 1 else 0
  }

  lemma {:induction false} ByDocsScore(docs: seq<Doc>, terms: seq<Bytes>, n: nat, at: nat)
    requires at < |docs|
    ensures ScoreAmong(ByDocs(), docs, terms, n, at) == Held(docs[at], terms) as real * (n as real * docs[at].weight)
    decreases |terms|
  {
    if terms != [] {
      hide TotalTokens, Df, Count;
      ByDocsScore(docs, terms[..|terms| - 1], n, at);
    }
  }

  lemma {:induction false} SomethingHeld(doc: Doc, terms: seq<Bytes>, t: Bytes)
    requires t in terms && t in doc.tokens
    ensures Held(doc, terms) > 0
    decreases |terms|
  {
    var n := |terms| - 1;
    CountPositive(doc.tokens, terms[n]);
    if t != terms[n] {
      SomethingHeld(doc, terms[..n], t);
    }
  }

  lemma CountsTell(docs: seq<Doc>, terms: seq<Bytes>, at: nat)
    requires at < |docs| && docs[at].weight != 0.0 && exists t :: t in terms && t in docs[at].tokens
    requires Tokened(docs) != |docs|
    ensures !SameScores(docs, terms, ByDocs())
  {
    assert docs[at].tokens != [];
    assert RankScore(ByDocs(), docs, terms, at) == ScoreAmong(ByDocs(), docs, terms, |docs|, at);
    hide Tokened, ScoreAmong, RankScore, ByDocs;
    ByDocsDiffers(docs, terms, at, Tokened(docs), |docs|);
  }

  lemma ByDocsDiffers(docs: seq<Doc>, terms: seq<Bytes>, at: nat, n: nat, n': nat)
    requires at < |docs| && docs[at].weight != 0.0 && exists t :: t in terms && t in docs[at].tokens
    requires n != n'
    ensures ScoreAmong(ByDocs(), docs, terms, n, at) != ScoreAmong(ByDocs(), docs, terms, n', at)
  {
    hide *;
    var t :| t in terms && t in docs[at].tokens;
    SomethingHeld(docs[at], terms, t);
    ByDocsScore(docs, terms, n, at);
    ByDocsScore(docs, terms, n', at);
    Differ(Held(docs[at], terms) as real, n as real, n' as real, docs[at].weight);
  }

  lemma Differ(h: real, a: real, b: real, w: real)
    requires h != 0.0 && w != 0.0 && a != b
    ensures h * (a * w) != h * (b * w)
  {
    NoZero(a - b, w);
    NoZero(h, (a - b) * w);
    assert h * (a * w) - h * (b * w) == h * ((a - b) * w);
  }

  lemma NoZero(x: real, y: real)
    requires x != 0.0 && y != 0.0
    ensures x * y != 0.0
  {
  }

  lemma {:induction false} AllTokened(docs: seq<Doc>)
    requires forall i :: 0 <= i < |docs| ==> docs[i].tokens != []
    ensures Tokened(docs) == |docs|
    decreases |docs|
  {
    if docs != [] {
      AllTokened(docs[..|docs| - 1]);
    }
  }

  /** The key a position is filed under. */
  function NameOf(keys: seq<Bytes>): nat -> Bytes {
    (at: nat) => if at < |keys| then keys[at] else []
  }

  /**
   * A search over the index and a ranking of the same documents return the same hits with the
   * same scores in the same order, for every query that asks for exactly its tokens, over
   * documents that each have a token and are listed in key order.
   */
  lemma SearchIsRank(l: Lang, query: string, keys: seq<Bytes>, texts: seq<Text>, score: Score, limit: nat,
                     tss: seq<seq<Bytes>>, lists: seq<seq<Hit>>)
    requires Sane(l) && !l.alnum('*')
    requires (forall w :: w in Words(l, query) ==> Plain(l, w)) && Distinct(Tokenize(l, query))
    requires |keys| == |texts| && forall i, j :: 0 <= i < j < |keys| ==> Less(keys[i], keys[j])
    requires forall i :: 0 <= i < |texts| ==> Tokenize(l, texts[i].text) != []
    requires ListsAre(Filled(keys, Tokenized(l, texts)), TermsOf(l, Words(l, query)), tss, lists)
    ensures StrictTotal(Less) && StrictTotal(Earlier)
    ensures Cut(Ranked(Less, Positive(score, Filled(keys, Tokenized(l, texts)), lists)), limit)
         == Renamed(Cut(Ranked(Earlier, PositiveAt(score, Tokenized(l, texts), Tokenize(l, query))), limit), NameOf(keys))
  {
    LessIsTotal();
    EarlierIsTotal();
    QueryIsItsTokensIff(l, query);
    AscendingDistinct(keys);
    hide Sane, StrictTotal, Less, Words, TermsOf, Plain, Tokenize, Distinct, ListsAre;
    var docs, terms := Tokenized(l, texts), Tokenize(l, query);
    AllTokened(docs);
    hide Tokenized;
    forall at | 0 <= at < |docs|
      ensures keys[at] in Filled(keys, docs)
      ensures Sum(score, Filled(keys, docs), lists, keys[at]) == RankScore(score, docs, terms, at)
    {
      IndexScores(score, keys, docs, terms, tss, lists, at);
    }
    SamePositive(score, keys, docs, terms, lists);
    hide Positive, PositiveAt;
    RankingRenamed(Earlier, Less, NameOf(keys), PositiveAt(score, docs, terms), Positive(score, Filled(keys, docs), lists), limit);
  }

  lemma AscendingDistinct(keys: seq<Bytes>)
    requires forall i, j :: 0 <= i < j < |keys| ==> Less(keys[i], keys[j])
    ensures Distinct(keys)
  {
    forall i, j | 0 <= i < j < |keys|
      ensures keys[i] != keys[j]
    {
      LessIrreflexive(keys[i]);
    }
  }

  lemma SamePositive(score: Score, keys: seq<Bytes>, docs: seq<Doc>, terms: seq<Bytes>, lists: seq<seq<Hit>>)
    requires |keys| == |docs| && Distinct(keys)
    requires forall at :: 0 <= at < |docs| ==> keys[at] in Filled(keys, docs)
    requires forall at :: 0 <= at < |docs| ==>
      Sum(score, Filled(keys, docs), lists, keys[at]) == RankScore(score, docs, terms, at)
    ensures forall x :: x in PositiveAt(score, docs, terms) ==>
              x.key < |keys| && Scored(NameOf(keys)(x.key), x.score) in Positive(score, Filled(keys, docs), lists)
    ensures forall y :: y in Positive(score, Filled(keys, docs), lists) ==>
              exists x :: x in PositiveAt(score, docs, terms) && y == Scored(NameOf(keys)(x.key), x.score)
  {
    FilledAt(keys, docs);
    hide Filled, RankScore, Sum;
    forall y | y in Positive(score, Filled(keys, docs), lists)
      ensures exists x :: x in PositiveAt(score, docs, terms) && y == Scored(NameOf(keys)(x.key), x.score)
    {
      var at :| 0 <= at < |keys| && keys[at] == y.key;
      assert Scored(at, y.score) in PositiveAt(score, docs, terms);
    }
  }
}
