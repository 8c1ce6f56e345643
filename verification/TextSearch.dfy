/** Ranked search over the inverted index. */
module TextSearch {
  import opened Wrappers
  import opened Bytes
  import opened Order
  import opened Keyspace
  import opened Tokens
  import opened Ranking
  import opened TextIndex

  // ----- Postings -----

  datatype Hit = Hit(key: Bytes, tf: nat)

  /** Where the document key starts in a scanned key: behind the scope, or behind the term it prefixes. */
  function Boundary(key: Bytes, scope: Bytes, prefix: bool): Option<nat> {
    if !prefix then Some(|scope|)
    else if |key| < |scope| then None
    else
      var at := |scope| + FirstSlash(key[|scope|..]);
      if at < |key| then Some(at + 1) else None
  }

  lemma BoundaryCuts(ix: Index, text: Bytes, prefix: bool, t: Bytes, key: Bytes)
    requires NoSlash(text) && NoSlash(t) && Matches(text, prefix, t)
    ensures var row := Spelled(PostingKey(ix, t, key));
            var cut := Boundary(row, TermScope(ix, text, prefix), prefix);
            cut.Some? && cut.value <= |row| && row[cut.value..] == key
  {
    hide Root;
    var scope, more := TermScope(ix, text, prefix), t[|text|..];
    assert t == text + more;
    var behind := if prefix then more + [SLASH] + key else key;
    assert Spelled(PostingKey(ix, t, key)) == scope + behind;
    assert (scope + behind)[|scope|..] == behind;
    if prefix {
      FirstSlashAfter(more, key);
    }
  }

  /** A hit stands for a matching term of a document, with how often the document holds it. */
  ghost predicate IsHit(docs: Docs, term: Term, t: Bytes, h: Hit) {
    && Matches(term.text, term.prefix, t)
    && h.key in docs && t in docs[h.key].tokens && h.tf == Count(docs[h.key].tokens, t)
  }

  /** The postings of a term: every pair of a matching term and a document that holds it, once. */
  ghost predicate PostingsAre(docs: Docs, term: Term, ts: seq<Bytes>, hits: seq<Hit>) {
    && |ts| == |hits|
    && (forall i :: 0 <= i < |hits| ==> IsHit(docs, term, ts[i], hits[i]))
    && (forall t, k :: k in docs && t in docs[k].tokens && Matches(term.text, term.prefix, t) ==>
          exists i :: 0 <= i < |hits| && ts[i] == t && hits[i].key == k)
    && forall i, j :: 0 <= i < j < |hits| ==> ts[i] != ts[j] || hits[i].key != hits[j].key
  }

  ghost predicate ArePostings(docs: Docs, term: Term, hits: seq<Hit>) {
    exists ts :: PostingsAre(docs, term, ts, hits)
  }

  /** A row the scan meets is the posting of a matching term of a document. */
  lemma ScannedIsHit(rows: Rows, docs: Docs, ix: Index, term: Term, b: Bytes) returns (t: Bytes, h: Hit)
    requires Tidy(rows) && Indexes(rows, ix, docs) && NoSlash(term.text)
    requires b in rows && IsPrefix(TermScope(ix, term.text, term.prefix), b)
    ensures IsHit(docs, term, t, h) && b == Spelled(PostingKey(ix, t, h.key)) && rows[b] == PostingRow(h.tf)
    ensures var cut := Boundary(b, TermScope(ix, term.text, term.prefix), term.prefix);
            cut.Some? && cut.value <= |b| && b[cut.value..] == h.key
  {
    var r :| Proper(r) && Spelled(r) == b;
    PostingScope(ix, term.text, term.prefix, r);
    BoundaryCuts(ix, term.text, term.prefix, r.term, r.key);
    t := r.term;
    IndexFacts(rows, ix, docs, r.key);
    hide Spelled, IsPrefix, Boundary, Tidy, Indexes, TotalLen, Matches;
    assert Look(rows, PostingKey(ix, t, r.key)) == Some(rows[b]);
    h := Hit(r.key, Count(docs[r.key].tokens, t));
  }

  lemma HitIsScanned(rows: Rows, docs: Docs, ix: Index, term: Term, t: Bytes, k: Bytes)
    requires Indexes(rows, ix, docs) && NoSlash(term.text)
    requires k in docs && t in docs[k].tokens && Matches(term.text, term.prefix, t)
    ensures Spelled(PostingKey(ix, t, k)) in rows && NoSlash(t)
    ensures IsPrefix(TermScope(ix, term.text, term.prefix), Spelled(PostingKey(ix, t, k)))
  {
    IndexFacts(rows, ix, docs, k);
    hide Spelled, IsPrefix, Tidy, Indexes, TotalLen, Matches;
    assert DocOk(docs[k]);
    PostingScope(ix, term.text, term.prefix, PostingKey(ix, t, k));
    assert Look(rows, PostingKey(ix, t, k)).Some?;
  }

  /** The first `n` scanned rows are the hits so far, in the same places. */
  ghost predicate ReadSoFar(docs: Docs, ix: Index, term: Term, found: seq<Bytes>, ts: seq<Bytes>, hits: seq<Hit>) {
    && |ts| == |hits| <= |found|
    && forall i :: 0 <= i < |hits| ==> IsHit(docs, term, ts[i], hits[i]) && found[i] == Spelled(PostingKey(ix, ts[i], hits[i].key))
  }

  lemma AllRead(rows: Rows, docs: Docs, ix: Index, term: Term, found: seq<Bytes>, ts: seq<Bytes>, hits: seq<Hit>)
    requires Indexes(rows, ix, docs) && NoSlash(term.text) && ReadSoFar(docs, ix, term, found, ts, hits) && |hits| == |found|
    requires forall b :: b in rows && IsPrefix(TermScope(ix, term.text, term.prefix), b) ==> b in found
    requires forall i, j :: 0 <= i < j < |found| ==> found[i] != found[j]
    ensures PostingsAre(docs, term, ts, hits)
  {
    hide Spelled, IsPrefix, Indexes, Matches, TermScope;
    forall t, k | k in docs && t in docs[k].tokens && Matches(term.text, term.prefix, t)
      ensures exists i :: 0 <= i < |hits| && ts[i] == t && hits[i].key == k
    {
      HitIsScanned(rows, docs, ix, term, t, k);
      var b := Spelled(PostingKey(ix, t, k));
      assert b in found;
      var i :| 0 <= i < |found| && found[i] == b;
      HitIsScanned(rows, docs, ix, term, ts[i], hits[i].key);
      SpelledInjective(PostingKey(ix, t, k), PostingKey(ix, ts[i], hits[i].key));
    }
  }

  /** The hits of a query term: the documents it is in, and how often; a starred term stands for all it begins. */
  method Postings(store: TextStore, ix: Index, term: Term) returns (hits: seq<Hit>)
    requires store.Valid() && NoSlash(term.text)
    ensures ix in store.corpus && ArePostings(store.corpus[ix], term, hits)
  {
    hide AllIndexed;
    IndexedAt(store.rows, store.corpus, ix);
    hide *;
    var scope := TermScope(ix, term.text, term.prefix);
    var found := store.ScanKeys(scope);
    ghost var docs := store.corpus[ix];
    ghost var ts: seq<Bytes> := [];
    hits := [];
    NothingRead(docs, ix, term, found);
    for i := 0 to |found|
      invariant |hits| == i && ReadSoFar(docs, ix, term, found, ts, hits)
    {
      assert found[i] in found;
      ghost var t, h := ScannedIsHit(store.rows, docs, ix, term, found[i]);
      match Boundary(found[i], scope, term.prefix) {
        case Some(cut) =>
          match store.rows[found[i]] {
            case PostingRow(tf) =>
              ReadOneMore(docs, ix, term, found, ts, hits, t, h);
              hits, ts := hits + [Hit(found[i][cut..], tf)], ts + [t];
            case _ => assert false;
          }
        case None => assert false;
      }
    }
    AllRead(store.rows, docs, ix, term, found, ts, hits);
    ArePostingsBy(docs, term, ts, hits);
  }

  lemma ArePostingsBy(docs: Docs, term: Term, ts: seq<Bytes>, hits: seq<Hit>)
    requires PostingsAre(docs, term, ts, hits)
    ensures ArePostings(docs, term, hits)
  {
  }

  lemma PostingsBy(docs: Docs, term: Term, hits: seq<Hit>) returns (ts: seq<Bytes>)
    requires ArePostings(docs, term, hits)
    ensures PostingsAre(docs, term, ts, hits)
  {
    ts :| PostingsAre(docs, term, ts, hits);
  }

  lemma NothingRead(docs: Docs, ix: Index, term: Term, found: seq<Bytes>)
    ensures ReadSoFar(docs, ix, term, found, [], [])
  {
  }

  lemma ReadOneMore(docs: Docs, ix: Index, term: Term, found: seq<Bytes>, ts: seq<Bytes>, hits: seq<Hit>, t: Bytes, h: Hit)
    requires ReadSoFar(docs, ix, term, found, ts, hits) && |hits| < |found|
    requires IsHit(docs, term, t, h) && found[|hits|] == Spelled(PostingKey(ix, t, h.key))
    ensures ReadSoFar(docs, ix, term, found, ts + [t], hits + [h])
  {
    hide Spelled, IsHit;
  }

  // ----- Scores -----

  /** `idf(df, docs) * weigh(tf, len, total / docs)`, whatever the formula: (tf, df, len, docs, total). */
  type Score = (nat, nat, nat, nat, nat) -> real

  /** What one hit is worth, among `df`. */
  ghost function Part(score: Score, docs: Docs, df: nat, h: Hit): real
    requires h.key in docs
  {
    score(h.tf, df, |docs[h.key].tokens|, |docs|, TotalLen(docs)) * docs[h.key].weight
  }

  lemma PartIs(score: Score, docs: Docs, df: nat, h: Hit, len: nat, weight: real, n: nat, total: nat)
    requires h.key in docs && (len, weight) == (|docs[h.key].tokens|, docs[h.key].weight)
    requires n == |docs| && total == TotalLen(docs)
    ensures score(h.tf, df, len, n, total) * weight == Part(score, docs, df, h)
  {
  }

  /** What a list of hits, `df` in all, adds to one document. */
  ghost function Share(score: Score, docs: Docs, df: nat, hits: seq<Hit>, key: Bytes): real
    requires key in docs
  {
    if hits == [] then 0.0
    else
      var n := |hits| - 1;
      Share(score, docs, df, hits[..n], key) + if hits[n].key == key then Part(score, docs, df, hits[n]) else 0.0
  }

  ghost function Sum(score: Score, docs: Docs, lists: seq<seq<Hit>>, key: Bytes): real
    requires key in docs
  {
    if lists == [] then 0.0
    else
      var n := |lists| - 1;
      Sum(score, docs, lists[..n], key) + Share(score, docs, |lists[n]|, lists[n], key)
  }

  function At(scores: map<Bytes, real>, key: Bytes): real {
    if key in scores then scores[key] else 0.0
  }

  /** The scores so far: `more` of the current list on top of the lists before it. */
  ghost predicate ScoresAre(score: Score, docs: Docs, lists: seq<seq<Hit>>, df: nat, more: seq<Hit>, scores: map<Bytes, real>) {
    && scores.Keys <= docs.Keys
    && forall k :: k in docs ==> At(scores, k) == Sum(score, docs, lists, k) + Share(score, docs, df, more, k)
  }

  lemma NoScores(score: Score, docs: Docs)
    ensures ScoresAre(score, docs, [], 0, [], map[])
  {
  }

  /** A list that is through is one of the lists before. */
  lemma NextList(score: Score, docs: Docs, lists: seq<seq<Hit>>, hits: seq<Hit>, df: nat, scores: map<Bytes, real>)
    requires ScoresAre(score, docs, lists, |hits|, hits, scores)
    ensures ScoresAre(score, docs, lists + [hits], df, [], scores)
  {
    assert (lists + [hits])[..|lists|] == lists;
    hide TotalLen;
  }

  lemma OneMore(score: Score, docs: Docs, lists: seq<seq<Hit>>, df: nat, more: seq<Hit>, h: Hit, scores: map<Bytes, real>)
    requires ScoresAre(score, docs, lists, df, more, scores) && h.key in docs
    ensures ScoresAre(score, docs, lists, df, more + [h], scores[h.key := At(scores, h.key) + Part(score, docs, df, h)])
  {
    assert (more + [h])[..|more|] == more;
    hide Sum, Part;
  }

  /** What the doc records remembered so far say. */
  ghost predicate LensAre(docs: Docs, lens: map<Bytes, (nat, real)>) {
    forall k :: k in lens ==> k in docs && lens[k] == (|docs[k].tokens|, docs[k].weight)
  }

  /** The doc record of a document, read once. */
  method DocLen(store: TextStore, ix: Index, key: Bytes, lens: map<Bytes, (nat, real)>)
    returns (len: nat, weight: real, lens': map<Bytes, (nat, real)>)
    requires store.Valid() && ix in store.corpus && key in store.corpus[ix] && LensAre(store.corpus[ix], lens)
    ensures LensAre(store.corpus[ix], lens')
    ensures (len, weight) == (|store.corpus[ix][key].tokens|, store.corpus[ix][key].weight)
  {
    hide AllIndexed, Indexes, TotalLen, Spelled;
    IndexedAt(store.rows, store.corpus, ix);
    IndexFacts(store.rows, ix, store.corpus[ix], key);
    if key in lens {
      return lens[key].0, lens[key].1, lens;
    }
    match Look(store.rows, DocKey(ix, key)) {
      case Some(DocRow(n, w, _)) => len, weight := n, w;
      case _ => assert false;
    }
    lens' := lens[key := (len, weight)];
  }

  /** Add one term's postings to the scores. */
  method AddPostings(store: TextStore, ix: Index, score: Score, hits: seq<Hit>, docs: nat, total: nat,
                     was: map<Bytes, real>, lens: map<Bytes, (nat, real)>, ghost lists: seq<seq<Hit>>)
    returns (scores: map<Bytes, real>, lens': map<Bytes, (nat, real)>)
    requires store.Valid() && ix in store.corpus && LensAre(store.corpus[ix], lens)
    requires docs == |store.corpus[ix]| && total == TotalLen(store.corpus[ix])
    requires forall i :: 0 <= i < |hits| ==> hits[i].key in store.corpus[ix]
    requires ScoresAre(score, store.corpus[ix], lists, |hits|, [], was)
    ensures LensAre(store.corpus[ix], lens')
    ensures ScoresAre(score, store.corpus[ix], lists + [hits], 0, [], scores)
  {
    hide *;
    ghost var corpus := store.corpus[ix];
    scores, lens' := was, lens;
    assert hits[..0] == [];
    for i := 0 to |hits|
      invariant LensAre(corpus, lens') && ScoresAre(score, corpus, lists, |hits|, hits[..i], scores)
    {
      var len, weight;
      len, weight, lens' := DocLen(store, ix, hits[i].key, lens');
      PartIs(score, corpus, |hits|, hits[i], len, weight, docs, total);
      OneMore(score, corpus, lists, |hits|, hits[..i], hits[i], scores);
      assert hits[..i + 1] == hits[..i] + [hits[i]];
      var part := score(hits[i].tf, |hits|, len, docs, total) * weight;
      assert part == Part(score, corpus, |hits|, hits[i]);
      scores := scores[hits[i].key := At(scores, hits[i].key) + part];
    }
    assert hits[..|hits|] == hits;
    NextList(score, corpus, lists, hits, 0, scores);
  }

  /** The postings of each term, and what they add up to. */
  ghost predicate ListsAre(docs: Docs, terms: seq<Term>, tss: seq<seq<Bytes>>, lists: seq<seq<Hit>>) {
    && |tss| == |lists| == |terms|
    && forall i :: 0 <= i < |terms| ==> PostingsAre(docs, terms[i], tss[i], lists[i])
  }

  ghost function Positive(score: Score, docs: Docs, lists: seq<seq<Hit>>): set<Scored<Bytes>> {
    set k | k in docs && Sum(score, docs, lists, k) > 0.0 :: Scored(k, Sum(score, docs, lists, k))
  }

  lemma LessIsTotal()
    ensures StrictTotal(Less)
  {
    forall a, b, c
      ensures a == b || Less(a, b) || Less(b, a)
      ensures !Less(a, a)
      ensures Less(a, b) && Less(b, c) ==> Less(a, c)
    {
      LessTotal(a, b);
      LessIrreflexive(a);
      if Less(a, b) && Less(b, c) {
        LessTransitive(a, b, c);
      }
    }
  }

  /** Score every document the terms name, keep the positive ones, best first. */
  method Search(store: TextStore, ix: Index, terms: seq<Term>, limit: nat, score: Score)
    returns (hits: seq<Scored<Bytes>>, ghost tss: seq<seq<Bytes>>, ghost lists: seq<seq<Hit>>)
    requires store.Valid() && forall t :: t in terms ==> NoSlash(t.text)
    ensures ix in store.corpus && StrictTotal(Less)
    ensures limit == 0 ==> hits == []
    ensures limit > 0 && |store.corpus[ix]| > 0 ==>
              && ListsAre(store.corpus[ix], terms, tss, lists)
              && hits == Cut(Ranked(Less, Positive(score, store.corpus[ix], lists)), limit)
              && BestFirst(Less, hits, Positive(score, store.corpus[ix], lists), limit)
    ensures |store.corpus[ix]| == 0 ==> hits == []
  {
    LessIsTotal();
    hide AllIndexed, Indexes, StrictTotal, Less;
    IndexedAt(store.rows, store.corpus, ix);
    IndexFacts(store.rows, ix, store.corpus[ix], []);
    hide *;
    ghost var docs := store.corpus[ix];
    tss, lists := [], [];
    if terms == [] || limit == 0 {
      NothingPositive(score, docs);
      return [], [], [];
    }
    var n, total := store.Stats(ix);
    if n == 0 {
      return [], [], [];
    }
    var scores: map<Bytes, real>, lens: map<Bytes, (nat, real)> := map[], map[];
    NoScores(score, docs);
    NoLens(docs);
    NoLists(docs, terms);
    for i := 0 to |terms|
      invariant LensAre(docs, lens) && ScoresAre(score, docs, lists, 0, [], scores)
      invariant ListsAre(docs, terms[..i], tss, lists)
    {
      assert terms[i] in terms;
      var found := Postings(store, ix, terms[i]);
      ghost var ts := PostingsBy(docs, terms[i], found);
      OneMoreList(docs, terms, i, tss, lists, ts, found);
      Restart(score, docs, lists, |found|, scores);
      tss := tss + [ts];
      if found == [] {
        NextList(score, docs, lists, found, 0, scores);
      } else {
        scores, lens := AddPostings(store, ix, score, found, n, total, scores, lens, lists);
      }
      lists := lists + [found];
    }
    assert terms[..|terms|] == terms;
    PositiveScores(score, docs, lists, scores);
    hits := SortCut(Less, set k | k in scores && scores[k] > 0.0 :: Scored(k, scores[k]), limit);
  }

  lemma NoLens(docs: Docs)
    ensures LensAre(docs, map[])
  {
  }

  lemma NoLists(docs: Docs, terms: seq<Term>)
    ensures ListsAre(docs, [], [], []) && ListsAre(docs, terms[..0], [], [])
  {
  }

  /** The document frequency only matters to hits. */
  lemma Restart(score: Score, docs: Docs, lists: seq<seq<Hit>>, df: nat, scores: map<Bytes, real>)
    requires ScoresAre(score, docs, lists, 0, [], scores)
    ensures ScoresAre(score, docs, lists, df, [], scores)
  {
  }

  lemma OneMoreList(docs: Docs, terms: seq<Term>, i: nat, tss: seq<seq<Bytes>>, lists: seq<seq<Hit>>, ts: seq<Bytes>, hits: seq<Hit>)
    requires i < |terms| && ListsAre(docs, terms[..i], tss, lists) && PostingsAre(docs, terms[i], ts, hits)
    ensures ListsAre(docs, terms[..i + 1], tss + [ts], lists + [hits])
    ensures forall j :: 0 <= j < |hits| ==> hits[j].key in docs
  {
    assert forall j :: 0 <= j < |hits| ==> IsHit(docs, terms[i], ts[j], hits[j]);
    hide PostingsAre;
  }

  lemma PositiveScores(score: Score, docs: Docs, lists: seq<seq<Hit>>, scores: map<Bytes, real>)
    requires ScoresAre(score, docs, lists, 0, [], scores)
    ensures (set k | k in scores && scores[k] > 0.0 :: Scored(k, scores[k])) == Positive(score, docs, lists)
  {
    hide Sum;
    var a := set k | k in scores && scores[k] > 0.0 :: Scored(k, scores[k]);
    forall x
      ensures x in a <==> x in Positive(score, docs, lists)
    {
      assert x.key in docs ==> At(scores, x.key) == Sum(score, docs, lists, x.key);
    }
  }

  lemma NothingPositive(score: Score, docs: Docs)
    ensures StrictTotal(Less)
    ensures Positive(score, docs, []) == {} && forall limit :: Cut(Ranked(Less, {}), limit) == []
  {
    LessIsTotal();
    hide StrictTotal, Less;
    EmptyTogether(Ranked(Less, {}), {});
  }
}
