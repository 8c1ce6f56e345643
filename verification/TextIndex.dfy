/** The inverted index: documents, postings and totals in one keyspace, kept equal to the corpus. */
module TextIndex {
  import opened Wrappers
  import opened Bytes
  import opened Order
  import opened Keyspace
  import opened Tokens

  // ----- Keys -----

  datatype Index = Messages | SessionMeta | Memory

  const IDX: Bytes := [105, 100, 120]
  const TEXT: Bytes := [116, 101, 120, 116]
  const DOC: Bytes := [100, 111, 99]
  const TERM: Bytes := [116, 101, 114, 109]
  const STATS: Bytes := [115, 116, 97, 116, 115]

  function IndexName(ix: Index): (n: Bytes)
    ensures NoSlash(n)
  {
    match ix
    case Messages => [109, 115, 103]
    case SessionMeta => [109, 101, 116, 97]
    case Memory => [109, 101, 109]
  }

  /** What a row is filed under, before it is spelled out in bytes. */
  datatype RowKey =
    | DocKey(ix: Index, key: Bytes)
    | PostingKey(ix: Index, term: Bytes, key: Bytes)
    | StatsKey(ix: Index)

  /** Terms hold no separator: they are alphanumeric. */
  predicate Proper(k: RowKey) {
    k.PostingKey? ==> NoSlash(k.term)
  }

  /** `local/idx/text/{ix}/`. */
  function Root(ix: Index): Bytes {
    LOCAL + [SLASH] + IDX + [SLASH] + TEXT + [SLASH] + IndexName(ix) + [SLASH]
  }

  function Spelled(k: RowKey): Bytes {
    Root(k.ix) + match k
    case DocKey(_, key) => DOC + [SLASH] + key
    case PostingKey(_, term, key) => TERM + [SLASH] + (term + [SLASH] + key)
    case StatsKey(_) => STATS
  }

  /** The spelled key is the one built from its parts. */
  lemma SpelledIsBuilt(ix: Index, term: Bytes, key: Bytes)
    ensures Spelled(DocKey(ix, key)) == PrefixOf([IDX, TEXT, IndexName(ix), DOC]) + key
    ensures Spelled(PostingKey(ix, term, key)) == PrefixOf([IDX, TEXT, IndexName(ix), TERM, term]) + key
    ensures Spelled(StatsKey(ix)) == KeyOf([IDX, TEXT, IndexName(ix), STATS])
  {
    var n := IndexName(ix);
    JoinedFour(IDX, TEXT, n, DOC);
    JoinedFour(IDX, TEXT, n, STATS);
    JoinedFour(IDX, TEXT, n, TERM);
    JoinedSnoc([IDX, TEXT, n, TERM], term);
    assert [IDX, TEXT, n, TERM] + [term] == [IDX, TEXT, n, TERM, term];
    hide Joined, IndexName;
    Flat(LOCAL, IDX, TEXT, n, DOC, key);
    Flat(LOCAL, IDX, TEXT, n, TERM, term + [SLASH] + key);
    FlatEnd(LOCAL, IDX, TEXT, n, STATS);
    FlatTerm(LOCAL, Joined([IDX, TEXT, n, TERM]), term, key);
  }

  lemma Flat(l: Bytes, a: Bytes, b: Bytes, c: Bytes, d: Bytes, k: Bytes)
    ensures l + ([SLASH] + a + [SLASH] + b + [SLASH] + c + [SLASH] + d) + [SLASH] + k
         == l + [SLASH] + a + [SLASH] + b + [SLASH] + c + [SLASH] + (d + [SLASH] + k)
  {
  }

  lemma FlatEnd(l: Bytes, a: Bytes, b: Bytes, c: Bytes, d: Bytes)
    ensures l + ([SLASH] + a + [SLASH] + b + [SLASH] + c + [SLASH] + d)
         == l + [SLASH] + a + [SLASH] + b + [SLASH] + c + [SLASH] + d
  {
  }

  lemma FlatTerm(l: Bytes, parts: Bytes, term: Bytes, key: Bytes)
    ensures l + (parts + [SLASH] + term) + [SLASH] + key == l + parts + [SLASH] + (term + [SLASH] + key)
  {
  }

  lemma {:induction false} JoinedSnoc(parts: seq<Bytes>, last: Bytes)
    ensures Joined(parts + [last]) == Joined(parts) + [SLASH] + last
    decreases |parts|
  {
    if parts == [] {
      assert [last][1..] == [];
    } else {
      assert (parts + [last])[1..] == parts[1..] + [last];
      JoinedSnoc(parts[1..], last);
    }
  }

  lemma JoinedFour(a: Bytes, b: Bytes, c: Bytes, d: Bytes)
    ensures Joined([a, b, c, d]) == [SLASH] + a + [SLASH] + b + [SLASH] + c + [SLASH] + d
  {
    JoinedSnoc([], a);
    JoinedSnoc([a], b);
    JoinedSnoc([a, b], c);
    JoinedSnoc([a, b, c], d);
    assert [a] + [b] == [a, b] && [a, b] + [c] == [a, b, c] && [a, b, c] + [d] == [a, b, c, d];
    assert [] + [a] == [a];
  }

  lemma RootsDiffer(ix: Index, x: Bytes, ix': Index, x': Bytes)
    requires Root(ix) + x == Root(ix') + x'
    ensures ix == ix' && x == x'
  {
    var p := LOCAL + [SLASH] + IDX + [SLASH] + TEXT + [SLASH];
    assert Root(ix) + x == p + (IndexName(ix) + [SLASH] + x);
    assert Root(ix') + x' == p + (IndexName(ix') + [SLASH] + x');
    CommonPrefix(p, IndexName(ix) + [SLASH] + x, IndexName(ix') + [SLASH] + x');
    PartsSplit(IndexName(ix), x, IndexName(ix'), x');
    assert |IndexName(ix)| == |IndexName(ix')| && IndexName(ix)[2] == IndexName(ix')[2];
  }

  /** The layout is injective: two rows never share a key. */
  lemma SpelledInjective(a: RowKey, b: RowKey)
    requires Proper(a) && Proper(b) && Spelled(a) == Spelled(b)
    ensures a == b
  {
    var x, y := Spelled(a)[|Root(a.ix)|..], Spelled(b)[|Root(b.ix)|..];
    assert Spelled(a) == Root(a.ix) + x && Spelled(b) == Root(b.ix) + y;
    RootsDiffer(a.ix, x, b.ix, y);
    SameKind(a, b);
    match a
    case DocKey(_, key) => PartsSplit(DOC, key, DOC, b.key);
    case PostingKey(_, term, key) =>
      PartsSplit(TERM, term + [SLASH] + key, TERM, b.term + [SLASH] + b.key);
      PartsSplit(term, key, b.term, b.key);
    case StatsKey(_) =>
  }

  lemma SameKind(a: RowKey, b: RowKey)
    requires a.ix == b.ix && Spelled(a) == Spelled(b)
    ensures a.DocKey? == b.DocKey? && a.PostingKey? == b.PostingKey?
  {
    var n := |Root(a.ix)|;
    assert Spelled(a)[n] == Spelled(b)[n];
    assert Spelled(a)[n] == match a case DocKey(_, _) => 100 case PostingKey(_, _, _) => 116 case StatsKey(_) => 115;
    assert Spelled(b)[n] == match b case DocKey(_, _) => 100 case PostingKey(_, _, _) => 116 case StatsKey(_) => 115;
  }

  /** A scan of the doc records under a key prefix meets doc records with that prefix only. */
  lemma DocScope(ix: Index, prefix: Bytes, k: RowKey)
    requires Proper(k)
    ensures IsPrefix(Spelled(DocKey(ix, prefix)), Spelled(k)) <==> k.DocKey? && k.ix == ix && IsPrefix(prefix, k.key)
  {
    hide Root;
    var scope := Root(ix) + DOC + [SLASH];
    assert Spelled(DocKey(ix, prefix)) == scope + prefix;
    if IsPrefix(Spelled(DocKey(ix, prefix)), Spelled(k)) {
      var rest := PrefixRest(Spelled(DocKey(ix, prefix)), Spelled(k));
      assert Spelled(k) == Spelled(DocKey(ix, prefix + rest));
      SpelledInjective(k, DocKey(ix, prefix + rest));
    } else if k.DocKey? && k.ix == ix {
      assert Spelled(k) == scope + k.key;
      CommonPrefix(scope, prefix, k.key);
    }
  }

  predicate Matches(text: Bytes, prefix: bool, term: Bytes) {
    if prefix then IsPrefix(text, term) else term == text
  }

  /** What a term's scan starts from: without a trailing separator for a prefix term. */
  function TermScope(ix: Index, text: Bytes, prefix: bool): Bytes {
    Root(ix) + TERM + [SLASH] + text + if prefix then [] else [SLASH]
  }

  /** A term's scan meets exactly the postings of the terms it matches. */
  lemma PostingScope(ix: Index, text: Bytes, prefix: bool, k: RowKey)
    requires Proper(k) && NoSlash(text)
    ensures IsPrefix(TermScope(ix, text, prefix), Spelled(k))
       <==> k.PostingKey? && k.ix == ix && Matches(text, prefix, k.term)
  {
    var scope := TermScope(ix, text, prefix);
    if IsPrefix(scope, Spelled(k)) {
      var rest := PrefixRest(scope, Spelled(k));
      PostingScopeOnly(ix, text, prefix, k, rest);
    } else if k.PostingKey? && k.ix == ix && Matches(text, prefix, k.term) {
      PostingScopeAll(ix, text, prefix, k.term, k.key);
    }
  }

  lemma PostingScopeAll(ix: Index, text: Bytes, prefix: bool, term: Bytes, key: Bytes)
    requires Matches(text, prefix, term)
    ensures IsPrefix(TermScope(ix, text, prefix), Spelled(PostingKey(ix, term, key)))
  {
    hide Root;
    var p := Root(ix) + TERM + [SLASH];
    var tail := if prefix then term[|text|..] + [SLASH] + key else key;
    assert term == text + if prefix then term[|text|..] else [];
    Behind(Root(ix), TERM, term + [SLASH] + key);
    if prefix {
      BehindTerm(p, text, term[|text|..], key);
    } else {
      BehindExact(p, text, key);
    }
    IsPrefixOfConcat(TermScope(ix, text, prefix), tail);
  }

  lemma IsPrefixOfConcat(a: Bytes, b: Bytes)
    ensures IsPrefix(a, a + b)
  {
  }

  lemma Behind(root: Bytes, kind: Bytes, rest: Bytes)
    ensures root + (kind + [SLASH] + rest) == root + kind + [SLASH] + rest
  {
  }

  lemma BehindTerm(p: Bytes, text: Bytes, more: Bytes, key: Bytes)
    ensures p + (text + more + [SLASH] + key) == p + text + [] + (more + [SLASH] + key)
  {
  }

  lemma BehindExact(p: Bytes, text: Bytes, key: Bytes)
    ensures p + (text + [SLASH] + key) == p + text + [SLASH] + key
  {
  }

  lemma PostingScopeOnly(ix: Index, text: Bytes, prefix: bool, k: RowKey, rest: Bytes)
    requires Proper(k) && NoSlash(text) && Spelled(k) == TermScope(ix, text, prefix) + rest
    ensures k.PostingKey? && k.ix == ix && Matches(text, prefix, k.term)
  {
    var tail := text + (if prefix then [] else [SLASH]) + rest;
    var x := SpelledTail(k);
    ScopeTail(Root(ix), text, prefix, rest);
    hide Root, Spelled, IsPrefix;
    assert Root(k.ix) + x == Root(ix) + (TERM + [SLASH] + tail);
    RootsDiffer(k.ix, x, ix, TERM + [SLASH] + tail);
    assert x[0] == 116;
    var behind := k.term + [SLASH] + k.key;
    PartsSplit(TERM, behind, TERM, tail);
    if prefix {
      assert behind == text + rest;
      SlashBehind(text, rest, k.term, k.key);
    } else {
      PartsSplit(k.term, k.key, text, rest);
    }
  }

  lemma SpelledTail(k: RowKey) returns (x: Bytes)
    ensures Spelled(k) == Root(k.ix) + x && x != [] && (x[0] == 116 <==> k.PostingKey?)
    ensures k.PostingKey? ==> x == TERM + [SLASH] + (k.term + [SLASH] + k.key)
  {
    hide Root;
    match k
    case DocKey(_, key) => x := DOC + [SLASH] + key;
    case PostingKey(_, term, key) => x := TERM + [SLASH] + (term + [SLASH] + key);
    case StatsKey(_) => x := STATS;
  }

  lemma ScopeTail(root: Bytes, text: Bytes, prefix: bool, rest: Bytes)
    ensures root + TERM + [SLASH] + text + (if prefix then [] else [SLASH]) + rest
         == root + (TERM + [SLASH] + (text + (if prefix then [] else [SLASH]) + rest))
  {
  }

  lemma SlashBehind(text: Bytes, rest: Bytes, term: Bytes, key: Bytes)
    requires NoSlash(text) && NoSlash(term) && term + [SLASH] + key == text + rest
    ensures IsPrefix(text, term)
  {
    FirstSlashAfter(term, key);
    FirstSlashPast(text, rest);
    assert term == (text + rest)[..|term|];
  }

  // ----- Rows -----

  datatype Row =
    | DocRow(len: nat, weight: real, terms: seq<Bytes>)
    | PostingRow(tf: nat)
    | StatsRow(docs: nat, totalLen: nat)

  type Rows = map<Bytes, Row>

  function Look(rows: Rows, k: RowKey): Option<Row> {
    if Spelled(k) in rows then Some(rows[Spelled(k)]) else None
  }

  /** Every key in the column is one of ours. */
  ghost predicate Tidy(rows: Rows) {
    forall b :: b in rows ==> exists k :: Proper(k) && Spelled(k) == b
  }

  lemma PutLooks(rows: Rows, k: RowKey, row: Row, other: RowKey)
    requires Proper(k) && Proper(other)
    ensures Look(rows[Spelled(k) := row], other) == if other == k then Some(row) else Look(rows, other)
  {
    if Spelled(other) == Spelled(k) {
      SpelledInjective(other, k);
    }
  }

  lemma DropLooks(rows: Rows, k: RowKey, other: RowKey)
    requires Proper(k) && Proper(other)
    ensures Look(rows - {Spelled(k)}, other) == if other == k then None else Look(rows, other)
  {
    if Spelled(other) == Spelled(k) {
      SpelledInjective(other, k);
    }
  }

  // ----- The corpus -----

  /** A document as indexed: its tokens, at least one, and its weight. */
  datatype Doc = Doc(tokens: seq<Bytes>, weight: real)

  type Docs = map<Bytes, Doc>

  /** A document without a token is not indexed at all: it only unseats its predecessor. */
  function Filing(docs: Docs, key: Bytes, doc: Doc): Docs {
    if doc.tokens == [] then docs - {key} else docs[key := doc]
  }

  /** The document at the key is the new one, or none for a text without a token; every other is as it was. */
  ghost predicate Replaced(a: Docs, b: Docs, key: Bytes, tokens: seq<Bytes>, weight: real) {
    && (forall k :: k != key ==> (k in b <==> k in a) && (k in b ==> b[k] == a[k]))
    && (key in b <==> tokens != [])
    && (key in b ==> b[key].tokens == tokens && b[key].weight == weight)
  }

  lemma FilingReplaces(docs: Docs, key: Bytes, tokens: seq<Bytes>, weight: real)
    ensures Replaced(docs, Filing(docs, key, Doc(tokens, weight)), key, tokens, weight)
  {
  }

  function Count(tokens: seq<Bytes>, t: Bytes): nat {
    if tokens == [] then 0
    else Count(tokens[..|tokens| - 1], t) + if tokens[|tokens| - 1] == t then 1 else 0
  }

  lemma {:induction false} CountPositive(tokens: seq<Bytes>, t: Bytes)
    ensures Count(tokens, t) > 0 <==> t in tokens
    decreases |tokens|
  {
    if tokens != [] {
      CountPositive(tokens[..|tokens| - 1], t);
      assert tokens == tokens[..|tokens| - 1] + [tokens[|tokens| - 1]];
    }
  }

  ghost function TotalLen(docs: Docs): nat {
    if docs == map[] then 0 else var k :| k in docs; TotalLen(docs - {k}) + |docs[k].tokens|
  }

  lemma {:induction false} TotalRemove(docs: Docs, k: Bytes)
    requires k in docs
    ensures TotalLen(docs) == TotalLen(docs - {k}) + |docs[k].tokens|
    decreases |docs|
  {
    var j :| j in docs && TotalLen(docs) == TotalLen(docs - {j}) + |docs[j].tokens|;
    if j != k {
      TotalRemove(docs - {j}, k);
      TotalRemove(docs - {k}, j);
      assert docs - {j} - {k} == docs - {k} - {j};
    }
  }

  /** A term list names exactly the document's tokens, each once. */
  ghost predicate Names(terms: seq<Bytes>, tokens: seq<Bytes>) {
    && (forall t :: t in terms <==> t in tokens)
    && (forall i, j :: 0 <= i < j < |terms| ==> terms[i] != terms[j])
  }

  ghost predicate DocOk(doc: Doc) {
    doc.tokens != [] && forall t :: t in doc.tokens ==> NoSlash(t)
  }

  // ----- What the rows should be -----

  function StatsOf(rows: Rows, ix: Index): (nat, nat) {
    match Look(rows, StatsKey(ix))
    case Some(StatsRow(docs, totalLen)) => (docs, totalLen)
    case _ => (0, 0)
  }

  /** The doc row and the postings of `key` are exactly those of the document, or absent without one. */
  ghost predicate Filed(rows: Rows, ix: Index, docs: Docs, key: Bytes) {
    && (match Look(rows, DocKey(ix, key))
        case Some(DocRow(len, weight, terms)) =>
          key in docs && len == |docs[key].tokens| && weight == docs[key].weight && Names(terms, docs[key].tokens)
        case None => key !in docs
        case _ => false)
    && forall t :: NoSlash(t) ==>
         Look(rows, PostingKey(ix, t, key))
         == if key in docs && t in docs[key].tokens then Some(PostingRow(Count(docs[key].tokens, t))) else None
  }

  /** The index is the corpus: every row is what tokenizing the surviving documents gives. */
  ghost predicate Indexes(rows: Rows, ix: Index, docs: Docs) {
    && (forall key :: Filed(rows, ix, docs, key))
    && (forall key :: key in docs ==> DocOk(docs[key]))
    && StatsOf(rows, ix) == (|docs|, TotalLen(docs))
  }

  lemma IndexFacts(rows: Rows, ix: Index, docs: Docs, key: Bytes)
    requires Indexes(rows, ix, docs)
    ensures Filed(rows, ix, docs, key) && StatsOf(rows, ix) == (|docs|, TotalLen(docs))
    ensures forall k :: k in docs ==> DocOk(docs[k])
  {
    hide Filed, TotalLen, DocOk, StatsOf;
  }

  /** What a drop reads at the doc record: nothing, or the record of the document that is there. */
  lemma FiledFacts(rows: Rows, ix: Index, docs: Docs, key: Bytes)
    requires Indexes(rows, ix, docs)
    ensures var found := Look(rows, DocKey(ix, key));
            && (found.None? <==> key !in docs)
            && (key in docs ==>
                  && found.value.DocRow? && found.value.len == |docs[key].tokens| && |docs| >= 1
                  && Names(found.value.terms, docs[key].tokens)
                  && (forall t :: t in found.value.terms ==> NoSlash(t))
                  && StatsOf(rows, ix) == (|docs|, TotalLen(docs)) && TotalLen(docs) >= |docs[key].tokens|)
  {
    IndexFacts(rows, ix, docs, key);
    if key in docs {
      TotalRemove(docs, key);
      assert |docs.Keys| >= 1;
      assert DocOk(docs[key]);
    }
    hide Look, Spelled, TotalLen, Indexes, StatsOf;
  }

  lemma EmptyIndexes()
    ensures forall ix: Index :: Indexes(map[], ix, map[])
  {
  }

  /** Two row maps that agree on everything but one document of one index, and that index's stats. */
  ghost predicate SameBut(a: Rows, b: Rows, ix: Index, key: Bytes) {
    forall k :: Proper(k) && !(k.ix == ix && (k.StatsKey? || k.key == key)) ==> Look(a, k) == Look(b, k)
  }

  lemma OthersStay(a: Rows, b: Rows, ix: Index, key: Bytes, ix': Index, docs: Docs)
    requires SameBut(a, b, ix, key) && ix' != ix && Indexes(a, ix', docs)
    ensures Indexes(b, ix', docs)
  {
    assert Look(a, StatsKey(ix')) == Look(b, StatsKey(ix'));
    forall k
      ensures Filed(b, ix', docs, k)
    {
      assert Filed(a, ix', docs, k);
      assert Look(a, DocKey(ix', k)) == Look(b, DocKey(ix', k));
      assert forall t :: NoSlash(t) ==> Look(a, PostingKey(ix', t, k)) == Look(b, PostingKey(ix', t, k));
    }
  }

  lemma OtherDocsStay(a: Rows, b: Rows, ix: Index, key: Bytes, docs: Docs, docs': Docs, k: Bytes)
    requires SameBut(a, b, ix, key) && k != key && Filed(a, ix, docs, k)
    requires k in docs <==> k in docs'
    requires k in docs ==> docs[k] == docs'[k]
    ensures Filed(b, ix, docs', k)
  {
    assert Look(a, DocKey(ix, k)) == Look(b, DocKey(ix, k));
    assert forall t :: NoSlash(t) ==> Look(a, PostingKey(ix, t, k)) == Look(b, PostingKey(ix, t, k));
  }

  type Corpus = map<Index, Docs>

  lemma Refile(corpus: Corpus, ix: Index, key: Bytes, doc: Doc)
    requires ix in corpus && doc.tokens != []
    ensures var c := corpus[ix := corpus[ix] - {key}];
            c[ix := c[ix][key := doc]] == corpus[ix := Filing(corpus[ix], key, doc)]
  {
    assert (corpus[ix] - {key})[key := doc] == corpus[ix][key := doc];
  }

  ghost predicate AllIndexed(rows: Rows, corpus: Corpus) {
    && corpus.Keys == {Messages, SessionMeta, Memory}
    && forall ix :: ix in corpus ==> Indexes(rows, ix, corpus[ix])
  }

  lemma IndexedAt(rows: Rows, corpus: Corpus, ix: Index)
    requires AllIndexed(rows, corpus)
    ensures ix in corpus && Indexes(rows, ix, corpus[ix])
  {
    match ix case Messages => case SessionMeta => case Memory =>
  }

  /** A change to one document of one index leaves the other indexes what they were. */
  lemma StillIndexed(a: Rows, b: Rows, corpus: Corpus, ix: Index, key: Bytes, docs: Docs)
    requires AllIndexed(a, corpus) && Indexes(b, ix, docs) && SameBut(a, b, ix, key)
    ensures AllIndexed(b, corpus[ix := docs])
  {
    hide Indexes, SameBut;
    IndexedAt(a, corpus, ix);
    assert corpus[ix := docs].Keys == corpus.Keys;
    forall i | i in corpus && i != ix
      ensures Indexes(b, i, corpus[i])
    {
      OthersStay(a, b, ix, key, i, corpus[i]);
    }
  }

  // ----- Operations -----

  /** `b` is `a` after these terms' postings of one document are gone. */
  ghost predicate Retracted(a: Rows, b: Rows, ix: Index, key: Bytes, terms: seq<Bytes>) {
    forall k :: Proper(k) ==>
      Look(b, k) == if k.PostingKey? && k.ix == ix && k.key == key && k.term in terms then None else Look(a, k)
  }

  /** `b` is `a` with these terms' postings of one document written. */
  ghost predicate Posted(a: Rows, b: Rows, ix: Index, key: Bytes, tfs: map<Bytes, nat>) {
    forall k :: Proper(k) ==>
      Look(b, k) == if k.PostingKey? && k.ix == ix && k.key == key && k.term in tfs
                    then Some(PostingRow(tfs[k.term])) else Look(a, k)
  }

  lemma StatsUntouched(a: Rows, b: Rows, ix: Index)
    requires Look(a, StatsKey(ix)) == Look(b, StatsKey(ix))
    ensures StatsOf(a, ix) == StatsOf(b, ix)
  {
  }

  /** `b` is `a` with everything of one document gone, and these totals. */
  ghost predicate Dropped(a: Rows, b: Rows, ix: Index, key: Bytes, terms: seq<Bytes>, totals: Row) {
    forall k :: Proper(k) ==>
      Look(b, k) == if k.PostingKey? && k.ix == ix && k.key == key && k.term in terms then None
                    else if k == DocKey(ix, key) then None
                    else if k == StatsKey(ix) then Some(totals)
                    else Look(a, k)
  }

  lemma DroppedFiled(a: Rows, b: Rows, ix: Index, key: Bytes, docs: Docs, terms: seq<Bytes>, totals: Row)
    requires Filed(a, ix, docs, key) && key in docs && Names(terms, docs[key].tokens)
    requires Dropped(a, b, ix, key, terms, totals)
    ensures Filed(b, ix, docs - {key}, key)
  {
    hide Look, Spelled, Count;
  }

  lemma DroppedElsewhere(a: Rows, b: Rows, ix: Index, key: Bytes, terms: seq<Bytes>, totals: Row)
    requires Dropped(a, b, ix, key, terms, totals)
    ensures SameBut(a, b, ix, key) && Look(b, StatsKey(ix)) == Some(totals)
  {
    hide Look, Spelled;
  }

  /** An index is made of its documents' rows and its totals. */
  lemma IndexesFrom(b: Rows, ix: Index, docs: Docs, key: Bytes)
    requires Filed(b, ix, docs, key) && (forall k :: k != key ==> Filed(b, ix, docs, k))
    requires forall k :: k in docs ==> DocOk(docs[k])
    requires Look(b, StatsKey(ix)) == Some(StatsRow(|docs|, TotalLen(docs)))
    ensures Indexes(b, ix, docs)
  {
    hide Filed, Look, Spelled, TotalLen, DocOk;
  }

  lemma DroppedIndexes(a: Rows, b: Rows, ix: Index, key: Bytes, docs: Docs, terms: seq<Bytes>, n: nat, total: nat)
    requires Indexes(a, ix, docs) && key in docs && Names(terms, docs[key].tokens)
    requires Dropped(a, b, ix, key, terms, StatsRow(n, total))
    requires n + 1 == |docs| && total + |docs[key].tokens| == TotalLen(docs)
    ensures Indexes(b, ix, docs - {key}) && SameBut(a, b, ix, key)
  {
    hide Look, Spelled, TotalLen, Filed, Dropped, DocOk, Names, Indexes, SameBut;
    var docs' := docs - {key};
    IndexFacts(a, ix, docs, key);
    assert |docs'| == n && TotalLen(docs') == total by {
      TotalRemove(docs, key);
      assert |docs'.Keys| == |docs.Keys| - 1;
    }
    DroppedFiled(a, b, ix, key, docs, terms, StatsRow(n, total));
    DroppedElsewhere(a, b, ix, key, terms, StatsRow(n, total));
    RestFiled(a, b, ix, key, docs, docs');
    IndexesFrom(b, ix, docs', key);
  }

  lemma RestFiled(a: Rows, b: Rows, ix: Index, key: Bytes, docs: Docs, docs': Docs)
    requires Indexes(a, ix, docs) && SameBut(a, b, ix, key) && docs - {key} == docs' - {key}
    ensures forall k :: k != key ==> Filed(b, ix, docs', k)
  {
    forall k | k != key
      ensures Filed(b, ix, docs', k)
    {
      assert Filed(a, ix, docs, k);
      assert k in docs <==> k in docs - {key};
      assert k in docs' <==> k in docs' - {key};
      hide Filed, SameBut, Indexes;
      if k in docs {
        assert docs[k] == (docs - {key})[k] == (docs' - {key})[k] == docs'[k];
      }
      OtherDocsStay(a, b, ix, key, docs, docs', k);
    }
  }

  /** `b` is `a` with one document's rows written, and these totals. */
  ghost predicate Added(a: Rows, b: Rows, ix: Index, key: Bytes, doc: Doc, terms: seq<Bytes>, totals: Row) {
    forall k :: Proper(k) ==>
      Look(b, k) == if k.PostingKey? && k.ix == ix && k.key == key && k.term in doc.tokens
                    then Some(PostingRow(Count(doc.tokens, k.term)))
                    else if k == DocKey(ix, key) then Some(DocRow(|doc.tokens|, doc.weight, terms))
                    else if k == StatsKey(ix) then Some(totals)
                    else Look(a, k)
  }

  lemma AddedFiled(a: Rows, b: Rows, ix: Index, key: Bytes, docs: Docs, doc: Doc, terms: seq<Bytes>, totals: Row)
    requires Filed(a, ix, docs, key) && key !in docs && Names(terms, doc.tokens)
    requires Added(a, b, ix, key, doc, terms, totals)
    ensures Filed(b, ix, docs[key := doc], key)
  {
    hide Look, Spelled, Count;
  }

  lemma AddedElsewhere(a: Rows, b: Rows, ix: Index, key: Bytes, doc: Doc, terms: seq<Bytes>, totals: Row)
    requires Added(a, b, ix, key, doc, terms, totals)
    ensures SameBut(a, b, ix, key) && Look(b, StatsKey(ix)) == Some(totals)
  {
    hide Look, Spelled, Count;
  }

  lemma AddedIndexes(a: Rows, b: Rows, ix: Index, key: Bytes, docs: Docs, doc: Doc, terms: seq<Bytes>)
    requires Indexes(a, ix, docs) && key !in docs && DocOk(doc) && Names(terms, doc.tokens)
    requires Added(a, b, ix, key, doc, terms, StatsRow(|docs| + 1, TotalLen(docs) + |doc.tokens|))
    ensures Indexes(b, ix, docs[key := doc]) && SameBut(a, b, ix, key)
  {
    var docs' := docs[key := doc];
    hide Look, Spelled, TotalLen, Filed, Added, DocOk, Names, Indexes, SameBut;
    var totals := StatsRow(|docs| + 1, TotalLen(docs) + |doc.tokens|);
    IndexFacts(a, ix, docs, key);
    assert docs - {key} == docs' - {key} && totals == StatsRow(|docs'|, TotalLen(docs')) by {
      TotalRemove(docs', key);
      assert docs' - {key} == docs == docs - {key};
    }
    AddedFiled(a, b, ix, key, docs, doc, terms, totals);
    AddedElsewhere(a, b, ix, key, doc, terms, totals);
    RestFiled(a, b, ix, key, docs, docs');
    IndexesFrom(b, ix, docs', key);
  }

  method CountTerms(tokens: seq<Bytes>) returns (tfs: map<Bytes, nat>)
    ensures forall t :: (t in tfs <==> t in tokens) && (t in tfs ==> tfs[t] == Count(tokens, t))
  {
    tfs := map[];
    for i := 0 to |tokens|
      invariant forall t :: (t in tfs <==> t in tokens[..i]) && (t in tfs ==> tfs[t] == Count(tokens[..i], t))
    {
      var t := tokens[i];
      assert tokens[..i + 1] == tokens[..i] + [t];
      assert tokens[..i + 1][..i] == tokens[..i];
      CountPositive(tokens[..i], t);
      tfs := tfs[t := (if t in tfs then tfs[t] else 0) + 1];
    }
    assert tokens[..|tokens|] == tokens;
  }

  /** A finite set of byte strings as an ascending list. */
  method Ordered(set': set<Bytes>) returns (list: seq<Bytes>)
    ensures forall t :: t in list <==> t in set'
    ensures forall i, j :: 0 <= i < j < |list| ==> list[i] != list[j] && Less(list[i], list[j])
  {
    var keys := InOrder(set t | t in set' :: Key(0, t));
    list := [];
    for i := 0 to |keys|
      invariant |list| == i && forall j :: 0 <= j < i ==> list[j] == keys[j].name
    {
      list := list + [keys[i].name];
    }
    forall i, j | 0 <= i < j < |list|
      ensures list[i] != list[j] && Less(list[i], list[j])
    {
      assert keys[i] in keys && keys[j] in keys;
      LessIrreflexive(list[i]);
    }
    forall t | t in set'
      ensures t in list
    {
      assert Key(0, t) in keys;
    }
    forall t | t in list
      ensures t in set'
    {
      var i :| 0 <= i < |list| && list[i] == t;
      assert keys[i] in keys;
    }
  }

  class TextStore {
    var rows: Rows

    /** What each index holds. */
    ghost var corpus: Corpus

    ghost predicate Valid()
      reads this
    {
      Tidy(rows) && AllIndexed(rows, corpus)
    }

    constructor ()
      ensures Valid() && corpus == map[Messages := map[], SessionMeta := map[], Memory := map[]]
    {
      EmptyIndexes();
      rows := map[];
      corpus := map[Messages := map[], SessionMeta := map[], Memory := map[]];
    }

    method Put(k: RowKey, row: Row)
      requires Proper(k)
      modifies `rows
      ensures rows == old(rows)[Spelled(k) := row]
      ensures forall o :: Proper(o) ==> Look(rows, o) == if o == k then Some(row) else Look(old(rows), o)
      ensures Tidy(old(rows)) ==> Tidy(rows)
    {
      rows := rows[Spelled(k) := row];
      forall o | Proper(o)
        ensures Look(rows, o) == if o == k then Some(row) else Look(old(rows), o)
      {
        PutLooks(old(rows), k, row, o);
      }
    }

    method Delete(k: RowKey)
      requires Proper(k)
      modifies `rows
      ensures rows == old(rows) - {Spelled(k)}
      ensures forall o :: Proper(o) ==> Look(rows, o) == if o == k then None else Look(old(rows), o)
      ensures Tidy(old(rows)) ==> Tidy(rows)
    {
      rows := rows - {Spelled(k)};
      forall o | Proper(o)
        ensures Look(rows, o) == if o == k then None else Look(old(rows), o)
      {
        DropLooks(old(rows), k, o);
      }
    }

    /** `get_json` on the stats record, zero when there is none. */
    method Stats(ix: Index) returns (docs: nat, totalLen: nat)
      ensures (docs, totalLen) == StatsOf(rows, ix)
    {
      match Look(rows, StatsKey(ix))
      case Some(StatsRow(d, l)) => docs, totalLen := d, l;
      case _ => docs, totalLen := 0, 0;
    }

    /** Retract one document: its postings, its row, its share of the totals. */
    method DropText(ix: Index, key: Bytes)
      requires Valid()
      modifies this
      ensures Valid() && corpus == old(corpus)[ix := old(corpus)[ix] - {key}]
    {
      hide Look, Spelled, Filed, Indexes, TotalLen, Dropped, StatsOf, Tidy;
      hide AllIndexed;
      IndexedAt(rows, corpus, ix);
      ghost var docs := corpus[ix];
      FiledFacts(rows, ix, docs, key);
      var found := Look(rows, DocKey(ix, key));
      if found.None? {
        assert docs - {key} == docs;
        assert corpus[ix := docs] == corpus;
        return;
      }
      ghost var n, total := EraseDoc(ix, key, found.value.len, found.value.terms);
      DroppedIndexes(old(rows), rows, ix, key, docs, found.value.terms, n, total);
      StillIndexed(old(rows), rows, corpus, ix, key, docs - {key});
      corpus := corpus[ix := docs - {key}];
    }

    /** Retract the postings the doc record names, then the record, then its share of the totals. */
    method EraseDoc(ix: Index, key: Bytes, len: nat, terms: seq<Bytes>) returns (ghost n: nat, ghost total: nat)
      requires Tidy(rows) && forall t :: t in terms ==> NoSlash(t)
      modifies `rows
      ensures Tidy(rows) && Dropped(old(rows), rows, ix, key, terms, StatsRow(n, total))
      ensures var (was, wasLen) := StatsOf(old(rows), ix);
              n == (if was >= 1 then was - 1 else 0) && total == (if wasLen >= len then wasLen - len else 0)
    {
      hide Look, Spelled, Tidy;
      DropPostings(ix, key, terms);
      Delete(DocKey(ix, key));
      var docs, sum := Stats(ix);
      StatsUntouched(old(rows), rows, ix);
      docs, sum := if docs >= 1 then docs - 1 else 0, if sum >= len then sum - len else 0;
      Put(StatsKey(ix), StatsRow(docs, sum));
      n, total := docs, sum;
    }

    method DropPostings(ix: Index, key: Bytes, terms: seq<Bytes>)
      requires Tidy(rows) && forall t :: t in terms ==> NoSlash(t)
      modifies `rows
      ensures Tidy(rows) && Retracted(old(rows), rows, ix, key, terms)
    {
      hide Look, Spelled, Tidy;
      for i := 0 to |terms|
        invariant Tidy(rows) && Retracted(old(rows), rows, ix, key, terms[..i])
      {
        assert terms[i] in terms && terms[..i + 1] == terms[..i] + [terms[i]];
        Delete(PostingKey(ix, terms[i], key));
      }
      assert terms[..|terms|] == terms;
    }

    method PutPostings(ix: Index, key: Bytes, tfs: map<Bytes, nat>)
      requires Tidy(rows) && forall t :: t in tfs ==> NoSlash(t)
      modifies `rows
      ensures Tidy(rows) && Posted(old(rows), rows, ix, key, tfs)
    {
      hide Look, Spelled, Tidy;
      var rest := tfs.Keys;
      while rest != {}
        invariant rest <= tfs.Keys && Tidy(rows) && Posted(old(rows), rows, ix, key, tfs - rest)
        decreases |rest|
      {
        var t :| t in rest;
        rest := rest - {t};
        Put(PostingKey(ix, t, key), PostingRow(tfs[t]));
      }
      assert tfs - rest == tfs;
    }

    /** Retract what `key` had, then file the tokens of the new text. */
    method IndexText(l: Lang, ix: Index, key: Bytes, text: string, weight: real)
      requires Valid() && Sane(l)
      modifies this
      ensures Valid()
      ensures corpus == old(corpus)[ix := Filing(old(corpus)[ix], key, Doc(Tokenize(l, text), weight))]
      ensures ix in corpus && corpus == old(corpus)[ix := corpus[ix]]
      ensures Replaced(old(corpus)[ix], corpus[ix], key, Tokenize(l, text), weight)
    {
      TokensAreTerms(l, text);
      HasIndex(ix);
      FilingReplaces(corpus[ix], key, Tokenize(l, text), weight);
      hide Sane, Tokenize, Valid, NoSlash, Replaced;
      var tokens := Tokenize(l, text);
      DropText(ix, key);
      if tokens != [] {
        Refile(old(corpus), ix, key, Doc(tokens, weight));
        AddDoc(ix, key, tokens, weight);
      }
    }

    method AddDoc(ix: Index, key: Bytes, tokens: seq<Bytes>, weight: real)
      requires Valid() && tokens != [] && forall t :: t in tokens ==> NoSlash(t)
      requires ix in corpus ==> key !in corpus[ix]
      modifies this
      ensures Valid() && ix in old(corpus) && corpus == old(corpus)[ix := old(corpus)[ix][key := Doc(tokens, weight)]]
    {
      hide Look, Spelled, Filed, Indexes, TotalLen, Added, Tidy, StatsOf, SameBut;
      hide AllIndexed;
      IndexedAt(rows, corpus, ix);
      ghost var before, docs := rows, corpus[ix];
      IndexFacts(rows, ix, docs, key);
      ghost var doc := Doc(tokens, weight);
      ghost var terms := WriteDoc(ix, key, tokens, weight);
      AddedIndexes(before, rows, ix, key, docs, doc, terms);
      StillIndexed(before, rows, corpus, ix, key, docs[key := doc]);
      corpus := corpus[ix := docs[key := doc]];
    }

    /** One posting per distinct term, the doc record, and its share of the totals. */
    method WriteDoc(ix: Index, key: Bytes, tokens: seq<Bytes>, weight: real) returns (ghost terms: seq<Bytes>)
      requires Tidy(rows) && forall t :: t in tokens ==> NoSlash(t)
      modifies `rows
      ensures Tidy(rows) && Names(terms, tokens)
      ensures var (n, total) := StatsOf(old(rows), ix);
              Added(old(rows), rows, ix, key, Doc(tokens, weight), terms, StatsRow(n + 1, total + |tokens|))
    {
      hide Look, Spelled, Count, Tidy;
      var tfs := CountTerms(tokens);
      PutPostings(ix, key, tfs);
      var unique := Ordered(tfs.Keys);
      Put(DocKey(ix, key), DocRow(|tokens|, weight, unique));
      var n, total := Stats(ix);
      StatsUntouched(old(rows), rows, ix);
      Put(StatsKey(ix), StatsRow(n + 1, total + |tokens|));
      terms := unique;
    }

    /** The keys of the column under a prefix, ascending. */
    method ScanKeys(prefix: Bytes) returns (found: seq<Bytes>)
      ensures forall b :: b in found <==> b in rows && IsPrefix(prefix, b)
      ensures forall i, j :: 0 <= i < j < |found| ==> found[i] != found[j] && Less(found[i], found[j])
    {
      found := Ordered(set b | b in rows && IsPrefix(prefix, b));
    }

    /** The document keys under a prefix: each doc record the scan meets, less the records' own prefix. */
    method ScanDocs(ix: Index, prefix: Bytes, ghost docs: Docs) returns (keys: seq<Bytes>)
      requires Tidy(rows) && Indexes(rows, ix, docs)
      ensures forall k :: k in keys <==> k in docs && IsPrefix(prefix, k)
    {
      hide Spelled, Indexes, Tidy, IsPrefix;
      var found := ScanKeys(Spelled(DocKey(ix, prefix)));
      var base := |Spelled(DocKey(ix, []))|;
      keys := [];
      for i := 0 to |found|
        invariant forall k :: k in keys ==> k in docs && IsPrefix(prefix, k)
        invariant forall k, j :: 0 <= j < i && k in docs && found[j] == Spelled(DocKey(ix, k)) ==> k in keys
      {
        assert found[i] in found;
        var k := ScannedIsDoc(ix, prefix, found[i], docs);
        keys := keys + [found[i][base..]];
        assert keys[|keys| - 1] == k;
      }
      forall k | k in docs && IsPrefix(prefix, k)
        ensures k in keys
      {
        DocIsScanned(ix, prefix, k, docs);
        assert Spelled(DocKey(ix, k)) in found;
      }
    }

    lemma ScannedIsDoc(ix: Index, prefix: Bytes, b: Bytes, docs: Docs) returns (k: Bytes)
      requires Tidy(rows) && Indexes(rows, ix, docs)
      requires b in rows && IsPrefix(Spelled(DocKey(ix, prefix)), b)
      ensures |Spelled(DocKey(ix, []))| <= |b| && b[|Spelled(DocKey(ix, []))|..] == k
      ensures b == Spelled(DocKey(ix, k)) && k in docs && IsPrefix(prefix, k)
      ensures forall o :: Spelled(DocKey(ix, o)) == b ==> o == k
    {
      hide Spelled, IsPrefix;
      var r :| Proper(r) && Spelled(r) == b;
      DocScope(ix, prefix, r);
      DocBase(ix, r.key);
      k := r.key;
      assert Filed(rows, ix, docs, k);
      forall o | Spelled(DocKey(ix, o)) == b
        ensures o == k
      {
        SpelledInjective(DocKey(ix, o), r);
      }
    }

    lemma DocIsScanned(ix: Index, prefix: Bytes, k: Bytes, docs: Docs)
      requires Indexes(rows, ix, docs) && k in docs && IsPrefix(prefix, k)
      ensures Spelled(DocKey(ix, k)) in rows && IsPrefix(Spelled(DocKey(ix, prefix)), Spelled(DocKey(ix, k)))
    {
      hide Spelled, IsPrefix;
      assert Filed(rows, ix, docs, k);
      DocScope(ix, prefix, DocKey(ix, k));
    }

    /** Retract the documents a key prefix covers, one by one. */
    method DropTextPrefix(ix: Index, prefix: Bytes)
      requires Valid()
      modifies this
      ensures Valid()
      ensures corpus == old(corpus)[ix := map k | k in old(corpus)[ix] && !IsPrefix(prefix, k) :: old(corpus)[ix][k]]
    {
      IndexedAt(rows, corpus, ix);
      hide Spelled, AllIndexed, Indexes, Tidy, IsPrefix;
      ghost var docs := corpus[ix];
      var keys := ScanDocs(ix, prefix, docs);
      DropAll(ix, keys);
      DocsLeft(docs, KeysIn(keys), prefix);
    }

    lemma HasIndex(ix: Index)
      requires Valid()
      ensures ix in corpus
    {
      hide AllIndexed;
      IndexedAt(rows, corpus, ix);
    }

    method DropAll(ix: Index, keys: seq<Bytes>)
      requires Valid()
      modifies this
      ensures Valid() && ix in old(corpus) && corpus == Without(old(corpus), ix, KeysIn(keys))
    {
      HasIndex(ix);
      hide *;
      NoKeysIn();
      WithoutNone(corpus, ix);
      assert keys[..0] == [];
      for i := 0 to |keys|
        invariant Valid() && corpus == Without(old(corpus), ix, KeysIn(keys[..i]))
      {
        WithoutMore(old(corpus), ix, KeysIn(keys[..i]), keys[i]);
        KeysInSnoc(keys, i);
        DropText(ix, keys[i]);
      }
      assert keys[..|keys|] == keys;
    }
  }

  ghost function KeysIn(keys: seq<Bytes>): (s: set<Bytes>)
    ensures forall k :: k in s <==> k in keys
  {
    set k | k in keys
  }

  lemma NoKeysIn()
    ensures KeysIn([]) == {}
  {
  }

  lemma KeysInSnoc(keys: seq<Bytes>, i: nat)
    requires i < |keys|
    ensures KeysIn(keys[..i + 1]) == KeysIn(keys[..i]) + {keys[i]}
  {
    assert keys[..i + 1] == keys[..i] + [keys[i]];
  }

  ghost function Without(corpus: Corpus, ix: Index, gone: set<Bytes>): (r: Corpus)
    requires ix in corpus
    ensures ix in r
  {
    corpus[ix := corpus[ix] - gone]
  }

  lemma WithoutNone(corpus: Corpus, ix: Index)
    requires ix in corpus
    ensures Without(corpus, ix, {}) == corpus
  {
    assert corpus[ix] - {} == corpus[ix];
  }

  lemma WithoutMore(corpus: Corpus, ix: Index, gone: set<Bytes>, key: Bytes)
    requires ix in corpus
    ensures var c := Without(corpus, ix, gone); c[ix := c[ix] - {key}] == Without(corpus, ix, gone + {key})
  {
    DropOneMore(corpus[ix], gone, key);
  }

  lemma DropOneMore(docs: Docs, gone: set<Bytes>, key: Bytes)
    ensures docs - gone - {key} == docs - (gone + {key})
  {
  }

  lemma DocsLeft(docs: Docs, gone: set<Bytes>, prefix: Bytes)
    requires forall k :: k in gone <==> k in docs && IsPrefix(prefix, k)
    ensures docs - gone == map k | k in docs && !IsPrefix(prefix, k) :: docs[k]
  {
    hide IsPrefix;
  }

  lemma DocBase(ix: Index, key: Bytes)
    ensures Spelled(DocKey(ix, key)) == Spelled(DocKey(ix, [])) + key
    ensures Spelled(DocKey(ix, key))[|Spelled(DocKey(ix, []))|..] == key
  {
  }
}
