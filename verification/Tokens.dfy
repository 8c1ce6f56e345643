/** How text becomes terms, for the documents and for the queries over them. */
module Tokens {
  import opened Bytes
  import opened Keyspace
  import opened Wrappers

  /**
   * What Unicode decides: the classes of a character, the lower-casing of a word as a whole and
   * of its characters one by one (they differ, on a final sigma), and the stopword list.
   */
  datatype Lang = Lang(
    alnum: char -> bool,
    space: char -> bool,
    lower: string -> Bytes,
    lowerEach: string -> Bytes,
    stop: Bytes -> bool)

  ghost predicate Sane(l: Lang) {
    && (forall c :: l.space(c) ==> !l.alnum(c))
    && (forall w :: l.lower(w) == [] || l.lowerEach(w) == [] ==> w == [])
    && forall w :: (forall c :: c in w ==> l.alnum(c)) ==> NoSlash(l.lower(w)) && NoSlash(l.lowerEach(w))
  }

  /** One more character in front of the pieces. */
  function InFront(sep: char -> bool, c: char, pieces: seq<string>): (r: seq<string>)
    requires pieces != []
    ensures r != []
  {
    if sep(c) then [[]] + pieces else [[c] + pieces[0]] + pieces[1..]
  }

  /** `str::split`: the pieces between separators, empty ones included. */
  function Split(sep: char -> bool, text: string): (pieces: seq<string>)
    ensures pieces != []
  {
    if text == [] then [[]] else InFront(sep, text[0], Split(sep, text[1..]))
  }

  lemma InFrontConcat(sep: char -> bool, c: char, a: seq<string>, b: seq<string>)
    requires a != []
    ensures InFront(sep, c, a + b) == InFront(sep, c, a) + b
  {
    assert (a + b)[1..] == a[1..] + b;
  }

  lemma {:induction false} SplitAt(sep: char -> bool, a: string, c: char, b: string)
    requires sep(c)
    ensures Split(sep, a + [c] + b) == Split(sep, a) + Split(sep, b)
    decreases |a|
  {
    assert (a + [c] + b)[0] == if a == [] then c else a[0];
    if a == [] {
      assert (a + [c] + b)[1..] == b;
    } else {
      assert (a + [c] + b)[1..] == a[1..] + [c] + b;
      SplitAt(sep, a[1..], c, b);
      hide InFront;
      InFrontConcat(sep, a[0], Split(sep, a[1..]), Split(sep, b));
    }
  }

  lemma {:induction false} SplitNone(sep: char -> bool, text: string)
    requires forall c :: c in text ==> !sep(c)
    ensures Split(sep, text) == [text]
    decreases |text|
  {
    if text != [] {
      SplitNone(sep, text[1..]);
      assert text == [text[0]] + text[1..];
    }
  }

  /** A piece holds no separator. */
  lemma {:induction false} PiecesClean(sep: char -> bool, text: string)
    ensures forall p, c :: p in Split(sep, text) && c in p ==> !sep(c)
    decreases |text|
  {
    if text != [] {
      PiecesClean(sep, text[1..]);
      var rest := Split(sep, text[1..]);
      forall p, c | p in Split(sep, text) && c in p
        ensures !sep(c)
      {
        assert rest[0] in rest;
        assert p in rest || p == [] || p == [text[0]] + rest[0];
      }
    }
  }

  function Kept(l: Lang, pieces: seq<string>): seq<Bytes> {
    if pieces == [] then []
    else
      var term := l.lower(pieces[0]);
      (if |pieces[0]| > 1 && !l.stop(term) then [term] else []) + Kept(l, pieces[1..])
  }

  /** Where words end. */
  function Break(l: Lang): char -> bool {
    c => !l.alnum(c)
  }

  /** The words of a text that are worth indexing, in order and in lower case. */
  function Tokenize(l: Lang, text: string): seq<Bytes> {
    Kept(l, Split(Break(l), text))
  }

  lemma {:induction false} KeptConcat(l: Lang, a: seq<string>, b: seq<string>)
    ensures Kept(l, a + b) == Kept(l, a) + Kept(l, b)
    decreases |a|
  {
    if a == [] {
      assert a + b == b;
    } else {
      assert (a + b)[1..] == a[1..] + b;
      KeptConcat(l, a[1..], b);
    }
  }

  /** Text on the two sides of a non-alphanumeric character is tokenized apart. */
  lemma TokenizeAt(l: Lang, a: string, c: char, b: string)
    requires !l.alnum(c)
    ensures Tokenize(l, a + [c] + b) == Tokenize(l, a) + Tokenize(l, b)
  {
    var sep := Break(l);
    SplitAt(sep, a, c, b);
    KeptConcat(l, Split(sep, a), Split(sep, b));
  }

  lemma {:induction false} KeptTerms(l: Lang, pieces: seq<string>)
    requires Sane(l) && forall p, c :: p in pieces && c in p ==> l.alnum(c)
    ensures forall t :: t in Kept(l, pieces) ==> t != [] && NoSlash(t) && !l.stop(t)
    decreases |pieces|
  {
    if pieces != [] {
      assert pieces[0] in pieces;
      KeptTerms(l, pieces[1..]);
    }
  }

  /** Every token is a non-empty, separator-free non-stopword: what the index's key layout needs. */
  lemma TokensAreTerms(l: Lang, text: string)
    requires Sane(l)
    ensures forall t :: t in Tokenize(l, text) ==> t != [] && NoSlash(t) && !l.stop(t)
  {
    var sep := Break(l);
    PiecesClean(sep, text);
    KeptTerms(l, Split(sep, text));
  }

  // ----- Runs of characters -----

  /** From `i` up to `j` the text holds no separator, and it is bounded by separators or its ends. */
  ghost predicate MaximalRun(sep: char -> bool, text: string, i: nat, j: nat) {
    && i < j <= |text| && (forall k :: i <= k < j ==> !sep(text[k]))
    && (i == 0 || sep(text[i - 1])) && (j == |text| || sep(text[j]))
  }

  /** All the maximal runs of a text, each once, from left to right. */
  ghost predicate AllRuns(sep: char -> bool, text: string, runs: seq<(nat, nat)>) {
    && (forall r :: r in runs ==> MaximalRun(sep, text, r.0, r.1))
    && (forall a, b :: 0 <= a < b < |runs| ==> runs[a].1 < runs[b].0)
    && forall i: nat, j: nat :: MaximalRun(sep, text, i, j) ==> (i, j) in runs
  }

  function Slices(text: string, runs: seq<(nat, nat)>): (words: seq<string>)
    requires forall r :: r in runs ==> r.0 <= r.1 <= |text|
    ensures |words| == |runs|
  {
    seq(|runs|, k requires 0 <= k < |runs| => text[runs[k].0..runs[k].1])
  }

  function Shifted(runs: seq<(nat, nat)>, d: nat): (r: seq<(nat, nat)>)
    ensures |r| == |runs| && forall k :: 0 <= k < |runs| ==> r[k] == (runs[k].0 + d, runs[k].1 + d)
  {
    seq(|runs|, k requires 0 <= k < |runs| => (runs[k].0 + d, runs[k].1 + d))
  }

  /** Behind a separator the runs are those of the rest. */
  lemma RunBehind(sep: char -> bool, text: string, n: nat, i: nat, j: nat)
    requires n < |text| && sep(text[n])
    ensures MaximalRun(sep, text[n + 1..], i, j) <==> MaximalRun(sep, text, i + n + 1, j + n + 1)
  {
    var rest := text[n + 1..];
    if MaximalRun(sep, text, i + n + 1, j + n + 1) {
      forall k | i <= k < j
        ensures !sep(rest[k])
      {
        assert rest[k] == text[k + n + 1];
      }
    }
    if MaximalRun(sep, rest, i, j) {
      forall k | i + n + 1 <= k < j + n + 1
        ensures !sep(text[k])
      {
        assert rest[k - n - 1] == text[k];
      }
    }
  }

  /** A run up to the first separator is everything before it. */
  lemma RunBefore(sep: char -> bool, text: string, n: nat, i: nat, j: nat)
    requires n <= |text| && (forall k :: 0 <= k < n ==> !sep(text[k])) && (n < |text| ==> sep(text[n]))
    ensures MaximalRun(sep, text, i, j) && i <= n ==> i == 0 && j == n
    ensures n > 0 ==> MaximalRun(sep, text, 0, n)
  {
  }

  function Behind(n: nat, runs: seq<(nat, nat)>): seq<(nat, nat)> {
    (if n > 0 then [(0, n)] else []) + Shifted(runs, n + 1)
  }

  /** The first separator of the text is at `n`, and these are the runs of what follows it. */
  ghost predicate SplitsAt(sep: char -> bool, text: string, n: nat, runs: seq<(nat, nat)>) {
    && n < |text| && (forall k :: 0 <= k < n ==> !sep(text[k])) && sep(text[n])
    && AllRuns(sep, text[n + 1..], runs)
  }

  lemma RunAt(sep: char -> bool, text: string, runs: seq<(nat, nat)>, k: nat)
    requires AllRuns(sep, text, runs) && k < |runs|
    ensures MaximalRun(sep, text, runs[k].0, runs[k].1)
  {
    assert runs[k] in runs;
  }

  lemma RunIn(sep: char -> bool, text: string, runs: seq<(nat, nat)>, i: nat, j: nat) returns (k: nat)
    requires AllRuns(sep, text, runs) && MaximalRun(sep, text, i, j)
    ensures k < |runs| && runs[k] == (i, j)
  {
    assert (i, j) in runs;
    k :| k < |runs| && runs[k] == (i, j);
  }

  lemma MoreAreRuns(sep: char -> bool, text: string, n: nat, runs: seq<(nat, nat)>, r: (nat, nat))
    requires SplitsAt(sep, text, n, runs) && r in Behind(n, runs)
    ensures MaximalRun(sep, text, r.0, r.1)
  {
    hide MaximalRun, AllRuns;
    RunBefore(sep, text, n, 0, n);
    var m :| 0 <= m < |Behind(n, runs)| && Behind(n, runs)[m] == r;
    var h := if n > 0 then 1 else 0;
    if m >= h {
      assert r == Shifted(runs, n + 1)[m - h];
      RunAt(sep, text[n + 1..], runs, m - h);
      RunBehind(sep, text, n, runs[m - h].0, runs[m - h].1);
    }
  }

  lemma MoreHasRun(sep: char -> bool, text: string, n: nat, runs: seq<(nat, nat)>, i: nat, j: nat)
    requires SplitsAt(sep, text, n, runs) && MaximalRun(sep, text, i, j)
    ensures (i, j) in Behind(n, runs)
  {
    hide MaximalRun, AllRuns;
    RunBefore(sep, text, n, i, j);
    RunEnds(sep, text, i, j);
    var h := if n > 0 then 1 else 0;
    if i > n {
      RunBehind(sep, text, n, i - n - 1, j - n - 1);
      var k := RunIn(sep, text[n + 1..], runs, i - n - 1, j - n - 1);
      assert Behind(n, runs)[h + k] == Shifted(runs, n + 1)[k] == (i, j);
    } else {
      assert Behind(n, runs)[0] == (0, n);
    }
  }

  lemma MoreAscend(n: nat, runs: seq<(nat, nat)>)
    requires forall a, b :: 0 <= a < b < |runs| ==> runs[a].1 < runs[b].0
    ensures forall a, b :: 0 <= a < b < |Behind(n, runs)| ==> Behind(n, runs)[a].1 < Behind(n, runs)[b].0
  {
    var h := if n > 0 then 1 else 0;
    forall a, b | 0 <= a < b < |Behind(n, runs)|
      ensures Behind(n, runs)[a].1 < Behind(n, runs)[b].0
    {
      assert Behind(n, runs)[b] == Shifted(runs, n + 1)[b - h];
      if a >= h {
        assert Behind(n, runs)[a] == Shifted(runs, n + 1)[a - h];
      }
    }
  }

  lemma RunsMore(sep: char -> bool, text: string, n: nat, runs: seq<(nat, nat)>)
    requires SplitsAt(sep, text, n, runs)
    ensures AllRuns(sep, text, Behind(n, runs))
  {
    MoreAscend(n, runs);
    hide MaximalRun, SplitsAt, Behind;
    forall r | r in Behind(n, runs)
      ensures MaximalRun(sep, text, r.0, r.1)
    {
      MoreAreRuns(sep, text, n, runs, r);
    }
    forall i: nat, j: nat | MaximalRun(sep, text, i, j)
      ensures (i, j) in Behind(n, runs)
    {
      MoreHasRun(sep, text, n, runs, i, j);
    }
  }

  lemma RunEnds(sep: char -> bool, text: string, i: nat, j: nat)
    requires MaximalRun(sep, text, i, j)
    ensures i < j <= |text|
  {
  }

  lemma CutMore(text: string, n: nat, runs: seq<(nat, nat)>)
    requires n < |text| && forall r :: r in runs ==> r.0 <= r.1 <= |text| - n - 1
    ensures forall r :: r in Shifted(runs, n + 1) ==> r.0 <= r.1 <= |text|
    ensures Slices(text, Shifted(runs, n + 1)) == Slices(text[n + 1..], runs)
  {
    var tail, rest := Shifted(runs, n + 1), text[n + 1..];
    forall r | r in tail
      ensures r.0 <= r.1 <= |text|
    {
      var k :| 0 <= k < |runs| && tail[k] == r;
      assert runs[k] in runs;
    }
    forall k | 0 <= k < |runs|
      ensures text[tail[k].0..tail[k].1] == rest[runs[k].0..runs[k].1]
    {
      assert runs[k] in runs;
      SliceOfRest(text, n + 1, runs[k].0, runs[k].1);
    }
    hide Shifted;
  }

  lemma SliceOfRest(text: string, n: nat, from: nat, to: nat)
    requires n <= |text| && from <= to <= |text| - n
    ensures text[n..][from..to] == text[n + from..n + to]
  {
  }

  /** The pieces that are not empty are the maximal runs, in order and with multiplicity. */
  lemma {:induction false} PiecesAreRuns(sep: char -> bool, text: string) returns (runs: seq<(nat, nat)>)
    ensures AllRuns(sep, text, runs) && forall r :: r in runs ==> r.0 <= r.1 <= |text|
    ensures NonEmpty(Split(sep, text)) == Slices(text, runs)
    decreases |text|
  {
    var n := FirstSep(sep, text);
    var a := text[..n];
    SplitNone(sep, a);
    if n == |text| {
      assert a == text;
      runs := if n > 0 then [(0, n)] else [];
      OneRun(sep, text);
      assert [text][1..] == [];
      assert text != [] ==> text[0..n] == text;
    } else {
      var b := text[n + 1..];
      assert text == a + [text[n]] + b;
      SplitAt(sep, a, text[n], b);
      var rest := PiecesAreRuns(sep, b);
      RunsWithin(sep, b, rest);
      hide AllRuns, Split, Slices;
      RunsMore(sep, text, n, rest);
      CutMore(text, n, rest);
      var head: seq<(nat, nat)> := if n > 0 then [(0, n)] else [];
      runs := Behind(n, rest);
      assert runs == head + Shifted(rest, n + 1);
      assert ([a] + Split(sep, b))[1..] == Split(sep, b);
      CutConcat(text, head, Shifted(rest, n + 1));
      assert NonEmpty(Split(sep, text)) == (if n > 0 then [a] else []) + NonEmpty(Split(sep, b));
      CutHead(text, n);
    }
  }

  lemma RunsWithin(sep: char -> bool, text: string, runs: seq<(nat, nat)>)
    requires AllRuns(sep, text, runs)
    ensures forall r :: r in runs ==> r.0 <= r.1 <= |text|
  {
  }

  lemma CutHead(text: string, n: nat)
    requires n <= |text|
    ensures Slices(text, if n > 0 then [(0, n)] else []) == if n > 0 then [text[..n]] else []
  {
  }

  lemma CutConcat(text: string, a: seq<(nat, nat)>, b: seq<(nat, nat)>)
    requires (forall r :: r in a ==> r.0 <= r.1 <= |text|) && forall r :: r in b ==> r.0 <= r.1 <= |text|
    ensures forall r :: r in a + b ==> r.0 <= r.1 <= |text|
    ensures Slices(text, a + b) == Slices(text, a) + Slices(text, b)
  {
  }

  lemma OneRun(sep: char -> bool, text: string)
    requires forall k :: 0 <= k < |text| ==> !sep(text[k])
    ensures AllRuns(sep, text, if text == [] then [] else [(0, |text|)])
  {
    forall i: nat, j: nat | MaximalRun(sep, text, i, j)
      ensures i == 0 && j == |text|
    {
      RunBefore(sep, text, |text|, i, j);
    }
    if text != [] {
      RunBefore(sep, text, |text|, 0, |text|);
      hide MaximalRun;
      assert (0, |text|) in [(0, |text|)];
    }
  }

  /** What of a list of words is indexed: those of two characters or more, in lower case, but no stopword. */
  function Worthy(l: Lang, words: seq<string>): seq<Bytes> {
    if words == [] then []
    else
      var w := words[|words| - 1];
      Worthy(l, words[..|words| - 1]) + if |w| >= 2 && !l.stop(l.lower(w)) then [l.lower(w)] else []
  }

  lemma {:induction false} WorthyCons(l: Lang, word: string, words: seq<string>)
    ensures Worthy(l, [word] + words) == Worthy(l, [word]) + Worthy(l, words)
    decreases |words|
  {
    var all := [word] + words;
    if words == [] {
      assert all == [word];
    } else {
      assert all[..|all| - 1] == [word] + words[..|words| - 1];
      WorthyCons(l, word, words[..|words| - 1]);
    }
  }

  lemma {:induction false} KeptIsWorthy(l: Lang, pieces: seq<string>)
    ensures Kept(l, pieces) == Worthy(l, NonEmpty(pieces))
    decreases |pieces|
  {
    if pieces != [] {
      KeptIsWorthy(l, pieces[1..]);
      var word, rest := pieces[0], NonEmpty(pieces[1..]);
      assert [word][..0] == [];
      assert Worthy(l, [word]) == if |word| >= 2 && !l.stop(l.lower(word)) then [l.lower(word)] else [];
      if word != [] {
        assert NonEmpty(pieces) == [word] + rest;
        WorthyCons(l, word, rest);
      } else {
        assert NonEmpty(pieces) == [] + rest == rest;
      }
    }
  }

  /**
   * The tokens of a text are its maximal alphanumeric runs of two characters or more that are no
   * stopword, in lower case, in order and with multiplicity: no word is left out and none made up.
   */
  lemma TokensAreRuns(l: Lang, text: string) returns (runs: seq<(nat, nat)>)
    ensures AllRuns(c => !l.alnum(c), text, runs) && forall r :: r in runs ==> r.0 <= r.1 <= |text|
    ensures Tokenize(l, text) == Worthy(l, Slices(text, runs))
  {
    var sep := Break(l);
    runs := PiecesAreRuns(sep, text);
    KeptIsWorthy(l, Split(sep, text));
    SameRuns(sep, c => !l.alnum(c), text, runs);
  }

  lemma SameRuns(a: char -> bool, b: char -> bool, text: string, runs: seq<(nat, nat)>)
    requires (forall c :: a(c) <==> b(c)) && AllRuns(a, text, runs)
    ensures AllRuns(b, text, runs)
  {
    forall i: nat, j: nat
      ensures MaximalRun(a, text, i, j) <==> MaximalRun(b, text, i, j)
    {
    }
    hide MaximalRun;
  }

  /** A word on its own is its own token, in lower case, unless it is one character or a stopword. */
  lemma WordIsItsToken(l: Lang, word: string)
    requires forall c :: c in word ==> l.alnum(c)
    ensures Tokenize(l, word) == if |word| > 1 && !l.stop(l.lower(word)) then [l.lower(word)] else []
  {
    SplitNone(Break(l), word);
    assert [word][1..] == [];
    assert Kept(l, []) == [];
  }

  // ----- Queries -----

  datatype Term = Term(text: Bytes, prefix: bool)

  function NonEmpty(pieces: seq<string>): seq<string> {
    if pieces == [] then []
    else (if pieces[0] == [] then [] else [pieces[0]]) + NonEmpty(pieces[1..])
  }

  /** `split_whitespace`. */
  function Words(l: Lang, query: string): seq<string> {
    NonEmpty(Split(l.space, query))
  }

  function TrimStars(word: string): string {
    if word != [] && word[|word| - 1] == '*' then TrimStars(word[..|word| - 1]) else word
  }

  function OnlyAlnum(l: Lang, word: string): string {
    if word == [] then []
    else (if l.alnum(word[0]) then [word[0]] else []) + OnlyAlnum(l, word[1..])
  }

  predicate Starred(word: string) {
    word != [] && word[|word| - 1] == '*'
  }

  /** The words of a query are its maximal runs without white space. */
  lemma WordsAreRuns(l: Lang, query: string) returns (runs: seq<(nat, nat)>)
    ensures AllRuns(l.space, query, runs) && forall r :: r in runs ==> r.0 <= r.1 <= |query|
    ensures Words(l, query) == Slices(query, runs)
  {
    runs := PiecesAreRuns(l.space, query);
  }

  /** The term a query word asks for, if anything of it is left. */
  function WordTerm(l: Lang, word: string): Option<Term> {
    var stripped := TrimStars(word);
    var tokens := Tokenize(l, stripped);
    var text := if Starred(word) then l.lowerEach(OnlyAlnum(l, stripped))
                else if tokens == [] then [] else tokens[0];
    if text == [] then None else Some(Term(text, Starred(word)))
  }

  function Stars(n: nat): string {
    seq(n, _ => '*')
  }

  lemma {:induction false} StarsTrimmed(word: string, n: nat)
    requires word == [] || word[|word| - 1] != '*'
    ensures TrimStars(word + Stars(n)) == word
    decreases n
  {
    if n > 0 {
      var all := word + Stars(n);
      assert all[..|all| - 1] == word + Stars(n - 1);
      StarsTrimmed(word, n - 1);
    } else {
      assert word + Stars(0) == word;
    }
  }

  lemma {:induction false} AlnumStays(l: Lang, word: string)
    requires forall c :: c in word ==> l.alnum(c)
    ensures OnlyAlnum(l, word) == word
    decreases |word|
  {
    if word != [] {
      AlnumStays(l, word[1..]);
      assert word == [word[0]] + word[1..];
    }
  }

  /**
   * A plain word asks for itself as a whole term, a word with stars behind it for all terms it is the
   * beginning of, however short it is and even if it is a stopword.
   */
  lemma PlainWordAsks(l: Lang, word: string, n: nat)
    requires Sane(l) && !l.alnum('*') && word != [] && forall c :: c in word ==> l.alnum(c)
    ensures WordTerm(l, word) == if |word| > 1 && !l.stop(l.lower(word)) then Some(Term(l.lower(word), false)) else None
    ensures n > 0 ==> WordTerm(l, word + Stars(n)) == Some(Term(l.lowerEach(word), true))
  {
    assert word[|word| - 1] in word;
    StarsTrimmed(word, 0);
    StarsTrimmed(word, n);
    AlnumStays(l, word);
    WordIsItsToken(l, word);
    assert word + Stars(0) == word;
    hide Tokenize, TrimStars, OnlyAlnum;
  }

  /** The terms of a list of words, each once, in order of first mention. */
  function TermsOf(l: Lang, words: seq<string>): seq<Term> {
    if words == [] then []
    else
      var n := |words| - 1;
      var before := TermsOf(l, words[..n]);
      match WordTerm(l, words[n])
      case Some(term) => if term in before then before else before + [term]
      case None => before
  }

  method QueryTerms(l: Lang, query: string) returns (terms: seq<Term>)
    ensures terms == TermsOf(l, Words(l, query))
  {
    hide WordTerm;
    var words := Words(l, query);
    terms := [];
    for i := 0 to |words|
      invariant terms == TermsOf(l, words[..i])
    {
      assert words[..i + 1][..i] == words[..i];
      match WordTerm(l, words[i]) {
        case Some(term) =>
          if term !in terms {
            terms := terms + [term];
          }
        case None =>
      }
    }
    assert words[..|words|] == words;
  }

  ghost predicate Distinct<T(!new)>(s: seq<T>) {
    forall i, j :: 0 <= i < j < |s| ==> s[i] != s[j]
  }

  ghost predicate AskedFor(l: Lang, words: seq<string>, t: Term) {
    exists w :: w in words && WordTerm(l, w) == Some(t)
  }

  /** The terms are what the words ask for, each once. */
  lemma {:induction false} TermsAreTheWords(l: Lang, words: seq<string>)
    ensures Distinct(TermsOf(l, words))
    ensures forall t :: t in TermsOf(l, words) <==> AskedFor(l, words, t)
    decreases |words|
  {
    if words != [] {
      var front, last := words[..|words| - 1], words[|words| - 1];
      TermsAreTheWords(l, front);
      TermsStep(l, words);
      forall t
        ensures AskedFor(l, words, t) <==> AskedFor(l, front, t) || WordTerm(l, last) == Some(t)
      {
        AskedStep(l, front, last, t);
        assert words == front + [last];
      }
      hide AskedFor, TermsOf, WordTerm, Distinct;
    }
  }

  lemma AskedStep(l: Lang, front: seq<string>, last: string, t: Term)
    ensures AskedFor(l, front + [last], t) <==> AskedFor(l, front, t) || WordTerm(l, last) == Some(t)
  {
    hide WordTerm;
    assert last in front + [last];
    forall w | w in front
      ensures w in front + [last]
    {
    }
  }

  lemma TermsStep(l: Lang, words: seq<string>)
    requires words != []
    ensures var front, last, terms := words[..|words| - 1], words[|words| - 1], TermsOf(l, words);
            && (forall t :: t in terms <==> t in TermsOf(l, front) || WordTerm(l, last) == Some(t))
            && (Distinct(TermsOf(l, front)) ==> Distinct(terms))
            && |terms| <= |TermsOf(l, front)| + if WordTerm(l, last).Some? then 1 else 0
  {
    hide WordTerm;
  }

  // ----- When a query asks for exactly its tokens -----

  function Flat(l: Lang, words: seq<string>): seq<Bytes> {
    if words == [] then []
    else Flat(l, words[..|words| - 1]) + Tokenize(l, words[|words| - 1])
  }

  lemma {:induction false} FlatCons(l: Lang, word: string, words: seq<string>)
    ensures Flat(l, [word] + words) == Tokenize(l, word) + Flat(l, words)
    decreases |words|
  {
    var all := [word] + words;
    if words == [] {
      assert all[..|all| - 1] == [];
    } else {
      assert all[..|all| - 1] == [word] + words[..|words| - 1];
      FlatCons(l, word, words[..|words| - 1]);
    }
  }

  lemma FlatSkipsEmpty(l: Lang, pieces: seq<string>)
    requires pieces != []
    ensures Flat(l, NonEmpty(pieces)) == Tokenize(l, pieces[0]) + Flat(l, NonEmpty(pieces[1..]))
  {
    hide Tokenize, Flat;
    if pieces[0] != [] {
      assert NonEmpty(pieces) == [pieces[0]] + NonEmpty(pieces[1..]);
      FlatCons(l, pieces[0], NonEmpty(pieces[1..]));
    } else {
      NoTokens(l, pieces[0]);
      assert NonEmpty(pieces) == [] + NonEmpty(pieces[1..]) == NonEmpty(pieces[1..]);
    }
  }

  lemma NoTokens(l: Lang, empty: string)
    requires empty == []
    ensures Tokenize(l, empty) == []
  {
    var pieces := Split(Break(l), empty);
    assert |pieces[0]| == 0 && |pieces| == 1;
    assert Kept(l, pieces[1..]) == [];
  }

  function FirstSep(sep: char -> bool, text: string): (n: nat)
    ensures n <= |text|
    ensures forall i :: 0 <= i < n ==> !sep(text[i])
    ensures n < |text| ==> sep(text[n])
  {
    if text == [] || sep(text[0]) then 0 else 1 + FirstSep(sep, text[1..])
  }

  /** Tokenizing a query is tokenizing its words one after the other. */
  lemma {:induction false} TokensByWord(l: Lang, query: string)
    requires Sane(l)
    ensures Tokenize(l, query) == Flat(l, Words(l, query))
    decreases |query|
  {
    var n := FirstSep(l.space, query);
    var a := query[..n];
    SplitNone(l.space, a);
    hide Tokenize;
    if n == |query| {
      assert a == query;
      FlatSkipsEmpty(l, [query]);
      assert [query][1..] == [];
    } else {
      var b := query[n + 1..];
      assert query == a + [query[n]] + b;
      SplitAt(l.space, a, query[n], b);
      TokenizeAt(l, a, query[n], b);
      TokensByWord(l, b);
      FlatSkipsEmpty(l, [a] + Split(l.space, b));
      assert ([a] + Split(l.space, b))[1..] == Split(l.space, b);
    }
  }

  /** A word that asks for its one token, or for nothing and has none. */
  predicate Plain(l: Lang, word: string) {
    |Tokenize(l, word)| <= 1 && (WordTerm(l, word).Some? ==> !Starred(word))
  }

  function ExactTerms(tokens: seq<Bytes>): (terms: seq<Term>)
    ensures |terms| == |tokens| && forall i :: 0 <= i < |tokens| ==> terms[i] == Term(tokens[i], false)
  {
    seq(|tokens|, i requires 0 <= i < |tokens| => Term(tokens[i], false))
  }

  lemma {:induction false} NoAlnumNoTokens(l: Lang, word: string)
    requires OnlyAlnum(l, word) == []
    ensures Split(Break(l), word) == seq(|word| + 1, i => [])
    decreases |word|
  {
    if word != [] {
      NoAlnumNoTokens(l, word[1..]);
    }
  }

  lemma {:induction false} KeptOfEmpty(l: Lang, n: nat)
    ensures Kept(l, seq(n, i => [])) == []
  {
    if n > 0 {
      var pieces: seq<string> := seq(n, i => []);
      assert pieces[1..] == seq(n - 1, i => []);
      KeptOfEmpty(l, n - 1);
    }
  }

  lemma {:induction false} StarsAreNoToken(l: Lang, word: string)
    requires !l.alnum('*')
    ensures OnlyAlnum(l, TrimStars(word)) == OnlyAlnum(l, word)
    decreases |word|
  {
    if Starred(word) {
      var n := |word| - 1;
      StarsAreNoToken(l, word[..n]);
      OnlyAlnumConcat(l, word[..n], [word[n]]);
      assert word == word[..n] + [word[n]];
    }
  }

  lemma {:induction false} OnlyAlnumConcat(l: Lang, a: string, b: string)
    ensures OnlyAlnum(l, a + b) == OnlyAlnum(l, a) + OnlyAlnum(l, b)
    decreases |a|
  {
    if a == [] {
      assert a + b == b;
    } else {
      assert (a + b)[1..] == a[1..] + b;
      OnlyAlnumConcat(l, a[1..], b);
    }
  }

  lemma NothingLeft(l: Lang, word: string)
    requires OnlyAlnum(l, word) == []
    ensures Tokenize(l, word) == []
  {
    NoAlnumNoTokens(l, word);
    KeptOfEmpty(l, |word| + 1);
  }

  /** A word asks for its first token, unless it is starred; a word without a token asks for nothing then. */
  lemma WordAsks(l: Lang, word: string)
    requires Sane(l) && !l.alnum('*')
    ensures !Starred(word) ==>
              WordTerm(l, word) == if Tokenize(l, word) == [] then None else Some(Term(Tokenize(l, word)[0], false))
    ensures Starred(word) && WordTerm(l, word).None? ==> Tokenize(l, word) == []
    ensures WordTerm(l, word).Some? ==> WordTerm(l, word).value.prefix == Starred(word)
  {
    TokensAreTerms(l, word);
    hide Tokenize;
    if !Starred(word) {
      assert TrimStars(word) == word;
      assert Tokenize(l, word) != [] ==> Tokenize(l, word)[0] in Tokenize(l, word);
    }
    if Starred(word) && WordTerm(l, word).None? {
      StarsAreNoToken(l, word);
      NothingLeft(l, word);
    }
  }

  lemma {:induction false} PlainTerms(l: Lang, words: seq<string>)
    requires Sane(l) && !l.alnum('*')
    requires (forall w :: w in words ==> Plain(l, w)) && Distinct(Flat(l, words))
    ensures TermsOf(l, words) == ExactTerms(Flat(l, words))
    decreases |words|
  {
    if words != [] {
      var n := |words| - 1;
      var word, flat := words[n], Flat(l, words[..n]);
      assert word in words;
      assert Plain(l, word);
      WordAsks(l, word);
      hide WordTerm, Tokenize, Plain, Sane, ExactTerms, Distinct;
      DistinctFront(flat, Tokenize(l, word));
      PlainTerms(l, words[..n]);
      if Tokenize(l, word) == [] {
        assert flat + Tokenize(l, word) == flat;
      } else {
        var t := Tokenize(l, word)[0];
        assert Tokenize(l, word) == [t];
        NotAmong(flat, t);
      }
    }
  }

  lemma DistinctFront<T(!new)>(a: seq<T>, b: seq<T>)
    requires Distinct(a + b)
    ensures Distinct(a)
  {
    assert forall i :: 0 <= i < |a| ==> a[i] == (a + b)[i];
  }

  lemma NotAmong(flat: seq<Bytes>, t: Bytes)
    requires Distinct(flat + [t])
    ensures Term(t, false) !in ExactTerms(flat)
    ensures ExactTerms(flat + [t]) == ExactTerms(flat) + [Term(t, false)]
  {
    forall i | 0 <= i < |flat|
      ensures flat[i] != t
    {
      assert (flat + [t])[i] != (flat + [t])[|flat|];
    }
  }

  /** Dropping tokens, or repeats, leaves fewer terms than tokens. */
  lemma {:induction false} TermsAtMostTokens(l: Lang, words: seq<string>)
    requires Sane(l) && !l.alnum('*')
    requires forall w :: w in words ==> WordTerm(l, w).Some? ==> !Starred(w)
    ensures |TermsOf(l, words)| <= |Flat(l, words)|
    ensures |TermsOf(l, words)| == |Flat(l, words)| ==> forall w :: w in words ==> |Tokenize(l, w)| <= 1
    decreases |words|
  {
    if words != [] {
      var front, last := words[..|words| - 1], words[|words| - 1];
      assert last in words && words == front + [last];
      WordAsks(l, last);
      var asks := if WordTerm(l, last).Some? then 1 else 0;
      assert asks <= |Tokenize(l, last)|;
      assert |Flat(l, words)| == |Flat(l, front)| + |Tokenize(l, last)|;
      hide *;
      TermsAtMostTokens(l, front);
      TermsStep(l, words);
    }
  }

  /**
   * The query asks the index for exactly the tokens the ranker looks for when, and only when, no
   * starred word asks for anything, no word splits into several tokens, and no token repeats.
   */
  lemma QueryIsItsTokensIff(l: Lang, query: string)
    requires Sane(l) && !l.alnum('*')
    ensures TermsOf(l, Words(l, query)) == ExactTerms(Tokenize(l, query))
       <==> (forall w :: w in Words(l, query) ==> Plain(l, w)) && Distinct(Tokenize(l, query))
  {
    var words := Words(l, query);
    TokensByWord(l, query);
    hide Words, Tokenize, Sane, TermsOf, Flat;
    if (forall w :: w in words ==> Plain(l, w)) && Distinct(Flat(l, words)) {
      PlainTerms(l, words);
    }
    if TermsOf(l, words) == ExactTerms(Flat(l, words)) {
      TermsAreTheWords(l, words);
      forall i, j | 0 <= i < j < |Flat(l, words)|
        ensures Flat(l, words)[i] != Flat(l, words)[j]
      {
        assert TermsOf(l, words)[i] != TermsOf(l, words)[j];
      }
      forall w | w in words && WordTerm(l, w).Some?
        ensures !Starred(w)
      {
        WordAsks(l, w);
        assert WordTerm(l, w).value in TermsOf(l, words);
      }
      TermsAtMostTokens(l, words);
    }
  }
}
