/** Best first: positive scores in descending order, ties in a given order, cut at a limit. */
module Ranking {

  datatype Scored<K> = Scored(key: K, score: real)

  ghost predicate StrictTotal<K(!new)>(before: (K, K) -> bool) {
    && (forall a, b :: a == b || before(a, b) || before(b, a))
    && (forall a :: !before(a, a))
    && (forall a, b, c :: before(a, b) && before(b, c) ==> before(a, c))
  }

  predicate Better<K(==)>(before: (K, K) -> bool, a: Scored<K>, b: Scored<K>) {
    a.score > b.score || (a.score == b.score && before(a.key, b.key))
  }

  lemma BetterOrder<K(!new)>(before: (K, K) -> bool, a: Scored<K>, b: Scored<K>, c: Scored<K>)
    requires StrictTotal(before)
    ensures !Better(before, a, a) && (a == b || Better(before, a, b) || Better(before, b, a))
    ensures Better(before, a, b) && Better(before, b, c) ==> Better(before, a, c)
  {
  }

  ghost predicate Descending<K>(before: (K, K) -> bool, list: seq<Scored<K>>) {
    forall i, j :: 0 <= i < j < |list| ==> Better(before, list[i], list[j])
  }

  ghost predicate Members<K>(list: seq<Scored<K>>, s: set<Scored<K>>) {
    (forall x :: x in list ==> x in s) && (forall x :: x in s ==> x in list)
  }

  /** The members of `s`, best first. */
  ghost predicate Ranks<K>(before: (K, K) -> bool, list: seq<Scored<K>>, s: set<Scored<K>>) {
    Descending(before, list) && Members(list, s)
  }

  lemma {:induction false} BestExists<K(!new)>(before: (K, K) -> bool, s: set<Scored<K>>) returns (best: Scored<K>)
    requires s != {} && StrictTotal(before)
    ensures best in s && forall x :: x in s && x != best ==> Better(before, best, x)
  {
    var x :| x in s;
    if s == {x} {
      return x;
    }
    var m := BestExists(before, s - {x});
    BetterOrder(before, x, m, m);
    best := if Better(before, x, m) then x else m;
    hide StrictTotal, Better;
    forall y | y in s && y != best
      ensures Better(before, best, y)
    {
      BetterOrder(before, x, m, y);
    }
  }

  lemma RanksSnoc<K>(before: (K, K) -> bool, list: seq<Scored<K>>, s: set<Scored<K>>, x: Scored<K>)
    requires Ranks(before, list, s) && forall y :: y in list ==> Better(before, y, x)
    ensures Ranks(before, list + [x], s + {x})
  {
    hide Better;
    forall y | y in s + {x}
      ensures y in list + [x]
    {
      assert y in s ==> y in list;
    }
  }

  lemma {:induction false} RankingExists<K(!new)>(before: (K, K) -> bool, s: set<Scored<K>>) returns (list: seq<Scored<K>>)
    requires StrictTotal(before)
    ensures Ranks(before, list, s)
  {
    hide StrictTotal, Better;
    if s == {} {
      return [];
    }
    var best := BestExists(before, s);
    var rest := RankingExists(before, s - {best});
    list := [best] + rest;
    forall i, j | 0 <= i < j < |list|
      ensures Better(before, list[i], list[j])
    {
      assert list[j] == rest[j - 1] && rest[j - 1] in rest;
    }
    forall x | x in s
      ensures x in list
    {
      assert x == best || x in rest;
    }
  }

  lemma EmptyTogether<K>(list: seq<Scored<K>>, s: set<Scored<K>>)
    requires Members(list, s)
    ensures list == [] <==> s == {}
  {
    if list != [] {
      assert list[0] in list;
    }
  }

  /** A set of scores has one ranking. */
  lemma {:induction false} RankingUnique<K(!new)>(before: (K, K) -> bool, a: seq<Scored<K>>, b: seq<Scored<K>>, s: set<Scored<K>>)
    requires StrictTotal(before) && Ranks(before, a, s) && Ranks(before, b, s)
    ensures a == b
    decreases |a|
  {
    hide StrictTotal, Better;
    EmptyTogether(a, s);
    EmptyTogether(b, s);
    if a != [] {
      SameBest(before, a, b, s);
      WithoutBest(before, a, s);
      WithoutBest(before, b, s);
      RankingUnique(before, a[1..], b[1..], s - {a[0]});
      assert a == [a[0]] + a[1..] && b == [b[0]] + b[1..];
    }
  }

  lemma SameBest<K(!new)>(before: (K, K) -> bool, a: seq<Scored<K>>, b: seq<Scored<K>>, s: set<Scored<K>>)
    requires StrictTotal(before) && Ranks(before, a, s) && Ranks(before, b, s) && a != [] && b != []
    ensures a[0] == b[0]
  {
    hide StrictTotal, Better;
    assert a[0] in s && b[0] in s;
    var i :| 0 <= i < |a| && a[i] == b[0];
    var j :| 0 <= j < |b| && b[j] == a[0];
    BetterOrder(before, a[0], b[0], a[0]);
  }

  lemma WithoutBest<K(!new)>(before: (K, K) -> bool, a: seq<Scored<K>>, s: set<Scored<K>>)
    requires StrictTotal(before) && Ranks(before, a, s) && a != []
    ensures Ranks(before, a[1..], s - {a[0]})
  {
    hide StrictTotal, Better;
    forall x | x in a[1..]
      ensures x in s - {a[0]}
    {
      var j :| 1 <= j < |a| && a[j] == x;
      BetterOrder(before, a[0], x, x);
      assert x in a;
    }
    forall x | x in s - {a[0]}
      ensures x in a[1..]
    {
      var j :| 0 <= j < |a| && a[j] == x;
      assert a[1..][j - 1] == x;
    }
  }

  ghost function Ranked<K(!new)>(before: (K, K) -> bool, s: set<Scored<K>>): (list: seq<Scored<K>>)
    requires StrictTotal(before)
    ensures Ranks(before, list, s)
  {
    assert exists list :: Ranks(before, list, s) by {
      var list := RankingExists(before, s);
    }
    var list :| Ranks(before, list, s);
    list
  }

  function Cut<K>(list: seq<Scored<K>>, limit: nat): seq<Scored<K>> {
    if limit < |list| then list[..limit] else list
  }

  /**
   * Members of `s`, no score above the one before it, equal scores in the given order; and a member
   * is left out only when the list is full of better ones.
   */
  ghost predicate BestFirst<K(!new)>(before: (K, K) -> bool, list: seq<Scored<K>>, s: set<Scored<K>>, limit: nat) {
    && |list| <= limit
    && (forall i, j :: 0 <= i < j < |list| ==>
          list[i].score >= list[j].score && (list[i].score == list[j].score ==> before(list[i].key, list[j].key)))
    && (forall i :: 0 <= i < |list| ==> list[i] in s)
    && forall x :: x in s && x !in list ==>
         |list| == limit && forall i :: 0 <= i < |list| ==>
           list[i].score >= x.score && (list[i].score == x.score ==> before(list[i].key, x.key))
  }

  lemma CutIsBest<K(!new)>(before: (K, K) -> bool, s: set<Scored<K>>, limit: nat)
    requires StrictTotal(before)
    ensures BestFirst(before, Cut(Ranked(before, s), limit), s, limit)
  {
    hide StrictTotal;
    var all := Ranked(before, s);
    var list := Cut(all, limit);
    assert forall i :: 0 <= i < |list| ==> list[i] == all[i] && list[i] in list;
    forall i | 0 <= i < |list|
      ensures list[i] in s
    {
      assert all[i] in all;
    }
    forall x | x in s && x !in list
      ensures |list| == limit
      ensures forall i :: 0 <= i < |list| ==> Better(before, list[i], x)
    {
      var at :| 0 <= at < |all| && all[at] == x;
      assert at >= |list|;
    }
  }

  /** Sort, then truncate. */
  method SortCut<K(!new, ==)>(before: (K, K) -> bool, s: set<Scored<K>>, limit: nat) returns (list: seq<Scored<K>>)
    requires StrictTotal(before)
    ensures list == Cut(Ranked(before, s), limit)
    ensures BestFirst(before, list, s, limit)
  {
    CutIsBest(before, s, limit);
    hide BestFirst;
    hide StrictTotal, Better;
    list := [];
    var rest := s;
    while rest != {}
      invariant rest <= s && Ranks(before, list, s - rest)
      invariant forall x, r :: x in list && r in rest ==> Better(before, x, r)
      decreases |rest|
    {
      ghost var first := BestExists(before, rest);
      var best :| best in rest && forall x :: x in rest && x != best ==> Better(before, best, x);
      RanksSnoc(before, list, s - rest, best);
      assert s - (rest - {best}) == (s - rest) + {best};
      list := list + [best];
      rest := rest - {best};
    }
    assert s - rest == s;
    RankingUnique(before, list, Ranked(before, s), s);
    list := Cut(list, limit);
  }

  // ----- The same scores under other names -----

  function Renamed<K, J>(list: seq<Scored<K>>, name: K -> J): (r: seq<Scored<J>>)
    ensures |r| == |list| && forall i :: 0 <= i < |list| ==> r[i] == Scored(name(list[i].key), list[i].score)
  {
    seq(|list|, i requires 0 <= i < |list| => Scored(name(list[i].key), list[i].score))
  }

  lemma RenamedDescends<K, J>(before: (K, K) -> bool, before': (J, J) -> bool, name: K -> J, list: seq<Scored<K>>)
    requires Descending(before, list)
    requires forall a, b :: a in list && b in list && before(a.key, b.key) ==> before'(name(a.key), name(b.key))
    ensures Descending(before', Renamed(list, name))
  {
    hide Renamed;
    var list' := Renamed(list, name);
    forall i, j | 0 <= i < j < |list'|
      ensures Better(before', list'[i], list'[j])
    {
      assert list[i] in list && list[j] in list && Better(before, list[i], list[j]);
    }
  }

  lemma RenamedMembers<K, J>(name: K -> J, list: seq<Scored<K>>, s: set<Scored<K>>, s': set<Scored<J>>)
    requires Members(list, s)
    requires forall x :: x in s ==> Scored(name(x.key), x.score) in s'
    requires forall y :: y in s' ==> exists x :: x in s && y == Scored(name(x.key), x.score)
    ensures Members(Renamed(list, name), s')
  {
    hide Renamed;
    var list' := Renamed(list, name);
    forall y | y in list'
      ensures y in s'
    {
      var i :| 0 <= i < |list'| && list'[i] == y;
      assert list[i] in list;
    }
    forall y | y in s'
      ensures y in list'
    {
      var x :| x in s && y == Scored(name(x.key), x.score);
      var i :| 0 <= i < |list| && list[i] == x;
      assert list'[i] == y;
    }
  }

  /** Renaming keys in an order-preserving way renames the ranking, at every limit. */
  lemma RankingRenamed<K(!new), J(!new)>(before: (K, K) -> bool, before': (J, J) -> bool, name: K -> J,
                                        s: set<Scored<K>>, s': set<Scored<J>>, limit: nat)
    requires StrictTotal(before) && StrictTotal(before')
    requires forall a, b :: a in s && b in s && before(a.key, b.key) ==> before'(name(a.key), name(b.key))
    requires forall x :: x in s ==> Scored(name(x.key), x.score) in s'
    requires forall y :: y in s' ==> exists x :: x in s && y == Scored(name(x.key), x.score)
    ensures Cut(Ranked(before', s'), limit) == Renamed(Cut(Ranked(before, s), limit), name)
  {
    var list := Ranked(before, s);
    RenamedMembers(name, list, s, s');
    hide StrictTotal, Descending;
    RenamedDescends(before, before', name, list);
    RankingUnique(before', Renamed(list, name), Ranked(before', s'), s');
  }
}
