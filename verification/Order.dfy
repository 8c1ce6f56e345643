/**
 * The byte-wise order keys are kept in, and finite key sets in that order: what a `BTreeMap`
 * iteration, a prefix scan and a sorted listing all have in common.
 */
module Order {
  import opened Bytes

  /** A key qualified by its column, column first. */
  datatype Key = Key(col: byte, name: Bytes)

  predicate Less(a: Bytes, b: Bytes) {
    b != [] && (a == [] || a[0] < b[0] || (a[0] == b[0] && Less(a[1..], b[1..])))
  }

  predicate KeyLess(a: Key, b: Key) {
    a.col < b.col || (a.col == b.col && Less(a.name, b.name))
  }

  lemma {:induction false} LessTotal(a: Bytes, b: Bytes)
    ensures a == b || Less(a, b) || Less(b, a)
  {
    if a != [] && b != [] && a[0] == b[0] {
      LessTotal(a[1..], b[1..]);
      assert a == [a[0]] + a[1..] && b == [b[0]] + b[1..];
    }
  }

  lemma {:induction false} LessTransitive(a: Bytes, b: Bytes, c: Bytes)
    requires Less(a, b) && Less(b, c)
    ensures Less(a, c)
  {
    if a != [] && a[0] == b[0] == c[0] {
      LessTransitive(a[1..], b[1..], c[1..]);
    }
  }

  lemma {:induction false} LessIrreflexive(a: Bytes)
    ensures !Less(a, a)
  {
    if a != [] {
      LessIrreflexive(a[1..]);
    }
  }

  lemma KeyLessStrictOrder(a: Key, b: Key, c: Key)
    ensures !KeyLess(a, a)
    ensures a == b || KeyLess(a, b) || KeyLess(b, a)
    ensures KeyLess(a, b) && KeyLess(b, c) ==> KeyLess(a, c)
  {
    LessIrreflexive(a.name);
    LessTotal(a.name, b.name);
    if KeyLess(a, b) && KeyLess(b, c) && a.col == b.col == c.col {
      LessTransitive(a.name, b.name, c.name);
    }
  }

  ghost predicate Ascending(keys: seq<Key>) {
    forall i, j :: 0 <= i < j < |keys| ==> KeyLess(keys[i], keys[j])
  }

  ghost predicate Elements(keys: seq<Key>, s: set<Key>) {
    (forall k :: k in keys ==> k in s) && (forall k :: k in s ==> k in keys)
  }

  /** The members of `s`, ascending and each once. */
  ghost predicate Lists(keys: seq<Key>, s: set<Key>) {
    Ascending(keys) && Elements(keys, s)
  }

  lemma {:induction false} LeastExists(s: set<Key>) returns (least: Key)
    requires s != {}
    ensures least in s && forall k :: k in s && k != least ==> KeyLess(least, k)
  {
    var x :| x in s;
    if s == {x} {
      return x;
    }
    var rest := s - {x};
    var m := LeastExists(rest);
    KeyLessStrictOrder(x, m, m);
    least := if KeyLess(x, m) then x else m;
    forall k | k in s && k != least
      ensures KeyLess(least, k)
    {
      if k != x && least == x {
        KeyLessStrictOrder(x, m, k);
      }
    }
  }

  lemma {:induction false} ListExists(s: set<Key>) returns (keys: seq<Key>)
    ensures Lists(keys, s)
  {
    if s == {} {
      return [];
    }
    var least := LeastExists(s);
    var rest := ListExists(s - {least});
    keys := [least] + rest;
    forall i, j | 0 <= i < j < |keys|
      ensures KeyLess(keys[i], keys[j])
    {
      assert keys[j] == rest[j - 1] && rest[j - 1] in rest;
    }
    forall k | k in s
      ensures k in keys
    {
      assert k == least || k in rest;
    }
  }

  lemma SameEmptiness(keys: seq<Key>, s: set<Key>)
    requires Elements(keys, s)
    ensures keys == [] <==> s == {}
  {
    if keys != [] {
      assert keys[0] in keys;
    }
  }

  /** A set has one ascending listing, so `Sorted` below is a function of the set alone. */
  lemma {:induction false} ListUnique(a: seq<Key>, b: seq<Key>, s: set<Key>)
    requires Lists(a, s) && Lists(b, s)
    ensures a == b
    decreases |a|
  {
    SameEmptiness(a, s);
    SameEmptiness(b, s);
    if s != {} {
      assert a[0] in s && b[0] in s by { assert a[0] in a && b[0] in b; }
      assert a[0] == b[0] by {
        var i :| 0 <= i < |a| && a[i] == b[0];
        var j :| 0 <= j < |b| && b[j] == a[0];
        KeyLessStrictOrder(a[0], b[0], a[0]);
      }
      DropFirst(a, s);
      DropFirst(b, s);
      ListUnique(a[1..], b[1..], s - {a[0]});
    }
  }

  lemma DropFirst(a: seq<Key>, s: set<Key>)
    requires Lists(a, s) && a != []
    ensures Lists(a[1..], s - {a[0]})
  {
    forall k | k in a[1..]
      ensures k in s - {a[0]}
    {
      var j :| 1 <= j < |a| && a[j] == k;
      KeyLessStrictOrder(a[0], k, k);
      assert k in a;
    }
    forall k | k in s - {a[0]}
      ensures k in a[1..]
    {
      var j :| 0 <= j < |a| && a[j] == k;
      assert a[1..][j - 1] == k;
    }
  }

  ghost function Sorted(s: set<Key>): (keys: seq<Key>)
    ensures Lists(keys, s)
  {
    assert exists keys :: Lists(keys, s) by {
      var keys := ListExists(s);
    }
    var keys :| Lists(keys, s);
    keys
  }

  lemma SortedIs(keys: seq<Key>, s: set<Key>)
    requires Lists(keys, s)
    ensures keys == Sorted(s)
  {
    ListUnique(keys, Sorted(s), s);
  }

  /** The iteration itself: repeatedly take the least key left. */
  method InOrder(s: set<Key>) returns (keys: seq<Key>)
    ensures keys == Sorted(s)
  {
    keys := [];
    var rest := s;
    while rest != {}
      invariant rest <= s && Lists(keys, s - rest)
      invariant forall k, r :: k in keys && r in rest ==> KeyLess(k, r)
      decreases |rest|
    {
      ghost var first := LeastExists(rest);
      var least :| least in rest && forall k :: k in rest && k != least ==> KeyLess(least, k);
      Snoc(keys, s - rest, least);
      assert s - (rest - {least}) == (s - rest) + {least};
      keys := keys + [least];
      rest := rest - {least};
    }
    assert s - rest == s;
    SortedIs(keys, s);
  }

  lemma Snoc(keys: seq<Key>, s: set<Key>, k: Key)
    requires Lists(keys, s) && forall j :: j in keys ==> KeyLess(j, k)
    ensures Lists(keys + [k], s + {k})
  {
    forall j | j in s + {k}
      ensures j in keys + [k]
    {
      assert j in s ==> j in keys;
    }
  }

  predicate IsPrefix(p: Bytes, s: Bytes) {
    |p| <= |s| && s[..|p|] == p
  }

  lemma {:induction false} PrefixNotAbove(p: Bytes, s: Bytes)
    requires IsPrefix(p, s)
    ensures !Less(s, p)
  {
    if p != [] {
      assert s[0] == p[0] by { assert s[..|p|][0] == p[0]; }
      assert s[1..][..|p| - 1] == s[..|p|][1..];
      PrefixNotAbove(p[1..], s[1..]);
    }
  }

  /** Between a prefix and a key that has it, every key has it: one scan is one range. */
  lemma {:induction false} PrefixConvex(p: Bytes, mid: Bytes, hi: Bytes)
    requires IsPrefix(p, hi) && !Less(mid, p) && Less(mid, hi)
    ensures IsPrefix(p, mid)
  {
    if p != [] {
      assert hi[0] == p[0] by { assert hi[..|p|][0] == p[0]; }
      assert mid != [] && mid[0] == p[0];
      assert hi[1..][..|p| - 1] == hi[..|p|][1..];
      PrefixConvex(p[1..], mid[1..], hi[1..]);
      assert mid[..|p|] == [mid[0]] + mid[1..][..|p| - 1];
      assert p == [p[0]] + p[1..];
    }
  }
}
