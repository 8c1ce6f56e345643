/** Keys: `{realm}/{parts joined by '/'}`, and when two of them can meet. */
module Keyspace {
  import opened Bytes
  import opened Order

  const SLASH: byte := 47
  const LOCAL: Bytes := [108, 111, 99, 97, 108]

  predicate NoSlash(part: Bytes) {
    forall i :: 0 <= i < |part| ==> part[i] != SLASH
  }

  /** `Joined([a, b])` is `/a/b`. */
  function Joined(parts: seq<Bytes>): Bytes {
    if parts == [] then [] else [SLASH] + parts[0] + Joined(parts[1..])
  }

  function KeyOf(parts: seq<Bytes>): Bytes {
    LOCAL + Joined(parts)
  }

  /** Ends in a separator, so that no name is taken for the start of a longer one. */
  function PrefixOf(parts: seq<Bytes>): Bytes {
    KeyOf(parts) + [SLASH]
  }

  /** The loop of `key`. */
  method BuildKey(parts: seq<Bytes>) returns (key: Bytes)
    ensures key == KeyOf(parts)
  {
    key := LOCAL;
    for i := 0 to |parts|
      invariant key + Joined(parts[i..]) == KeyOf(parts)
    {
      key := key + [SLASH] + parts[i];
    }
    assert key + [] == key;
  }

  /** Where the first separator is, or the length without one. */
  function FirstSlash(s: Bytes): (n: nat)
    ensures n <= |s|
  {
    if s == [] || s[0] == SLASH then 0 else 1 + FirstSlash(s[1..])
  }

  lemma {:induction false} FirstSlashAfter(a: Bytes, x: Bytes)
    requires NoSlash(a)
    ensures FirstSlash(a + [SLASH] + x) == |a|
    decreases |a|
  {
    if a != [] {
      assert (a + [SLASH] + x)[1..] == a[1..] + [SLASH] + x;
      FirstSlashAfter(a[1..], x);
    }
  }

  lemma {:induction false} FirstSlashPast(a: Bytes, rest: Bytes)
    requires NoSlash(a)
    ensures FirstSlash(a + rest) == |a| + FirstSlash(rest)
    decreases |a|
  {
    if a == [] {
      assert a + rest == rest;
    } else {
      assert (a + rest)[1..] == a[1..] + rest;
      FirstSlashPast(a[1..], rest);
    }
  }

  /** Two slash-free parts before a slash: equal strings mean equal parts and equal rests. */
  lemma PartsSplit(a: Bytes, x: Bytes, b: Bytes, y: Bytes)
    requires NoSlash(a) && NoSlash(b) && a + [SLASH] + x == b + [SLASH] + y
    ensures a == b && x == y
  {
    var s, t := a + [SLASH] + x, b + [SLASH] + y;
    FirstSlashAfter(a, x);
    FirstSlashAfter(b, y);
    assert a == s[..|a|] && b == t[..|b|];
    assert x == s[|a| + 1..] && y == t[|b| + 1..];
  }

  lemma PrefixRest(p: Bytes, s: Bytes) returns (rest: Bytes)
    requires IsPrefix(p, s)
    ensures s == p + rest
  {
    rest := s[|p|..];
  }

  lemma CommonPrefix(p: Bytes, a: Bytes, b: Bytes)
    ensures IsPrefix(p + a, p + b) <==> IsPrefix(a, b)
    ensures p + a == p + b <==> a == b
  {
    assert (p + a)[|p|..] == a && (p + b)[|p|..] == b;
    if |a| <= |b| {
      assert (p + b)[..|p| + |a|] == p + b[..|a|];
      assert (p + b[..|a|])[|p|..] == b[..|a|];
    }
  }

  /** Behind a common prefix the order is that of what follows. */
  lemma {:induction false} LessBehindPrefix(p: Bytes, a: Bytes, b: Bytes)
    ensures Less(p + a, p + b) <==> Less(a, b)
    decreases |p|
  {
    if p == [] {
      assert p + a == a && p + b == b;
    } else {
      assert (p + a)[1..] == p[1..] + a && (p + b)[1..] == p[1..] + b;
      LessBehindPrefix(p[1..], a, b);
    }
  }
}
