/** Bytes, and the little-endian integers the on-disk format is made of. */
module Bytes {

  type byte = b: int | 0 <= b < 0x100
  type Bytes = seq<byte>

  const U32_LIMIT: nat := 0x1_0000_0000
  const U64_LIMIT: nat := 0x1_0000_0000_0000_0000

  type u64 = n: int | 0 <= n < 0x1_0000_0000_0000_0000

  lemma Middle<T>(a: seq<T>, b: seq<T>, c: seq<T>)
    ensures (a + b + c)[|a|..|a| + |b|] == b
  {
  }

  lemma Concat<T>(a: seq<T>, b: seq<T>, c: seq<T>)
    ensures a + (b + c) == (a + b) + c
  {
  }

  lemma SubSlice<T>(s: seq<T>, lo: nat, hi: nat, from: nat, to: nat)
    requires lo <= hi <= |s| && from <= to <= hi - lo
    ensures s[lo..hi][from..to] == s[lo + from..lo + to]
  {
    var a, b := s[lo..hi][from..to], s[lo + from..lo + to];
    assert forall i :: 0 <= i < |a| ==> a[i] == s[lo + from + i] == b[i];
  }

  ghost function Pow256(width: nat): (p: nat)
    ensures p > 0
  {
    if width == 0 then 1 else 256 * Pow256(width - 1)
  }

  /** `n` in `width` little-endian bytes; what does not fit is cut off, as `as u32` does. */
  function ToLe(n: nat, width: nat): (s: Bytes)
    ensures |s| == width
  {
    if width == 0 then [] else [n % 256] + ToLe(n / 256, width - 1)
  }

  function FromLe(s: Bytes): nat {
    if s == [] then 0 else s[0] + 256 * FromLe(s[1..])
  }

  lemma {:induction false} FromLeToLe(n: nat, width: nat)
    ensures FromLe(ToLe(n, width)) == n % Pow256(width)
  {
    if width > 0 {
      FromLeToLe(n / 256, width - 1);
      ModSplit(n, Pow256(width - 1));
    }
  }

  lemma ModSplit(n: nat, p: nat)
    requires p > 0
    ensures n % (256 * p) == n % 256 + 256 * ((n / 256) % p)
  {
    var q, r := n / 256, n % 256;
    var qq, qr := q / p, q % p;
    assert n == (256 * p) * qq + (256 * qr + r) by {
      assert q == p * qq + qr;
      assert 256 * q == 256 * (p * qq) + 256 * qr;
      assert 256 * (p * qq) == (256 * p) * qq;
    }
    ModUnique(n, 256 * p, qq, 256 * qr + r);
  }

  lemma MulBelow(d: int, k: int)
    requires d > 0 && -d < d * k < d
    ensures k == 0
  {
  }

  lemma ModUnique(n: nat, d: nat, q: nat, r: nat)
    requires d > 0 && n == d * q + r && r < d
    ensures n % d == r
  {
    var q', r' := n / d, n % d;
    assert d * (q' - q) == r - r' by {
      assert n == d * q' + r';
    }
    MulBelow(d, q' - q);
  }

  /** The least significant byte comes first. */
  lemma {:induction false} ToLeDigit(n: nat, width: nat, i: nat)
    requires i < width
    ensures ToLe(n, width)[i] == (n / Pow256(i)) % 256
    decreases width
  {
    if i > 0 {
      ToLeDigit(n / 256, width - 1, i - 1);
      DivTwice(n, Pow256(i - 1));
    }
  }

  lemma DivTwice(n: nat, p: nat)
    requires p > 0
    ensures (n / 256) / p == n / (256 * p)
  {
    var q, r := n / 256, n % 256;
    var qq, qr := q / p, q % p;
    assert n == (256 * p) * qq + (256 * qr + r) by {
      assert q == p * qq + qr;
      assert 256 * (p * qq) == (256 * p) * qq;
    }
    DivUnique(n, 256 * p, qq, 256 * qr + r);
  }

  lemma DivUnique(n: nat, d: nat, q: nat, r: nat)
    requires d > 0 && n == d * q + r && r < d
    ensures n / d == q
  {
    var q', r' := n / d, n % d;
    assert d * (q' - q) == r - r' by {
      assert n == d * q' + r';
    }
    MulBelow(d, q' - q);
  }

  /** No two byte strings of one length spell the same number. */
  lemma {:induction false} FromLeInjective(a: Bytes, b: Bytes)
    requires |a| == |b| && FromLe(a) == FromLe(b)
    ensures a == b
  {
    if a != [] {
      assert a[0] == b[0] && FromLe(a[1..]) == FromLe(b[1..]);
      FromLeInjective(a[1..], b[1..]);
      assert a == [a[0]] + a[1..] && b == [b[0]] + b[1..];
    }
  }

  lemma U32RoundTrip(n: nat)
    ensures FromLe(ToLe(n, 4)) == n % U32_LIMIT
  {
    FromLeToLe(n, 4);
    assert Pow256(4) == U32_LIMIT;
  }

  lemma U64RoundTrip(n: u64)
    ensures FromLe(ToLe(n, 8)) == n
  {
    FromLeToLe(n, 8);
    assert Pow256(8) == 256 * Pow256(7) == 256 * 256 * Pow256(6);
    assert Pow256(6) == 256 * Pow256(5) == 256 * 256 * Pow256(4);
    assert Pow256(4) == U32_LIMIT;
  }

  lemma {:induction false} FromLeBound(s: Bytes)
    ensures FromLe(s) < Pow256(|s|)
  {
    if s != [] {
      FromLeBound(s[1..]);
    }
  }

  lemma FromLeU32(s: Bytes)
    requires |s| == 4
    ensures FromLe(s) < U32_LIMIT
  {
    FromLeBound(s);
    assert Pow256(4) == U32_LIMIT;
  }

  lemma FromLeU64(s: Bytes)
    requires |s| == 8
    ensures FromLe(s) < U64_LIMIT
  {
    FromLeBound(s);
    assert Pow256(8) == 256 * Pow256(7) == 256 * 256 * Pow256(6);
    assert Pow256(6) == 256 * Pow256(5) == 256 * 256 * Pow256(4);
    assert Pow256(4) == U32_LIMIT;
  }
}
