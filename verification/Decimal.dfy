/** Zero-padded decimal positions, and how far they sort as the numbers they stand for. */
module Decimal {
  import opened Bytes
  import opened Order
  import opened Keyspace
  import opened Wrappers

  const ZERO: byte := 48

  /** The last `width` decimal digits. */
  function Digits(n: nat, width: nat): (s: Bytes)
    ensures |s| == width && forall i :: 0 <= i < |s| ==> ZERO <= s[i] <= ZERO + 9
  {
    if width == 0 then [] else Digits(n / 10, width - 1) + [ZERO + n % 10]
  }

  /** How many digits a number takes. */
  function Width(n: nat): (w: nat)
    ensures w >= 1
  {
    if n < 10 then 1 else 1 + Width(n / 10)
  }

  const PAD: nat := 12

  /** `{:012}`: twelve digits, or as many as it takes. */
  function Padded(n: nat): Bytes {
    Digits(n, if Width(n) < PAD then PAD else Width(n))
  }

  ghost function Pow10(width: nat): (p: nat)
    ensures p > 0
  {
    if width == 0 then 1 else 10 * Pow10(width - 1)
  }

  lemma {:induction false} WidthBound(n: nat, w: nat)
    requires w >= 1
    ensures Width(n) <= w <==> n < Pow10(w)
    decreases w
  {
    if w > 1 {
      WidthBound(n / 10, w - 1);
      assert n < 10 ==> n < Pow10(w);
    } else {
      assert Pow10(1) == 10;
    }
  }

  lemma {:induction false} LessAtLength(a: Bytes, b: Bytes, x: Bytes, y: Bytes)
    requires |a| == |b| && Less(a, b)
    ensures Less(a + x, b + y)
    decreases |a|
  {
    assert (a + x)[0] == a[0] && (b + y)[0] == b[0];
    assert (a + x)[1..] == a[1..] + x && (b + y)[1..] == b[1..] + y;
    if a[0] == b[0] {
      LessAtLength(a[1..], b[1..], x, y);
    }
  }

  /** At one width, digit strings are in the order of the numbers. */
  lemma {:induction false} DigitsOrder(n: nat, m: nat, width: nat)
    requires n < m < Pow10(width)
    ensures Less(Digits(n, width), Digits(m, width))
    decreases width
  {
    var a, b := Digits(n / 10, width - 1), Digits(m / 10, width - 1);
    if n / 10 < m / 10 {
      DigitsOrder(n / 10, m / 10, width - 1);
      LessAtLength(a, b, [ZERO + n % 10], [ZERO + m % 10]);
    } else {
      assert n / 10 == m / 10 && n % 10 < m % 10;
      LessBehindPrefix(a, [ZERO + n % 10], [ZERO + m % 10]);
    }
  }

  /** Two numbers are never padded to the same string. */
  lemma PaddedInjective(n: nat, m: nat)
    requires Padded(n) == Padded(m)
    ensures n == m
  {
    var w := |Padded(n)|;
    WidthBound(n, w);
    WidthBound(m, w);
    if n < m {
      DigitsOrder(n, m, w);
      LessIrreflexive(Padded(n));
    } else if m < n {
      DigitsOrder(m, n, w);
      LessIrreflexive(Padded(n));
    }
  }

  lemma PaddedNoSlash(n: nat)
    ensures NoSlash(Padded(n))
  {
  }

  /** What the padding covers: positions below 10^12. */
  const POSITIONS: nat := 1_000_000_000_000

  lemma PositionsAreTwelveDigits()
    ensures Pow10(PAD) == POSITIONS
  {
    assert Pow10(12) == 10 * Pow10(11) == 100 * Pow10(10);
    assert Pow10(10) == 10 * Pow10(9) == 100 * Pow10(8);
    assert Pow10(8) == 10 * Pow10(7) == 100 * Pow10(6);
    assert Pow10(6) == 10 * Pow10(5) == 100 * Pow10(4);
    assert Pow10(4) == 10 * Pow10(3) == 100 * Pow10(2);
    assert Pow10(2) == 10 * Pow10(1) == 100;
  }

  lemma PaddedOrder(n: nat, m: nat)
    requires n < m < POSITIONS
    ensures Less(Padded(n), Padded(m))
  {
    PositionsAreTwelveDigits();
    WidthBound(n, PAD);
    WidthBound(m, PAD);
    DigitsOrder(n, m, PAD);
  }

  /** Position 10^12 sorts before 10^12 - 1. */
  lemma FirstThirteenDigits()
    ensures Less(Padded(POSITIONS), Padded(POSITIONS - 1))
  {
    LeadsWithOne();
    LeadsWithNine();
    hide Padded;
  }

  lemma LeadsWithOne()
    ensures Padded(POSITIONS) != [] && Padded(POSITIONS)[0] == ZERO + 1
  {
    PositionsAreTwelveDigits();
    var p := POSITIONS;
    assert Pow10(PAD + 1) == 10 * Pow10(PAD);
    WidthBound(p, PAD);
    WidthBound(p, PAD + 1);
    LeadingDigit(p, PAD);
  }

  lemma LeadsWithNine()
    ensures Padded(POSITIONS - 1) != [] && Padded(POSITIONS - 1)[0] == ZERO + 9
  {
    PositionsAreTwelveDigits();
    var p := POSITIONS - 1;
    assert Pow10(PAD) == 10 * Pow10(PAD - 1);
    WidthBound(p, PAD);
    LeadingDigit(p, PAD - 1);
  }

  lemma {:induction false} LeadingDigit(n: nat, width: nat)
    requires n < Pow10(width + 1)
    ensures Digits(n, width + 1)[0] == ZERO + n / Pow10(width)
    decreases width
  {
    if width > 0 {
      LeadingDigit(n / 10, width - 1);
      assert Digits(n, width + 1)[0] == Digits(n / 10, width)[0];
      DivTwice(n, Pow10(width - 1));
    }
  }

  lemma DivTwice(n: nat, p: nat)
    requires p > 0
    ensures n / 10 / p == n / (10 * p)
  {
    var q := n / 10 / p;
    var r := n / 10 - p * q;
    assert n / 10 == p * q + r && 0 <= r < p;
    assert n == 10 * (p * q + r) + n % 10;
    assert 10 * (p * q) == (10 * p) * q;
    ModUnique(n, 10 * p, q, 10 * r + n % 10);
    QuotUnique(n, 10 * p, q, 10 * r + n % 10);
  }

  lemma QuotUnique(n: nat, d: nat, q: nat, r: nat)
    requires d > 0 && n == d * q + r && r < d
    ensures n / d == q
  {
    var q', r' := n / d, n % d;
    assert d * (q' - q) == r - r' by {
      assert n == d * q' + r';
    }
    MulBelow(d, q' - q);
  }

  /** Padded positions list in numeric order exactly while there are at most 10^12 of them. */
  lemma PaddedOrderIff(count: nat)
    ensures (forall n, m :: 0 <= n < m < count ==> Less(Padded(n), Padded(m))) <==> count <= POSITIONS
  {
    if count <= POSITIONS {
      forall n, m | 0 <= n < m < count
        ensures Less(Padded(n), Padded(m))
      {
        PaddedOrder(n, m);
      }
    } else {
      FirstThirteenDigits();
      LessAsymmetric(Padded(POSITIONS), Padded(POSITIONS - 1));
      var n, m := POSITIONS - 1, POSITIONS;
      assert 0 <= n < m < count;
    }
  }

  lemma LessAsymmetric(a: Bytes, b: Bytes)
    requires Less(a, b)
    ensures !Less(b, a)
  {
    if Less(b, a) {
      LessTransitive(a, b, a);
      LessIrreflexive(a);
    }
  }

  // ----- Reading a number back -----

  predicate AllDigits(s: Bytes) {
    forall i :: 0 <= i < |s| ==> ZERO <= s[i] <= ZERO + 9
  }

  function ValueOf(s: Bytes): nat
    requires AllDigits(s)
  {
    if s == [] then 0 else 10 * ValueOf(s[..|s| - 1]) + (s[|s| - 1] - ZERO)
  }

  const PLUS: byte := 43

  /** `str::parse` of an unsigned 64-bit number: digits, after at most one plus sign. */
  function Parsed(s: Bytes): Option<nat> {
    var digits := if s != [] && s[0] == PLUS then s[1..] else s;
    if digits != [] && AllDigits(digits) && ValueOf(digits) < U64_LIMIT then Some(ValueOf(digits)) else None
  }

  lemma {:induction false} ValueOfDigits(n: nat, width: nat)
    requires n < Pow10(width)
    ensures ValueOf(Digits(n, width)) == n
    decreases width
  {
    if width > 0 {
      ValueOfDigits(n / 10, width - 1);
      assert Digits(n, width)[..width - 1] == Digits(n / 10, width - 1);
    }
  }

  /** A padded position reads back as itself. */
  lemma ParsedPadded(n: nat)
    requires n < U64_LIMIT
    ensures Parsed(Padded(n)) == Some(n)
  {
    WidthBound(n, |Padded(n)|);
    ValueOfDigits(n, |Padded(n)|);
  }
}
