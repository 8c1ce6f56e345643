/** Names as file names: percent-encoding, and what reading one back gives. */
module FileNames {
  import opened Bytes

  const PERCENT: byte := 37
  const PLUS: byte := 43

  /** Letters, digits, dot, underscore and dash stand for themselves. */
  predicate Plain(b: byte) {
    65 <= b <= 90 || 97 <= b <= 122 || 48 <= b <= 57 || b == 46 || b == 95 || b == 45
  }

  function HexDigit(n: nat): (b: byte)
    requires n < 16
  {
    if n < 10 then 48 + n else 55 + n
  }

  /** The value of a hexadecimal digit of either case. */
  function HexValue(b: byte): (v: int)
    ensures -1 <= v < 16
  {
    if 48 <= b <= 57 then b - 48
    else if 65 <= b <= 70 then b - 55
    else if 97 <= b <= 102 then b - 87
    else -1
  }

  lemma HexRoundTrip(n: nat)
    requires n < 16
    ensures HexValue(HexDigit(n)) == n
    ensures n >= 10 ==> HexDigit(n) + 32 < 256 && HexValue(HexDigit(n) + 32) == n
  {
  }

  /** `u8::from_str_radix(_, 16)` on two characters, which also takes a leading plus sign; -1 for an error. */
  function HexPair(a: byte, b: byte): (v: int)
    ensures -1 <= v < 256
  {
    if HexValue(b) < 0 then -1
    else if a == PLUS then HexValue(b)
    else if HexValue(a) < 0 then -1
    else 16 * HexValue(a) + HexValue(b)
  }

  function Escaped(b: byte): Bytes {
    if Plain(b) then [b] else [PERCENT, HexDigit(b / 16), HexDigit(b % 16)]
  }

  function Encoded(name: Bytes): Bytes {
    if name == [] then [] else Encoded(name[..|name| - 1]) + Escaped(name[|name| - 1])
  }

  const HEX: string := "0123456789ABCDEF"

  /** ASCII letters, ASCII digits and three marks. */
  predicate Portable(c: char) {
    'A' <= c <= 'Z' || 'a' <= c <= 'z' || '0' <= c <= '9' || c in "-_."
  }

  /** Such a character is itself; any other byte is a percent sign and its two upper-case hexadecimal digits. */
  lemma EscapedIs(b: byte)
    ensures Portable(b as char) ==> Escaped(b) == [b]
    ensures !Portable(b as char) ==>
              |Escaped(b)| == 3 && Escaped(b)[0] as char == '%'
              && Escaped(b)[1] as char == HEX[b / 16] && Escaped(b)[2] as char == HEX[b % 16]
  {
    PortableIsPlain(b);
    hide Plain, Portable;
  }

  lemma PortableIsPlain(b: byte)
    ensures Plain(b) <==> Portable(b as char)
  {
  }

  /** What follows a byte does not change how it is written, nor does what came before. */
  lemma {:induction false} EncodedConcat(a: Bytes, b: Bytes)
    ensures Encoded(a + b) == Encoded(a) + Encoded(b)
    decreases |b|
  {
    if b == [] {
      assert a + b == a;
    } else {
      assert (a + b)[..|a + b| - 1] == a + b[..|b| - 1];
      EncodedConcat(a, b[..|b| - 1]);
    }
  }

  method Encode(name: Bytes) returns (out: Bytes)
    ensures out == Encoded(name)
  {
    out := [];
    for i := 0 to |name|
      invariant out == Encoded(name[..i])
    {
      assert name[..i + 1][..i] == name[..i];
      if Plain(name[i]) {
        out := out + [name[i]];
      } else {
        out := out + [PERCENT, HexDigit(name[i] / 16), HexDigit(name[i] % 16)];
      }
    }
    assert name[..|name|] == name;
  }

  /** An escape at the front. */
  predicate Escape(s: Bytes) {
    |s| > 2 && s[0] == PERCENT && HexPair(s[1], s[2]) >= 0
  }

  /** The bytes a file name stands for. */
  function Raw(s: Bytes): (r: Bytes)
    ensures |r| <= |s|
  {
    if s == [] then []
    else if Escape(s) then [HexPair(s[1], s[2])] + Raw(s[3..])
    else [s[0]] + Raw(s[1..])
  }

  /** Bytes that are not UTF-8 leave the file name as it was. */
  function Decoded(utf8: Bytes -> bool, s: Bytes): Bytes {
    if utf8(Raw(s)) then Raw(s) else s
  }

  method Decode(utf8: Bytes -> bool, s: Bytes) returns (name: Bytes)
    ensures name == Decoded(utf8, s)
  {
    hide Raw, HexPair;
    var out: Bytes := [];
    var at := 0;
    assert s[0..] == s;
    while at < |s|
      invariant at <= |s| && out + Raw(s[at..]) == Raw(s)
    {
      var rest := s[at..];
      RawStep(rest);
      if s[at] == PERCENT && at + 2 < |s| {
        var v := HexPair(s[at + 1], s[at + 2]);
        if v >= 0 {
          assert rest[3..] == s[at + 3..];
          Regroup(out, [v], Raw(rest[3..]));
          out := out + [v];
          at := at + 3;
          continue;
        }
      }
      assert rest[1..] == s[at + 1..];
      Regroup(out, [s[at]], Raw(rest[1..]));
      out := out + [s[at]];
      at := at + 1;
    }
    RawStep(s[at..]);
    assert out + [] == out;
    name := if utf8(out) then out else s;
  }

  lemma RawStep(s: Bytes)
    ensures Raw(s) == if s == [] then [] else if Escape(s) then [HexPair(s[1], s[2])] + Raw(s[3..]) else [s[0]] + Raw(s[1..])
  {
  }

  lemma RawEscaped(b: byte, rest: Bytes)
    ensures Raw(Escaped(b) + rest) == [b] + Raw(rest)
  {
    var s := Escaped(b) + rest;
    if Plain(b) {
      assert s[1..] == rest;
    } else {
      HexRoundTrip(b / 16);
      HexRoundTrip(b % 16);
      assert s[3..] == rest;
    }
  }

  lemma Regroup(a: Bytes, b: Bytes, c: Bytes)
    ensures a + b + c == a + (b + c)
  {
  }

  lemma {:induction false} RawEncoded(name: Bytes, rest: Bytes)
    ensures Raw(Encoded(name) + rest) == name + Raw(rest)
    decreases |name|
  {
    if name == [] {
      assert Encoded(name) + rest == rest;
    } else {
      var front, b := name[..|name| - 1], name[|name| - 1];
      assert Encoded(name) == Encoded(front) + Escaped(b);
      hide *;
      Regroup(Encoded(front), Escaped(b), rest);
      RawEncoded(front, Escaped(b) + rest);
      RawEscaped(b, rest);
      Regroup(front, [b], Raw(rest));
      assert name == front + [b];
    }
  }

  lemma RawOfEncoded(name: Bytes)
    ensures Raw(Encoded(name)) == name
  {
    RawEncoded(name, []);
    hide Encoded;
    assert Encoded(name) + [] == Encoded(name);
    assert Raw([]) == [];
    assert name + [] == name;
  }

  /** A name reads back as itself. */
  lemma EncodeRoundTrip(utf8: Bytes -> bool, name: Bytes)
    requires utf8(name)
    ensures Decoded(utf8, Encoded(name)) == name
  {
    RawOfEncoded(name);
  }

  /** Two names never share a file name. */
  lemma EncodeInjective(a: Bytes, b: Bytes)
    requires Encoded(a) == Encoded(b)
    ensures a == b
  {
    RawOfEncoded(a);
    RawOfEncoded(b);
  }

  /** A file name can be told apart from a path: an encoded name holds no separator. */
  lemma {:induction false} EncodedIsOneComponent(name: Bytes)
    ensures forall i :: 0 <= i < |Encoded(name)| ==> Encoded(name)[i] != 47
    decreases |name|
  {
    if name != [] {
      EncodedIsOneComponent(name[..|name| - 1]);
    }
  }

  // ----- File names nothing here wrote -----

  ghost predicate HasEscape(s: Bytes) {
    exists i :: 0 <= i < |s| && Escape(s[i..])
  }

  lemma {:induction false} RawShortensIff(s: Bytes)
    ensures HasEscape(s) <==> |Raw(s)| < |s|
    ensures !HasEscape(s) ==> Raw(s) == s
    decreases |s|
  {
    if s == [] {
    } else if Escape(s) {
      assert s[0..] == s;
      assert Escape(s[0..]);
    } else {
      RawShortensIff(s[1..]);
      assert s == [s[0]] + s[1..];
      if HasEscape(s) {
        var i :| 0 <= i < |s| && Escape(s[i..]);
        assert i != 0 by { assert s[0..] == s; }
        assert s[1..][i - 1..] == s[i..];
      }
      if HasEscape(s[1..]) {
        var i :| 0 <= i < |s[1..]| && Escape(s[1..][i..]);
        assert s[i + 1..] == s[1..][i..];
      }
    }
  }

  /** A file name reads as itself exactly when it holds no escape, or its escapes spell no UTF-8. */
  lemma DecodesToItselfIff(utf8: Bytes -> bool, s: Bytes)
    ensures Decoded(utf8, s) == s <==> !HasEscape(s) || !utf8(Raw(s))
  {
    RawShortensIff(s);
  }

  /** `%41` was never produced, since `A` stands for itself, and it still reads as `A`. */
  lemma NeverProducedYetDecoded(utf8: Bytes -> bool)
    requires utf8([65])
    ensures var s: Bytes := [PERCENT, 52, 49];
            (forall name: Bytes :: Encoded(name) != s) && Decoded(utf8, s) == [65]
  {
    var s: Bytes := [PERCENT, 52, 49];
    assert s[3..] == [];
    assert Raw(s) == [65];
    assert Encoded([65]) == [65] by {
      assert [65][..0] == [];
    }
    forall name: Bytes
      ensures Encoded(name) != s
    {
      RawOfEncoded(name);
    }
  }
}
