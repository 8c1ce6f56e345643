/** The CRMEM file format: header, records, index snapshots. */
module Format {
  import opened Wrappers
  import opened Bytes
  import opened Order

  const HEADER_LEN: nat := 32
  const MAGIC: Bytes := [67, 82, 77, 69, 77, 0]
  const VERSION: nat := 1

  datatype Error =
    | ShortHeader
    | BadMagic
    | BadVersion
    | BadFlags
    | UnknownOp(op: byte)
    | UnexpectedEof

  datatype Op = Put | Delete

  function OpByte(op: Op): byte {
    match op case Put => 0 case Delete => 1
  }

  function OpFromByte(b: byte): Option<Op> {
    match b case 0 => Some(Put) case 1 => Some(Delete) case _ => None
  }

  // ----- Header -----

  /** Where the index snapshot lies; `indexLen == 0` means there is none. */
  datatype Header = Header(indexAt: u64, indexLen: u64)

  const NO_SNAPSHOT: Header := Header(0, 0)

  function EncodeHeader(h: Header): (out: Bytes)
    ensures |out| == HEADER_LEN
  {
    MAGIC + ToLe(VERSION, 4) + [0, 0] + [0, 0, 0, 0] + ToLe(h.indexAt, 8) + ToLe(h.indexLen, 8)
  }

  function DecodeHeader(buf: Bytes): (r: Result<Header, Error>)
    ensures r.Ok? ==> |buf| >= HEADER_LEN
  {
    if |buf| < HEADER_LEN then Err(ShortHeader)
    else if buf[0..6] != MAGIC then Err(BadMagic)
    else if FromLe(buf[6..10]) != VERSION then Err(BadVersion)
    else if FromLe(buf[10..12]) != 0 then Err(BadFlags)
    else
      FromLeU64(buf[16..24]);
      FromLeU64(buf[24..32]);
      Ok(Header(FromLe(buf[16..24]), FromLe(buf[24..32])))
  }

  lemma HeaderRoundTrip(h: Header, rest: Bytes)
    ensures DecodeHeader(EncodeHeader(h) + rest) == Ok(h)
  {
    var b := EncodeHeader(h) + rest;
    assert b[0..6] == MAGIC;
    assert b[6..10] == ToLe(VERSION, 4);
    assert b[10..12] == [0, 0] && FromLe([0, 0]) == 0 by { assert [0, 0][1..] == [0]; }
    assert b[16..24] == ToLe(h.indexAt, 8);
    assert b[24..32] == ToLe(h.indexLen, 8);
    U32RoundTrip(VERSION);
    U64RoundTrip(h.indexAt);
    U64RoundTrip(h.indexLen);
  }

  /** A new file: the magic, version 1, no flags, and two zero words for the snapshot. */
  function NewFile(): (file: Bytes)
    ensures |file| == HEADER_LEN
  {
    [67, 82, 77, 69, 77, 0, 1, 0, 0, 0, 0, 0, 0, 0, 0, 0,
     0, 0, 0, 0, 0, 0, 0, 0, 0, 0, 0, 0, 0, 0, 0, 0]
  }

  lemma Zeros8()
    ensures ToLe(0, 8) == [0, 0, 0, 0, 0, 0, 0, 0]
  {
    assert ToLe(0, 4) == [0, 0, 0, 0];
    assert ToLe(0, 8) == [0] + ([0] + ([0] + ([0] + ToLe(0, 4))));
  }

  lemma NewFileIs()
    ensures EncodeHeader(NO_SNAPSHOT) == NewFile()
  {
    Zeros8();
    assert ToLe(VERSION, 4) == [1, 0, 0, 0] by {
      assert ToLe(1, 4) == [1] + ([0] + ([0] + ([0] + [])));
    }
    hide ToLe;
  }

  /**
   * Which headers are refused, by their bytes, and with what; any other is read as two little-endian
   * words, whatever its four reserved bytes hold.
   */
  lemma HeaderRefusedIff(buf: Bytes)
    requires |buf| >= HEADER_LEN
    ensures var magic, version, flags := buf[..6] == [67, 82, 77, 69, 77, 0], buf[6..10] == [1, 0, 0, 0], buf[10..12] == [0, 0];
            && (DecodeHeader(buf) == Err(BadMagic) <==> !magic)
            && (DecodeHeader(buf) == Err(BadVersion) <==> magic && !version)
            && (DecodeHeader(buf) == Err(BadFlags) <==> magic && version && !flags)
            && (DecodeHeader(buf).Ok? <==> magic && version && flags)
            && (DecodeHeader(buf).Ok? ==>
                  && ToLe(DecodeHeader(buf).value.indexAt, 8) == buf[16..24]
                  && ToLe(DecodeHeader(buf).value.indexLen, 8) == buf[24..32])
  {
    U32RoundTrip(1);
    assert ToLe(1, 4) == [1] + ([0] + ([0] + ([0] + [])));
    assert FromLe([0, 0]) == 0 by { assert [0, 0][1..] == [0]; }
    hide ToLe, FromLe;
    if FromLe(buf[6..10]) == 1 {
      FromLeInjective(buf[6..10], [1, 0, 0, 0]);
    }
    if FromLe(buf[10..12]) == 0 {
      FromLeInjective(buf[10..12], [0, 0]);
    }
    ToLeFromLe(buf[16..24]);
    ToLeFromLe(buf[24..32]);
  }

  lemma ToLeFromLe(s: Bytes)
    requires |s| == 8
    ensures FromLe(s) < U64_LIMIT && ToLe(FromLe(s), 8) == s
  {
    FromLeU64(s);
    U64RoundTrip(FromLe(s));
    FromLeInjective(ToLe(FromLe(s), 8), s);
  }

  // ----- Cursor reads -----

  /** The `len` bytes at `at` and the cursor past them, or None past the end of the buffer. */
  function Take(buf: Bytes, at: nat, len: nat): (r: Option<(Bytes, nat)>)
    ensures r.Some? <==> at + len <= |buf|
    ensures r.Some? ==> r.value.0 == buf[at..at + len] && r.value.1 == at + len
  {
    if at + len <= |buf| then Some((buf[at..at + len], at + len)) else None
  }

  function TakeU32(buf: Bytes, at: nat): (r: Option<(nat, nat)>)
    ensures r.Some? <==> at + 4 <= |buf|
    ensures r.Some? ==> r.value.0 == FromLe(buf[at..at + 4]) < U32_LIMIT && r.value.1 == at + 4
  {
    match Take(buf, at, 4)
    case None => None
    case Some((bytes, next)) => FromLeU32(bytes); Some((FromLe(bytes), next))
  }

  // ----- Records -----

  datatype Record = Record(op: Op, key: Key, value: Bytes, len: nat)

  function EncodeRecord(op: Op, key: Key, value: Bytes): (out: Bytes)
    ensures |out| == RecordLen(key, value)
  {
    [OpByte(op), key.col] + ToLe(|key.name|, 4) + key.name + ToLe(|value|, 4) + value
  }

  function RecordLen(key: Key, value: Bytes): nat {
    10 + |key.name| + |value|
  }

  predicate Fits(key: Key, value: Bytes) {
    |key.name| < U32_LIMIT && |value| < U32_LIMIT
  }

  /** Ok(None) is a buffer that ends inside its first record. */
  function DecodeRecord(buf: Bytes): (r: Result<Option<Record>, Error>)
    ensures r.Ok? && r.value.Some? ==> 10 <= r.value.value.len <= |buf|
  {
    if buf == [] then Ok(None)
    else match OpFromByte(buf[0])
      case None => Err(UnknownOp(buf[0]))
      case Some(op) =>
        match TakeU32(buf, 2)
        case None => Ok(None)
        case Some((keyLen, at)) =>
          match Take(buf, at, keyLen)
          case None => Ok(None)
          case Some((name, at)) =>
            match TakeU32(buf, at)
            case None => Ok(None)
            case Some((valLen, at)) =>
              match Take(buf, at, valLen)
              case None => Ok(None)
              case Some((value, at)) => Ok(Some(Record(op, Key(buf[1], name), value, at)))
  }

  /** `b` starts with this record: where each of its fields lies. */
  ghost predicate StartsWith(b: Bytes, op: Op, key: Key, value: Bytes) {
    var n, v := |key.name|, |value|;
    && |b| >= 10 + n + v
    && b[0] == OpByte(op) && b[1] == key.col
    && b[2..6] == ToLe(n, 4) && b[6..6 + n] == key.name
    && b[6 + n..10 + n] == ToLe(v, 4) && b[10 + n..10 + n + v] == value
  }

  lemma RecordFields(op: Op, key: Key, value: Bytes, rest: Bytes)
    ensures StartsWith(EncodeRecord(op, key, value) + rest, op, key, value)
  {
    hide ToLe;
    var b := EncodeRecord(op, key, value) + rest;
    var head, nLen, vLen := [OpByte(op), key.col], ToLe(|key.name|, 4), ToLe(|value|, 4);
    var upToName := head + nLen + key.name;
    assert b == head + nLen + (key.name + vLen + value + rest);
    Middle(head, nLen, key.name + vLen + value + rest);
    assert b == (head + nLen) + key.name + (vLen + value + rest);
    Middle(head + nLen, key.name, vLen + value + rest);
    assert b == upToName + vLen + (value + rest);
    Middle(upToName, vLen, value + rest);
    assert b == (upToName + vLen) + value + rest;
    Middle(upToName + vLen, value, rest);
  }

  lemma DecodeStart(b: Bytes, op: Op, key: Key, value: Bytes)
    requires StartsWith(b, op, key, value) && Fits(key, value)
    ensures DecodeRecord(b) == Ok(Some(Record(op, key, value, RecordLen(key, value))))
  {
    hide ToLe, FromLe;
    U32RoundTrip(|key.name|);
    U32RoundTrip(|value|);
    assert TakeU32(b, 2) == Some((|key.name|, 6));
    assert TakeU32(b, 6 + |key.name|) == Some((|value|, 10 + |key.name|));
  }

  lemma RecordRoundTrip(op: Op, key: Key, value: Bytes, rest: Bytes)
    requires Fits(key, value)
    ensures DecodeRecord(EncodeRecord(op, key, value) + rest)
         == Ok(Some(Record(op, key, value, RecordLen(key, value))))
  {
    RecordFields(op, key, value, rest);
    DecodeStart(EncodeRecord(op, key, value) + rest, op, key, value);
  }

  /** The `as u32` casts are the only thing in the way: a record comes back iff both lengths fit. */
  lemma RecordRoundTripIff(op: Op, key: Key, value: Bytes, rest: Bytes)
    ensures DecodeRecord(EncodeRecord(op, key, value) + rest)
         == Ok(Some(Record(op, key, value, RecordLen(key, value))))
         <==> Fits(key, value)
  {
    if Fits(key, value) {
      RecordRoundTrip(op, key, value, rest);
    } else {
      RecordFields(op, key, value, rest);
      U32RoundTrip(|key.name|);
    }
  }

  lemma DecodeShort(b: Bytes, keyLen: nat, valLen: nat)
    requires b != [] ==> OpFromByte(b[0]).Some?
    requires |b| >= 6 ==> FromLe(b[2..6]) == keyLen
    requires |b| >= 10 + keyLen ==> FromLe(b[6 + keyLen..10 + keyLen]) == valLen
    requires |b| < 10 + keyLen + valLen
    ensures DecodeRecord(b) == Ok(None)
  {
  }

  /** A record torn anywhere before its last byte reads as "not there yet", never as an error. */
  lemma TornRecord(op: Op, key: Key, value: Bytes, cut: nat)
    requires Fits(key, value) && cut < RecordLen(key, value)
    ensures DecodeRecord(EncodeRecord(op, key, value)[..cut]) == Ok(None)
  {
    hide ToLe, FromLe;
    var whole := EncodeRecord(op, key, value);
    var torn, n := whole[..cut], |key.name|;
    RecordFields(op, key, value, []);
    assert whole + [] == whole;
    U32RoundTrip(n);
    U32RoundTrip(|value|);
    assert cut >= 6 ==> torn[2..6] == whole[2..6];
    assert cut >= 10 + n ==> torn[6 + n..10 + n] == whole[6 + n..10 + n];
    DecodeShort(torn, n, |value|);
  }

  /** Bytes after a decoded record, or after an unknown op byte, do not change the verdict. */
  lemma DecodeExtends(buf: Bytes, more: Bytes)
    requires DecodeRecord(buf) != Ok(None)
    ensures DecodeRecord(buf + more) == DecodeRecord(buf)
  {
    var b := buf + more;
    if OpFromByte(buf[0]).Some? {
      assert b[2..6] == buf[2..6];
      var n := FromLe(buf[2..6]);
      assert b[6..6 + n] == buf[6..6 + n];
      assert b[6 + n..10 + n] == buf[6 + n..10 + n];
      var v := FromLe(buf[6 + n..10 + n]);
      assert b[10 + n..10 + n + v] == buf[10 + n..10 + n + v];
    }
  }

  // ----- Index snapshots -----

  datatype Entry = Entry(key: Key, offset: u64)

  function EncodeEntry(e: Entry): (out: Bytes)
    ensures |out| == 13 + |e.key.name|
  {
    [e.key.col] + ToLe(|e.key.name|, 4) + e.key.name + ToLe(e.offset, 8)
  }

  function EncodeEntries(entries: seq<Entry>): Bytes {
    if entries == [] then [] else EncodeEntry(entries[0]) + EncodeEntries(entries[1..])
  }

  function IndexBytes(entries: seq<Entry>): (out: Bytes)
    ensures |out| >= 4
  {
    ToLe(|entries|, 4) + EncodeEntries(entries)
  }

  lemma {:induction false} EncodeEntriesSnoc(entries: seq<Entry>, e: Entry)
    ensures EncodeEntries(entries + [e]) == EncodeEntries(entries) + EncodeEntry(e)
  {
    if entries != [] {
      EncodeEntriesSnoc(entries[1..], e);
      assert (entries + [e])[1..] == entries[1..] + [e];
    } else {
      assert [e][1..] == [];
    }
  }

  method EncodeIndex(entries: seq<Entry>) returns (out: Bytes)
    ensures out == IndexBytes(entries)
  {
    hide ToLe, EncodeEntry;
    out := ToLe(|entries|, 4);
    for i := 0 to |entries|
      invariant out == ToLe(|entries|, 4) + EncodeEntries(entries[..i])
    {
      EncodeEntriesSnoc(entries[..i], entries[i]);
      assert entries[..i + 1] == entries[..i] + [entries[i]];
      out := out + EncodeEntry(entries[i]);
    }
    assert entries[..|entries|] == entries;
  }

  function TakeEntry(buf: Bytes, at: nat): (r: Option<(Entry, nat)>)
    ensures r.Some? ==> at + 13 <= r.value.1 <= |buf|
  {
    match Take(buf, at, 1)
    case None => None
    case Some((col, at)) =>
      match TakeU32(buf, at)
      case None => None
      case Some((keyLen, at)) =>
        match Take(buf, at, keyLen)
        case None => None
        case Some((name, at)) =>
          match Take(buf, at, 8)
          case None => None
          case Some((offset, at)) =>
            FromLeU64(offset);
            Some((Entry(Key(col[0], name), FromLe(offset)), at))
  }

  function TakeEntries(buf: Bytes, at: nat, count: nat): (r: Option<seq<Entry>>)
    ensures r.Some? ==> |r.value| == count
    decreases count
  {
    if count == 0 then Some([])
    else match TakeEntry(buf, at)
      case None => None
      case Some((e, at)) =>
        match TakeEntries(buf, at, count - 1)
        case None => None
        case Some(rest) => Some([e] + rest)
  }

  function DecodeIndex(buf: Bytes): Option<seq<Entry>> {
    match TakeU32(buf, 0)
    case None => None
    case Some((count, at)) => TakeEntries(buf, at, count)
  }

  /** The loop of `decode_index`: a cursor, a counter, and an early return on truncation. */
  method DecodeIndexLoop(buf: Bytes) returns (r: Option<seq<Entry>>)
    ensures r == DecodeIndex(buf)
  {
    var head := TakeU32(buf, 0);
    if head.None? {
      return None;
    }
    var (count, at) := head.value;
    var out: seq<Entry> := [];
    ghost var start := at;
    assert forall rest: seq<Entry> :: [] + rest == rest;
    for i := 0 to count
      invariant |out| == i
      invariant TakeEntries(buf, start, count)
             == match TakeEntries(buf, at, count - i) case None => None case Some(rest) => Some(out + rest)
    {
      var next := TakeEntry(buf, at);
      if next.None? {
        return None;
      }
      ghost var before := out;
      out := out + [next.value.0];
      at := next.value.1;
      assert forall rest: seq<Entry> :: before + ([next.value.0] + rest) == out + rest;
    }
    assert out + [] == out;
    r := Some(out);
  }

  lemma EntryRoundTrip(before: Bytes, e: Entry, after: Bytes)
    requires |e.key.name| < U32_LIMIT
    ensures TakeEntry(before + EncodeEntry(e) + after, |before|)
         == Some((e, |before| + |EncodeEntry(e)|))
  {
    hide ToLe, FromLe;
    var b := before + EncodeEntry(e) + after;
    var at, n := |before|, |e.key.name|;
    assert b[at..at + 1] == [e.key.col];
    assert b[at + 1..at + 5] == ToLe(n, 4);
    assert b[at + 5..at + 5 + n] == e.key.name;
    assert b[at + 5 + n..at + 13 + n] == ToLe(e.offset, 8);
    U32RoundTrip(n);
    U64RoundTrip(e.offset);
  }

  lemma Regroup(a: Bytes, b: Bytes, c: Bytes, d: Bytes)
    ensures a + (b + c) + d == a + b + (c + d) == (a + b) + c + d
  {
  }

  predicate EntriesFit(entries: seq<Entry>) {
    forall e :: e in entries ==> |e.key.name| < U32_LIMIT
  }

  lemma {:induction false} EntriesRoundTrip(before: Bytes, entries: seq<Entry>, after: Bytes)
    requires EntriesFit(entries)
    ensures TakeEntries(before + EncodeEntries(entries) + after, |before|, |entries|) == Some(entries)
    decreases |entries|
  {
    hide ToLe, FromLe, EncodeEntry, TakeEntry;
    if entries != [] {
      var e, rest := entries[0], entries[1..];
      var b := before + EncodeEntries(entries) + after;
      assert b == before + EncodeEntry(e) + (EncodeEntries(rest) + after) by {
        assert EncodeEntries(entries) == EncodeEntry(e) + EncodeEntries(rest);
        Regroup(before, EncodeEntry(e), EncodeEntries(rest), after);
      }
      EntryRoundTrip(before, e, EncodeEntries(rest) + after);
      assert b == (before + EncodeEntry(e)) + EncodeEntries(rest) + after by {
        Regroup(before, EncodeEntry(e), EncodeEntries(rest), after);
      }
      EntriesRoundTrip(before + EncodeEntry(e), rest, after);
      assert entries == [e] + rest;
    }
  }

  /** A snapshot decodes to the entries it was taken from, whatever bytes follow it. */
  lemma IndexRoundTrip(entries: seq<Entry>, after: Bytes)
    requires |entries| < U32_LIMIT && EntriesFit(entries)
    ensures DecodeIndex(IndexBytes(entries) + after) == Some(entries)
  {
    hide ToLe, FromLe;
    var b := IndexBytes(entries) + after;
    assert b[0..4] == ToLe(|entries|, 4);
    U32RoundTrip(|entries|);
    EntriesRoundTrip(ToLe(|entries|, 4), entries, after);
    assert b == ToLe(|entries|, 4) + EncodeEntries(entries) + after;
  }
}
