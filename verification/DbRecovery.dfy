/**
 * Opening a file again: what was appended replays to the index that was resident, a torn tail
 * costs the torn record only, and the two places where the bytes left in the file defeat that.
 */
module DbRecovery {
  import opened Wrappers
  import opened Bytes
  import opened Order
  import opened Format
  import opened DbState
  import opened DbMeaning

  /** Opening the file rebuilds this very index and append position. */
  ghost predicate Reopens(s: Db) {
    exists dead: nat :: OpenFile(s.file) == Ok(s.(dead := dead))
  }

  /** The header decodes and names no snapshot, or one lying inside the file. */
  ghost predicate HeaderInRange(file: Bytes) {
    && |file| >= HEADER_LEN
    && DecodeHeader(file[..HEADER_LEN]).Ok?
    && var h := DecodeHeader(file[..HEADER_LEN]).value;
       h.indexLen == 0 || h.indexAt + h.indexLen <= |file|
  }

  /** Nothing lies past `end`, and the file opens to this state, with this much charged as dead. */
  ghost predicate Clean(s: Db, dead: nat) {
    s.end == |s.file| && HeaderInRange(s.file) && OpenFile(s.file) == Ok(s.(dead := dead))
  }

  /** What lies past `end`: bytes of a write that a crash cut short, or what is left of them. */
  function Residue(s: Db): Bytes
    requires s.end <= |s.file|
  {
    s.file[s.end..]
  }

  function Whole(s: Db): Db
    requires s.end <= |s.file|
  {
    s.(file := s.file[..s.end])
  }

  /** Clean up to `end`, whatever lies past it. */
  ghost predicate CleanPrefix(s: Db, dead: nat) {
    s.end <= |s.file| && Clean(Whole(s), dead)
  }

  /** What a write of `n` bytes leaves of a residue. */
  function Behind(residue: Bytes, n: nat): Bytes {
    if n < |residue| then residue[n..] else []
  }

  // ----- Replay over an extended file -----

  lemma StartExtends(file: Bytes, more: Bytes)
    requires HeaderInRange(file)
    ensures (file + more)[..HEADER_LEN] == file[..HEADER_LEN]
    ensures var h := DecodeHeader(file[..HEADER_LEN]).value; Start(file + more, h) == Start(file, h)
    ensures HeaderInRange(file + more)
  {
    var h := DecodeHeader(file[..HEADER_LEN]).value;
    var at: nat, len: nat := h.indexAt, h.indexLen;
    if len > 0 {
      assert (file + more)[at..at + len] == file[at..at + len];
    }
  }

  /** A replay that ends at the end of the file goes on from there when the file grows. */
  lemma {:induction false} ReplayExtends(file: Bytes, more: Bytes, at: nat, index: map<Key, nat>, dead: nat)
    requires at <= |file|
    requires Replay(file, at, index, dead).Ok? && Replay(file, at, index, dead).value.end == |file|
    ensures var s := Replay(file, at, index, dead).value;
            Replay(file + more, at, index, dead) == Replay(file + more, |file|, s.index, s.dead)
    decreases |file| - at
  {
    hide DecodeRecord;
    match DecodeRecord(file[at..])
    case Err(_) =>
    case Ok(None) =>
    case Ok(Some(r)) =>
      assert (file + more)[at..] == file[at..] + more;
      DecodeExtends(file[at..], more);
      ReplayExtends(file, more, at + r.len, Apply(index, r, at), if r.key in index then dead + r.len else dead);
  }

  /** Opening a clean file with more bytes after it is replaying those bytes onto its index. */
  lemma OpenExtends(s: Db, dead: nat, more: Bytes)
    requires Clean(s, dead)
    ensures OpenFile(s.file + more) == Replay(s.file + more, s.end, s.index, dead)
    ensures (s.file + more)[s.end..] == more
  {
    StartExtends(s.file, more);
    var (index, from) := Start(s.file, DecodeHeader(s.file[..HEADER_LEN]).value);
    ReplayExtends(s.file, more, from, index, 0);
  }

  // ----- New files and unusable snapshots -----

  /** A file shorter than a header, the absent one included, opens as a new store: a header and nothing else. */
  lemma ShortFileIsNew(file: Bytes)
    requires |file| < HEADER_LEN
    ensures OpenFile(file) == Ok(Db(NewFile(), map[], 32, 0)) == Ok(FRESH)
  {
    NewFileIs();
  }

  /** A file with a header is refused for it exactly when that header is, and with that error. */
  lemma HeaderRefusesFile(file: Bytes)
    requires |file| >= HEADER_LEN && DecodeHeader(file).Err?
    ensures OpenFile(file) == Err(DecodeHeader(file).error)
  {
    assert file[..HEADER_LEN][0..6] == file[0..6];
    assert file[..HEADER_LEN][6..10] == file[6..10];
    assert file[..HEADER_LEN][10..12] == file[10..12];
    hide FromLe, Start, Replay;
  }

  /** The header names a snapshot that is cut off by the end of the file, or does not decode. */
  predicate Unusable(file: Bytes, h: Header) {
    h.indexLen > 0
    && (h.indexAt + h.indexLen > |file| || DecodeIndex(file[h.indexAt..h.indexAt + h.indexLen]) == None)
  }

  /** Replay looks at what it has yet to read, and at nothing before it. */
  lemma {:induction false} ReplaySameTail(a: Bytes, b: Bytes, at: nat, index: map<Key, nat>, dead: nat)
    requires at <= |a| == |b| && a[at..] == b[at..]
    ensures Replay(a, at, index, dead).Ok? <==> Replay(b, at, index, dead).Ok?
    ensures Replay(a, at, index, dead).Ok? ==>
              Replay(a, at, index, dead).value == Replay(b, at, index, dead).value.(file := a)
    ensures Replay(a, at, index, dead).Err? ==> Replay(a, at, index, dead).error == Replay(b, at, index, dead).error
    decreases |a| - at
  {
    hide DecodeRecord;
    match DecodeRecord(a[at..])
    case Err(_) =>
    case Ok(None) =>
    case Ok(Some(r)) =>
      assert a[at + r.len..] == a[at..][r.len..] == b[at..][r.len..] == b[at + r.len..];
      ReplaySameTail(a, b, at + r.len, Apply(index, r, at), if r.key in index then dead + r.len else dead);
  }

  /**
   * An unusable snapshot costs a replay of the whole log and nothing else: the file opens as it would
   * under a header that names none.
   */
  lemma UnusableSnapshotReplays(h: Header, log: Bytes)
    requires Unusable(EncodeHeader(h) + log, h)
    ensures var named, plain := OpenFile(EncodeHeader(h) + log), OpenFile(NewFile() + log);
            match plain
            case Ok(s) => named == Ok(s.(file := EncodeHeader(h) + log))
            case Err(e) => named == Err(e)
  {
    var a, b := EncodeHeader(h) + log, NewFile() + log;
    NewFileIs();
    HeaderRoundTrip(h, []);
    HeaderRoundTrip(NO_SNAPSHOT, []);
    assert EncodeHeader(h) + [] == EncodeHeader(h) == a[..HEADER_LEN];
    assert NewFile() + [] == NewFile() == b[..HEADER_LEN];
    assert a[HEADER_LEN..] == log == b[HEADER_LEN..];
    hide EncodeHeader, DecodeHeader, DecodeIndex, FromEntries, Replay;
    ReplaySameTail(a, b, HEADER_LEN, map[], 0);
  }

  // ----- Residue -----

  lemma {:induction false} ReplayAdvances(file: Bytes, at: nat, index: map<Key, nat>, dead: nat)
    requires at <= |file| && DecodeRecord(file[at..]) != Ok(None)
    ensures Replay(file, at, index, dead).Ok? ==> Replay(file, at, index, dead).value.end > at
  {
  }

  /**
   * With bytes left past `end` (a fragment a crash tore, partly overwritten since), the file opens
   * to this state if and only if those bytes do not start with a whole record or an unknown op.
   */
  lemma ResidueReopensIff(s: Db, dead: nat)
    requires CleanPrefix(s, dead)
    ensures Reopens(s) <==> DecodeRecord(Residue(s)) == Ok(None)
    ensures Reopens(s) ==> OpenFile(s.file) == Ok(s.(dead := dead))
  {
    var w, residue := Whole(s), Residue(s);
    assert w.file + residue == s.file;
    OpenExtends(w, dead, residue);
    if DecodeRecord(residue) != Ok(None) {
      ReplayAdvances(s.file, s.end, s.index, dead);
    }
  }

  lemma CleanHasNoResidue(s: Db, dead: nat)
    requires Clean(s, dead)
    ensures CleanPrefix(s, dead) && Residue(s) == [] && Reopens(s)
  {
    assert s.file[..s.end] == s.file;
    assert Whole(s) == s;
  }

  lemma NoResidueIsClean(s: Db, dead: nat)
    requires CleanPrefix(s, dead) && Residue(s) == []
    ensures Clean(s, dead)
  {
    assert s.file[..s.end] == s.file;
    assert Whole(s) == s;
  }

  /** A write at `end` goes behind the clean prefix and over the front of the residue. */
  lemma WrittenOver(s: Db, bytes: Bytes)
    requires s.end <= |s.file|
    ensures var file := WriteAt(s.file, s.end, bytes);
            && file[..s.end + |bytes|] == s.file[..s.end] + bytes
            && file[s.end + |bytes|..] == Behind(Residue(s), |bytes|)
            && file[..s.end] == s.file[..s.end]
            && file[s.end..] == bytes + Behind(Residue(s), |bytes|)
  {
  }

  // ----- Crashes -----

  /** A write at `end` that a crash cut short after these bytes. */
  function Torn(s: Db, written: Bytes): (r: Db)
    requires s.end <= |s.file|
    ensures r.end <= |r.file|
  {
    s.(file := WriteAt(s.file, s.end, written))
  }

  /**
   * A crash inside a write leaves the state before it to be reopened if and only if what then lies
   * past `end`, the bytes written and what they left of an older residue, does not start with a
   * whole record or an unknown op.
   */
  lemma CrashRecoversIff(s: Db, m: map<Key, Bytes>, dead: nat, written: Bytes)
    requires CleanPrefix(s, dead) && Means(s, m)
    ensures var t := Torn(s, written);
            && CleanPrefix(t, dead) && Means(t, m) && Means(t.(dead := dead), m)
            && Residue(t) == written + Behind(Residue(s), |written|)
            && (Reopens(t) <==> DecodeRecord(Residue(t)) == Ok(None))
            && (Reopens(t) ==> OpenFile(t.file) == Ok(t.(dead := dead)))
  {
    hide EncodeRecord, DecodeRecord, OpenFile, HeaderInRange;
    var t := Torn(s, written);
    WrittenOver(s, written);
    assert Whole(t) == Whole(s);
    ResidueReopensIff(t, dead);
    MeansElsewhere(s, m, t.file, dead);
    assert t.(dead := dead) == s.(file := t.file, dead := dead);
  }

  /** An append is all or nothing: torn anywhere over a file with nothing past `end`, it is as if never begun. */
  lemma TornAppendRecovers(s: Db, m: map<Key, Bytes>, dead: nat, op: Op, key: Key, value: Bytes, cut: nat)
    requires CleanPrefix(s, dead) && Residue(s) == [] && Means(s, m)
    requires Fits(key, value) && cut < RecordLen(key, value)
    ensures var t := Torn(s, EncodeRecord(op, key, value)[..cut]);
            OpenFile(t.file) == Ok(t.(dead := dead)) && Means(t.(dead := dead), m)
  {
    hide EncodeRecord, DecodeRecord, OpenFile, CleanPrefix, Residue;
    var torn := EncodeRecord(op, key, value)[..cut];
    TornRecord(op, key, value, cut);
    CrashRecoversIff(s, m, dead, torn);
    assert torn + [] == torn;
  }

  /** The meaning lies before `end`. */
  lemma MeansElsewhere(s: Db, m: map<Key, Bytes>, file: Bytes, dead: nat)
    requires Means(s, m) && s.end <= |file| && file[..s.end] == s.file[..s.end]
    ensures Means(s.(file := file), m) && Means(s.(file := file, dead := dead), m)
  {
    hide EncodeRecord;
    forall k | k in m
      ensures Holds(file, s.end, s.index[k], EncodeRecord(Put, k, m[k]))
    {
      var n := s.index[k] + |EncodeRecord(Put, k, m[k])|;
      SubSlice(file, 0, s.end, s.index[k], n);
      SubSlice(s.file, 0, s.end, s.index[k], n);
    }
  }

  lemma ReplayLast(file: Bytes, at: nat, index: map<Key, nat>, dead: nat, r: Record)
    requires at + r.len == |file| && DecodeRecord(file[at..]) == Ok(Some(r))
    ensures Replay(file, at, index, dead)
         == Ok(Db(file, Apply(index, r, at), |file|, if r.key in index then dead + r.len else dead))
  {
    assert file[|file|..] == [];
  }

  /** What replay charges for a record: its own length, when it supersedes or deletes something. */
  function ReplayCharge(s: Db, key: Key, value: Bytes): nat {
    if key in s.index then RecordLen(key, value) else 0
  }

  /** The whole record down: the file opens to the state after it. */
  lemma AppendReopens(s: Db, dead: nat, op: Op, key: Key, value: Bytes, s': Db)
    requires Clean(s, dead) && Fits(key, value)
    requires s'.file == s.file + EncodeRecord(op, key, value) && s'.end == |s'.file|
    requires s'.index == match op case Put => s.index[key := s.end] case Delete => s.index - {key}
    ensures Clean(s', dead + ReplayCharge(s, key, value))
  {
    hide DecodeRecord, EncodeRecord, OpenFile, Replay;
    var rec := EncodeRecord(op, key, value);
    OpenExtends(s, dead, rec);
    assert rec + [] == rec;
    RecordRoundTrip(op, key, value, []);
    ReplayLast(s'.file, s.end, s.index, dead, Record(op, key, value, |rec|));
    StartExtends(s.file, rec);
  }

  lemma PutRecordClean(s: Db, dead: nat, key: Key, value: Bytes)
    requires CleanPrefix(s, dead) && Fits(key, value)
    ensures CleanPrefix(PutRecord(s, key, value), dead + ReplayCharge(s, key, value))
    ensures Residue(PutRecord(s, key, value)) == Behind(Residue(s), RecordLen(key, value))
  {
    hide Clean, EncodeRecord;
    var rec := EncodeRecord(Put, key, value);
    WrittenOver(s, rec);
    AppendReopens(Whole(s), dead, Put, key, value, Whole(PutRecord(s, key, value)));
  }

  lemma DeleteRecordClean(s: Db, dead: nat, key: Key)
    requires CleanPrefix(s, dead) && key in s.index && |key.name| < U32_LIMIT
    ensures CleanPrefix(DeleteRecord(s, key), dead + RecordLen(key, []))
    ensures Residue(DeleteRecord(s, key)) == Behind(Residue(s), RecordLen(key, []))
  {
    hide Clean, EncodeRecord;
    var rec := EncodeRecord(Delete, key, []);
    WrittenOver(s, rec);
    AppendReopens(Whole(s), dead, Delete, key, [], Whole(DeleteRecord(s, key)));
  }

  /**
   * A put over a residue leaves a file that reopens if and only if it covers the residue, or what
   * it leaves of it does not start with a whole record or an unknown op.
   */
  lemma PutOverResidueIff(s: Db, dead: nat, key: Key, value: Bytes)
    requires CleanPrefix(s, dead) && Fits(key, value)
    ensures Reopens(PutRecord(s, key, value))
       <==> |Residue(s)| <= RecordLen(key, value)
            || DecodeRecord(Residue(s)[RecordLen(key, value)..]) == Ok(None)
    ensures |Residue(s)| <= RecordLen(key, value) ==> Residue(PutRecord(s, key, value)) == []
  {
    NothingDecodes();
    hide DecodeRecord, PutRecord, Clean, EncodeRecord, OpenFile, Residue, Reopens;
    PutRecordClean(s, dead, key, value);
    ResidueReopensIff(PutRecord(s, key, value), dead + ReplayCharge(s, key, value));
  }

  lemma NothingDecodes()
    ensures DecodeRecord([]) == Ok(None)
  {
  }

  // ----- Snapshots -----

  lemma {:induction false} FromEntriesIs(index: map<Key, nat>, keys: seq<Key>)
    requires forall k :: k in keys ==> k in index && index[k] < U64_LIMIT
    ensures var loaded := FromEntries(EntriesFor(index, keys));
            forall k :: (k in loaded <==> k in keys) && (k in keys ==> loaded[k] == index[k])
    decreases |keys|
  {
    if keys != [] {
      var last := |keys| - 1;
      var k, before, entries := keys[last], keys[..last], EntriesFor(index, keys);
      assert keys == before + [k];
      assert entries[..last] == EntriesFor(index, before);
      assert entries[last] == Entry(k, index[k]);
      FromEntriesIs(index, before);
    }
  }

  /** The conditions the casts of a snapshot put on a state: a 32-bit count, 64-bit offsets. */
  ghost predicate Snapshotable(s: Db) {
    && |s.index| < U32_LIMIT && s.end + |SnapshotBytes(s.index)| < U64_LIMIT
    && forall k :: k in s.index ==> |k.name| < U32_LIMIT && s.index[k] < U64_LIMIT
  }

  lemma {:induction false} SortedLength(keys: seq<Key>, s: set<Key>)
    requires Lists(keys, s)
    ensures |keys| == |s|
  {
    SameEmptiness(keys, s);
    if keys != [] {
      assert keys[0] in keys;
      DropFirst(keys, s);
      SortedLength(keys[1..], s - {keys[0]});
    }
  }

  lemma SnapshotDecodes(s: Db)
    requires Snapshotable(s)
    ensures DecodeIndex(SnapshotBytes(s.index)).Some?
    ensures FromEntries(DecodeIndex(SnapshotBytes(s.index)).value) == s.index
  {
    hide ToLe, FromLe, EncodeEntries, DecodeIndex, FromEntries, TakeEntries;
    var keys := Sorted(s.index.Keys);
    var entries := EntriesFor(s.index, keys);
    SortedLength(keys, s.index.Keys);
    assert |s.index.Keys| == |s.index|;
    assert EntriesFit(entries) by {
      forall e | e in entries
        ensures |e.key.name| < U32_LIMIT
      {
        var i :| 0 <= i < |entries| && entries[i] == e;
        assert keys[i] in keys;
      }
    }
    IndexRoundTrip(entries, []);
    assert IndexBytes(entries) + [] == IndexBytes(entries);
    FromEntriesIs(s.index, keys);
  }

  lemma HeaderRewrite(file: Bytes, bytes: Bytes, header: Bytes, rest: Bytes)
    requires |file| >= HEADER_LEN == |header|
    ensures var all := WriteAt(file + bytes + rest, 0, header);
            && all[..HEADER_LEN] == header
            && all[..|file| + |bytes|][..HEADER_LEN] == header
            && all[..|file| + |bytes|][|file|..] == bytes
            && all[|file| + |bytes|..] == rest
  {
    var all, whole := WriteAt(file + bytes + rest, 0, header), header + file[HEADER_LEN..] + bytes;
    assert (file + bytes + rest)[HEADER_LEN..] == file[HEADER_LEN..] + bytes + rest;
    assert all == header + (file[HEADER_LEN..] + bytes + rest) == whole + rest;
    assert |whole| == |file| + |bytes| && all[..|whole|] == whole;
  }

  /** A snapshot makes the file open to the very state it was taken of, without replaying. */
  lemma SnapshotClean(s: Db, o: Options)
    requires HEADER_LEN <= s.end <= |s.file| && Snapshotable(s) && o.snapshot
    ensures CleanPrefix(Snapshotted(s, o), 0)
    ensures Residue(Snapshotted(s, o)) == Behind(Residue(s), |SnapshotBytes(s.index)|)
  {
    hide ToLe, FromLe, OpenFile, Start, Replay;
    hide EncodeHeader, DecodeHeader, SnapshotBytes, IndexBytes, DecodeIndex;
    var bytes := SnapshotBytes(s.index);
    var s' := Snapshotted(s, o);
    var h := Header(s.end, |bytes|);
    WrittenOver(s, bytes);
    var before, rest := s.file[..s.end], Behind(Residue(s), |bytes|);
    assert WriteAt(s.file, s.end, bytes) == before + bytes + rest;
    HeaderRewrite(before, bytes, EncodeHeader(h), rest);
    HeaderRoundTrip(h, []);
    assert EncodeHeader(h) + [] == EncodeHeader(h);
    SnapshotDecodes(s);
    OpensAtSnapshot(Whole(s').file, h);
  }

  /** A header that names a snapshot at the very end: its index, and nothing to replay. */
  lemma OpensAtSnapshot(file: Bytes, h: Header)
    requires |file| >= HEADER_LEN && DecodeHeader(file[..HEADER_LEN]) == Ok(h)
    requires h.indexLen > 0 && h.indexAt + h.indexLen == |file| && DecodeIndex(file[h.indexAt..]).Some?
    ensures OpenFile(file) == Ok(Db(file, FromEntries(DecodeIndex(file[h.indexAt..]).value), |file|, 0))
  {
    hide ToLe, FromLe, DecodeHeader, DecodeIndex, FromEntries;
    assert file[h.indexAt..h.indexAt + h.indexLen] == file[h.indexAt..];
    assert file[|file|..] == [];
  }

  // ----- Compaction -----

  lemma FreshClean()
    ensures Clean(FRESH, 0)
  {
    var file := EncodeHeader(NO_SNAPSHOT);
    HeaderRoundTrip(NO_SNAPSHOT, []);
    assert file + [] == file == file[..HEADER_LEN];
    assert file[HEADER_LEN..] == [];
    assert OpenFile(file) == Ok(FRESH.(dead := 0));
  }

  lemma LogPutClean(m: map<Key, Bytes>, before: seq<Key>, k: Key)
    requires forall j :: j in before ==> j in m
    requires k in m && Fits(k, m[k]) && k !in LogIndex(m, before) && Clean(LogDb(m, before), 0)
    ensures Clean(PutRecord(LogDb(m, before), k, m[k]), 0)
  {
    hide Clean, PutRecord;
    PutClean(LogDb(m, before), 0, k, m[k]);
  }

  lemma {:induction false} LogClean(m: map<Key, Bytes>, keys: seq<Key>)
    requires Ascending(keys) && forall k :: k in keys ==> k in m && Fits(k, m[k])
    ensures Clean(LogDb(m, keys), 0)
    decreases |keys|
  {
    hide EncodeHeader, EncodeRecord, Clean, LogDb, PutRecord, Log, LogIndex;
    if keys == [] {
      FreshClean();
      LogOfNone(m);
    } else {
      var last := |keys| - 1;
      var k, before := keys[last], keys[..last];
      LogClean(m, before);
      LogIndexKeys(m, before);
      LastIsNew(keys);
      LogPutClean(m, before, k);
      LogStep(m, before, k);
      assert keys == before + [k];
    }
  }

  /** Compaction leaves a clean file behind whatever the old file ended with. */
  lemma CompactClean(s: Db, m: map<Key, Bytes>, o: Options)
    requires Means(s, m) && |m| < U32_LIMIT && Compacted(s, o).end < U64_LIMIT
    ensures Clean(LogDb(m, Sorted(m.Keys)), 0)
    ensures CleanPrefix(Compacted(s, o), 0) && Residue(Compacted(s, o)) == []
  {
    var log := LogDb(m, Sorted(m.Keys));
    CompactMeans(s, m, o);
    LogClean(m, Sorted(m.Keys));
    CleanHasNoResidue(log, 0);
    if o.snapshot {
      assert Snapshotable(log) by {
        assert log.index.Keys == m.Keys;
        assert |log.index.Keys| == |m.Keys|;
      }
      SnapshotClean(log, o);
    }
  }

  // ----- Where stale bytes defeat recovery -----

  const SHORT_KEY: Key := Key(0, [])

  /** What a crash leaves of a first put whose value happens to hold an encoded record. */
  function TornCarrier(key: Key, value: Bytes): Bytes {
    FRESH.file + Carrier(key, value)[..|Carrier(key, value)| - 1]
  }

  function Carrier(key: Key, value: Bytes): (out: Bytes)
    ensures |out| == 11 + RecordLen(key, value)
  {
    EncodeRecord(Put, SHORT_KEY, EncodeRecord(Put, key, value) + [0])
  }

  lemma CarrierTail(key: Key, value: Bytes)
    ensures Carrier(key, value)[10..|Carrier(key, value)| - 1] == EncodeRecord(Put, key, value)
  {
    var inner, carrier := EncodeRecord(Put, key, value), Carrier(key, value);
    RecordFields(Put, SHORT_KEY, inner + [0], []);
    assert carrier + [] == carrier;
    assert carrier[10..|carrier| - 1] == (inner + [0])[..|inner|];
  }

  lemma CarrierRecovers(key: Key, value: Bytes)
    requires Fits(key, EncodeRecord(Put, key, value) + [0])
    ensures OpenFile(TornCarrier(key, value)).Ok?
    ensures var s := OpenFile(TornCarrier(key, value)).value;
            s == FRESH.(file := TornCarrier(key, value)) && s.dead == 0 && Means(s, map[])
  {
    hide ToLe, FromLe;
    var torn := Carrier(key, value)[..|Carrier(key, value)| - 1];
    FreshClean();
    TornRecord(Put, SHORT_KEY, EncodeRecord(Put, key, value) + [0], |torn|);
    HeaderRoundTrip(NO_SNAPSHOT, []);
    assert FRESH.file + [] == FRESH.file == TornCarrier(key, value)[..HEADER_LEN];
    assert TornCarrier(key, value)[HEADER_LEN..] == torn;
  }

  /** The short put lands on the fragment's first ten bytes and leaves the inner record behind it. */
  lemma CarrierOverwritten(key: Key, value: Bytes)
    ensures var s := FRESH.(file := TornCarrier(key, value));
            && PutRecord(s, SHORT_KEY, []).file
               == PutRecord(FRESH, SHORT_KEY, []).file + EncodeRecord(Put, key, value)
  {
    var short, inner := EncodeRecord(Put, SHORT_KEY, []), EncodeRecord(Put, key, value);
    var file := TornCarrier(key, value);
    CarrierTail(key, value);
    WriteAtEnd(FRESH.file, short);
    assert file[..HEADER_LEN] == FRESH.file;
    assert file[HEADER_LEN + 10..] == Carrier(key, value)[10..|Carrier(key, value)| - 1];
  }

  /**
   * The fragment is real data: for every key and value there is a crash, one reopen, one short put
   * of an unrelated key, and a second reopen after which `key` is bound although it was never put.
   */
  lemma ResidueResurrects(o: Options, key: Key, value: Bytes)
    requires Fits(key, EncodeRecord(Put, key, value) + [0]) && o.compactAt > 0.0
    ensures OpenFile(TornCarrier(key, value)).Ok?
    ensures var s := OpenFile(TornCarrier(key, value)).value;
            var s' := AfterPut(s, o, SHORT_KEY, []);
            && Means(s, map[]) && Means(s', map[SHORT_KEY := []])
            && OpenFile(s'.file).Ok? && Means(OpenFile(s'.file).value, map[SHORT_KEY := []][key := value])
  {
    assert Fits(key, value) && Fits(SHORT_KEY, []);
    hide *;
    CarrierRecovers(key, value);
    FirstPut(OpenFile(TornCarrier(key, value)).value, o, SHORT_KEY, []);
    CarrierOverwritten(key, value);
    FreshMeansNothing();
    FreshPutClean(SHORT_KEY, []);
    PutRecordMeans(FRESH, map[], SHORT_KEY, []);
    ResidueIsPut(PutRecord(FRESH, SHORT_KEY, []), 0, map[SHORT_KEY := []], key, value);
  }

  lemma FirstPut(s: Db, o: Options, key: Key, value: Bytes)
    requires Means(s, map[]) && s.dead == 0 && Fits(key, value) && o.compactAt > 0.0
    ensures AfterPut(s, o, key, value) == PutRecord(s, key, value)
    ensures Means(PutRecord(s, key, value), map[key := value])
  {
    PutRecordMeans(s, map[], key, value);
    hide Means, PutRecord, Compacted;
    var a := PutRecord(s, key, value);
    assert a.dead as real == 0.0;
    assert !NeedsCompact(a, o);
  }

  lemma PutClean(s: Db, dead: nat, key: Key, value: Bytes)
    requires Clean(s, dead) && Fits(key, value)
    ensures Clean(PutRecord(s, key, value), dead + ReplayCharge(s, key, value))
  {
    hide HeaderInRange, OpenFile, PutRecord, Residue, EncodeRecord;
    CleanHasNoResidue(s, dead);
    PutRecordClean(s, dead, key, value);
    hide Clean;
    NoResidueIsClean(PutRecord(s, key, value), dead + ReplayCharge(s, key, value));
  }

  lemma FreshPutClean(key: Key, value: Bytes)
    requires Fits(key, value)
    ensures Clean(PutRecord(FRESH, key, value), 0)
  {
    FreshClean();
    hide Clean, PutRecord;
    PutClean(FRESH, 0, key, value);
  }

  lemma ResidueIsPut(s: Db, dead: nat, m: map<Key, Bytes>, key: Key, value: Bytes)
    requires Clean(s, dead) && Means(s, m) && Fits(key, value)
    ensures OpenFile(s.file + EncodeRecord(Put, key, value)).Ok?
    ensures Means(OpenFile(s.file + EncodeRecord(Put, key, value)).value, m[key := value])
  {
    WriteAtEnd(s.file, EncodeRecord(Put, key, value));
    PutClean(s, dead, key, value);
    PutRecordMeans(s, m, key, value);
  }

  /**
   * A crash between a snapshot's bytes and the header that names them leaves a file that reopens
   * if and only if what was written does not read as a whole record or start with an unknown op.
   * Replay takes the low byte of the entry count for an op: from 2 up the file opens with that
   * error, and below 2 five bytes are never a record.
   */
  lemma SnapshotCrashReopensIff(s: Db, dead: nat, written: nat)
    requires Clean(s, dead) && 0 < written <= |SnapshotBytes(s.index)|
    ensures var part := SnapshotBytes(s.index)[..written];
            var file := s.file + part;
            && (Reopens(s.(file := file)) <==> DecodeRecord(part) == Ok(None))
            && (|s.index| % 256 >= 2 ==> OpenFile(file) == Err(UnknownOp(|s.index| % 256)))
            && (written < 6 ==> (Reopens(s.(file := file)) <==> |s.index| % 256 < 2))
  {
    hide FromLe, HeaderInRange, OpenFile, SnapshotBytes;
    var part := SnapshotBytes(s.index)[..written];
    OpenExtends(s, dead, part);
    CountByte(s);
    var t := s.(file := s.file + part);
    assert Whole(t) == s by {
      assert t.file[..s.end] == s.file;
    }
    ResidueReopensIff(t, dead);
  }

  lemma CountByte(s: Db)
    ensures SnapshotBytes(s.index)[0] == |s.index| % 256
  {
    SortedLength(Sorted(s.index.Keys), s.index.Keys);
    assert |s.index.Keys| == |s.index|;
  }
}
