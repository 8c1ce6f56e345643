/**
 * The store as a value: the file's bytes, the resident index over them, the append position and
 * the dead-byte count. Each operation of the store is a function from state to state here; the
 * class in CrabDb.dfy runs them step by step, and the modules after it prove what they mean.
 */
module DbState {
  import opened Wrappers
  import opened Bytes
  import opened Order
  import opened Format

  datatype Options = Options(compactAt: real, snapshot: bool)

  datatype Db = Db(file: Bytes, index: map<Key, nat>, end: nat, dead: nat)

  // ----- File access -----

  /** Seek to `at` and write: what was there is overwritten, what lies beyond stays. */
  function WriteAt(file: Bytes, at: nat, bytes: Bytes): (r: Bytes)
    requires at <= |file|
    ensures |r| == if at + |bytes| <= |file| then |file| else at + |bytes|
  {
    file[..at] + bytes + if at + |bytes| <= |file| then file[at + |bytes|..] else []
  }

  /** Two fixed reads and two seeks; a read past the end of the file is the only failure. */
  function ReadValue(file: Bytes, offset: nat): Result<Bytes, Error> {
    if offset + 6 > |file| then Err(UnexpectedEof)
    else
      var at := offset + 6 + FromLe(file[offset + 2..offset + 6]);
      if at + 4 > |file| then Err(UnexpectedEof)
      else
        var len := FromLe(file[at..at + 4]);
        if at + 4 + len > |file| then Err(UnexpectedEof)
        else Ok(file[at + 4..at + 4 + len])
  }

  /** The length of the record at `offset`, or 0 when its lengths cannot be read. */
  function Charge(file: Bytes, offset: nat): nat {
    if offset + 6 > |file| then 0
    else
      var keyLen := FromLe(file[offset + 2..offset + 6]);
      var at := offset + 6 + keyLen;
      if at + 4 > |file| then 0
      else 10 + keyLen + FromLe(file[at..at + 4])
  }

  // ----- Operations -----

  const FRESH: Db := Db(EncodeHeader(NO_SNAPSHOT), map[], HEADER_LEN, 0)

  function Appended(s: Db, op: Op, key: Key, value: Bytes): (r: Db)
    requires s.end <= |s.file|
    ensures r.end <= |r.file|
  {
    s.(file := WriteAt(s.file, s.end, EncodeRecord(op, key, value)), end := s.end + RecordLen(key, value))
  }

  function PutRecord(s: Db, key: Key, value: Bytes): (r: Db)
    requires s.end <= |s.file|
    ensures r.end <= |r.file|
  {
    var a := Appended(s, Put, key, value);
    a.(index := s.index[key := s.end],
       dead := if key in s.index then s.dead + Charge(a.file, s.index[key]) else s.dead)
  }

  function DeleteRecord(s: Db, key: Key): (r: Db)
    requires s.end <= |s.file| && key in s.index
    ensures r.end <= |r.file|
  {
    var a := Appended(s, Delete, key, []);
    a.(index := s.index - {key}, dead := s.dead + Charge(a.file, s.index[key]))
  }

  predicate NeedsCompact(s: Db, o: Options) {
    var live := if s.end >= HEADER_LEN then s.end - HEADER_LEN else 0;
    live > 0 && s.dead as real / live as real >= o.compactAt
  }

  function EntriesFor(index: map<Key, nat>, keys: seq<Key>): (entries: seq<Entry>)
    requires forall k :: k in keys ==> k in index
    ensures |entries| == |keys|
    ensures forall i :: 0 <= i < |keys| ==> entries[i] == Entry(keys[i], index[keys[i]] % U64_LIMIT)
  {
    seq(|keys|, i requires 0 <= i < |keys| => Entry(keys[i], index[keys[i]] % U64_LIMIT))
  }

  ghost function SnapshotBytes(index: map<Key, nat>): (out: Bytes)
    ensures |out| >= 4
  {
    IndexBytes(EntriesFor(index, Sorted(index.Keys)))
  }

  /** Two writes: the index behind the log, then a header naming it. */
  ghost function Snapshotted(s: Db, o: Options): (r: Db)
    requires s.end <= |s.file|
    ensures r.end <= |r.file|
  {
    if !o.snapshot then s
    else
      var bytes := SnapshotBytes(s.index);
      var header := EncodeHeader(Header(s.end % U64_LIMIT, |bytes| % U64_LIMIT));
      s.(file := WriteAt(WriteAt(s.file, s.end, bytes), 0, header), end := s.end + |bytes|)
  }

  datatype Moved = Moved(out: Bytes, index: map<Key, nat>)

  /** The rewritten file after copying `keys` in turn: the loop of `compact`. */
  function Rewritten(file: Bytes, index: map<Key, nat>, keys: seq<Key>): (r: Result<Moved, Error>)
    requires forall k :: k in keys ==> k in index
    ensures r.Ok? ==> |r.value.out| >= HEADER_LEN
  {
    if keys == [] then Ok(Moved(EncodeHeader(NO_SNAPSHOT), map[]))
    else
      var last := |keys| - 1;
      match Rewritten(file, index, keys[..last])
      case Err(e) => Err(e)
      case Ok(moved) =>
        match ReadValue(file, index[keys[last]])
        case Err(e) => Err(e)
        case Ok(value) =>
          Ok(Moved(moved.out + EncodeRecord(Put, keys[last], value), moved.index[keys[last] := |moved.out|]))
  }

  /** A compaction that cannot read a record leaves the store as it was. */
  ghost function Compacted(s: Db, o: Options): (r: Db)
    requires s.end <= |s.file|
    ensures r.end <= |r.file|
  {
    match Rewritten(s.file, s.index, Sorted(s.index.Keys))
    case Err(_) => s
    case Ok(moved) => Snapshotted(Db(moved.out, moved.index, |moved.out|, 0), o)
  }

  ghost function MaybeCompacted(s: Db, o: Options): (r: Db)
    requires s.end <= |s.file|
    ensures r.end <= |r.file|
  {
    if NeedsCompact(s, o) then Compacted(s, o) else s
  }

  ghost function AfterPut(s: Db, o: Options, key: Key, value: Bytes): (r: Db)
    requires s.end <= |s.file|
    ensures r.end <= |r.file|
  {
    MaybeCompacted(PutRecord(s, key, value), o)
  }

  ghost function AfterDelete(s: Db, o: Options, key: Key): (r: Db)
    requires s.end <= |s.file|
    ensures r.end <= |r.file|
  {
    if key in s.index then MaybeCompacted(DeleteRecord(s, key), o) else s
  }

  // ----- Opening -----

  function FromEntries(entries: seq<Entry>): map<Key, nat> {
    if entries == [] then map[]
    else FromEntries(entries[..|entries| - 1])[entries[|entries| - 1].key := entries[|entries| - 1].offset]
  }

  /** The index to start from and where replay begins: the snapshot, or the whole log without one. */
  function Start(file: Bytes, h: Header): (r: (map<Key, nat>, nat))
    requires HEADER_LEN <= |file|
    ensures r.1 <= |file|
  {
    if h.indexLen > 0 && h.indexAt + h.indexLen <= |file| then
      match DecodeIndex(file[h.indexAt..h.indexAt + h.indexLen])
      case Some(entries) => (FromEntries(entries), h.indexAt + h.indexLen)
      case None => (map[], HEADER_LEN)
    else (map[], HEADER_LEN)
  }

  function Apply(index: map<Key, nat>, r: Record, at: nat): map<Key, nat> {
    match r.op
    case Put => index[r.key := at]
    case Delete => index - {r.key}
  }

  /** Replay from `at`: stop at a torn record, fail on an unknown op. */
  function Replay(file: Bytes, at: nat, index: map<Key, nat>, dead: nat): (r: Result<Db, Error>)
    requires at <= |file|
    ensures r.Ok? ==> at <= r.value.end <= |file| && r.value.file == file
    decreases |file| - at
  {
    match DecodeRecord(file[at..])
    case Err(e) => Err(e)
    case Ok(None) => Ok(Db(file, index, at, dead))
    case Ok(Some(r)) =>
      Replay(file, at + r.len, Apply(index, r, at), if r.key in index then dead + r.len else dead)
  }

  function OpenFile(file: Bytes): (r: Result<Db, Error>)
    ensures r.Ok? ==> r.value.end <= |r.value.file|
  {
    if |file| < HEADER_LEN then Ok(FRESH)
    else match DecodeHeader(file[..HEADER_LEN])
      case Err(e) => Err(e)
      case Ok(h) => var (index, from) := Start(file, h); Replay(file, from, index, 0)
  }
}
