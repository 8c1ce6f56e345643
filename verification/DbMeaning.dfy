/** What a store state means: the plain map `m` it stands for, and that each operation keeps it. */
module DbMeaning {
  import opened Wrappers
  import opened Bytes
  import opened Order
  import opened Format
  import opened DbState

  /** `bytes` lies in the file at `offset`, past the header and wholly before `end`. */
  ghost predicate Holds(file: Bytes, end: nat, offset: nat, bytes: Bytes) {
    HEADER_LEN <= offset && offset + |bytes| <= end <= |file| && file[offset..offset + |bytes|] == bytes
  }

  /** Every indexed offset points at a whole Put record for its key, and `m` is what they say. */
  ghost predicate Means(s: Db, m: map<Key, Bytes>) {
    && HEADER_LEN <= s.end <= |s.file|
    && s.index.Keys == m.Keys
    && forall k :: k in m ==> Fits(k, m[k]) && Holds(s.file, s.end, s.index[k], EncodeRecord(Put, k, m[k]))
  }

  lemma SameKeys(s: Db, m: map<Key, Bytes>)
    requires Means(s, m)
    ensures s.index.Keys == m.Keys
  {
  }

  lemma {:induction false} FreshMeansNothing()
    ensures Means(FRESH, map[])
  {
  }

  lemma FieldsHeld(file: Bytes, offset: nat, op: Op, key: Key, value: Bytes)
    requires offset + RecordLen(key, value) <= |file|
    requires file[offset..offset + RecordLen(key, value)] == EncodeRecord(op, key, value)
    ensures var n, v := |key.name|, |value|;
            && file[offset + 2..offset + 6] == ToLe(n, 4)
            && file[offset + 6 + n..offset + 10 + n] == ToLe(v, 4)
            && file[offset + 10 + n..offset + 10 + n + v] == value
  {
    hide ToLe, FromLe;
    var n, v := |key.name|, |value|;
    var end := offset + RecordLen(key, value);
    RecordFields(op, key, value, []);
    assert EncodeRecord(op, key, value) + [] == file[offset..end];
    SubSlice(file, offset, end, 2, 6);
    SubSlice(file, offset, end, 6 + n, 10 + n);
    SubSlice(file, offset, end, 10 + n, 10 + n + v);
  }

  lemma HoldsFields(file: Bytes, end: nat, offset: nat, key: Key, value: Bytes)
    requires Fits(key, value) && Holds(file, end, offset, EncodeRecord(Put, key, value))
    ensures ReadValue(file, offset) == Ok(value)
    ensures Charge(file, offset) == RecordLen(key, value)
  {
    hide ToLe, FromLe;
    FieldsHeld(file, offset, Put, key, value);
    U32RoundTrip(|key.name|);
    U32RoundTrip(|value|);
  }

  /** A write at or past `end`, or over the header only, disturbs nothing that is held. */
  lemma HoldsAfterAppend(file: Bytes, end: nat, offset: nat, bytes: Bytes, more: Bytes)
    requires Holds(file, end, offset, bytes)
    ensures Holds(WriteAt(file, end, more), end + |more|, offset, bytes)
  {
    var file' := WriteAt(file, end, more);
    assert file'[..end] == file[..end];
    SubSlice(file', 0, end, offset, offset + |bytes|);
    SubSlice(file, 0, end, offset, offset + |bytes|);
  }

  lemma HoldsAppended(file: Bytes, end: nat, bytes: Bytes)
    requires HEADER_LEN <= end <= |file|
    ensures Holds(WriteAt(file, end, bytes), end + |bytes|, end, bytes)
  {
    Middle(file[..end], bytes, if end + |bytes| <= |file| then file[end + |bytes|..] else []);
  }

  lemma HoldsAfterHeader(file: Bytes, end: nat, offset: nat, bytes: Bytes, header: Bytes)
    requires Holds(file, end, offset, bytes) && |header| == HEADER_LEN
    ensures Holds(WriteAt(file, 0, header), end, offset, bytes)
  {
    var file' := WriteAt(file, 0, header);
    assert file'[HEADER_LEN..] == file[HEADER_LEN..];
    var from := offset - HEADER_LEN;
    SubSlice(file', HEADER_LEN, |file'|, from, from + |bytes|);
    SubSlice(file, HEADER_LEN, |file|, from, from + |bytes|);
  }

  lemma MeansAfterAppend(s: Db, m: map<Key, Bytes>, more: Bytes)
    requires Means(s, m)
    ensures Means(s.(file := WriteAt(s.file, s.end, more), end := s.end + |more|), m)
  {
    forall k | k in m
      ensures Holds(WriteAt(s.file, s.end, more), s.end + |more|, s.index[k], EncodeRecord(Put, k, m[k]))
    {
      HoldsAfterAppend(s.file, s.end, s.index[k], EncodeRecord(Put, k, m[k]), more);
    }
  }

  lemma PutRecordMeans(s: Db, m: map<Key, Bytes>, key: Key, value: Bytes)
    requires Means(s, m) && Fits(key, value)
    ensures Means(PutRecord(s, key, value), m[key := value])
    ensures key in m ==> PutRecord(s, key, value).dead == s.dead + RecordLen(key, m[key])
    ensures key !in m ==> PutRecord(s, key, value).dead == s.dead
  {
    var rec := EncodeRecord(Put, key, value);
    MeansAfterAppend(s, m, rec);
    HoldsAppended(s.file, s.end, rec);
    if key in m {
      var file' := WriteAt(s.file, s.end, rec);
      HoldsAfterAppend(s.file, s.end, s.index[key], EncodeRecord(Put, key, m[key]), rec);
      HoldsFields(file', s.end + |rec|, s.index[key], key, m[key]);
    }
  }

  lemma DeleteRecordMeans(s: Db, m: map<Key, Bytes>, key: Key)
    requires Means(s, m) && key in m
    ensures Means(DeleteRecord(s, key), m - {key})
    ensures DeleteRecord(s, key).dead == s.dead + RecordLen(key, m[key])
  {
    var rec := EncodeRecord(Delete, key, []);
    MeansAfterAppend(s, m, rec);
    HoldsAfterAppend(s.file, s.end, s.index[key], EncodeRecord(Put, key, m[key]), rec);
    HoldsFields(WriteAt(s.file, s.end, rec), s.end + |rec|, s.index[key], key, m[key]);
  }

  lemma SnapshotMeans(s: Db, m: map<Key, Bytes>, o: Options)
    requires Means(s, m)
    ensures Means(Snapshotted(s, o), m)
  {
    if o.snapshot {
      var bytes := SnapshotBytes(s.index);
      MeansAfterAppend(s, m, bytes);
      var file' := WriteAt(s.file, s.end, bytes);
      var header := EncodeHeader(Header(s.end % U64_LIMIT, |bytes| % U64_LIMIT));
      forall k | k in m
        ensures Holds(WriteAt(file', 0, header), s.end + |bytes|, s.index[k], EncodeRecord(Put, k, m[k]))
      {
        HoldsAfterHeader(file', s.end + |bytes|, s.index[k], EncodeRecord(Put, k, m[k]), header);
      }
    }
  }

  // ----- Compaction -----

  /** One Put record per key, in the order given. */
  ghost function Log(m: map<Key, Bytes>, keys: seq<Key>): Bytes
    requires forall k :: k in keys ==> k in m
  {
    if keys == [] then []
    else Log(m, keys[..|keys| - 1]) + EncodeRecord(Put, keys[|keys| - 1], m[keys[|keys| - 1]])
  }

  ghost function LogIndex(m: map<Key, Bytes>, keys: seq<Key>): map<Key, nat>
    requires forall k :: k in keys ==> k in m
  {
    if keys == [] then map[]
    else
      var last := |keys| - 1;
      LogIndex(m, keys[..last])[keys[last] := HEADER_LEN + |Log(m, keys[..last])|]
  }

  /** The state whose file is the header and the log of `keys`, nothing else. */
  ghost function LogDb(m: map<Key, Bytes>, keys: seq<Key>): Db
    requires forall k :: k in keys ==> k in m
  {
    var file := EncodeHeader(NO_SNAPSHOT) + Log(m, keys);
    Db(file, LogIndex(m, keys), |file|, 0)
  }

  lemma {:induction false} RewrittenIsLog(s: Db, m: map<Key, Bytes>, keys: seq<Key>)
    requires Means(s, m) && forall k :: k in keys ==> k in m
    ensures Rewritten(s.file, s.index, keys) == Ok(Moved(LogDb(m, keys).file, LogIndex(m, keys)))
    decreases |keys|
  {
    if keys == [] {
      assert EncodeHeader(NO_SNAPSHOT) + [] == EncodeHeader(NO_SNAPSHOT);
    } else {
      var last := |keys| - 1;
      var k, before := keys[last], keys[..last];
      RewrittenIsLog(s, m, before);
      HoldsFields(s.file, s.end, s.index[k], k, m[k]);
      Concat(EncodeHeader(NO_SNAPSHOT), Log(m, before), EncodeRecord(Put, k, m[k]));
    }
  }

  ghost function Restrict(m: map<Key, Bytes>, keys: seq<Key>): map<Key, Bytes> {
    map k | k in keys && k in m :: m[k]
  }

  lemma WriteAtEnd(file: Bytes, more: Bytes)
    ensures WriteAt(file, |file|, more) == file + more
  {
  }

  lemma LogSnoc(m: map<Key, Bytes>, keys: seq<Key>, k: Key)
    requires k in m && forall j :: j in keys ==> j in m
    ensures Log(m, keys + [k]) == Log(m, keys) + EncodeRecord(Put, k, m[k])
    ensures LogIndex(m, keys + [k]) == LogIndex(m, keys)[k := HEADER_LEN + |Log(m, keys)|]
  {
    var all := keys + [k];
    assert all[..|all| - 1] == keys && all[|all| - 1] == k;
  }

  /** Growing the log by one key is a put into the state of the log so far. */
  lemma LogStep(m: map<Key, Bytes>, keys: seq<Key>, k: Key)
    requires k in m && forall j :: j in keys ==> j in m
    requires k !in LogIndex(m, keys)
    ensures LogDb(m, keys + [k]) == PutRecord(LogDb(m, keys), k, m[k])
  {
    LogSnoc(m, keys, k);
    var rec, file := EncodeRecord(Put, k, m[k]), LogDb(m, keys).file;
    Concat(EncodeHeader(NO_SNAPSHOT), Log(m, keys), rec);
    WriteAtEnd(file, rec);
  }

  lemma {:induction false} LogIndexKeys(m: map<Key, Bytes>, keys: seq<Key>)
    requires forall k :: k in keys ==> k in m
    ensures forall k :: k in LogIndex(m, keys) <==> k in keys
    decreases |keys|
  {
    hide Log;
    if keys != [] {
      var last := |keys| - 1;
      LogIndexKeys(m, keys[..last]);
      assert keys == keys[..last] + [keys[last]];
    }
  }

  lemma LogOfNone(m: map<Key, Bytes>)
    ensures LogDb(m, []) == FRESH
  {
    assert EncodeHeader(NO_SNAPSHOT) + [] == EncodeHeader(NO_SNAPSHOT);
  }

  lemma LogStepMeans(m: map<Key, Bytes>, before: seq<Key>, k: Key)
    requires k in m && k !in before && Fits(k, m[k]) && forall j :: j in before ==> j in m
    requires Means(LogDb(m, before), Restrict(m, before))
    ensures Means(LogDb(m, before + [k]), Restrict(m, before)[k := m[k]])
  {
    hide LogDb, Log, LogIndex, Means, PutRecord, Restrict, EncodeRecord;
    LogIndexKeys(m, before);
    LogStep(m, before, k);
    PutRecordMeans(LogDb(m, before), Restrict(m, before), k, m[k]);
  }

  lemma {:induction false} LogMeans(m: map<Key, Bytes>, keys: seq<Key>)
    requires Ascending(keys) && forall k :: k in keys ==> k in m && Fits(k, m[k])
    ensures Means(LogDb(m, keys), Restrict(m, keys))
    decreases |keys|
  {
    hide LogDb, Means, EncodeHeader;
    if keys == [] {
      FreshMeansNothing();
      LogOfNone(m);
      assert Restrict(m, keys) == map[];
    } else {
      var last := |keys| - 1;
      var k, before := keys[last], keys[..last];
      LogMeans(m, before);
      LastIsNew(keys);
      LogStepMeans(m, before, k);
      assert keys == before + [k];
      assert Restrict(m, keys) == Restrict(m, before)[k := m[k]];
    }
  }

  lemma LastIsNew(keys: seq<Key>)
    requires Ascending(keys) && keys != []
    ensures keys[|keys| - 1] !in keys[..|keys| - 1]
  {
    KeyLessStrictOrder(keys[|keys| - 1], keys[0], keys[0]);
  }

  /**
   * Compaction keeps the map, resets `dead`, and writes exactly the header, one Put per live key
   * in key order, and the snapshot of that.
   */
  lemma CompactMeans(s: Db, m: map<Key, Bytes>, o: Options)
    requires Means(s, m)
    ensures Compacted(s, o) == Snapshotted(LogDb(m, Sorted(m.Keys)), o)
    ensures Means(LogDb(m, Sorted(m.Keys)), m)
    ensures Means(Compacted(s, o), m) && Compacted(s, o).dead == 0
  {
    var keys := Sorted(m.Keys);
    RewrittenIsLog(s, m, keys);
    LogMeans(m, keys);
    assert Restrict(m, keys) == m;
    SnapshotMeans(LogDb(m, keys), m, o);
  }

  lemma AfterPutMeans(s: Db, m: map<Key, Bytes>, o: Options, key: Key, value: Bytes)
    requires Means(s, m) && Fits(key, value)
    ensures Means(AfterPut(s, o, key, value), m[key := value])
  {
    PutRecordMeans(s, m, key, value);
    CompactMeans(PutRecord(s, key, value), m[key := value], o);
  }

  lemma AfterDeleteMeans(s: Db, m: map<Key, Bytes>, o: Options, key: Key)
    requires Means(s, m)
    ensures Means(AfterDelete(s, o, key), m - {key})
  {
    if key in m {
      DeleteRecordMeans(s, m, key);
      CompactMeans(DeleteRecord(s, key), m - {key}, o);
    } else {
      assert m - {key} == m;
    }
  }
}
