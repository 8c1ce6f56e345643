/** The store itself: fields updated in place, and a disk of named files under it. */
module CrabDb {
  import opened Wrappers
  import opened Bytes
  import opened Order
  import opened Format
  import opened DbState
  import opened DbMeaning
  import opened DbRecovery

  type Disk = map<string, Bytes>

  // ----- Opening -----

  method LoadEntries(entries: seq<Entry>) returns (index: map<Key, nat>)
    ensures index == FromEntries(entries)
  {
    index := map[];
    for i := 0 to |entries|
      invariant index == FromEntries(entries[..i])
    {
      assert entries[..i + 1][..i] == entries[..i];
      index := index[entries[i].key := entries[i].offset];
    }
    assert entries[..|entries|] == entries;
  }

  /** One turn of the replay loop. */
  lemma ReplayTurn(file: Bytes, at: nat, index: map<Key, nat>, dead: nat)
    requires at <= |file|
    ensures Replay(file, at, index, dead)
         == match DecodeRecord(file[at..])
            case Err(e) => Err(e)
            case Ok(None) => Ok(Db(file, index, at, dead))
            case Ok(Some(r)) =>
              Replay(file, at + r.len, Apply(index, r, at), if r.key in index then dead + r.len else dead)
    ensures at == |file| ==> DecodeRecord(file[at..]) == Ok(None)
  {
  }

  method ReplayTail(file: Bytes, from: nat, start: map<Key, nat>) returns (r: Result<Db, Error>)
    requires from <= |file|
    ensures r == Replay(file, from, start, 0)
  {
    hide Replay, DecodeRecord;
    var index: map<Key, nat>, dead: nat, at: nat := start, 0, from;
    while at < |file|
      invariant from <= at <= |file|
      invariant Replay(file, from, start, 0) == Replay(file, at, index, dead)
      decreases |file| - at
    {
      ReplayTurn(file, at, index, dead);
      var decoded := DecodeRecord(file[at..]);
      if decoded.Err? {
        return Err(decoded.error);
      }
      if decoded.value.None? {
        break;
      }
      var record := decoded.value.value;
      if record.key in index {
        dead := dead + record.len;
      }
      match record.op {
        case Put => index := index[record.key := at];
        case Delete => index := index - {record.key};
      }
      at := at + record.len;
    }
    ReplayTurn(file, at, index, dead);
    r := Ok(Db(file, index, at, dead));
  }

  method OpenBytes(file: Bytes) returns (r: Result<Db, Error>)
    ensures r == OpenFile(file)
    ensures |file| < HEADER_LEN ==> r == Ok(Db(NewFile(), map[], 32, 0))
  {
    if |file| < HEADER_LEN {
      ShortFileIsNew(file);
    }
    hide NewFile, EncodeHeader, DecodeHeader, DecodeIndex, FromEntries, Replay;
    if |file| < HEADER_LEN {
      return Ok(FRESH);
    }
    var decoded := DecodeHeader(file[..HEADER_LEN]);
    if decoded.Err? {
      return Err(decoded.error);
    }
    var header := decoded.value;
    var index: map<Key, nat>, from := map[], HEADER_LEN;
    if header.indexLen > 0 && header.indexAt + header.indexLen <= |file| {
      var entries := DecodeIndexLoop(file[header.indexAt..header.indexAt + header.indexLen]);
      if entries.Some? {
        index := LoadEntries(entries.value);
        from := header.indexAt + header.indexLen;
      }
    }
    r := ReplayTail(file, from, index);
  }

  // ----- Ranges -----

  /** The keys of column `col` that start with `prefix`. */
  ghost function Under(keys: set<Key>, col: byte, prefix: Bytes): set<Key> {
    set k | k in keys && k.col == col && IsPrefix(prefix, k.name)
  }

  /** Seek to the least key at or above the prefix, then take while the prefix holds. */
  method Range(keys: seq<Key>, ghost all: set<Key>, col: byte, prefix: Bytes) returns (found: seq<Key>)
    requires Lists(keys, all)
    ensures found == Sorted(Under(all, col, prefix))
  {
    var first := Key(col, prefix);
    var i := 0;
    while i < |keys| && KeyLess(keys[i], first)
      invariant i <= |keys|
      invariant forall j :: 0 <= j < i ==> KeyLess(keys[j], first)
    {
      i := i + 1;
    }
    var n := i;
    while n < |keys| && keys[n].col == col && IsPrefix(prefix, keys[n].name)
      invariant i <= n <= |keys|
      invariant forall j :: i <= j < n ==> keys[j].col == col && IsPrefix(prefix, keys[j].name)
    {
      n := n + 1;
    }
    found := keys[i..n];
    RangeIsUnder(keys, all, col, prefix, i, n);
    SortedIs(found, Under(all, col, prefix));
  }

  lemma NotBelowPrefix(k: Key, col: byte, prefix: Bytes)
    requires k.col == col && IsPrefix(prefix, k.name)
    ensures !KeyLess(k, Key(col, prefix))
  {
    PrefixNotAbove(prefix, k.name);
  }

  lemma RangeIsUnder(keys: seq<Key>, all: set<Key>, col: byte, prefix: Bytes, i: nat, n: nat)
    requires Lists(keys, all) && i <= n <= |keys|
    requires forall j :: 0 <= j < i ==> KeyLess(keys[j], Key(col, prefix))
    requires i < |keys| ==> !KeyLess(keys[i], Key(col, prefix))
    requires forall j :: i <= j < n ==> keys[j].col == col && IsPrefix(prefix, keys[j].name)
    requires n < |keys| ==> !(keys[n].col == col && IsPrefix(prefix, keys[n].name))
    ensures Lists(keys[i..n], Under(all, col, prefix))
  {
    var found, first := keys[i..n], Key(col, prefix);
    forall k | k in found
      ensures k in Under(all, col, prefix)
    {
      var j :| 0 <= j < |found| && found[j] == k;
      assert keys[i + j] in keys;
    }
    forall k | k in Under(all, col, prefix)
      ensures k in found
    {
      var j :| 0 <= j < |keys| && keys[j] == k;
      NotBelowPrefix(k, col, prefix);
      if j >= n {
        KeyLessStrictOrder(first, keys[i], keys[n]);
        assert !KeyLess(keys[n], first) by {
          KeyLessStrictOrder(keys[i], keys[n], first);
        }
        assert j != n;
        PrefixConvex(prefix, keys[n].name, k.name);
        assert false;
      }
      assert found[j - i] == k;
    }
  }

  ghost function Names(keys: seq<Key>): seq<Bytes> {
    seq(|keys|, i requires 0 <= i < |keys| => keys[i].name)
  }

  ghost function Pairs(m: map<Key, Bytes>, keys: seq<Key>): seq<(Bytes, Bytes)>
    requires forall k :: k in keys ==> k in m
  {
    seq(|keys|, i requires 0 <= i < |keys| => (keys[i].name, m[keys[i]]))
  }

  // ----- The store -----

  /** After the `i`-th write of a copy: the temporary holds the header and the first `i` records. */
  ghost predicate CopiedUpTo(d: Disk, before: Disk, path: string, tmp: string, index: map<Key, nat>, keys: seq<Key>)
    requires path in before && forall k :: k in keys ==> k in index
  {
    var copy := Rewritten(before[path], index, keys);
    copy.Ok? && d == before[tmp := copy.value.out]
  }

  /** One disk per write of a copy of `keys`, as far as the copy got. */
  ghost predicate CopyCrashes(crashes: seq<Disk>, before: Disk, path: string, tmp: string,
                              index: map<Key, nat>, keys: seq<Key>)
    requires path in before && forall k :: k in keys ==> k in index
  {
    && 1 <= |crashes| <= |keys| + 1
    && (forall i :: 0 <= i < |crashes| ==> CopiedUpTo(crashes[i], before, path, tmp, index, keys[..i]))
    && (|crashes| <= |keys| ==> Rewritten(before[path], index, keys[..|crashes|]).Err?)
  }

  /**
   * What a crash in a compaction of a store meaning `m` can leave between two writes: the old file
   * beside a temporary with the header and the log of the first keys, one key more each time, and
   * at last the log of all keys in place of the file.
   */
  ghost function CrashDisks(disk: Disk, path: string, tmp: string, m: map<Key, Bytes>): (r: seq<Disk>)
    ensures |r| == |Sorted(m.Keys)| + 2
  {
    var keys := Sorted(m.Keys);
    seq(|keys| + 1, i requires 0 <= i <= |keys| => disk[tmp := LogDb(m, keys[..i]).file])
    + [(disk - {tmp})[path := LogDb(m, keys).file]]
  }

  /** The file is the old one, or exactly the header and one Put per live key in key order. */
  ghost predicate OldOrRewritten(d: Disk, path: string, file: Bytes, m: map<Key, Bytes>) {
    path in d && (d[path] == file || d[path] == LogDb(m, Sorted(m.Keys)).file)
  }

  /** Dead bytes make up the given share of what follows the header. */
  predicate Crowded(dead: nat, end: nat, share: real) {
    end > HEADER_LEN && dead as real >= share * (end - HEADER_LEN) as real
  }

  lemma CrowdedIff(s: Db, o: Options)
    ensures NeedsCompact(s, o) <==> Crowded(s.dead, s.end, o.compactAt)
  {
    if s.end > HEADER_LEN {
      var live := s.end - HEADER_LEN;
      var share := s.dead as real / live as real;
      assert s.dead as real == share * live as real;
      if share >= o.compactAt {
        assert share * live as real >= o.compactAt * live as real;
      }
    }
  }

  class CrabDb {
    const path: string
    const tmp: string
    const options: Options
    var disk: Disk
    var index: map<Key, nat>
    var end: nat
    var dead: nat
    ghost var content: map<Key, Bytes>

    ghost function State(): Db
      reads this
      requires path in disk
    {
      Db(disk[path], index, end, dead)
    }

    /** The file means `content`, and compaction has a temporary name of its own to write to. */
    ghost predicate Valid()
      reads this
    {
      path in disk && path != tmp && Means(State(), content)
    }

    constructor Over(path: string, tmp: string, options: Options, disk: Disk, s: Db, ghost content: map<Key, Bytes>)
      requires path in disk && path != tmp && s.file == disk[path] && Means(s, content)
      ensures Valid() && this.content == content && State() == s && this.disk == disk
    {
      this.path, this.tmp, this.options, this.disk := path, tmp, options, disk;
      this.index, this.end, this.dead, this.content := s.index, s.end, s.dead, content;
    }

    /**
     * Open the file, creating it when it is shorter than a header. `m` is what its bytes mean; a
     * file that means nothing of the sort can still be opened, but no store is promised over it.
     */
    static method OpenWith(path: string, tmp: string, options: Options, disk: Disk, ghost m: map<Key, Bytes>)
      returns (r: Result<CrabDb, Error>)
      requires path != tmp
      requires var file := if path in disk then disk[path] else [];
               OpenFile(file).Ok? ==> Means(OpenFile(file).value, m)
      ensures path !in disk || |disk[path]| < HEADER_LEN ==>
                && r.Ok? && fresh(r.value) && r.value.Valid() && r.value.content == map[]
                && r.value.disk == disk[path := NewFile()]
                && DecodeHeader(NewFile()) == Ok(NO_SNAPSHOT) && NO_SNAPSHOT.indexLen == 0
      ensures var found := OpenFile(if path in disk then disk[path] else []);
              && (found.Err? ==> r == Err(found.error))
              && (found.Ok? ==> && r.Ok? && fresh(r.value) && r.value.Valid() && r.value.content == m
                                && r.value.State() == found.value && r.value.disk == disk[path := found.value.file])
    {
      var file := if path in disk then disk[path] else [];
      if |file| < HEADER_LEN {
        NewStoreMeansNothing(file, m);
      }
      var loaded := OpenBytes(file);
      if loaded.Err? {
        return Err(loaded.error);
      }
      var db := new CrabDb.Over(path, tmp, options, disk[path := loaded.value.file], loaded.value, m);
      r := Ok(db);
    }

    method Get(key: Key) returns (r: Result<Option<Bytes>, Error>)
      requires Valid()
      ensures r == Ok(if key in content then Some(content[key]) else None)
    {
      if key !in index {
        return Ok(None);
      }
      ReadsBack(State(), content, key);
      match ReadValue(disk[path], index[key])
      case Ok(value) => r := Ok(Some(value));
      case Err(e) => r := Err(e);
    }

    /** The names of one column that start with `prefix`, in key order. */
    method ScanKeys(col: byte, prefix: Bytes) returns (names: seq<Bytes>)
      requires Valid()
      ensures names == Names(Sorted(Under(content.Keys, col, prefix)))
    {
      var keys := InOrder(index.Keys);
      var found := Range(keys, index.Keys, col, prefix);
      names := [];
      for i := 0 to |found|
        invariant names == Names(found[..i])
      {
        names := names + [found[i].name];
      }
      assert found[..|found|] == found;
    }

    /** The same with each name paired to what is bound to it. */
    method Scan(col: byte, prefix: Bytes) returns (r: Result<seq<(Bytes, Bytes)>, Error>)
      requires Valid()
      ensures forall k :: k in Sorted(Under(content.Keys, col, prefix)) ==> k in content
      ensures r == Ok(Pairs(content, Sorted(Under(content.Keys, col, prefix))))
    {
      SameKeys(State(), content);
      hide Means, ReadValue;
      var keys := InOrder(index.Keys);
      var found := Range(keys, index.Keys, col, prefix);
      var out: seq<(Bytes, Bytes)> := [];
      assert forall k :: k in found ==> k in content;
      for i := 0 to |found|
        invariant out == Pairs(content, found[..i])
      {
        var k := found[i];
        assert k in found;
        ReadsBack(State(), content, k);
        match ReadValue(disk[path], index[k])
        case Err(e) => return Err(e);
        case Ok(value) => out := out + [(k.name, value)];
      }
      assert found[..|found|] == found;
      r := Ok(out);
    }

    /** The record goes behind the last one; its offset is where that ended. */
    method Append(op: Op, key: Key, value: Bytes) returns (offset: nat)
      requires path in disk && end <= |disk[path]|
      modifies `disk, `end
      ensures path in disk && State() == Appended(old(State()), op, key, value)
      ensures disk == old(disk)[path := disk[path]] && offset == old(end)
    {
      var bytes := EncodeRecord(op, key, value);
      disk := disk[path := WriteAt(disk[path], end, bytes)];
      offset := end;
      end := end + |bytes|;
    }

    method ChargeDead(offset: nat)
      requires path in disk
      modifies `dead
      ensures dead == old(dead) + Charge(disk[path], offset)
    {
      dead := dead + Charge(disk[path], offset);
    }

    method Put(key: Key, value: Bytes) returns (r: Result<(), Error>)
      requires Valid()
      modifies this
      ensures path in disk && State() == AfterPut(old(State()), options, key, value)
      ensures content == old(content)[key := value]
      ensures Fits(key, value) ==> Valid() && r.Ok?
      ensures disk - {path, tmp} == old(disk) - {path, tmp}
    {
      if Fits(key, value) {
        PutRecordMeans(State(), content, key, value);
      }
      PutInPlace(key, value);
      content := content[key := value];
      hide *;
      r := MaybeCompact();
    }

    /** The part of `put` before it settles: append, index, charge what was superseded. */
    method PutInPlace(key: Key, value: Bytes)
      requires path in disk && end <= |disk[path]|
      modifies `disk, `index, `end, `dead
      ensures path in disk && State() == PutRecord(old(State()), key, value)
      ensures disk - {path, tmp} == old(disk) - {path, tmp}
    {
      var offset := Append(Op.Put, key, value);
      var stale := if key in index then Some(index[key]) else None;
      index := index[key := offset];
      if stale.Some? {
        ChargeDead(stale.value);
      }
    }

    /** A key that was bound is unbound, and the answer says whether it was. */
    method Delete(key: Key) returns (r: Result<bool, Error>)
      requires Valid()
      modifies this
      ensures Valid() && State() == AfterDelete(old(State()), options, key)
      ensures r == Ok(key in old(content)) && content == old(content) - {key}
      ensures disk - {path, tmp} == old(disk) - {path, tmp}
    {
      ghost var before := State();
      assert index.Keys == content.Keys;
      hide Means, NeedsCompact, Compacted, EncodeRecord, Charge, WriteAt;
      if key !in index {
        assert content - {key} == content;
        return Ok(false);
      }
      var stale := index[key];
      index := index - {key};
      var _ := Append(Op.Delete, key, []);
      ChargeDead(stale);
      content := content - {key};
      assert State() == DeleteRecord(before, key);
      DeleteRecordMeans(before, old(content), key);
      var done := MaybeCompact();
      r := Ok(true);
    }

    method MaybeCompact() returns (r: Result<(), Error>)
      requires path in disk && path != tmp && end <= |disk[path]|
      modifies this
      ensures path in disk && State() == MaybeCompacted(old(State()), options)
      ensures content == old(content)
      ensures Crowded(old(dead), old(end), options.compactAt) ==> State() == Compacted(old(State()), options)
      ensures !Crowded(old(dead), old(end), options.compactAt) ==> State() == old(State()) && disk == old(disk)
      ensures Means(old(State()), content) ==> Valid() && r.Ok?
      ensures disk - {path, tmp} == old(disk) - {path, tmp}
    {
      CrowdedIff(Db(disk[path], index, end, dead), options);
      r := Ok(());
      if NeedsCompact(Db(disk[path], index, end, dead), options) {
        ghost var crashes;
        r, crashes := Compact();
      }
    }

    method Checkpoint()
      requires Valid()
      modifies `disk, `end
      ensures Valid() && State() == Snapshotted(old(State()), options)
    {
      SnapshotMeans(State(), content, options);
      Snapshot();
    }

    /** Two writes: the index behind the log, then a header naming it. */
    method Snapshot()
      requires path in disk && end <= |disk[path]|
      modifies `disk, `end
      ensures path in disk && State() == Snapshotted(old(State()), options)
      ensures disk == old(disk)[path := disk[path]]
    {
      if !options.snapshot {
        return;
      }
      var keys := InOrder(index.Keys);
      var bytes := EncodeIndex(EntriesFor(index, keys));
      var at := end;
      disk := disk[path := WriteAt(disk[path], at, bytes)];
      end := at + |bytes|;
      var header := Header(at % U64_LIMIT, |bytes| % U64_LIMIT);
      disk := disk[path := WriteAt(disk[path], 0, EncodeHeader(header))];
    }

    /**
     * Compaction: copy the live records to the temporary, rename it over the file, then snapshot.
     * `crashes` is the disk after each write and after the rename: what a crash before the snapshot
     * leaves. When the temporary is the store's own file the first step empties it.
     */
    method Compact() returns (r: Result<(), Error>, ghost crashes: seq<Disk>)
      requires path in disk && end <= |disk[path]|
      modifies this
      ensures path in disk && content == old(content)
      ensures path != tmp ==> State() == Compacted(old(State()), options)
      ensures path != tmp && Means(old(State()), content) ==>
                r.Ok? && Valid() && crashes == CrashDisks(old(disk), path, tmp, content)
      ensures path == tmp && old(index) != map[] && Means(old(State()), content) ==>
                r == Err(UnexpectedEof) && disk == old(disk)[path := FRESH.file]
      ensures disk - {path, tmp} == old(disk) - {path, tmp}
    {
      assert Means(State(), content) ==> forall k :: k in index ==> index[k] >= HEADER_LEN;
      ghost var was, files := State(), disk;
      if Means(was, content) {
        CompactMeans(was, content, options);
        RewrittenIsLog(was, content, Sorted(content.Keys));
        SameKeys(was, content);
      }
      hide Means, LogDb, LogIndex, Rewritten, InstallCrashes, CrashDisks;
      r, crashes := Install();
      if path != tmp && Means(was, content) {
        InstalledCrashes(crashes, was, files, path, tmp, content);
      }
      if r.Ok? {
        Snapshot();
      }
    }

    /** Everything but the snapshot: copy, rename over the store, take up the new index. */
    method Install() returns (r: Result<(), Error>, ghost crashes: seq<Disk>)
      requires path in disk && end <= |disk[path]|
      modifies this
      ensures path in disk && content == old(content) && (r.Ok? ==> end <= |disk[path]|)
      ensures path != tmp ==>
                match Rewritten(old(disk[path]), old(index), Sorted(old(index).Keys)) {
                  case Err(e) => r == Err(e) && State() == old(State())
                  case Ok(moved) => r.Ok? && State() == Db(moved.out, moved.index, |moved.out|, 0)
                }
      ensures path != tmp ==> InstallCrashes(crashes, old(disk), path, tmp, old(index), Sorted(old(index).Keys))
      ensures path == tmp && old(index) != map[] && (forall k :: k in old(index) ==> old(index)[k] >= HEADER_LEN) ==>
                r == Err(UnexpectedEof) && disk == old(disk)[path := FRESH.file]
      ensures disk - {path, tmp} == old(disk) - {path, tmp}
    {
      hide Rewritten;
      var keys := InOrder(index.Keys);
      SameEmptiness(keys, index.Keys);
      assert keys != [] ==> keys[0] in keys;
      var copied: Result<map<Key, nat>, Error>;
      copied, disk, crashes := CopyLive(disk, path, tmp, index, keys);
      assert disk - {path, tmp} == (disk - {tmp}) - {path} == old(disk) - {path, tmp};
      match copied {
        case Err(e) =>
          r := Err(e);
        case Ok(moved) =>
          index, end, dead := moved, |disk[tmp]|, 0;
          disk := (disk - {tmp})[path := disk[tmp]];
          crashes := crashes + [disk];
          r := Ok(());
      }
    }
  }

  /** The writes of a copy, then, if it came to the end, the rename. */
  ghost predicate InstallCrashes(crashes: seq<Disk>, before: Disk, path: string, tmp: string,
                                 index: map<Key, nat>, keys: seq<Key>)
    requires path in before && forall k :: k in keys ==> k in index
  {
    var copy := Rewritten(before[path], index, keys);
    match copy
    case Err(_) => CopyCrashes(crashes, before, path, tmp, index, keys)
    case Ok(moved) =>
      && |crashes| == |keys| + 2
      && CopyCrashes(crashes[..|keys| + 1], before, path, tmp, index, keys)
      && crashes[|keys| + 1] == (before - {tmp})[path := moved.out]
  }

  /** For a store that means `m` the copies are the logs of the first keys. */
  lemma InstalledCrashes(crashes: seq<Disk>, s: Db, disk: Disk, path: string, tmp: string, m: map<Key, Bytes>)
    requires path in disk && s.file == disk[path] && Means(s, m) && s.index.Keys == m.Keys
    requires InstallCrashes(crashes, disk, path, tmp, s.index, Sorted(s.index.Keys))
    ensures crashes == CrashDisks(disk, path, tmp, m)
  {
    hide Means, LogDb, LogIndex, Rewritten;
    var keys := Sorted(m.Keys);
    RewrittenIsLog(s, m, keys);
    var all := CrashDisks(disk, path, tmp, m);
    forall i | 0 <= i < |crashes|
      ensures crashes[i] == all[i]
    {
      if i <= |keys| {
        RewrittenIsLog(s, m, keys[..i]);
        assert CopiedUpTo(crashes[..|keys| + 1][i], disk, path, tmp, s.index, keys[..i]);
      }
    }
  }

  lemma NewStoreMeansNothing(file: Bytes, m: map<Key, Bytes>)
    requires |file| < HEADER_LEN && (OpenFile(file).Ok? ==> Means(OpenFile(file).value, m))
    ensures m == map[] && DecodeHeader(NewFile()) == Ok(NO_SNAPSHOT)
  {
    ShortFileIsNew(file);
    assert m.Keys == {};
    NewFileIs();
    HeaderRoundTrip(NO_SNAPSHOT, []);
    assert NewFile() + [] == NewFile();
  }

  lemma ReadsBack(s: Db, m: map<Key, Bytes>, k: Key)
    requires Means(s, m) && k in m
    ensures k in s.index && ReadValue(s.file, s.index[k]) == Ok(m[k])
  {
    HoldsFields(s.file, s.end, s.index[k], k, m[k]);
  }

  /** The copy loop of a compaction: truncate the temporary, then move each live record over. */
  method CopyLive(before: Disk, path: string, tmp: string, index: map<Key, nat>, keys: seq<Key>)
    returns (r: Result<map<Key, nat>, Error>, disk: Disk, ghost crashes: seq<Disk>)
    requires path in before && forall k :: k in keys ==> k in index
    ensures tmp in disk && disk - {tmp} == before - {tmp}
    ensures path in disk && (path != tmp ==> disk[path] == before[path])
    ensures path != tmp ==> Copied(Rewritten(before[path], index, keys), r, disk[tmp])
    ensures path != tmp ==> CopyCrashes(crashes, before, path, tmp, index, keys)
    ensures path != tmp && r.Ok? ==> |crashes| == |keys| + 1
    ensures path == tmp && keys != [] && index[keys[0]] >= HEADER_LEN ==>
              r == Err(UnexpectedEof) && disk == before[path := FRESH.file]
  {
    disk := before[tmp := EncodeHeader(NO_SNAPSHOT)];
    hide EncodeHeader, EncodeRecord;
    crashes := [disk];
    var moved: map<Key, nat> := map[];
    assert keys[..0] == [];
    for i := 0 to |keys|
      invariant tmp in disk && path in disk && disk - {tmp} == before - {tmp}
      invariant path != tmp ==> disk[path] == before[path]
      invariant path != tmp ==> Rewritten(before[path], index, keys[..i]) == Ok(Moved(disk[tmp], moved))
      invariant |crashes| == i + 1 && crashes[i] == disk && disk == before[tmp := disk[tmp]]
      invariant path != tmp ==>
                  forall j :: 0 <= j <= i ==> CopiedUpTo(crashes[j], before, path, tmp, index, keys[..j])
      invariant i == 0 ==> disk == before[tmp := FRESH.file]
      invariant path == tmp && keys != [] && index[keys[0]] >= HEADER_LEN ==> i == 0
    {
      var k := keys[i];
      assert k in keys;
      assert keys[..i + 1][..i] == keys[..i] && keys[..i + 1][i] == k;
      var value := ReadValue(disk[path], index[k]);
      if value.Err? {
        if path != tmp {
          RewrittenFails(before[path], index, keys, i + 1);
        }
        return Err(value.error), disk, crashes;
      }
      var at := |disk[tmp]|;
      disk := disk[tmp := disk[tmp] + EncodeRecord(Op.Put, k, value.value)];
      crashes := crashes + [disk];
      moved := moved[k := at];
    }
    assert keys[..|keys|] == keys;
    r := Ok(moved);
  }

  ghost predicate Copied(expected: Result<Moved, Error>, r: Result<map<Key, nat>, Error>, out: Bytes) {
    match expected
    case Err(e) => r == Err(e)
    case Ok(moved) => r == Ok(moved.index) && out == moved.out
  }

  /** An unreadable record anywhere fails the whole rewrite. */
  lemma {:induction false} RewrittenFails(file: Bytes, index: map<Key, nat>, keys: seq<Key>, i: nat)
    requires i <= |keys| && forall k :: k in keys ==> k in index
    requires Rewritten(file, index, keys[..i]).Err?
    ensures Rewritten(file, index, keys) == Rewritten(file, index, keys[..i])
    decreases |keys|
  {
    if i == |keys| {
      assert keys[..i] == keys;
    } else {
      var last := |keys| - 1;
      assert keys[..last][..i] == keys[..i];
      RewrittenFails(file, index, keys[..last], i);
    }
  }

  /**
   * A crash anywhere in a compaction, before its snapshot, opens to the same map: whatever the
   * temporary holds, cut off inside a record included, the file is the old one or the whole log.
   */
  lemma CompactionCrashesRecover(s: Db, m: map<Key, Bytes>, disk: Disk, path: string)
    requires Means(s, m) && Reopens(s)
    requires OldOrRewritten(disk, path, s.file, m)
    ensures OpenFile(disk[path]).Ok? && Means(OpenFile(disk[path]).value, m)
  {
    var log := LogDb(m, Sorted(m.Keys));
    CompactMeans(s, m, Options(0.0, false));
    LogClean(m, Sorted(m.Keys));
    CleanHasNoResidue(log, 0);
    hide Means, Reopens, LogDb, OpenFile, Clean;
    ReopenMeans(s, m);
    ReopenMeans(log, m);
  }

  /** Every disk a compaction passes through is such a disk. */
  lemma CrashDisksRecover(s: Db, m: map<Key, Bytes>, disk: Disk, path: string, tmp: string, i: nat)
    requires path in disk && path != tmp && s.file == disk[path] && Means(s, m) && Reopens(s)
    requires i < |CrashDisks(disk, path, tmp, m)|
    ensures var d := CrashDisks(disk, path, tmp, m)[i];
            && OldOrRewritten(d, path, s.file, m)
            && OpenFile(d[path]).Ok? && Means(OpenFile(d[path]).value, m)
  {
    hide Means, Reopens, LogDb, OpenFile;
    CompactionCrashesRecover(s, m, CrashDisks(disk, path, tmp, m)[i], path);
  }

  lemma ReopenMeans(s: Db, m: map<Key, Bytes>)
    requires Means(s, m) && Reopens(s)
    ensures OpenFile(s.file).Ok? && Means(OpenFile(s.file).value, m)
  {
    hide OpenFile;
    var dead: nat :| OpenFile(s.file) == Ok(s.(dead := dead));
  }
}
