/**
 * Whole runs of the store, crashes included: they mean the plain map, reopen to themselves exactly
 * when what a crash left behind is harmless, and account for every byte of the file.
 */
module DbRuns {
  import opened Wrappers
  import opened Bytes
  import opened Order
  import opened Format
  import opened DbState
  import opened DbMeaning
  import opened DbRecovery

  /** `DoCrash` is a write at the append position torn after these bytes, and the file opened again. */
  datatype Cmd =
    | DoPut(key: Key, value: Bytes)
    | DoDelete(key: Key)
    | DoCheckpoint
    | DoCompact
    | DoReopen
    | DoCrash(written: Bytes)

  /** Opening the file of `s`; a file that does not open leaves it as it is. */
  function Reopened(s: Db): (r: Db)
    requires s.end <= |s.file|
    ensures r.end <= |r.file|
  {
    match OpenFile(s.file) case Ok(s') => s' case Err(_) => s
  }

  /** The state a command leaves, before any opening of the file it ends with. */
  ghost function Before(s: Db, o: Options, c: Cmd): (r: Db)
    requires s.end <= |s.file|
    ensures r.end <= |r.file|
  {
    match c
    case DoPut(key, value) => AfterPut(s, o, key, value)
    case DoDelete(key) => AfterDelete(s, o, key)
    case DoCheckpoint => Snapshotted(s, o)
    case DoCompact => Compacted(s, o)
    case DoReopen => s
    case DoCrash(written) => Torn(s, written)
  }

  predicate Opening(c: Cmd) {
    c.DoReopen? || c.DoCrash?
  }

  ghost function Step(s: Db, o: Options, c: Cmd): (r: Db)
    requires s.end <= |s.file|
    ensures r.end <= |r.file|
  {
    if Opening(c) then Reopened(Before(s, o, c)) else Before(s, o, c)
  }

  ghost function Run(s: Db, o: Options, cmds: seq<Cmd>): (r: Db)
    requires s.end <= |s.file|
    ensures r.end <= |r.file|
    decreases |cmds|
  {
    if cmds == [] then s else Run(Step(s, o, cmds[0]), o, cmds[1..])
  }

  // ----- The plain map the store stands for -----

  function StepMap(m: map<Key, Bytes>, c: Cmd): map<Key, Bytes> {
    match c
    case DoPut(key, value) => m[key := value]
    case DoDelete(key) => m - {key}
    case _ => m
  }

  function RunMap(m: map<Key, Bytes>, cmds: seq<Cmd>): map<Key, Bytes>
    decreases |cmds|
  {
    if cmds == [] then m else RunMap(StepMap(m, cmds[0]), cmds[1..])
  }

  // ----- What the integer widths of the format ask of a run -----

  ghost predicate StepFits(s: Db, o: Options, c: Cmd)
    requires s.end <= |s.file|
  {
    (c.DoPut? ==> Fits(c.key, c.value)) && Roomy(Before(s, o, c))
  }

  ghost predicate RunFits(s: Db, o: Options, cmds: seq<Cmd>)
    requires s.end <= |s.file|
    decreases |cmds|
  {
    cmds == [] || (StepFits(s, o, cmds[0]) && RunFits(Step(s, o, cmds[0]), o, cmds[1..]))
  }

  // ----- Residue along a run -----

  /** What lies past the append position after a command, from what lay there before. */
  ghost function ResidueAfter(s: Db, o: Options, c: Cmd): Bytes
    requires s.end <= |s.file|
  {
    match c
    case DoPut(key, value) =>
      if NeedsCompact(PutRecord(s, key, value), o) then [] else Behind(Residue(s), RecordLen(key, value))
    case DoDelete(key) =>
      if key !in s.index then Residue(s)
      else if NeedsCompact(DeleteRecord(s, key), o) then []
      else Behind(Residue(s), RecordLen(key, []))
    case DoCheckpoint => if o.snapshot then Behind(Residue(s), |SnapshotBytes(s.index)|) else Residue(s)
    case DoCompact => []
    case DoReopen => Residue(s)
    case DoCrash(written) => written + Behind(Residue(s), |written|)
  }

  /** What opening the file after a command charges as dead, from what opening it before would have. */
  ghost function StepReplayed(dead: nat, s: Db, o: Options, c: Cmd): nat
    requires s.end <= |s.file|
  {
    match c
    case DoPut(key, value) =>
      if NeedsCompact(PutRecord(s, key, value), o) then 0 else dead + ReplayCharge(s, key, value)
    case DoDelete(key) =>
      if key !in s.index then dead
      else if NeedsCompact(DeleteRecord(s, key), o) then 0
      else dead + RecordLen(key, [])
    case DoCheckpoint => if o.snapshot then 0 else dead
    case DoCompact => 0
    case _ => dead
  }

  ghost function RunReplayed(dead: nat, s: Db, o: Options, cmds: seq<Cmd>): nat
    requires s.end <= |s.file|
    decreases |cmds|
  {
    if cmds == [] then dead
    else RunReplayed(StepReplayed(dead, s, o, cmds[0]), Step(s, o, cmds[0]), o, cmds[1..])
  }

  /** Whenever the command opens the file, what lies past the append position reads as no record yet. */
  ghost predicate Opens(s: Db, o: Options, c: Cmd)
    requires s.end <= |s.file|
  {
    Opening(c) ==> DecodeRecord(ResidueAfter(s, o, c)) == Ok(None)
  }

  ghost predicate RunOpens(s: Db, o: Options, cmds: seq<Cmd>)
    requires s.end <= |s.file|
    decreases |cmds|
  {
    cmds == [] || (Opens(s, o, cmds[0]) && RunOpens(Step(s, o, cmds[0]), o, cmds[1..]))
  }

  /** Every opening of the file along the run rebuilds the state the store was in. */
  ghost predicate RunRebuilds(s: Db, o: Options, cmds: seq<Cmd>)
    requires s.end <= |s.file|
    decreases |cmds|
  {
    cmds == []
    || ((Opening(cmds[0]) ==> Reopens(Before(s, o, cmds[0]))) && RunRebuilds(Step(s, o, cmds[0]), o, cmds[1..]))
  }

  // ----- One step -----

  /** In step with the map `m`, clean up to the append position, and this past it. */
  ghost predicate Kept(s: Db, m: map<Key, Bytes>, dead: nat, residue: Bytes) {
    Means(s, m) && CleanPrefix(s, dead) && Residue(s) == residue
  }

  ghost predicate Roomy(s: Db) {
    |s.index| < U32_LIMIT && s.end < U64_LIMIT
  }

  lemma SameSize(s: Db, m: map<Key, Bytes>)
    requires Means(s, m)
    ensures |m| == |s.index|
  {
    assert |m.Keys| == |m| && |s.index.Keys| == |s.index|;
  }

  lemma CheckpointClean(s: Db, m: map<Key, Bytes>, o: Options, dead: nat)
    requires Means(s, m) && CleanPrefix(s, dead)
    requires |s.index| < U32_LIMIT && Snapshotted(s, o).end < U64_LIMIT
    ensures CleanPrefix(Snapshotted(s, o), if o.snapshot then 0 else dead)
    ensures Residue(Snapshotted(s, o)) == ResidueAfter(s, o, DoCheckpoint)
  {
    if o.snapshot {
      assert Snapshotable(s);
      hide Means, CleanPrefix, Residue, SnapshotBytes, EncodeHeader, Snapshotable;
      SnapshotClean(s, o);
    }
  }

  lemma CompactStepClean(s: Db, m: map<Key, Bytes>, o: Options)
    requires s.end <= |s.file| && Means(s, m) && Roomy(Compacted(s, o))
    ensures Kept(Compacted(s, o), m, 0, [])
  {
    hide Means, CleanPrefix, Residue, Compacted, Snapshotted;
    CompactMeans(s, m, o);
    SameSize(Compacted(s, o), m);
    CompactClean(s, m, o);
  }

  lemma SettleClean(s: Db, m: map<Key, Bytes>, o: Options, dead: nat)
    requires s.end <= |s.file| && Means(s, m) && CleanPrefix(s, dead) && Roomy(MaybeCompacted(s, o))
    ensures var compacts := NeedsCompact(s, o);
            Kept(MaybeCompacted(s, o), m, if compacts then 0 else dead, if compacts then [] else Residue(s))
  {
    hide Means, CleanPrefix, Residue, NeedsCompact, Compacted, Roomy;
    if NeedsCompact(s, o) {
      CompactStepClean(s, m, o);
    }
  }

  lemma PutStepClean(s: Db, m: map<Key, Bytes>, o: Options, dead: nat, key: Key, value: Bytes)
    requires s.end <= |s.file| && Means(s, m) && CleanPrefix(s, dead) && Fits(key, value) && Roomy(AfterPut(s, o, key, value))
    ensures var c := DoPut(key, value);
            Kept(AfterPut(s, o, key, value), m[key := value], StepReplayed(dead, s, o, c), ResidueAfter(s, o, c))
  {
    hide Means, CleanPrefix, Residue, PutRecord, MaybeCompacted, NeedsCompact, Kept, Roomy, EncodeRecord, Charge;
    PutRecordMeans(s, m, key, value);
    PutRecordClean(s, dead, key, value);
    SettleClean(PutRecord(s, key, value), m[key := value], o, dead + ReplayCharge(s, key, value));
  }

  lemma DeleteStepClean(s: Db, m: map<Key, Bytes>, o: Options, dead: nat, key: Key)
    requires s.end <= |s.file| && Means(s, m) && CleanPrefix(s, dead)
    requires key in m && |key.name| < U32_LIMIT && Roomy(AfterDelete(s, o, key))
    ensures var c := DoDelete(key);
            Kept(AfterDelete(s, o, key), m - {key}, StepReplayed(dead, s, o, c), ResidueAfter(s, o, c))
  {
    hide Means, CleanPrefix, Residue, DeleteRecord, MaybeCompacted, NeedsCompact, Kept, Roomy, EncodeRecord, Charge;
    SameKeys(s, m);
    DeleteRecordMeans(s, m, key);
    DeleteRecordClean(s, dead, key);
    SettleClean(DeleteRecord(s, key), m - {key}, o, dead + RecordLen(key, []));
  }

  lemma NameFits(s: Db, m: map<Key, Bytes>, key: Key)
    requires Means(s, m) && key in m
    ensures |key.name| < U32_LIMIT
  {
    hide EncodeRecord;
  }

  lemma AbsentDeleteClean(s: Db, m: map<Key, Bytes>, o: Options, dead: nat, key: Key)
    requires s.end <= |s.file| && Means(s, m) && CleanPrefix(s, dead) && key !in m
    ensures var c := DoDelete(key);
            Kept(AfterDelete(s, o, key), m - {key}, StepReplayed(dead, s, o, c), ResidueAfter(s, o, c))
  {
    SameKeys(s, m);
    assert s.end <= |s.file| && key !in s.index;
    hide Means, CleanPrefix, Residue, DeleteRecord, MaybeCompacted, NeedsCompact, EncodeRecord, Charge;
    assert m - {key} == m;
  }

  lemma CheckpointStepClean(s: Db, m: map<Key, Bytes>, o: Options, dead: nat)
    requires s.end <= |s.file| && Means(s, m) && CleanPrefix(s, dead) && Roomy(Snapshotted(s, o))
    ensures Kept(Snapshotted(s, o), m, StepReplayed(dead, s, o, DoCheckpoint), ResidueAfter(s, o, DoCheckpoint))
  {
    hide Means, CleanPrefix, Residue, SnapshotBytes, EncodeHeader, WriteAt;
    SnapshotMeans(s, m, o);
    CheckpointClean(s, m, o, dead);
  }

  lemma CrashClean(s: Db, m: map<Key, Bytes>, o: Options, dead: nat, written: Bytes)
    requires s.end <= |s.file| && Means(s, m) && CleanPrefix(s, dead)
    ensures Kept(Torn(s, written), m, dead, ResidueAfter(s, o, DoCrash(written)))
  {
    hide Means, CleanPrefix, Residue, Torn, Behind;
    CrashRecoversIff(s, m, dead, written);
  }

  /** A command before the opening it may end with: always the plain map, always a clean prefix. */
  lemma BeforeKeeps(s: Db, m: map<Key, Bytes>, dead: nat, o: Options, c: Cmd)
    requires Means(s, m) && CleanPrefix(s, dead) && StepFits(s, o, c)
    ensures Kept(Before(s, o, c), StepMap(m, c), StepReplayed(dead, s, o, c), ResidueAfter(s, o, c))
  {
    assert s.end <= |s.file|;
    hide Means, CleanPrefix, Snapshotted, AfterPut, AfterDelete, Compacted, Torn, Residue, Fits;
    match c
    case DoPut(key, value) =>
      hide ResidueAfter, StepReplayed, Kept;
      PutStepClean(s, m, o, dead, key, value);
    case DoDelete(key) =>
      hide ResidueAfter, StepReplayed, Kept;
      if key in m {
        NameFits(s, m, key);
        DeleteStepClean(s, m, o, dead, key);
      } else {
        AbsentDeleteClean(s, m, o, dead, key);
      }
    case DoCheckpoint =>
      hide ResidueAfter, StepReplayed, Kept;
      CheckpointStepClean(s, m, o, dead);
    case DoCompact =>
      hide Kept;
      CompactStepClean(s, m, o);
    case DoReopen =>
    case DoCrash(written) =>
      hide ResidueAfter, Kept;
      CrashClean(s, m, o, dead, written);
  }

  /** Opened, the state is the same but for what counts as dead. */
  lemma OpenedSame(b: Db, m: map<Key, Bytes>, dead: nat, residue: Bytes)
    requires Kept(b, m, dead, residue) && DecodeRecord(residue) == Ok(None)
    ensures Reopened(b) == b.(dead := dead) && Kept(Reopened(b), m, dead, residue)
  {
    hide DecodeRecord, EncodeRecord, OpenFile, HeaderInRange;
    ResidueReopensIff(b, dead);
    var t := b.(dead := dead);
    assert Whole(t).(dead := dead) == Whole(b).(dead := dead);
  }

  lemma KeptReopensIff(s: Db, m: map<Key, Bytes>, dead: nat, residue: Bytes)
    requires Kept(s, m, dead, residue)
    ensures Reopens(s) <==> DecodeRecord(residue) == Ok(None)
    ensures Reopens(s) ==> OpenFile(s.file) == Ok(s.(dead := dead))
  {
    hide Means, CleanPrefix, DecodeRecord, Reopens, OpenFile;
    ResidueReopensIff(s, dead);
  }

  /**
   * One command: what it leaves can be opened again to the same state if and only if what then
   * lies past the append position reads as no record yet.
   */
  lemma StepReopensIff(s: Db, m: map<Key, Bytes>, dead: nat, o: Options, c: Cmd)
    requires Means(s, m) && CleanPrefix(s, dead) && StepFits(s, o, c)
    ensures Reopens(Before(s, o, c)) <==> DecodeRecord(ResidueAfter(s, o, c)) == Ok(None)
  {
    assert s.end <= |s.file|;
    hide Means, CleanPrefix, Kept, DecodeRecord, Before, StepMap, StepReplayed, ResidueAfter, Reopens, StepFits;
    BeforeKeeps(s, m, dead, o, c);
    KeptReopensIff(Before(s, o, c), StepMap(m, c), StepReplayed(dead, s, o, c), ResidueAfter(s, o, c));
  }

  /** One operation keeps the meaning in step with the plain map, and the file able to reopen. */
  lemma StepKeeps(s: Db, m: map<Key, Bytes>, dead: nat, o: Options, c: Cmd)
    requires Means(s, m) && CleanPrefix(s, dead) && StepFits(s, o, c) && Opens(s, o, c)
    ensures var s' := Step(s, o, c);
            && Means(s', StepMap(m, c)) && CleanPrefix(s', StepReplayed(dead, s, o, c))
            && Residue(s') == ResidueAfter(s, o, c)
  {
    assert s.end <= |s.file|;
    StepIsKept(s, m, dead, o, c);
    hide Means, CleanPrefix, Residue, Step, StepMap, StepReplayed, ResidueAfter;
  }

  lemma StepIsKept(s: Db, m: map<Key, Bytes>, dead: nat, o: Options, c: Cmd)
    requires Means(s, m) && CleanPrefix(s, dead) && StepFits(s, o, c) && Opens(s, o, c)
    ensures Kept(Step(s, o, c), StepMap(m, c), StepReplayed(dead, s, o, c), ResidueAfter(s, o, c))
  {
    assert s.end <= |s.file|;
    hide Means, CleanPrefix, Kept, DecodeRecord, Before, StepMap, StepReplayed, ResidueAfter, Reopened, StepFits;
    BeforeKeeps(s, m, dead, o, c);
    if Opening(c) {
      OpenedSame(Before(s, o, c), StepMap(m, c), StepReplayed(dead, s, o, c), ResidueAfter(s, o, c));
    }
  }

  // ----- Runs -----

  lemma {:induction false} RunKeeps(s: Db, m: map<Key, Bytes>, dead: nat, o: Options, cmds: seq<Cmd>)
    requires Means(s, m) && CleanPrefix(s, dead) && RunFits(s, o, cmds) && RunOpens(s, o, cmds)
    ensures Means(Run(s, o, cmds), RunMap(m, cmds))
    ensures CleanPrefix(Run(s, o, cmds), RunReplayed(dead, s, o, cmds))
    decreases |cmds|
  {
    assert s.end <= |s.file|;
    hide Means, CleanPrefix, Residue, Opens, Step, StepMap, StepReplayed, ResidueAfter, StepFits;
    if cmds != [] {
      StepKeeps(s, m, dead, o, cmds[0]);
      RunKeeps(Step(s, o, cmds[0]), StepMap(m, cmds[0]), StepReplayed(dead, s, o, cmds[0]), o, cmds[1..]);
    }
  }

  /**
   * Any run, with any crashes and openings: every opening rebuilds the state the store was in if and
   * only if, each time, what lay past the append position read as no record yet.
   */
  lemma {:induction false} RunRebuildsIff(s: Db, m: map<Key, Bytes>, dead: nat, o: Options, cmds: seq<Cmd>)
    requires Means(s, m) && CleanPrefix(s, dead) && RunFits(s, o, cmds)
    ensures RunRebuilds(s, o, cmds) <==> RunOpens(s, o, cmds)
    decreases |cmds|
  {
    assert s.end <= |s.file|;
    hide Means, CleanPrefix, Residue, Step, StepMap, StepReplayed, ResidueAfter, StepFits, DecodeRecord, Before, Reopens;
    if cmds != [] {
      StepReopensIff(s, m, dead, o, cmds[0]);
      if Opens(s, o, cmds[0]) {
        StepKeeps(s, m, dead, o, cmds[0]);
        RunRebuildsIff(Step(s, o, cmds[0]), StepMap(m, cmds[0]), StepReplayed(dead, s, o, cmds[0]), o, cmds[1..]);
      }
    }
  }

  predicate NoCrash(cmds: seq<Cmd>) {
    forall c :: c in cmds ==> !c.DoCrash?
  }

  /** Without a crash nothing ever lies past the append position, so every opening is harmless. */
  lemma {:induction false} QuietRunOpens(s: Db, m: map<Key, Bytes>, dead: nat, o: Options, cmds: seq<Cmd>)
    requires Means(s, m) && CleanPrefix(s, dead) && RunFits(s, o, cmds)
    requires Residue(s) == [] && NoCrash(cmds)
    ensures RunOpens(s, o, cmds) && Residue(Run(s, o, cmds)) == []
    decreases |cmds|
  {
    if cmds != [] {
      assert ResidueAfter(s, o, cmds[0]) == [] by {
        hide PutRecord, DeleteRecord, NeedsCompact, Residue, SnapshotBytes;
        assert cmds[0] in cmds;
      }
      NothingDecodes();
      hide Means, CleanPrefix, Residue, Step, StepMap, StepReplayed, ResidueAfter, StepFits, DecodeRecord;
      StepKeeps(s, m, dead, o, cmds[0]);
      QuietRunOpens(Step(s, o, cmds[0]), StepMap(m, cmds[0]), StepReplayed(dead, s, o, cmds[0]), o, cmds[1..]);
    }
  }

  /**
   * What a store built from nothing reopens to, crashes included: exactly the resident index
   * and append position, with the replayed charges as `dead`, if and only if what lies past the
   * append position reads as no record yet; and it means the map the run would have built.
   */
  lemma RunReopensIff(file: Bytes, o: Options, cmds: seq<Cmd>)
    requires |file| < HEADER_LEN
    ensures OpenFile(file).Ok?
    ensures var s0 := OpenFile(file).value;
            RunFits(s0, o, cmds) && RunOpens(s0, o, cmds) ==>
              var s := Run(s0, o, cmds);
              && Means(s, RunMap(map[], cmds))
              && (Reopens(s) <==> DecodeRecord(Residue(s)) == Ok(None))
              && (Reopens(s) ==> OpenFile(s.file) == Ok(s.(dead := RunReplayed(0, s0, o, cmds))))
  {
    ShortFileIsNew(file);
    FreshMeansNothing();
    FreshClean();
    CleanHasNoResidue(FRESH, 0);
    hide Means, CleanPrefix, Residue, DecodeRecord, Run, RunMap, RunReplayed, Reopens, OpenFile;
    if RunFits(FRESH, o, cmds) && RunOpens(FRESH, o, cmds) {
      RunKeeps(FRESH, map[], 0, o, cmds);
      ResidueReopensIff(Run(FRESH, o, cmds), RunReplayed(0, FRESH, o, cmds));
    }
  }

  /**
   * Reopen is identity: open a path where there is no store yet, run any commands in which no write
   * is torn, and open the bytes again. That rebuilds exactly the resident index and append position,
   * and they mean the map the run would have built.
   */
  lemma ReopenIsIdentity(file: Bytes, o: Options, cmds: seq<Cmd>)
    requires |file| < HEADER_LEN
    ensures OpenFile(file).Ok?
    ensures var s0 := OpenFile(file).value;
            RunFits(s0, o, cmds) && NoCrash(cmds) ==>
              var s := Run(s0, o, cmds);
              && Means(s, RunMap(map[], cmds))
              && OpenFile(s.file) == Ok(s.(dead := RunReplayed(0, s0, o, cmds)))
  {
    ShortFileIsNew(file);
    FreshMeansNothing();
    FreshClean();
    CleanHasNoResidue(FRESH, 0);
    NothingDecodes();
    hide Means, CleanPrefix, Residue, DecodeRecord, Run, RunMap, RunReplayed, Reopens, OpenFile;
    if RunFits(FRESH, o, cmds) && NoCrash(cmds) {
      QuietRunOpens(FRESH, map[], 0, o, cmds);
      RunReopensIff(file, o, cmds);
    }
  }

  // ----- Accounting -----

  /** The encoded size of one Put per live key. */
  ghost function LiveBytes(m: map<Key, Bytes>): nat {
    if m == map[] then 0
    else var k :| k in m; LiveBytes(m - {k}) + RecordLen(k, m[k])
  }

  lemma {:induction false} LiveBytesRemove(m: map<Key, Bytes>, k: Key)
    requires k in m
    ensures LiveBytes(m) == LiveBytes(m - {k}) + RecordLen(k, m[k])
    decreases |m|
  {
    var j :| j in m && LiveBytes(m) == LiveBytes(m - {j}) + RecordLen(j, m[j]);
    if j != k {
      LiveBytesRemove(m - {j}, k);
      LiveBytesRemove(m - {k}, j);
      assert m - {j} - {k} == m - {k} - {j};
    }
  }

  lemma LiveBytesPut(m: map<Key, Bytes>, k: Key, v: Bytes)
    ensures LiveBytes(m[k := v]) + (if k in m then RecordLen(k, m[k]) else 0) == LiveBytes(m) + RecordLen(k, v)
  {
    LiveBytesRemove(m[k := v], k);
    assert m[k := v] - {k} == m - {k};
    if k in m {
      LiveBytesRemove(m, k);
    } else {
      assert m - {k} == m;
    }
  }

  lemma {:induction false} LogLength(m: map<Key, Bytes>, keys: seq<Key>)
    requires Ascending(keys) && forall k :: k in keys ==> k in m
    ensures |Log(m, keys)| == LiveBytes(Restrict(m, keys))
    decreases |keys|
  {
    if keys != [] {
      var last := |keys| - 1;
      var k, before := keys[last], keys[..last];
      LogLength(m, before);
      LastIsNew(keys);
      assert keys == before + [k];
      LiveBytesPut(Restrict(m, before), k, m[k]);
      assert Restrict(m, keys) == Restrict(m, before)[k := m[k]];
    }
  }

  /**
   * The bytes after the header, by what wrote them: Put records since the file was last
   * rewritten, and everything else (Delete records, index snapshots).
   */
  datatype Ledger = Ledger(puts: nat, others: nat)

  /** A rewritten file holds one Put per live key, and one snapshot of the new index. */
  ghost function Rewrite(m: map<Key, Bytes>, s': Db, o: Options): Ledger {
    Ledger(LiveBytes(m), if o.snapshot then |SnapshotBytes(s'.index)| else 0)
  }

  /** Bookkeeping by a bystander who sees only the commands, and whether each one rewrote the file. */
  ghost function StepLedger(l: Ledger, s: Db, m: map<Key, Bytes>, o: Options, c: Cmd): Ledger
    requires s.end <= |s.file|
  {
    var s', m' := Step(s, o, c), StepMap(m, c);
    match c
    case DoPut(key, value) =>
      if NeedsCompact(PutRecord(s, key, value), o) then Rewrite(m', s', o)
      else Ledger(l.puts + RecordLen(key, value), l.others)
    case DoDelete(key) =>
      if key !in s.index then l
      else if NeedsCompact(DeleteRecord(s, key), o) then Rewrite(m', s', o)
      else Ledger(l.puts, l.others + RecordLen(key, []))
    case DoCheckpoint => if o.snapshot then Ledger(l.puts, l.others + |SnapshotBytes(s.index)|) else l
    case DoCompact => Rewrite(m', s', o)
    case _ => l
  }

  ghost function RunLedger(l: Ledger, s: Db, m: map<Key, Bytes>, o: Options, cmds: seq<Cmd>): Ledger
    requires s.end <= |s.file|
    decreases |cmds|
  {
    if cmds == [] then l
    else RunLedger(StepLedger(l, s, m, o, cmds[0]), Step(s, o, cmds[0]), StepMap(m, cmds[0]), o, cmds[1..])
  }

  /** `dead` is the Put bytes no longer live, and the ledger covers the file. */
  ghost predicate Balanced(s: Db, m: map<Key, Bytes>, l: Ledger) {
    && s.end == HEADER_LEN + l.puts + l.others
    && l.puts == LiveBytes(m) + s.dead
  }

  /** The share of dead bytes stays below the threshold, or there are none. */
  ghost predicate Bounded(s: Db, o: Options) {
    s.dead == 0 || (s.end > HEADER_LEN && s.dead as real < o.compactAt * (s.end - HEADER_LEN) as real)
  }

  lemma CompactBalances(s: Db, m: map<Key, Bytes>, o: Options)
    requires Means(s, m)
    ensures Balanced(Compacted(s, o), m, Rewrite(m, Compacted(s, o), o))
    ensures Compacted(s, o).dead == 0
  {
    hide EncodeHeader, EncodeRecord, EncodeEntries;
    CompactMeans(s, m, o);
    LogLength(m, Sorted(m.Keys));
    assert Restrict(m, Sorted(m.Keys)) == m;
    hide EncodeHeader;
    assert |LogDb(m, Sorted(m.Keys)).file| == HEADER_LEN + LiveBytes(m);
  }

  lemma ShareBelow(dead: nat, live: nat, at: real)
    requires live > 0 && !(dead as real / live as real >= at)
    ensures dead as real < at * live as real
  {
    var share := dead as real / live as real;
    assert dead as real == share * live as real;
  }

  lemma QuietIsBounded(s: Db, m: map<Key, Bytes>, o: Options, l: Ledger)
    requires Balanced(s, m, l) && !NeedsCompact(s, o)
    ensures Bounded(s, o)
  {
    if s.dead > 0 {
      ShareBelow(s.dead, s.end - HEADER_LEN, o.compactAt);
    }
  }

  lemma SettledIsBounded(s: Db, m: map<Key, Bytes>, o: Options, l: Ledger)
    requires Balanced(s, m, l) && Means(s, m)
    ensures Bounded(MaybeCompacted(s, o), o)
  {
    CompactBalances(s, m, o);
    if !NeedsCompact(s, o) {
      QuietIsBounded(s, m, o, l);
    }
    hide NeedsCompact, Compacted, Balanced, Means;
  }

  lemma PutBalances(s: Db, m: map<Key, Bytes>, l: Ledger, key: Key, value: Bytes)
    requires Means(s, m) && Balanced(s, m, l) && Fits(key, value)
    ensures Balanced(PutRecord(s, key, value), m[key := value], Ledger(l.puts + RecordLen(key, value), l.others))
  {
    PutRecordMeans(s, m, key, value);
    LiveBytesPut(m, key, value);
  }

  lemma DeleteBalances(s: Db, m: map<Key, Bytes>, l: Ledger, key: Key)
    requires Means(s, m) && Balanced(s, m, l) && key in m
    ensures Balanced(DeleteRecord(s, key), m - {key}, Ledger(l.puts, l.others + RecordLen(key, [])))
  {
    DeleteRecordMeans(s, m, key);
    LiveBytesRemove(m, key);
  }

  lemma PutStepBalances(s: Db, m: map<Key, Bytes>, o: Options, l: Ledger, key: Key, value: Bytes)
    requires Means(s, m) && Balanced(s, m, l) && Fits(key, value)
    ensures var c := DoPut(key, value);
            Balanced(Step(s, o, c), StepMap(m, c), StepLedger(l, s, m, o, c)) && Bounded(Step(s, o, c), o)
  {
    PutRecordMeans(s, m, key, value);
    PutBalances(s, m, l, key, value);
    hide PutRecord, Compacted, NeedsCompact, LiveBytes, Bounded, Balanced, Means;
    var a, m' := PutRecord(s, key, value), m[key := value];
    CompactBalances(a, m', o);
    SettledIsBounded(a, m', o, Ledger(l.puts + RecordLen(key, value), l.others));
  }

  lemma DeleteStepBalances(s: Db, m: map<Key, Bytes>, o: Options, l: Ledger, key: Key)
    requires Means(s, m) && Balanced(s, m, l)
    ensures var c := DoDelete(key);
            && Balanced(Step(s, o, c), StepMap(m, c), StepLedger(l, s, m, o, c))
            && (key in s.index ==> Bounded(Step(s, o, c), o))
  {
    SameKeys(s, m);
    hide DeleteRecord, Compacted, NeedsCompact, LiveBytes, Bounded, Means;
    if key in s.index {
      DeleteRecordMeans(s, m, key);
      DeleteBalances(s, m, l, key);
      var a, m' := DeleteRecord(s, key), m - {key};
      CompactBalances(a, m', o);
      SettledIsBounded(a, m', o, Ledger(l.puts, l.others + RecordLen(key, [])));
    } else {
      assert m - {key} == m;
    }
  }

  lemma StepBalances(s: Db, m: map<Key, Bytes>, o: Options, l: Ledger, c: Cmd)
    requires Means(s, m) && Balanced(s, m, l) && StepFits(s, o, c) && !Opening(c)
    ensures Balanced(Step(s, o, c), StepMap(m, c), StepLedger(l, s, m, o, c))
    ensures c.DoPut? || (c.DoDelete? && c.key in s.index) ==> Bounded(Step(s, o, c), o)
  {
    match c
    case DoPut(key, value) => PutStepBalances(s, m, o, l, key, value);
    case DoDelete(key) => DeleteStepBalances(s, m, o, l, key);
    case DoCheckpoint => hide LiveBytes, SnapshotBytes;
    case DoCompact => CompactBalances(s, m, o);
  }

  /** Live operation: the file is not opened again. */
  predicate Live(cmds: seq<Cmd>) {
    forall c :: c in cmds ==> !Opening(c)
  }

  lemma {:induction false} RunBalances(s: Db, m: map<Key, Bytes>, dead: nat, o: Options, l: Ledger, cmds: seq<Cmd>)
    requires Means(s, m) && CleanPrefix(s, dead) && Balanced(s, m, l) && RunFits(s, o, cmds) && Live(cmds)
    ensures Balanced(Run(s, o, cmds), RunMap(m, cmds), RunLedger(l, s, m, o, cmds))
    decreases |cmds|
  {
    assert s.end <= |s.file|;
    hide Means, CleanPrefix, Residue, Balanced, Step, StepMap, StepReplayed, StepLedger, StepFits;
    if cmds != [] {
      StepKeeps(s, m, dead, o, cmds[0]);
      StepBalances(s, m, o, l, cmds[0]);
      RunBalances(Step(s, o, cmds[0]), StepMap(m, cmds[0]), StepReplayed(dead, s, o, cmds[0]), o,
                  StepLedger(l, s, m, o, cmds[0]), cmds[1..]);
    }
  }

  ghost function FreshLedger(o: Options, cmds: seq<Cmd>): Ledger {
    RunLedger(Ledger(0, 0), FRESH, map[], o, cmds)
  }

  lemma {:induction false} LiveRunOpens(s: Db, o: Options, cmds: seq<Cmd>)
    requires s.end <= |s.file| && Live(cmds)
    ensures RunOpens(s, o, cmds)
    decreases |cmds|
  {
    hide Step, ResidueAfter, DecodeRecord;
    if cmds != [] {
      assert cmds[0] in cmds;
      LiveRunOpens(Step(s, o, cmds[0]), o, cmds[1..]);
    }
  }

  lemma LiveRunBalances(o: Options, cmds: seq<Cmd>)
    requires RunFits(FRESH, o, cmds) && Live(cmds)
    ensures Means(Run(FRESH, o, cmds), RunMap(map[], cmds))
    ensures Balanced(Run(FRESH, o, cmds), RunMap(map[], cmds), FreshLedger(o, cmds))
  {
    FreshMeansNothing();
    FreshClean();
    CleanHasNoResidue(FRESH, 0);
    assert Balanced(FRESH, map[], Ledger(0, 0));
    hide Means, CleanPrefix, Residue, Balanced, Run, RunMap, RunReplayed, RunLedger, RunFits;
    LiveRunOpens(FRESH, o, cmds);
    RunKeeps(FRESH, map[], 0, o, cmds);
    RunBalances(FRESH, map[], 0, o, Ledger(0, 0), cmds);
  }

  /**
   * For a store built by live operations: `dead` is exactly the bytes of superseded or deleted
   * Puts, dead and live bytes fit the file, and after every put or effective delete the dead
   * share is below the threshold or nothing is dead.
   */
  lemma DeadBytesAccounting(o: Options, cmds: seq<Cmd>, last: Cmd)
    requires RunFits(FRESH, o, cmds) && Live(cmds) && !Opening(last)
    requires StepFits(Run(FRESH, o, cmds), o, last)
    ensures var s, m, l := Run(FRESH, o, cmds), RunMap(map[], cmds), FreshLedger(o, cmds);
            var s', m' := Step(s, o, last), StepMap(m, last);
            && s.dead == l.puts - LiveBytes(m)
            && s.dead + LiveBytes(m) <= s.end - HEADER_LEN == l.puts + l.others
            && (last.DoPut? || (last.DoDelete? && last.key in m) ==> Bounded(s', o))
            && Balanced(s', m', StepLedger(l, s, m, o, last))
  {
    LiveRunBalances(o, cmds);
    var s, m := Run(FRESH, o, cmds), RunMap(map[], cmds);
    SameKeys(s, m);
    hide Means, Step, Run, RunMap, RunLedger, RunFits, StepFits, Bounded;
    StepBalances(s, m, o, FreshLedger(o, cmds), last);
  }

  // ----- How large the file gets -----

  /**
   * A file is at most twice its live records exactly when the dead Put bytes, the Delete records
   * and the snapshots in it together do not outweigh them.
   */
  lemma TwiceLiveIff(o: Options, cmds: seq<Cmd>)
    requires RunFits(FRESH, o, cmds) && Live(cmds)
    ensures var s, live := Run(FRESH, o, cmds), LiveBytes(RunMap(map[], cmds));
            s.end - HEADER_LEN <= 2 * live <==> s.dead + FreshLedger(o, cmds).others <= live
  {
    LiveRunBalances(o, cmds);
  }

  /** What the threshold keeps: with `kept` the live records, the Delete records and the snapshots. */
  ghost predicate WithinShare(s: Db, m: map<Key, Bytes>, o: Options, l: Ledger) {
    var span, kept := s.end - HEADER_LEN, LiveBytes(m) + l.others;
    && (s.dead == 0 ==> span == kept)
    && (s.dead > 0 ==> (1.0 - o.compactAt) * span as real < kept as real)
    && (s.dead > 0 && o.compactAt == 0.5 ==> span < 2 * kept)
  }

  lemma ShareBounds(s: Db, m: map<Key, Bytes>, o: Options, l: Ledger)
    requires Balanced(s, m, l) && Bounded(s, o)
    ensures WithinShare(s, m, o, l)
  {
    hide LiveBytes;
    var span := s.end - HEADER_LEN;
    assert span == LiveBytes(m) + l.others + s.dead;
    assert (1.0 - o.compactAt) * span as real == span as real - o.compactAt * span as real;
  }

  lemma LastIsBounded(o: Options, cmds: seq<Cmd>, last: Cmd)
    requires RunFits(FRESH, o, cmds + [last]) && Live(cmds + [last])
    requires last.DoPut? || (last.DoDelete? && last.key in RunMap(map[], cmds))
    ensures Bounded(Run(FRESH, o, cmds + [last]), o)
  {
    var s, m := Run(FRESH, o, cmds), RunMap(map[], cmds);
    hide Means, Step, Run, RunMap, FreshLedger, RunLedger, RunFits, StepFits, Bounded, Balanced, Live;
    RunSnoc(FRESH, map[], o, cmds, last);
    LiveRunBalances(o, cmds);
    SameKeys(s, m);
    StepBalances(s, m, o, FreshLedger(o, cmds), last);
  }

  /**
   * The bound the threshold does give, after every put or effective delete: the file is what is
   * kept, live records with Delete records and snapshots counted in, or less than that over one
   * minus the threshold, which is twice it at the default of one half.
   */
  lemma SizeBound(o: Options, cmds: seq<Cmd>, last: Cmd)
    requires RunFits(FRESH, o, cmds + [last]) && Live(cmds + [last])
    requires last.DoPut? || (last.DoDelete? && last.key in RunMap(map[], cmds))
    ensures var all := cmds + [last];
            WithinShare(Run(FRESH, o, all), RunMap(map[], all), o, FreshLedger(o, all))
  {
    hide Means, Run, RunMap, FreshLedger, RunLedger, RunFits, Bounded, Balanced, Live, WithinShare;
    var all := cmds + [last];
    LastIsBounded(o, cmds, last);
    LiveRunBalances(o, all);
    ShareBounds(Run(FRESH, o, all), RunMap(map[], all), o, FreshLedger(o, all));
  }

  lemma {:induction false} RunSnoc(s: Db, m: map<Key, Bytes>, o: Options, cmds: seq<Cmd>, last: Cmd)
    requires s.end <= |s.file| && RunFits(s, o, cmds + [last]) && Live(cmds + [last])
    ensures RunFits(s, o, cmds) && Live(cmds) && !Opening(last)
    ensures Run(s, o, cmds + [last]) == Step(Run(s, o, cmds), o, last)
    ensures RunMap(m, cmds + [last]) == StepMap(RunMap(m, cmds), last)
    ensures StepFits(Run(s, o, cmds), o, last)
    decreases |cmds|
  {
    hide Step, StepMap, StepFits;
    var all := cmds + [last];
    assert all[|cmds|] == last;
    assert forall c :: c in cmds ==> c in all;
    if cmds == [] {
      assert all == [last] && all[1..] == [];
    } else {
      assert all[1..] == cmds[1..] + [last];
      assert all[0] == cmds[0];
      RunSnoc(Step(s, o, cmds[0]), StepMap(m, cmds[0]), o, cmds[1..], last);
    }
  }

  /** No delete along the run hits a live key. */
  predicate NothingDeleted(m: map<Key, Bytes>, cmds: seq<Cmd>)
    decreases |cmds|
  {
    cmds == [] || ((cmds[0].DoDelete? ==> cmds[0].key !in m) && NothingDeleted(StepMap(m, cmds[0]), cmds[1..]))
  }

  lemma {:induction false} OnlyPuts(s: Db, m: map<Key, Bytes>, dead: nat, o: Options, l: Ledger, cmds: seq<Cmd>)
    requires Means(s, m) && CleanPrefix(s, dead) && RunFits(s, o, cmds) && Live(cmds)
    requires NothingDeleted(m, cmds) && !o.snapshot && l.others == 0
    ensures RunLedger(l, s, m, o, cmds).others == 0
    decreases |cmds|
  {
    if cmds != [] {
      SameKeys(s, m);
      assert cmds[0] in cmds;
      assert StepLedger(l, s, m, o, cmds[0]).others == 0 by {
        hide Means, CleanPrefix, Step, NeedsCompact, PutRecord, DeleteRecord, RunFits;
      }
      hide Means, CleanPrefix, Residue, Step, StepMap, StepReplayed, StepFits, StepLedger, ResidueAfter;
      StepKeeps(s, m, dead, o, cmds[0]);
      OnlyPuts(Step(s, o, cmds[0]), StepMap(m, cmds[0]), StepReplayed(dead, s, o, cmds[0]), o,
               StepLedger(l, s, m, o, cmds[0]), cmds[1..]);
    }
  }

  /** The documented bound, where it holds: no snapshots, no live key deleted, and the default threshold. */
  lemma PutsStayWithinTwiceLive(o: Options, cmds: seq<Cmd>, key: Key, value: Bytes)
    requires o == Options(0.5, false)
    requires RunFits(FRESH, o, cmds + [DoPut(key, value)]) && Live(cmds)
    requires NothingDeleted(map[], cmds + [DoPut(key, value)])
    ensures var all := cmds + [DoPut(key, value)];
            Run(FRESH, o, all).end - HEADER_LEN <= 2 * LiveBytes(RunMap(map[], all))
  {
    var all := cmds + [DoPut(key, value)];
    FreshMeansNothing();
    FreshClean();
    CleanHasNoResidue(FRESH, 0);
    hide Means, CleanPrefix, Residue, Run, RunMap, RunFits, RunLedger, NothingDeleted;
    OnlyPuts(FRESH, map[], 0, o, Ledger(0, 0), all);
    SizeBound(o, cmds, DoPut(key, value));
  }

  function Checkpoints(n: nat): seq<Cmd> {
    seq(n, _ => DoCheckpoint)
  }

  /** With snapshots on there is no bound at all: a checkpoint only ever appends. */
  lemma {:induction false} CheckpointsGrow(s: Db, o: Options, n: nat)
    requires o.snapshot && HEADER_LEN <= s.end <= |s.file|
    ensures Run(s, o, Checkpoints(n)).end == s.end + n * |SnapshotBytes(s.index)|
    ensures Run(s, o, Checkpoints(n)).index == s.index
    decreases n
  {
    hide SnapshotBytes, Snapshotted, Step;
    if n > 0 {
      var s' := Step(s, o, DoCheckpoint);
      CheckpointAppends(s, o);
      CheckpointsGrow(s', o, n - 1);
      assert Checkpoints(n)[0] == DoCheckpoint && Checkpoints(n)[1..] == Checkpoints(n - 1);
    }
  }

  lemma CheckpointAppends(s: Db, o: Options)
    requires o.snapshot && s.end <= |s.file|
    ensures var s' := Step(s, o, DoCheckpoint);
            s'.end == s.end + |SnapshotBytes(s.index)| && s'.index == s.index
  {
  }

  /**
   * Even straight after a compaction: the file of one key outweighs twice its live record if and
   * only if the value is shorter than seven bytes, because the snapshot costs more than that.
   */
  lemma SnapshotOutweighsIff(o: Options, key: Key, value: Bytes)
    requires o.snapshot && Fits(key, value)
    ensures var s := Run(FRESH, o, [DoPut(key, value), DoCompact]);
            var m := RunMap(map[], [DoPut(key, value), DoCompact]);
            && m == map[key := value] && Means(s, m)
            && (s.end - HEADER_LEN > 2 * LiveBytes(m) <==> |value| < 7)
  {
    var none: map<Key, Bytes> := map[];
    var s := AfterPut(FRESH, o, key, value);
    assert none[key := value] == map[key := value];
    FreshMeansNothing();
    hide Means, AfterPut, Compacted, LiveBytes, EncodeHeader, Fits;
    AfterPutMeans(FRESH, none, o, key, value);
    OneKeyCompacted(s, o, key, value);
    TwoSteps(FRESH, none, o, DoPut(key, value), DoCompact);
  }

  lemma OneKeyCompacted(s: Db, o: Options, key: Key, value: Bytes)
    requires s.end <= |s.file| && Means(s, map[key := value]) && o.snapshot
    ensures Means(Compacted(s, o), map[key := value])
    ensures Compacted(s, o).end == HEADER_LEN + RecordLen(key, value) + 17 + |key.name|
    ensures LiveBytes(map[key := value]) == RecordLen(key, value)
  {
    var none: map<Key, Bytes> := map[];
    var m: map<Key, Bytes> := map[key := value];
    hide Means, Compacted, SnapshotBytes;
    CompactBalances(s, m, o);
    CompactMeans(s, m, o);
    LiveBytesRemove(m, key);
    assert m - {key} == none;
    SameKeys(Compacted(s, o), m);
    OneKeySnapshot(Compacted(s, o).index, key);
  }

  lemma TwoSteps(s: Db, m: map<Key, Bytes>, o: Options, a: Cmd, b: Cmd)
    requires s.end <= |s.file|
    ensures Run(s, o, [a, b]) == Step(Step(s, o, a), o, b)
    ensures RunMap(m, [a, b]) == StepMap(StepMap(m, a), b)
  {
    hide Step, StepMap;
    assert [a, b][1..] == [b] && [b][1..] == [];
    var s', m' := Step(s, o, a), StepMap(m, a);
    assert Run(s, o, [a, b]) == Run(s', o, [b]) && RunMap(m, [a, b]) == RunMap(m', [b]);
  }

  lemma OneKeySnapshot(index: map<Key, nat>, key: Key)
    requires index.Keys == {key}
    ensures |SnapshotBytes(index)| == 17 + |key.name|
  {
    hide EncodeEntry, ToLe;
    SortedIs([key], {key});
    var entries := EntriesFor(index, [key]);
    assert entries[1..] == [];
    assert EncodeEntries(entries) == EncodeEntry(entries[0]) + [];
  }

  /** Opening the file gives this state, but with `dead` charged as dead. */
  ghost predicate OpensWith(s: Db, dead: nat) {
    OpenFile(s.file) == Ok(s.(dead := dead))
  }

  /**
   * Replay charges a superseding record's own length where live operation charges the superseded
   * one: over any clean file, an overwrite shifts the two counts by those lengths.
   */
  lemma ReplayChargesTheNewer(s: Db, m: map<Key, Bytes>, dead: nat, key: Key, value: Bytes)
    requires s.end <= |s.file| && Kept(s, m, dead, []) && key in m && Fits(key, value)
    ensures PutRecord(s, key, value).dead == s.dead + RecordLen(key, m[key])
    ensures OpensWith(PutRecord(s, key, value), dead + RecordLen(key, value))
  {
    assert Means(s, m);
    SameKeys(s, m);
    hide Kept, CleanPrefix, Clean, PutRecord, Means, OpensWith;
    PutRecordMeans(s, m, key, value);
    PutOpens(s, m, dead, key, value);
  }

  lemma PutOpens(s: Db, m: map<Key, Bytes>, dead: nat, key: Key, value: Bytes)
    requires s.end <= |s.file| && Kept(s, m, dead, []) && key in s.index && Fits(key, value)
    ensures OpensWith(PutRecord(s, key, value), dead + RecordLen(key, value))
  {
    hide Clean, PutRecord, Means, Residue;
    NoResidueIsClean(s, dead);
    PutClean(s, dead, key, value);
    CleanOpens(PutRecord(s, key, value), dead + RecordLen(key, value));
  }

  lemma CleanOpens(s: Db, dead: nat)
    requires Clean(s, dead)
    ensures OpensWith(s, dead)
  {
  }
}
