/**
 * The live session over what a session store keeps: each command is a few operations of the store,
 * and what the store then holds is what a reload is made from.
 */
module SessionBackend {
  import opened Wrappers
  import opened Bytes
  import opened History
  import L = LiveSession
  import R = ReloadTransparency
  import S = StoredSessions

  /** Under which name an archive is marked. */
  type Naming = nat -> Bytes

  /** The store holds this session: its messages, and the name of its archive as the marker. */
  ghost predicate Backed(live: L.Stored, st: S.State, h: Bytes, naming: Naming) {
    && h in st.sessions && st.sessions[h].messages == live.messages
    && match live.archive
       case None => h !in st.archives
       case Some(n) => h in st.archives && st.archives[h] == naming(n)
  }

  /** What a turn hands to the store: nothing at all is not even a write. */
  function TurnWrites(st: S.State, h: Bytes, s: L.Session, preRunLen: nat, info: string): S.State
    requires h in st.sessions
  {
    if preRunLen > |s.history| then st
    else
      var fresh' := L.Kept(s.history[preRunLen..]);
      if fresh' == [] then st else S.Appended(st, h, fresh', info)
  }

  function RewindWrites(st: S.State, h: Bytes, s: L.Session, turns: nat): S.State {
    match L.Boundary(s.history, turns)
    case None => st
    case Some(at) =>
      var offset := if s.summary.Some? then 1 else 0;
      if offset > at then st else S.Truncated(st, h, |L.Kept(s.history[..at][offset..])|)
  }

  /** The store after a command, by the store's own operations. */
  ghost function Writes(st: S.State, h: Bytes, s: L.Session, c: R.Cmd, info: string, naming: Naming): S.State
    requires h in st.sessions && R.CmdValid(s, c)
  {
    match c
    case SendTurn(user, produced) =>
      TurnWrites(st, h, s.(history := L.Prepared(s.history, user) + produced), |s.history|, info)
    case GuestTurn(user, reply) =>
      TurnWrites(st, h, s.(history := L.PreparedForGuest(s.history, user) + [reply]), |s.history|, info)
    case CompactTo(summary, bound) =>
      if s.history == [] || summary == "" then st
      else S.Marked(S.Truncated(st, h, 0), h, naming(L.MaxSeq(s.stored.archives, bound) + 1))
    case RewindBy(turns) => RewindWrites(st, h, s, turns)
    case EvictAndLoad => st
  }

  lemma TurnBacked(st: S.State, h: Bytes, s: L.Session, preRunLen: nat, info: string, naming: Naming)
    requires Backed(s.stored, st, h, naming)
    ensures Backed(L.Finalized(s, preRunLen).s.stored, TurnWrites(st, h, s, preRunLen, info), h, naming)
  {
    hide L.Kept;
    assert AllStored([]) == [] && s.stored.messages + [] == s.stored.messages;
  }

  lemma RewindBacked(st: S.State, h: Bytes, s: L.Session, turns: nat, naming: Naming)
    requires Backed(s.stored, st, h, naming)
    ensures Backed(L.AfterRewind(s, turns).s.stored, RewindWrites(st, h, s, turns), h, naming)
  {
    hide L.Kept, L.Boundary;
  }

  /** One command on the live session, and the store's operations for it, leave the two in step. */
  lemma StepBacked(st: S.State, h: Bytes, s: L.Session, c: R.Cmd, info: string, naming: Naming)
    requires R.CmdValid(s, c) && Backed(s.stored, st, h, naming)
    ensures Backed(R.Step(s, c).s.stored, Writes(st, h, s, c, info, naming), h, naming)
  {
    hide L.Kept, L.Prepared, L.PreparedForGuest, L.AfterRewind, L.Finalized, TurnWrites, RewindWrites;
    match c
    case SendTurn(user, produced) =>
      TurnBacked(st, h, s.(history := L.Prepared(s.history, user) + produced), |s.history|, info, naming);
    case GuestTurn(user, reply) =>
      TurnBacked(st, h, s.(history := L.PreparedForGuest(s.history, user) + [reply]), |s.history|, info, naming);
    case RewindBy(turns) =>
      RewindBacked(st, h, s, turns, naming);
    case _ =>
  }

  /** The store after a run of commands. */
  ghost function RunWrites(st: S.State, h: Bytes, s: L.Session, cmds: seq<R.Cmd>, info: string, naming: Naming): S.State
    requires h in st.sessions
    decreases |cmds|
  {
    if cmds == [] || !R.CmdValid(s, cmds[0]) then st
    else
      var st' := Writes(st, h, s, cmds[0], info, naming);
      if h in st'.sessions then RunWrites(st', h, R.Step(s, cmds[0]).s, cmds[1..], info, naming) else st'
  }

  lemma {:induction false} RunBacked(st: S.State, h: Bytes, s: L.Session, cmds: seq<R.Cmd>, s': L.Session,
                                     info: string, naming: Naming)
    requires Backed(s.stored, st, h, naming) && R.RunsTo(s, cmds, s')
    ensures Backed(s'.stored, RunWrites(st, h, s, cmds, info, naming), h, naming)
    decreases |cmds|
  {
    hide R.Step, R.CmdValid, Writes;
    if cmds != [] {
      StepBacked(st, h, s, cmds[0], info, naming);
      RunBacked(Writes(st, h, s, cmds[0], info, naming), h, R.Step(s, cmds[0]).s, cmds[1..], s', info, naming);
    }
  }

  /** What a load makes live of what the store returns: the archive's text goes before the messages. */
  function Revived(snap: S.Snapshot, texts: map<Bytes, string>): seq<Entry> {
    match snap.archive
    case None => snap.history
    case Some(name) => [UserEntry(if name in texts then texts[name] else L.UNAVAILABLE, "")] + snap.history
  }

  /** The archives by name: no two numbers share one. */
  ghost predicate NamesArchives(naming: Naming, archives: map<nat, string>, texts: map<Bytes, string>) {
    forall n: nat :: (n in archives <==> naming(n) in texts) && (n in archives ==> texts[naming(n)] == archives[n])
  }

  lemma RevivedIsResumed(live: L.Stored, st: S.State, h: Bytes, naming: Naming, texts: map<Bytes, string>)
    requires Backed(live, st, h, naming) && NamesArchives(naming, live.archives, texts)
    ensures S.Loaded(st, h).Some? && Revived(S.Loaded(st, h).value, texts) == L.Resumed(live)
  {
  }

  /**
   * Reload transparency over the store: after any run of safe commands on a session the store was
   * asked to create, loading it from the store gives back the live history, less what is injected
   * per turn and what is not serialized.
   */
  lemma ReloadFromStore(h: Bytes, cmds: seq<R.Cmd>, info: string, naming: Naming, texts: map<Bytes, string>)
    returns (s: L.Session, st: S.State)
    requires R.AllSafe(R.NEW_SESSION, cmds)
    ensures R.RunsTo(R.NEW_SESSION, cmds, s)
    ensures st == RunWrites(S.Created(S.EMPTY, h, info), h, R.NEW_SESSION, cmds, info, naming)
    ensures NamesArchives(naming, s.stored.archives, texts) ==>
              S.Loaded(st, h).Some? && Revived(S.Loaded(st, h).value, texts) == AllStored(L.Kept(s.history))
  {
    hide R.AllSafe, R.RunsTo, RunWrites, L.Kept, AllStored;
    R.NewSessionSynced();
    s := R.ReloadIsTransparent(R.NEW_SESSION, cmds);
    var st0 := S.Created(S.EMPTY, h, info);
    st := RunWrites(st0, h, R.NEW_SESSION, cmds, info, naming);
    RunBacked(st0, h, R.NEW_SESSION, cmds, s, info, naming);
    if NamesArchives(naming, s.stored.archives, texts) {
      RevivedIsResumed(s.stored, st, h, naming, texts);
    }
  }
}
