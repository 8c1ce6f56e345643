/** Evicting a session and loading it again is invisible: when, exactly, and over which runs. */
module ReloadTransparency {
  import opened Wrappers
  import opened History
  import opened LiveSession

  // ----- Kept entries -----

  lemma {:induction false} KeptConcat(a: seq<Entry>, b: seq<Entry>)
    ensures Kept(a + b) == Kept(a) + Kept(b)
    decreases |b|
  {
    if b == [] {
      assert a + b == a;
    } else {
      var last := |b| - 1;
      assert (a + b)[..|a| + last] == a + b[..last];
      KeptConcat(a, b[..last]);
    }
  }

  lemma {:induction false} KeptLength(h: seq<Entry>)
    ensures |Kept(h)| <= |h|
    ensures |Kept(h)| == |h| <==> forall i :: 0 <= i < |h| ==> !h[i].autoInjected
    decreases |h|
  {
    if h != [] {
      KeptLength(h[..|h| - 1]);
    }
  }

  lemma {:induction false} KeptPlain(h: seq<Entry>)
    requires forall i :: 0 <= i < |h| ==> !h[i].autoInjected
    ensures Kept(h) == h
    decreases |h|
  {
    if h != [] {
      KeptPlain(h[..|h| - 1]);
      assert h == h[..|h| - 1] + [h[|h| - 1]];
    }
  }

  lemma {:induction false} KeptIsPlain(h: seq<Entry>)
    ensures forall i :: 0 <= i < |Kept(h)| ==> !Kept(h)[i].autoInjected
    decreases |h|
  {
    if h != [] {
      KeptIsPlain(h[..|h| - 1]);
    }
  }

  lemma KeptOne(e: Entry)
    ensures Kept([e]) == if e.autoInjected then [] else [e]
  {
    assert [e][..0] == [];
  }

  // ----- Turns -----

  /** How many stale framing entries a turn strips. */
  function Stale(h: seq<Entry>): (n: nat)
  {
    KeptLength(h);
    |h| - |Kept(h)|
  }

  /** How many framing entries preparing a turn injects: a guest's words in the history decide. */
  function Fresh(h: seq<Entry>, user: Entry): nat {
    if HasGuest(Kept(h) + [user]) then 1 else 0
  }

  ghost predicate PlainUser(user: Entry) {
    !user.autoInjected && user.agent == ""
  }

  ghost predicate AllInjected(h: seq<Entry>) {
    forall i :: 0 <= i < |h| ==> h[i].autoInjected
  }

  ghost predicate NoneInjected(h: seq<Entry>) {
    forall i :: 0 <= i < |h| ==> !h[i].autoInjected
  }

  lemma {:induction false} KeptInjected(h: seq<Entry>)
    requires AllInjected(h)
    ensures Kept(h) == []
    decreases |h|
  {
    if h != [] {
      KeptInjected(h[..|h| - 1]);
    }
  }

  /** A prepared history is the kept entries, then the injected framing, then the message. */
  ghost predicate PreparedAs(prepared: seq<Entry>, h: seq<Entry>, user: Entry, framing: seq<Entry>) {
    prepared == Kept(h) + framing + [user] && AllInjected(framing)
  }

  lemma PreparedShape(h: seq<Entry>, user: Entry) returns (framing: seq<Entry>, guestFraming: seq<Entry>)
    requires PlainUser(user)
    ensures PreparedAs(Prepared(h, user), h, user, framing) && |framing| == Fresh(h, user)
    ensures PreparedAs(PreparedForGuest(h, user), h, user, guestFraming) && |guestFraming| == 1
  {
    KeptConcat(h, [user]);
    KeptOne(user);
    hide Kept;
    var kept := Kept(h + [user]);
    framing := if HasGuest(kept) then [Injected(UserEntry(FRAMING, ""))] else [];
    guestFraming := [Injected(UserEntry(FRAMING, "").(role := System))];
    InsertBeforeLast(Kept(h), user, guestFraming[0]);
    if framing != [] {
      InsertBeforeLast(Kept(h), user, framing[0]);
    }
  }

  lemma InsertBeforeLast(h: seq<Entry>, last: Entry, e: Entry)
    ensures Insert(h + [last], |h + [last]| - 1, e) == h + [e] + [last]
  {
  }

  /** What of a turn's entries lies `skip` or more entries past the kept ones. */
  lemma TailKept(framing: seq<Entry>, said: seq<Entry>, skip: nat)
    requires AllInjected(framing) && NoneInjected(said) && skip <= |framing| + |said|
    ensures Kept((framing + said)[skip..]) == if skip <= |framing| then said else said[skip - |framing|..]
  {
    if skip <= |framing| {
      assert (framing + said)[skip..] == framing[skip..] + said;
      KeptConcat(framing[skip..], said);
      KeptInjected(framing[skip..]);
      KeptPlain(said);
    } else {
      assert (framing + said)[skip..] == said[skip - |framing|..];
      KeptPlain(said[skip - |framing|..]);
    }
  }

  lemma PreparedSplit(prepared: seq<Entry>, h: seq<Entry>, user: Entry, framing: seq<Entry>, produced: seq<Entry>, skip: nat)
    requires PreparedAs(prepared, h, user, framing) && skip <= |framing| + 1 + |produced|
    ensures prepared + produced == Kept(h) + (framing + ([user] + produced))
    ensures (prepared + produced)[|Kept(h)| + skip..] == (framing + ([user] + produced))[skip..]
  {
    hide Kept;
    assert prepared + produced == Kept(h) + (framing + ([user] + produced));
  }

  lemma PreparedKept(prepared: seq<Entry>, h: seq<Entry>, user: Entry, framing: seq<Entry>, produced: seq<Entry>)
    requires PreparedAs(prepared, h, user, framing) && PlainUser(user) && NoneInjected(produced)
    ensures Kept(prepared + produced) == Kept(h) + ([user] + produced)
  {
    hide Kept;
    var said := [user] + produced;
    PreparedSplit(prepared, h, user, framing, produced, 0);
    KeptConcat(Kept(h), framing + said);
    KeptIsPlain(h);
    KeptPlain(Kept(h));
    TailKept(framing, said, 0);
    assert (framing + said)[0..] == framing + said;
  }

  /** How many of a turn's own entries the length taken before it cuts off. */
  function Lost(h: seq<Entry>, framing: seq<Entry>): nat {
    if Stale(h) <= |framing| then 0 else Stale(h) - |framing|
  }

  /** A turn that does not panic gives storage the message and the reply, less the lost ones. */
  lemma TurnStores(s: Session, prepared: seq<Entry>, user: Entry, framing: seq<Entry>, produced: seq<Entry>)
    requires PreparedAs(prepared, s.history, user, framing) && PlainUser(user) && NoneInjected(produced)
    requires |s.history| <= |prepared| + |produced|
    ensures var said, lost := [user] + produced, Lost(s.history, framing);
            lost <= |said| && AfterTurn(s, prepared, produced) == Returned(Session(
              prepared + produced, s.summary,
              s.stored.(messages := s.stored.messages + AllStored(said[lost..]), summary := s.summary)))
  {
    var stale := Stale(s.history);
    assert |s.history| == |Kept(s.history)| + stale;
    hide *;
    TailStored(prepared, s.history, user, framing, produced, stale);
    FinalizedIs(s.(history := prepared + produced), |s.history|, [user] + produced, Lost(s.history, framing));
    AfterTurnIs(s, prepared, produced);
  }

  lemma AfterTurnIs(s: Session, prepared: seq<Entry>, produced: seq<Entry>)
    ensures AfterTurn(s, prepared, produced) == Finalized(s.(history := prepared + produced), |s.history|)
  {
  }

  lemma FinalizedIs(s: Session, preRunLen: nat, said: seq<Entry>, lost: nat)
    requires preRunLen <= |s.history| && lost <= |said| && Kept(s.history[preRunLen..]) == said[lost..]
    ensures Finalized(s, preRunLen) == Returned(Session(s.history, s.summary,
              s.stored.(messages := s.stored.messages + AllStored(said[lost..]), summary := s.summary)))
  {
    hide Kept, AllStored;
  }

  lemma TailStored(prepared: seq<Entry>, h: seq<Entry>, user: Entry, framing: seq<Entry>, produced: seq<Entry>, stale: nat)
    requires PreparedAs(prepared, h, user, framing) && PlainUser(user) && NoneInjected(produced)
    requires stale == Stale(h) && |h| == |Kept(h)| + stale && |h| <= |prepared| + |produced|
    ensures var said, lost := [user] + produced, Lost(h, framing);
            lost <= |said| && Kept((prepared + produced)[|h|..]) == said[lost..]
  {
    var said := [user] + produced;
    assert stale <= |framing| + |said| && Lost(h, framing) == if stale <= |framing| then 0 else stale - |framing|;
    assert said[0..] == said && NoneInjected(said);
    hide *;
    PreparedSplit(prepared, h, user, framing, produced, stale);
    TailKept(framing, said, stale);
  }

  lemma ResumedGrows(st: Stored, more: seq<Entry>, summary: Option<string>)
    ensures Resumed(st.(messages := st.messages + more, summary := summary)) == Resumed(st) + more
  {
  }

  /**
   * A finished turn leaves live and stored in agreement if and only if preparing it injected at
   * least as many framing entries as it stripped. Otherwise the first messages of the turn, the
   * user's own first of all, never reach storage.
   */
  lemma TurnSyncedIff(s: Session, prepared: seq<Entry>, user: Entry, framing: seq<Entry>, produced: seq<Entry>)
    requires Synced(s) && PreparedAs(prepared, s.history, user, framing)
    requires PlainUser(user) && NoneInjected(produced)
    ensures var r := AfterTurn(s, prepared, produced);
            (r.Returned? && Synced(r.s)) <==> Stale(s.history) <= |framing|
  {
    var h, said, lost := s.history, [user] + produced, Lost(s.history, framing);
    if |h| <= |prepared| + |produced| {
      TurnStores(s, prepared, user, framing, produced);
      PreparedKept(prepared, h, user, framing, produced);
      StoredConcat(Kept(h), said);
      ResumedGrows(s.stored, AllStored(said[lost..]), s.summary);
      if s.summary.Some? {
        FirstStays(s, prepared);
      }
      hide Kept, AllStored, Resumed;
      assert lost == 0 ==> said[lost..] == said;
    }
  }

  lemma FirstStays(s: Session, prepared: seq<Entry>)
    requires Synced(s) && s.summary.Some?
    requires |Kept(s.history)| <= |prepared| && prepared[..|Kept(s.history)|] == Kept(s.history)
    ensures prepared != [] && !prepared[0].autoInjected
  {
    KeptIsPlain(s.history);
    assert |Resumed(s.stored)| >= 1;
    assert prepared[0] == Kept(s.history)[0];
  }

  /** A turn that ends before it is finalized (an unknown agent, a failed guest stream) is out of step. */
  lemma UnfinishedTurnIsUnsynced(s: Session, prepared: seq<Entry>, user: Entry, framing: seq<Entry>)
    requires Synced(s) && PreparedAs(prepared, s.history, user, framing) && PlainUser(user)
    ensures !Synced(s.(history := prepared))
  {
    PreparedKept(prepared, s.history, user, framing, []);
    assert prepared + [] == prepared;
    StoredConcat(Kept(s.history), [user] + []);
  }

  // ----- Compaction -----

  /** The next archive number is free, so no earlier archive is overwritten, and no number is skipped. */
  lemma NextArchiveIsFree(archives: map<nat, string>, bound: nat)
    requires forall k :: k in archives ==> k <= bound
    ensures var next := MaxSeq(archives, bound) + 1;
            (forall k :: k in archives ==> k < next) && (next == 1 || next - 1 in archives)
  {
    MaxSeqIs(archives, bound);
  }

  /** Compaction agrees with storage whatever was there before it. */
  lemma CompactSyncs(s: Session, summary: string, name: nat)
    requires s.history != [] && summary != ""
    ensures Synced(AfterCompact(s, summary, name))
  {
    KeptOne(UserEntry(summary, ""));
  }

  // ----- Rewind -----

  /**
   * A rewind keeps live and stored in agreement if and only if its boundary is not the archive
   * entry itself: there the slice behind the archive panics, after the live history is already cut.
   */
  lemma RewindSyncedIff(s: Session, turns: nat)
    requires Synced(s)
    ensures var r := AfterRewind(s, turns);
            (r.Returned? && Synced(r.s)) <==> !(s.summary.Some? && Boundary(s.history, turns) == Some(0))
    ensures s.summary.Some? && Boundary(s.history, turns) == Some(0) ==>
              AfterRewind(s, turns) == Panicked(s.(history := []))
  {
    match Boundary(s.history, turns)
    case None =>
    case Some(at) =>
      if !(s.summary.Some? && at == 0) {
        RewindSyncs(s, at);
      }
  }

  lemma RewindSyncs(s: Session, at: nat)
    requires Synced(s) && at <= |s.history| && (s.summary.Some? ==> at > 0)
    ensures var live := s.history[..at];
            var offset := if s.summary.Some? then 1 else 0;
            var keep := |Kept(live[offset..])|;
            && keep <= |s.stored.messages|
            && Synced(s.(history := live, stored := s.stored.(messages := s.stored.messages[..keep])))
  {
    var h, live := s.history, s.history[..at];
    var offset := if s.summary.Some? then 1 else 0;
    CutKept(h, at, offset);
    StoredConcat(Kept(live), Kept(h[at..]));
    hide Kept, AllStored, Resumed;
    var keep := |Kept(live[offset..])|;
    assert |Kept(live)| == offset + keep;
    ResumedPrefix(s.stored, offset, keep);
    assert Resumed(s.stored)[..offset + keep] == AllStored(Kept(live));
  }

  lemma KeptSplit(h: seq<Entry>, at: nat)
    requires at <= |h|
    ensures Kept(h) == Kept(h[..at]) + Kept(h[at..])
  {
    hide Kept;
    assert h == h[..at] + h[at..];
    KeptConcat(h[..at], h[at..]);
  }

  lemma CutKept(h: seq<Entry>, at: nat, offset: nat)
    requires offset <= at <= |h| && offset <= 1 && (offset == 1 ==> !h[0].autoInjected)
    ensures Kept(h) == Kept(h[..at]) + Kept(h[at..])
    ensures Kept(h[..at]) == h[..offset] + Kept(h[..at][offset..])
  {
    hide Kept;
    KeptSplit(h, at);
    KeptSplit(h[..at], offset);
    assert h[..at][..offset] == h[..offset];
    KeptPlain(h[..offset]);
  }

  lemma ResumedPrefix(st: Stored, offset: nat, n: nat)
    requires offset == (if st.archive.Some? then 1 else 0)
    requires offset + n <= |Resumed(st)|
    ensures n <= |st.messages| && Resumed(st.(messages := st.messages[..n])) == Resumed(st)[..offset + n]
  {
    if st.archive.Some? {
      PrefixBehind(Resumed(st)[..1], st.messages, n);
    }
  }

  lemma PrefixBehind(first: seq<Entry>, rest: seq<Entry>, n: nat)
    requires n <= |rest|
    ensures (first + rest)[..|first| + n] == first + rest[..n]
  {
  }

  // ----- Pairing across a rewind -----

  /** Cutting a well-paired history leaves it well paired if and only if the cut is not at a result. */
  lemma {:induction false} CutPairedIff(h: seq<Entry>, at: nat)
    requires WellPaired(h) && at < |h|
    ensures WellPaired(h[..at]) <==> h[at].result.None?
    decreases |h|
  {
    var n := |h[0].calls|;
    var cut := h[..at];
    if at > n {
      CutPairedIff(h[1 + n..], at - 1 - n);
      assert h[1 + n..][..at - 1 - n] == cut[1 + n..];
      assert cut[1..1 + n] == h[1..1 + n];
    } else if at > 0 {
      assert h[at] == h[1..1 + n][at - 1];
    }
  }

  /**
   * Tool results have the user role, so a rewind counts them as turns. It keeps every call with
   * its results if and only if the entry it lands on is not a result.
   */
  lemma RewindPairedIff(s: Session, turns: nat)
    requires WellPaired(s.history) && Boundary(s.history, turns).Some?
    ensures WellPaired(AfterRewind(s, turns).s.history)
       <==> s.history[Boundary(s.history, turns).value].result.None?
  {
    CutPairedIff(s.history, Boundary(s.history, turns).value);
  }

  /** Rewinding one turn after a tool round orphans the call: the newest result is the boundary. */
  lemma RewindOrphansCall(s: Session, user: Entry, call: Call, output: string, reply: string)
    requires s.summary.None? && OpensTurn(user) && user.calls == [] && user.result.None?
    requires s.history == [user, AssistantEntry("", [call]), ToolEntry(output, call), AssistantEntry(reply, [])]
    ensures WellPaired(s.history)
    ensures var h := AfterRewind(s, 1).s.history; h == s.history[..2] && !WellPaired(h)
  {
    var h := s.history;
    assert h[..3][2] == h[2];
    assert Boundary(h, 1) == Boundary(h[..3], 1) == Some(2);
    assert h[1..1] == [] && h[4..] == [];
    assert h[1..] == [h[1], h[2], h[3]];
    assert h[1..][1..2] == [h[2]] && h[1..][2..] == [h[3]];
    WellPairedSingle(h[3]);
    assert WellPaired(h[1..]);
    CutPairedIff(h, 2);
  }

  // ----- Runs -----

  datatype Cmd =
    | SendTurn(user: Entry, produced: seq<Entry>)
    | GuestTurn(user: Entry, reply: Entry)
    | CompactTo(summary: string, bound: nat)
    | RewindBy(turns: nat)
    | EvictAndLoad

  ghost predicate CmdValid(s: Session, c: Cmd) {
    match c
    case SendTurn(user, produced) =>
      PlainUser(user) && forall i :: 0 <= i < |produced| ==> !produced[i].autoInjected && produced[i].agent == ""
    case GuestTurn(user, reply) => PlainUser(user) && !reply.autoInjected && reply.agent != ""
    case CompactTo(_, bound) => forall k :: k in s.stored.archives ==> k <= bound
    case _ => true
  }

  ghost function Step(s: Session, c: Cmd): Outcome
    requires CmdValid(s, c)
  {
    match c
    case SendTurn(user, produced) => AfterTurn(s, Prepared(s.history, user), produced)
    case GuestTurn(user, reply) => AfterTurn(s, PreparedForGuest(s.history, user), [reply])
    case CompactTo(summary, bound) => Returned(AfterCompact(s, summary, MaxSeq(s.stored.archives, bound) + 1))
    case RewindBy(turns) => AfterRewind(s, turns)
    case EvictAndLoad => Returned(Loaded(s.stored))
  }

  /** What a caller can check before each command for the theorem below to apply. */
  ghost predicate Safe(s: Session, c: Cmd) {
    match c
    case SendTurn(user, _) => Stale(s.history) <= Fresh(s.history, user)
    case GuestTurn(_, _) => Stale(s.history) <= 1
    case RewindBy(turns) => !(s.summary.Some? && Boundary(s.history, turns) == Some(0))
    case _ => true
  }

  lemma LoadedSyncs(s: Session)
    requires Synced(s) && (forall i :: 0 <= i < |s.stored.messages| ==> !s.stored.messages[i].autoInjected && s.stored.messages[i].sender == "")
    ensures Synced(Loaded(s.stored)) && Loaded(s.stored).history == AllStored(Kept(s.history))
  {
    var h := Resumed(s.stored);
    KeptPlain(h);
    assert AllStored(h) == h;
  }

  /** Storage never holds injected entries or senders. */
  ghost predicate PlainStored(st: Stored) {
    forall i :: 0 <= i < |st.messages| ==> !st.messages[i].autoInjected && st.messages[i].sender == ""
  }

  lemma StepStaysPlain(s: Session, c: Cmd)
    requires CmdValid(s, c) && PlainStored(s.stored)
    ensures PlainStored(Step(s, c).s.stored)
  {
  }

  /** Each command keeps live and stored in agreement exactly when it was safe to issue. */
  lemma StepSyncedIff(s: Session, c: Cmd)
    requires Synced(s) && PlainStored(s.stored) && CmdValid(s, c)
    ensures var r := Step(s, c); (r.Returned? && Synced(r.s)) <==> Safe(s, c)
  {
    match c
    case SendTurn(user, produced) =>
      var framing, _ := PreparedShape(s.history, user);
      TurnSyncedIff(s, Prepared(s.history, user), user, framing, produced);
    case GuestTurn(user, reply) =>
      var _, framing := PreparedShape(s.history, user);
      TurnSyncedIff(s, PreparedForGuest(s.history, user), user, framing, [reply]);
    case CompactTo(summary, bound) =>
      if s.history != [] && summary != "" {
        CompactSyncs(s, summary, MaxSeq(s.stored.archives, bound) + 1);
      }
    case RewindBy(turns) => RewindSyncedIff(s, turns);
    case EvictAndLoad => LoadedSyncs(s);
  }

  /** The states a run of commands passes through, up to the first panic. */
  ghost predicate RunsTo(s: Session, cmds: seq<Cmd>, s': Session)
    decreases |cmds|
  {
    if cmds == [] then s' == s
    else CmdValid(s, cmds[0]) && Step(s, cmds[0]).Returned? && RunsTo(Step(s, cmds[0]).s, cmds[1..], s')
  }

  ghost predicate AllSafe(s: Session, cmds: seq<Cmd>)
    decreases |cmds|
  {
    cmds == [] || (CmdValid(s, cmds[0]) && Safe(s, cmds[0]) && AllSafe(Step(s, cmds[0]).s, cmds[1..]))
  }

  /**
   * Reload transparency: over any run of safe turns, compactions, rewinds and reloads, no command
   * panics, and evicting then loading gives back the live history without its injected entries.
   */
  lemma {:induction false} ReloadIsTransparent(s: Session, cmds: seq<Cmd>) returns (s': Session)
    requires Synced(s) && PlainStored(s.stored) && AllSafe(s, cmds)
    ensures RunsTo(s, cmds, s') && Synced(s')
    ensures Loaded(s'.stored).history == AllStored(Kept(s'.history)) && Synced(Loaded(s'.stored))
    decreases |cmds|
  {
    if cmds == [] {
      s' := s;
      LoadedSyncs(s);
    } else {
      StepSyncedIff(s, cmds[0]);
      StepStaysPlain(s, cmds[0]);
      s' := ReloadIsTransparent(Step(s, cmds[0]).s, cmds[1..]);
    }
  }

  const NEW_SESSION: Session := Session([], None, Stored([], None, None, map[]))

  lemma NewSessionSynced()
    ensures Synced(NEW_SESSION) && PlainStored(NEW_SESSION.stored)
  {
  }

  lemma StaleOf(a: seq<Entry>, b: seq<Entry>)
    ensures Stale(a + b) == Stale(a) + Stale(b)
  {
    KeptConcat(a, b);
    hide Kept;
  }

  lemma PreparedStale(prepared: seq<Entry>, h: seq<Entry>, user: Entry, framing: seq<Entry>, produced: seq<Entry>)
    requires PreparedAs(prepared, h, user, framing) && PlainUser(user) && NoneInjected(produced)
    ensures Stale(prepared + produced) == |framing|
  {
    PreparedKept(prepared, h, user, framing, produced);
    hide Kept;
    assert |prepared + produced| == |Kept(h)| + |framing| + 1 + |produced|;
  }

  /** Whatever the command, and even if it panics, no more than one entry is stale afterwards. */
  lemma StepLeavesOneStale(s: Session, c: Cmd)
    requires CmdValid(s, c) && PlainStored(s.stored) && Stale(s.history) <= 1
    ensures Stale(Step(s, c).s.history) <= 1
  {
    match c
    case SendTurn(user, produced) =>
      var framing, _ := PreparedShape(s.history, user);
      PreparedStale(Prepared(s.history, user), s.history, user, framing, produced);
    case GuestTurn(user, reply) =>
      var _, framing := PreparedShape(s.history, user);
      PreparedStale(PreparedForGuest(s.history, user), s.history, user, framing, [reply]);
    case CompactTo(summary, bound) =>
      KeptOne(UserEntry(summary, ""));
    case RewindBy(turns) =>
      match Boundary(s.history, turns) {
        case Some(at) =>
          StaleOf(s.history[..at], s.history[at..]);
          assert s.history == s.history[..at] + s.history[at..];
        case None =>
      }
    case EvictAndLoad =>
      KeptPlain(Resumed(s.stored));
  }

  lemma {:induction false} RunLeavesOneStale(s: Session, cmds: seq<Cmd>, s': Session)
    requires RunsTo(s, cmds, s') && PlainStored(s.stored) && Stale(s.history) <= 1
    ensures PlainStored(s'.stored) && Stale(s'.history) <= 1
    decreases |cmds|
  {
    hide Step, CmdValid, Stale, PlainStored;
    if cmds != [] {
      StepStaysPlain(s, cmds[0]);
      StepLeavesOneStale(s, cmds[0]);
      RunLeavesOneStale(Step(s, cmds[0]).s, cmds[1..], s');
    }
  }

  /** So in any run of a new session a guest's turn is safe, and an ordinary one is if it frames or nothing is stale. */
  lemma GuestTurnsAreSafe(cmds: seq<Cmd>, s: Session, user: Entry, reply: Entry)
    requires RunsTo(NEW_SESSION, cmds, s)
    ensures Safe(s, GuestTurn(user, reply))
    ensures forall produced :: Safe(s, SendTurn(user, produced)) <==> Stale(s.history) == 0 || Fresh(s.history, user) == 1
  {
    assert Stale(NEW_SESSION.history) == 0;
    RunLeavesOneStale(NEW_SESSION, cmds, s);
    hide Stale, Fresh, RunsTo;
    assert Fresh(s.history, user) <= 1 by {
      FreshAtMostOne(s.history, user);
    }
  }

  lemma FreshAtMostOne(h: seq<Entry>, user: Entry)
    ensures Fresh(h, user) <= 1
  {
  }

  /**
   * The unsafe case is reachable from a new session in three commands: a guest's turn, a rewind
   * past it, and an ordinary turn whose message storage then never sees.
   */
  lemma GuestRewindLosesMessage(first: Entry, reply: Entry, user: Entry, produced: seq<Entry>)
    requires PlainUser(first) && first.role == User && PlainUser(user)
    requires !reply.autoInjected && reply.agent != "" && reply.role == Assistant
    requires forall i :: 0 <= i < |produced| ==> !produced[i].autoInjected && produced[i].agent == ""
    ensures var s1 := Step(NEW_SESSION, GuestTurn(first, reply)).s;
            var s2 := Step(s1, RewindBy(1)).s;
            var s3 := Step(s2, SendTurn(user, produced)).s;
            && RunsTo(NEW_SESSION, [GuestTurn(first, reply), RewindBy(1), SendTurn(user, produced)], s3)
            && s3.history == [user] + produced && s3.stored.messages == AllStored(produced)
            && !Synced(s3)
  {
    hide Kept, Boundary, Prepared, PreparedForGuest, AllStored, HasGuest, Finalized;
    var framing := Injected(UserEntry(FRAMING, "").(role := System));
    var c1, c2, c3 := GuestTurn(first, reply), RewindBy(1), SendTurn(user, produced);
    var s1 := Step(NEW_SESSION, c1).s;
    var s2 := Step(s1, c2).s;
    GuestOnly(first, reply, framing);
    RewindLeavesFraming(s1, first, reply, framing);
    StaleFramingSwallows(s2, framing, user, produced);
    hide Step, Synced, PlainUser, OpensTurn;
    RunsToThree(NEW_SESSION, c1, c2, c3);
  }

  lemma RunsToThree(s: Session, c1: Cmd, c2: Cmd, c3: Cmd)
    requires CmdValid(s, c1) && Step(s, c1).Returned?
    requires var s1 := Step(s, c1).s; CmdValid(s1, c2) && Step(s1, c2).Returned?
    requires var s2 := Step(Step(s, c1).s, c2).s; CmdValid(s2, c3) && Step(s2, c3).Returned?
    ensures RunsTo(s, [c1, c2, c3], Step(Step(Step(s, c1).s, c2).s, c3).s)
  {
    hide Step, CmdValid;
    var cmds := [c1, c2, c3];
    assert cmds[1..] == [c2, c3] && [c2, c3][1..] == [c3] && [c3][1..] == [];
    var s2 := Step(Step(s, c1).s, c2).s;
    assert RunsTo(s2, [c3], Step(s2, c3).s);
    assert RunsTo(Step(s, c1).s, [c2, c3], Step(s2, c3).s);
  }

  lemma GuestOnly(first: Entry, reply: Entry, framing: Entry)
    requires PlainUser(first) && !reply.autoInjected && reply.agent != ""
    requires framing == Injected(UserEntry(FRAMING, "").(role := System))
    ensures var r := Step(NEW_SESSION, GuestTurn(first, reply));
            && r.Returned? && r.s.history == [framing, first, reply] && r.s.summary.None?
            && r.s.stored == Stored(AllStored([first, reply]), None, None, map[])
  {
    var _, g := PreparedShape([], first);
    assert Kept([first]) == [first] by { KeptOne(first); }
    assert [] + [first] == [first];
    var p := PreparedForGuest([], first);
    assert p == [framing, first];
    TurnStores(NEW_SESSION, p, first, g, [reply]);
    assert [first] + [reply] == [first, reply] == [first, reply][0..];
    assert [framing, first] + [reply] == [framing, first, reply];
  }

  lemma RewindLeavesFraming(s: Session, first: Entry, reply: Entry, framing: Entry)
    requires s.history == [framing, first, reply] && s.summary.None? && framing.autoInjected
    requires OpensTurn(first) && !OpensTurn(reply)
    ensures AfterRewind(s, 1) == Returned(s.(history := [framing], stored := s.stored.(messages := [])))
  {
    var h := s.history;
    assert h[..2] == [framing, first];
    assert Boundary(h, 1) == Boundary(h[..2], 1) == Some(1);
    assert h[..1] == [framing] == [framing][0..];
    KeptOne(framing);
    assert s.stored.messages[..0] == [];
  }

  /** With stale framing and no guest in sight, preparing a turn strips one entry and adds none. */
  lemma NothingFresh(framing: Entry, user: Entry)
    requires framing.autoInjected && PlainUser(user)
    ensures PreparedAs(Prepared([framing], user), [framing], user, []) && Prepared([framing], user) == [user]
    ensures Stale([framing]) == 1
  {
    KeptOne(framing);
    KeptOne(user);
    KeptConcat([framing], [user]);
    var f, _ := PreparedShape([framing], user);
    hide Kept;
    assert [] + [user] == [user];
    assert f == [];
  }

  lemma StaleFramingSwallows(s: Session, framing: Entry, user: Entry, produced: seq<Entry>)
    requires s.history == [framing] && framing.autoInjected && s.stored == Stored([], None, None, map[]) && s.summary.None?
    requires PlainUser(user)
    requires forall i :: 0 <= i < |produced| ==> !produced[i].autoInjected && produced[i].agent == ""
    ensures var r := Step(s, SendTurn(user, produced));
            && r.Returned? && r.s.history == [user] + produced && r.s.stored.messages == AllStored(produced)
            && !Synced(r.s)
  {
    hide Kept, HasGuest, Prepared, Stale, AllStored, Synced, Finalized, PreparedAs;
    NothingFresh(framing, user);
    var p := Prepared([framing], user);
    assert Lost([framing], []) == 1 && NoneInjected(produced);
    assert Step(s, SendTurn(user, produced)) == AfterTurn(s, p, produced);
    hide *;
    TurnStores(s, p, user, [], produced);
    assert ([user] + produced)[1..] == produced;
    ShortStore(Step(s, SendTurn(user, produced)).s, user, produced);
  }

  lemma ShortStore(s: Session, user: Entry, produced: seq<Entry>)
    requires s.history == [user] + produced && s.stored.archive == None && s.stored.messages == AllStored(produced)
    requires !user.autoInjected && forall i :: 0 <= i < |produced| ==> !produced[i].autoInjected
    ensures !Synced(s)
  {
    KeptPlain([user] + produced);
    hide Kept;
    assert |AllStored(Kept(s.history))| == 1 + |produced|;
  }
}
