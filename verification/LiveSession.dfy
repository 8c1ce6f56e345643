/**
 * One session at two layers: the live history a run works on, and what storage holds of it. A
 * live session may be evicted and loaded again at any time between turns, so the two must agree.
 */
module LiveSession {
  import opened Wrappers
  import opened History

  // ----- State -----

  /** Storage's half: the messages since the last compaction, and where its summary went. */
  datatype Stored = Stored(
    messages: seq<Entry>,
    archive: Option<nat>,
    summary: Option<string>,
    archives: map<nat, string>)

  datatype Session = Session(history: seq<Entry>, summary: Option<string>, stored: Stored)

  /** A slice past the end of the history is a panic; the state is what it was at that moment. */
  datatype Outcome = Returned(s: Session) | Panicked(s: Session)

  // ----- Entries -----

  function Kept(h: seq<Entry>): seq<Entry> {
    if h == [] then []
    else
      var rest := Kept(h[..|h| - 1]);
      if h[|h| - 1].autoInjected then rest else rest + [h[|h| - 1]]
  }

  predicate HasGuest(h: seq<Entry>) {
    exists i :: 0 <= i < |h| && h[i].agent != ""
  }

  function Injected(e: Entry): Entry {
    e.(autoInjected := true)
  }

  /** The framing's wording is not part of the model. */
  const FRAMING: string := "framing"

  function Insert(h: seq<Entry>, at: nat, e: Entry): seq<Entry>
    requires at <= |h|
  {
    h[..at] + [e] + h[at..]
  }

  // ----- Loading -----

  /** The placeholder for an archive that is gone; its wording is not part of the model. */
  const UNAVAILABLE: string := "gone"

  /** What a load makes live: the archive's text, or a placeholder, before the stored messages. */
  function Resumed(st: Stored): seq<Entry> {
    match st.archive
    case None => st.messages
    case Some(n) =>
      [UserEntry(if n in st.archives then st.archives[n] else UNAVAILABLE, "")] + st.messages
  }

  function Loaded(st: Stored): Session {
    Session(Resumed(st), st.summary, st)
  }

  /** Live and stored agree: a load gives the live history back, less what is injected per turn. */
  ghost predicate Synced(s: Session) {
    && AllStored(Kept(s.history)) == Resumed(s.stored)
    && s.summary == s.stored.summary
    && (s.summary.Some? <==> s.stored.archive.Some?)
    && (s.summary.Some? ==> s.history != [] && !s.history[0].autoInjected)
  }

  // ----- A turn -----

  /** The new message goes last, stale framing goes, and fresh framing is put before the message. */
  function Prepared(h: seq<Entry>, user: Entry): seq<Entry> {
    var kept := Kept(h + [user]);
    if HasGuest(kept) && kept != [] then Insert(kept, |kept| - 1, Injected(UserEntry(FRAMING, ""))) else kept
  }

  /** A guest's turn frames unconditionally, and as the system. */
  function PreparedForGuest(h: seq<Entry>, user: Entry): seq<Entry> {
    var kept := Kept(h + [user]);
    if kept == [] then kept else Insert(kept, |kept| - 1, Injected(UserEntry(FRAMING, "").(role := System)))
  }

  /** Persist what follows the length taken before the turn was prepared. */
  function Finalized(s: Session, preRunLen: nat): Outcome {
    if preRunLen > |s.history| then Panicked(s)
    else
      var st := s.stored;
      Returned(s.(stored := st.(messages := st.messages + AllStored(Kept(s.history[preRunLen..])),
                                summary := s.summary)))
  }

  function AfterTurn(s: Session, prepared: seq<Entry>, produced: seq<Entry>): Outcome {
    Finalized(s.(history := prepared + produced), |s.history|)
  }

  // ----- Compaction -----

  function MaxSeq(archives: map<nat, string>, n: nat): nat
    requires forall k :: k in archives ==> k <= n
  {
    if n == 0 || n in archives then n else MaxSeq(archives, n - 1)
  }

  /** The largest number in use, or zero. */
  lemma {:induction false} MaxSeqIs(archives: map<nat, string>, bound: nat)
    requires forall k :: k in archives ==> k <= bound
    ensures MaxSeq(archives, bound) == 0 || MaxSeq(archives, bound) in archives
    ensures forall k :: k in archives ==> k <= MaxSeq(archives, bound)
    decreases bound
  {
    if bound != 0 && bound !in archives {
      MaxSeqIs(archives, bound - 1);
    }
  }

  /** Summarize: archive under `name`, empty the stored messages, keep the summary as history. */
  function AfterCompact(s: Session, summary: string, name: nat): Session {
    if s.history == [] || summary == "" then s
    else Session([UserEntry(summary, "")], Some(summary),
                 Stored([], Some(name), Some(summary), s.stored.archives[name := summary]))
  }

  // ----- Rewind -----

  predicate OpensTurn(e: Entry) {
    e.role == User && !e.autoInjected
  }

  /** Counting turn-opening entries back from the end, where the `turns`-th is; none for zero turns. */
  function Boundary(h: seq<Entry>, turns: nat): (r: Option<nat>)
    ensures r.Some? ==> r.value < |h| && OpensTurn(h[r.value])
  {
    if h == [] || turns == 0 then None
    else
      var last := |h| - 1;
      if !OpensTurn(h[last]) then Boundary(h[..last], turns)
      else if turns == 1 then Some(last)
      else Boundary(h[..last], turns - 1)
  }

  /** The turns a stretch of history holds: its entries of the user role that were not injected. */
  function Turns(h: seq<Entry>): nat {
    if h == [] then 0
    else Turns(h[..|h| - 1]) + if h[|h| - 1].role == User && !h[|h| - 1].autoInjected then 1 else 0
  }

  lemma {:induction false} TurnsConcat(a: seq<Entry>, b: seq<Entry>)
    ensures Turns(a + b) == Turns(a) + Turns(b)
    decreases |b|
  {
    if b == [] {
      assert a + b == a;
    } else {
      assert (a + b)[..|a + b| - 1] == a + b[..|b| - 1];
      TurnsConcat(a, b[..|b| - 1]);
    }
  }

  /** Where to cut: at an entry that opens a turn, with exactly so many turns from there on. */
  ghost predicate CutsAt(h: seq<Entry>, turns: nat, at: nat) {
    at < |h| && h[at].role == User && !h[at].autoInjected && Turns(h[at..]) == turns
  }

  lemma TurnsFrom(h: seq<Entry>, at: nat)
    requires at < |h|
    ensures Turns(h[at..]) == Turns(h[at..|h| - 1]) + if h[|h| - 1].role == User && !h[|h| - 1].autoInjected then 1 else 0
    ensures at < |h| - 1 ==> h[..|h| - 1][at..] == h[at..|h| - 1] && h[..|h| - 1][at] == h[at]
  {
    assert h[at..][..|h[at..]| - 1] == h[at..|h| - 1];
  }

  lemma OpenerCounts(h: seq<Entry>, at: nat)
    requires at < |h|
    ensures h[at].role == User && !h[at].autoInjected ==> Turns(h[at..]) >= 1
  {
    assert h[at..] == [h[at]] + h[at + 1..];
    TurnsConcat([h[at]], h[at + 1..]);
    assert [h[at]][..0] == [];
  }

  /** The boundary is the one place that leaves out the last `turns` turns, and there is none exactly without so many. */
  lemma {:induction false} BoundaryCounts(h: seq<Entry>, turns: nat, at: nat)
    ensures Boundary(h, turns) == Some(at) <==> CutsAt(h, turns, at)
    ensures Boundary(h, turns).None? <==> turns == 0 || Turns(h) < turns
    decreases |h|
  {
    if h != [] {
      var last := |h| - 1;
      if at <= last {
        OpenerCounts(h, at);
        TurnsFrom(h, at);
        assert at == last ==> h[at..last] == [];
      }
      if turns > 0 {
        BoundaryCounts(h[..last], if OpensTurn(h[last]) then turns - 1 else turns, at);
      }
    }
  }

  function AfterRewind(s: Session, turns: nat): Outcome {
    match Boundary(s.history, turns)
    case None => Returned(s)
    case Some(at) =>
      var live := s.history[..at];
      var offset := if s.summary.Some? then 1 else 0;
      if offset > |live| then Panicked(s.(history := live))
      else
        var keep := |Kept(live[offset..])|;
        var messages := s.stored.messages;
        Returned(s.(history := live,
                    stored := s.stored.(messages := if keep <= |messages| then messages[..keep] else messages)))
  }

  /** A rewind keeps exactly the entries before the boundary, and so many turns fewer. */
  lemma RewindCuts(s: Session, turns: nat)
    ensures var r := AfterRewind(s, turns);
            && (turns == 0 || Turns(s.history) < turns ==> r == Returned(s))
            && (forall at: nat :: CutsAt(s.history, turns, at) ==> r.s.history == s.history[..at])
            && (0 < turns <= Turns(s.history) ==> Turns(r.s.history) == Turns(s.history) - turns)
  {
    var h, cut := s.history, Boundary(s.history, turns);
    forall at: nat
      ensures cut == Some(at) <==> CutsAt(h, turns, at)
      ensures cut.None? <==> turns == 0 || Turns(h) < turns
    {
      BoundaryCounts(h, turns, at);
    }
    BoundaryCounts(h, turns, 0);
    if cut.Some? {
      assert h == h[..cut.value] + h[cut.value..];
      TurnsConcat(h[..cut.value], h[cut.value..]);
    }
    hide Turns, CutsAt, Boundary, Kept;
  }

  // ----- The same, step by step -----

  class Conversation {
    var history: seq<Entry>
    var summary: Option<string>
    var stored: Stored

    function State(): Session
      reads this
    {
      Session(history, summary, stored)
    }

    constructor Load(st: Stored)
      ensures State() == Loaded(st)
    {
      stored, summary, history := st, st.summary, Resumed(st);
    }

    method Retain()
      modifies `history
      ensures history == Kept(old(history))
    {
      var out: seq<Entry> := [];
      for i := 0 to |history|
        invariant history == old(history) && out == Kept(history[..i])
      {
        assert history[..i + 1][..i] == history[..i];
        if !history[i].autoInjected {
          out := out + [history[i]];
        }
      }
      assert history[..|history|] == history;
      history := out;
    }

    method PrepareHistory(user: Entry)
      modifies `history
      ensures history == Prepared(old(history), user)
    {
      history := history + [user];
      Retain();
      var guest := false;
      for i := 0 to |history|
        invariant guest <==> HasGuest(history[..i])
        invariant history == Kept(old(history) + [user])
      {
        if history[i].agent != "" {
          assert history[..i + 1][i].agent != "";
          guest := true;
        }
        assert forall j :: 0 <= j < i ==> history[..i + 1][j] == history[..i][j];
      }
      assert history[..|history|] == history;
      if guest {
        var at := if |history| == 0 then 0 else |history| - 1;
        history := history[..at] + [Injected(UserEntry(FRAMING, ""))] + history[at..];
      }
    }

    method Turn(user: Entry, produced: seq<Entry>) returns (panicked: bool)
      modifies this
      ensures AfterTurn(old(State()), Prepared(old(history), user), produced)
           == if panicked then Panicked(State()) else Returned(State())
    {
      var preRunLen := |history|;
      PrepareHistory(user);
      history := history + produced;
      panicked := FinalizeRun(preRunLen);
    }

    method FinalizeRun(preRunLen: nat) returns (panicked: bool)
      modifies `stored
      ensures Finalized(old(State()), preRunLen) == if panicked then Panicked(State()) else Returned(State())
    {
      if preRunLen > |history| {
        return true;
      }
      var fresh' := history[preRunLen..];
      var out: seq<Entry> := [];
      for i := 0 to |fresh'|
        invariant out == AllStored(Kept(fresh'[..i]))
        invariant stored == old(stored)
      {
        assert fresh'[..i + 1][..i] == fresh'[..i];
        if !fresh'[i].autoInjected {
          out := out + [AsStored(fresh'[i])];
        }
      }
      assert fresh'[..|fresh'|] == fresh';
      stored := stored.(messages := stored.messages + out, summary := summary);
      panicked := false;
    }

    method FindBoundary(turns: nat) returns (boundary: Option<nat>)
      ensures boundary == Boundary(history, turns)
      ensures boundary.Some? ==> CutsAt(history, turns, boundary.value)
      ensures boundary.None? <==> turns == 0 || Turns(history) < turns
    {
      var cut := Boundary(history, turns);
      BoundaryCounts(history, turns, if cut.Some? then cut.value else 0);
      var seen := 0;
      var i := |history|;
      assert history[..i] == history;
      while i > 0
        invariant 0 <= i <= |history|
        invariant turns == 0 || seen < turns
        invariant turns != 0 ==> Boundary(history, turns) == Boundary(history[..i], turns - seen)
        decreases i
      {
        i := i - 1;
        assert history[..i + 1][..i] == history[..i];
        if OpensTurn(history[i]) {
          seen := seen + 1;
          if seen == turns {
            return Some(i);
          }
        }
      }
      boundary := None;
    }

    method Rewind(turns: nat) returns (panicked: bool)
      modifies this
      ensures AfterRewind(old(State()), turns) == if panicked then Panicked(State()) else Returned(State())
      ensures turns == 0 || Turns(old(history)) < turns ==> !panicked && State() == old(State())
      ensures forall at: nat :: CutsAt(old(history), turns, at) ==> history == old(history)[..at]
      ensures 0 < turns <= Turns(old(history)) ==> Turns(history) == Turns(old(history)) - turns
    {
      RewindCuts(State(), turns);
      panicked := false;
      var boundary := FindBoundary(turns);
      if boundary.None? {
        return;
      }
      history := history[..boundary.value];
      var offset := if summary.Some? then 1 else 0;
      if offset > |history| {
        return true;
      }
      var keep := |Kept(history[offset..])|;
      if keep <= |stored.messages| {
        stored := stored.(messages := stored.messages[..keep]);
      }
    }

    /** The next free number after the archives already stored. */
    method NextArchive(bound: nat) returns (name: nat)
      requires forall k :: k in stored.archives ==> k <= bound
      ensures name == MaxSeq(stored.archives, bound) + 1
    {
      name := bound;
      while name > 0 && name !in stored.archives
        invariant forall k :: k in stored.archives ==> k <= name
        invariant MaxSeq(stored.archives, bound) == MaxSeq(stored.archives, name)
      {
        name := name - 1;
      }
      name := name + 1;
    }

    method Compact(text: string, bound: nat) returns (name: nat)
      requires forall k :: k in stored.archives ==> k <= bound
      modifies this
      ensures name == MaxSeq(old(stored).archives, bound) + 1
      ensures State() == AfterCompact(old(State()), text, name)
      ensures name !in old(stored).archives && (name == 1 || name - 1 in old(stored).archives)
      ensures old(history) == [] || text == "" ==> State() == old(State())
      ensures old(history) != [] && text != "" ==>
                && |history| == 1 && history[0].text == text && history[0].role == User && !history[0].autoInjected
                && summary == Some(text) && stored.summary == Some(text) && stored.messages == []
                && stored.archive == Some(name) && stored.archives == old(stored).archives[name := text]
    {
      MaxSeqIs(stored.archives, bound);
      name := NextArchive(bound);
      if history == [] || text == "" {
        return;
      }
      stored := stored.(archives := stored.archives[name := text]);
      stored := stored.(messages := [], archive := Some(name));
      history, summary := [UserEntry(text, "")], Some(text);
      stored := stored.(summary := summary);
    }
  }
}
