/**
 * Whole operations on the handler: each is a run of its sections with nothing in between, so what
 * undisturbed runs keep, whole operations keep.
 */
module McpOperations {
  import opened Wrappers
  import opened McpState
  import I = McpInterleavings
  import A = McpAgreement

  function DropOrphan(before: State, after: State, key: Owner): State {
    match Orphaned(before, after, key) case Some(fp) => Dropped(after, fp) case None => after
  }

  function Registering(st: State, key: Owner, cfg: Config, fp: Fp, gate: nat): State {
    DropOrphan(st, Claimed(st, key, cfg, fp, gate), key)
  }

  function Unregistering(st: State, key: Owner): State {
    DropOrphan(st, Unclaimed(st, key), key)
  }

  /** The process comes up and is pushed, or does not; either way the peer is settled. */
  function Attempted(st: State, fp: Fp, outcome: Outcome, now: nat): State {
    if fp !in st.peers || Settled(st.peers[fp].status) then st
    else
      var checked := Checked(st, fp);
      var tried := if outcome.Up? then Pushed(checked, fp, outcome.tools) else checked;
      SettledAs(tried, fp, outcome, now)
  }

  function AllDropped(st: State, fps: seq<Fp>): State {
    if fps == [] then st else Dropped(AllDropped(st, fps[..|fps| - 1]), fps[|fps| - 1])
  }

  function Reconnecting(st: State, fp: Fp, outcome: Outcome, now: nat): State {
    if fp !in st.peers then st else Attempted(Dropped(Reset(st, fp), fp), fp, outcome, now)
  }

  /** Only a transport error says anything about the peer. */
  datatype Reply = Answered(text: string) | Rejected(error: string) | Transport(error: string)

  /** The bridge rejects a call to a peer it does not have, and of a tool the peer does not export. */
  predicate Reaches(bridge: seq<Process>, fp: Fp, tool: string) {
    exists i :: 0 <= i < |bridge| && First(bridge, fp) == i && tool in bridge[i].tools
  }

  function First(bridge: seq<Process>, fp: Fp): (i: nat)
    ensures i <= |bridge| && (i < |bridge| ==> bridge[i].id == fp)
    ensures forall j :: 0 <= j < i ==> bridge[j].id != fp
  {
    if bridge == [] || bridge[0].id == fp then 0 else 1 + First(bridge[1..], fp)
  }

  function Calling(st: State, fp: Fp, tool: string, reply: Reply, now: nat): State {
    var st' := Touched(st, fp, now);
    if reply.Transport? && Reaches(st.bridge, fp, tool) then MarkedFailed(st', fp, reply.error) else st'
  }

  lemma DropOwned(st: State, mid: State, key: Owner, fingerprint: string -> Fp)
    requires Owned(mid, fingerprint)
    ensures Owned(DropOrphan(st, mid, key), fingerprint)
  {
    match Orphaned(st, mid, key)
    case Some(fp) =>
      BridgeKeepsClaims(mid, fp, []);
      SameClaimsOwned(mid, Dropped(mid, fp), fingerprint);
    case None =>
  }

  lemma {:induction false} AllDroppedRuns(st: State, fps: seq<Fp>, other: Fp)
    ensures AllDropped(st, fps).peers == st.peers && AllDropped(st, fps).owners == st.owners
    ensures Running(AllDropped(st, fps).bridge, other) == if other in fps then 0 else Running(st.bridge, other)
    decreases |fps|
  {
    if fps != [] {
      var n := |fps| - 1;
      AllDroppedRuns(st, fps[..n], other);
      WithoutRuns(AllDropped(st, fps[..n]).bridge, fps[n], other);
      assert fps == fps[..n] + [fps[n]];
    }
  }

  ghost predicate ListsExpired(st: State, now: nat, timeout: nat, fps: seq<Fp>) {
    forall fp :: fp in fps <==> fp in st.peers && Expired(st.peers[fp], now, timeout)
  }

  lemma SameClaimsAgain(a: State, b: State, c: State)
    requires SameClaims(a, b) && c.peers == b.peers && c.owners == b.owners
    ensures SameClaims(a, c)
  {
  }

  lemma SameClaimsTrans(a: State, b: State, c: State)
    requires SameClaims(a, b) && SameClaims(b, c)
    ensures SameClaims(a, c)
  {
  }

  lemma {:induction false} ReachedRuns(bridge: seq<Process>, fp: Fp)
    ensures First(bridge, fp) < |bridge| ==> Running(bridge, fp) > 0
    decreases |bridge|
  {
    if bridge != [] {
      var n := |bridge| - 1;
      ReachedRuns(bridge[..n], fp);
      if First(bridge, fp) < n {
        assert bridge[..n][First(bridge, fp)].id == fp;
      }
    }
  }

  lemma {:induction false} WithoutNone(bridge: seq<Process>, id: Fp)
    requires Running(bridge, id) == 0
    ensures Without(bridge, id) == bridge
    decreases |bridge|
  {
    if bridge != [] {
      WithoutNone(bridge[..|bridge| - 1], id);
    }
  }

  // ----- Operations as runs -----

  /** A run that nothing disturbs. */
  ghost predicate Goes(u: I.Setup, s: I.Sys, acts: seq<I.Act>, s': I.Sys) {
    I.Runs(u, s, acts, s') && A.Undisturbed(u, s, acts)
  }

  function Rest(st: State, gates: nat): I.Sys {
    I.Sys(st, map[], gates)
  }

  function Alone(st: State, task: I.Task, gates: nat): I.Sys {
    I.Sys(st, map[0 := task], gates)
  }

  lemma NothingGoes(u: I.Setup, s: I.Sys)
    requires A.Apart(s.tasks)
    ensures Goes(u, s, [], s)
  {
  }

  lemma {:induction false} UndisturbedMore(u: I.Setup, s: I.Sys, acts: seq<I.Act>, s': I.Sys, a: I.Act)
    requires Goes(u, s, acts, s') && I.Enabled(s', a) && A.Whole(s', a) && A.Apart(I.Next(u, s', a).tasks)
    ensures A.Undisturbed(u, s, acts + [a])
    decreases |acts|
  {
    hide I.Next, I.Enabled, A.Whole, A.Apart;
    if acts == [] {
      assert acts + [a] == [a] && [a][1..] == [];
    } else {
      assert (acts + [a])[1..] == acts[1..] + [a];
      UndisturbedMore(u, I.Next(u, s, acts[0]), acts[1..], s', a);
    }
  }

  lemma Then(u: I.Setup, s: I.Sys, acts: seq<I.Act>, s1: I.Sys, a: I.Act, s2: I.Sys) returns (more: seq<I.Act>)
    requires Goes(u, s, acts, s1) && I.Enabled(s1, a) && A.Whole(s1, a) && I.Next(u, s1, a) == s2
    requires s2.tasks == map[] || s2.tasks.Keys == {0}
    ensures Goes(u, s, more, s2)
  {
    assert A.Apart(s2.tasks);
    hide I.Next, I.Enabled, A.Whole, A.Apart;
    I.RunsMore(u, s, acts, s1, a);
    UndisturbedMore(u, s, acts, s1, a);
    more := acts + [a];
  }

  /** From the queue at the gate to the end: what is settled is left alone, any other peer is attempted. */
  lemma WaitingGoes(u: I.Setup, s0: I.Sys, was: seq<I.Act>, st: State, fp: Fp, outcome: Outcome, now: nat, gates: nat)
    returns (acts: seq<I.Act>)
    requires fp in st.peers
    requires Goes(u, s0, was, Alone(st, I.Waiting(fp, st.peers[fp].cfg, st.peers[fp].gate), gates))
    ensures Goes(u, s0, acts, Rest(Attempted(st, fp, outcome, now), gates))
  {
    hide Goes;
    var cfg, gate := st.peers[fp].cfg, st.peers[fp].gate;
    var waiting, holding := Alone(st, I.Waiting(fp, cfg, gate), gates), Alone(st, I.Holding(fp, cfg, gate), gates);
    assert I.Next(u, waiting, I.LockAct(0)) == holding;
    acts := Then(u, s0, was, waiting, I.LockAct(0), holding);
    if Settled(st.peers[fp].status) {
      assert I.Next(u, holding, I.CheckAct(0)) == Rest(st, gates);
      acts := Then(u, s0, acts, holding, I.CheckAct(0), Rest(st, gates));
    } else {
      acts := HoldingGoes(u, s0, acts, st, fp, outcome, now, gates);
    }
  }

  /** An act that may happen here, and what it leads to. */
  ghost predicate Leads(u: I.Setup, s: I.Sys, a: I.Act, s': I.Sys) {
    I.Enabled(s, a) && A.Whole(s, a) && I.Next(u, s, a) == s'
  }

  lemma HoldingGoes(u: I.Setup, s0: I.Sys, was: seq<I.Act>, st: State, fp: Fp, outcome: Outcome, now: nat, gates: nat)
    returns (acts: seq<I.Act>)
    requires fp in st.peers && !Settled(st.peers[fp].status)
    requires Goes(u, s0, was, Alone(st, I.Holding(fp, st.peers[fp].cfg, st.peers[fp].gate), gates))
    ensures Goes(u, s0, acts, Rest(Attempted(st, fp, outcome, now), gates))
  {
    hide Goes, SettledAs, Checked, Pushed, I.Next, I.Enabled;
    var cfg, gate := st.peers[fp].cfg, st.peers[fp].gate;
    var holding := Alone(st, I.Holding(fp, cfg, gate), gates);
    var checked := Checked(st, fp);
    var spawning := Alone(checked, I.Spawning(fp, cfg, gate), gates);
    CheckLeads(u, st, fp, cfg, gate, gates);
    acts := Then(u, s0, was, holding, I.CheckAct(0), spawning);
    var tried := if outcome.Up? then Pushed(checked, fp, outcome.tools) else checked;
    var settling := Alone(tried, I.Settling(fp, cfg, gate, outcome), gates);
    var a := match outcome case Up(tools) => I.UpAct(0, tools) case Down(error) => I.DownAct(0, error);
    TryLeads(u, checked, fp, cfg, gate, outcome, gates);
    acts := Then(u, s0, acts, spawning, a, settling);
    var done := Rest(SettledAs(tried, fp, outcome, now), gates);
    SettleLeads(u, tried, fp, cfg, gate, outcome, now, gates);
    acts := Then(u, s0, acts, settling, I.SettleAct(0, now), done);
  }

  lemma CheckLeads(u: I.Setup, st: State, fp: Fp, cfg: Config, gate: nat, gates: nat)
    requires fp in st.peers && !Settled(st.peers[fp].status)
    ensures Leads(u, Alone(st, I.Holding(fp, cfg, gate), gates), I.CheckAct(0),
                  Alone(Checked(st, fp), I.Spawning(fp, cfg, gate), gates))
  {
    hide Checked;
  }

  lemma TryLeads(u: I.Setup, st: State, fp: Fp, cfg: Config, gate: nat, outcome: Outcome, gates: nat)
    ensures Leads(u, Alone(st, I.Spawning(fp, cfg, gate), gates),
                  match outcome case Up(tools) => I.UpAct(0, tools) case Down(error) => I.DownAct(0, error),
                  Alone(if outcome.Up? then Pushed(st, fp, outcome.tools) else st,
                        I.Settling(fp, cfg, gate, outcome), gates))
  {
  }

  lemma SettleLeads(u: I.Setup, st: State, fp: Fp, cfg: Config, gate: nat, outcome: Outcome, now: nat, gates: nat)
    ensures Leads(u, Alone(st, I.Settling(fp, cfg, gate, outcome), gates), I.SettleAct(0, now),
                  Rest(SettledAs(st, fp, outcome, now), gates))
  {
    hide SettledAs;
  }

  lemma ConnectGoes(u: I.Setup, st: State, fp: Fp, outcome: Outcome, now: nat, gates: nat) returns (acts: seq<I.Act>)
    ensures Goes(u, Rest(st, gates), acts, Rest(Attempted(st, fp, outcome, now), gates))
  {
    var s0 := Rest(st, gates);
    NothingGoes(u, s0);
    hide Goes, Attempted;
    var s1 := if fp in st.peers then Alone(st, I.Waiting(fp, st.peers[fp].cfg, st.peers[fp].gate), gates) else s0;
    assert I.Next(u, s0, I.ConnectAct(0, fp)) == s1;
    acts := Then(u, s0, [], s0, I.ConnectAct(0, fp), s1);
    if fp in st.peers {
      acts := WaitingGoes(u, s0, acts, st, fp, outcome, now, gates);
    } else {
      assert Attempted(st, fp, outcome, now) == st by {
        UntrackedIsLeft(st, fp, outcome, now);
      }
    }
  }

  lemma UntrackedIsLeft(st: State, fp: Fp, outcome: Outcome, now: nat)
    requires fp !in st.peers
    ensures Attempted(st, fp, outcome, now) == st && Reconnecting(st, fp, outcome, now) == st
  {
  }

  lemma ResettingGoes(u: I.Setup, s: I.Sys, was: seq<I.Act>, st: State, fp: Fp, outcome: Outcome, now: nat, gates: nat)
    returns (acts: seq<I.Act>)
    requires Goes(u, s, was, Alone(st, I.Resetting(fp), gates))
    ensures Goes(u, s, acts, Rest(Reconnecting(st, fp, outcome, now), gates))
  {
    var s0 := Alone(st, I.Resetting(fp), gates);
    hide Goes, Attempted;
    if fp in st.peers {
      var cleared := Dropped(Reset(st, fp), fp);
      var s1 := Alone(Reset(st, fp), I.Clearing({fp}, Some(fp)), gates);
      assert I.Next(u, s0, I.ResetAct(0)) == s1;
      acts := Then(u, s, was, s0, I.ResetAct(0), s1);
      var s2 := Alone(cleared, I.Waiting(fp, cleared.peers[fp].cfg, cleared.peers[fp].gate), gates);
      hide Without;
      assert I.Next(u, s1, I.ClearAct(0, fp)) == s2;
      acts := Then(u, s, acts, s1, I.ClearAct(0, fp), s2);
      acts := WaitingGoes(u, s, acts, cleared, fp, outcome, now, gates);
    } else {
      UntrackedIsLeft(st, fp, outcome, now);
      assert I.Next(u, s0, I.ResetAct(0)) == Rest(st, gates);
      acts := Then(u, s, was, s0, I.ResetAct(0), Rest(st, gates));
    }
  }

  lemma ReconnectGoes(u: I.Setup, st: State, key: Owner, outcome: Outcome, now: nat, gates: nat)
    returns (acts: seq<I.Act>)
    requires key in st.owners
    ensures Goes(u, Rest(st, gates), acts, Rest(Reconnecting(st, st.owners[key], outcome, now), gates))
  {
    var s0, s1 := Rest(st, gates), Alone(st, I.Resetting(st.owners[key]), gates);
    NothingGoes(u, s0);
    hide Goes, Reconnecting;
    assert I.Next(u, s0, I.ReconnectAct(0, key)) == s1;
    acts := Then(u, s0, [], s0, I.ReconnectAct(0, key), s1);
    acts := ResettingGoes(u, s0, acts, st, st.owners[key], outcome, now, gates);
  }

  /** A section that moves claims, and the clearing of what it orphaned. */
  lemma ClaimGoes(u: I.Setup, s0: I.Sys, a: I.Act, mid: State, key: Owner, gates: nat) returns (acts: seq<I.Act>)
    requires s0.tasks == map[] && a.t == 0 && I.Enabled(s0, a) && A.Whole(s0, a)
    requires var orphan := Orphaned(s0.st, mid, key);
             I.Next(u, s0, a)
             == if orphan.Some? then Alone(mid, I.Clearing({orphan.value}, None), gates) else Rest(mid, gates)
    ensures Goes(u, s0, acts, Rest(DropOrphan(s0.st, mid, key), gates))
  {
    NothingGoes(u, s0);
    var s1 := I.Next(u, s0, a);
    hide Goes, I.Next;
    acts := Then(u, s0, [], s0, a, s1);
    match Orphaned(s0.st, mid, key)
    case Some(fp) =>
      ClearedLast(u, mid, fp, gates);
      acts := Then(u, s0, acts, s1, I.ClearAct(0, fp), Rest(Dropped(mid, fp), gates));
    case None =>
  }

  lemma ClearedLast(u: I.Setup, st: State, fp: Fp, gates: nat)
    ensures var s := Alone(st, I.Clearing({fp}, None), gates);
            && I.Enabled(s, I.ClearAct(0, fp)) && A.Whole(s, I.ClearAct(0, fp))
            && I.Next(u, s, I.ClearAct(0, fp)) == Rest(Dropped(st, fp), gates)
  {
    hide Without;
  }

  lemma RegisterGoes(u: I.Setup, st: State, key: Owner, cfg: Config, gates: nat) returns (acts: seq<I.Act>)
    ensures Goes(u, Rest(st, gates), acts, Rest(Registering(st, key, cfg, u.fingerprint(cfg.peer), gates), gates + 1))
  {
    var s0, a := Rest(st, gates), I.RegisterAct(0, key, cfg);
    var mid := Claimed(st, key, cfg, u.fingerprint(cfg.peer), gates);
    hide Goes, Claimed, Orphaned, Dropped;
    acts := ClaimGoes(u, s0, a, mid, key, gates + 1);
  }

  lemma UnregisterGoes(u: I.Setup, st: State, key: Owner, gates: nat) returns (acts: seq<I.Act>)
    ensures Goes(u, Rest(st, gates), acts, Rest(Unregistering(st, key), gates))
  {
    var s0, a := Rest(st, gates), I.UnregisterAct(0, key);
    var mid := Unclaimed(st, key);
    hide Goes, Unclaimed, Orphaned, Dropped;
    acts := ClaimGoes(u, s0, a, mid, key, gates);
  }

  lemma CallGoes(u: I.Setup, st: State, fp: Fp, tool: string, reply: Reply, now: nat, gates: nat)
    returns (acts: seq<I.Act>)
    ensures Goes(u, Rest(st, gates), acts, Rest(Calling(st, fp, tool, reply, now), gates))
  {
    var s0, touched := Rest(st, gates), Touched(st, fp, now);
    var s1 := Alone(touched, I.Task.Calling(fp), gates);
    NothingGoes(u, s0);
    CallLeads(u, st, fp, now, gates);
    assert touched.bridge == st.bridge;
    hide Goes, Running, Touched, MarkedFailed, I.Next, I.Enabled;
    acts := Then(u, s0, [], s0, I.CallAct(0, fp, now), s1);
    if reply.Transport? && Reaches(st.bridge, fp, tool) {
      ReachedRuns(st.bridge, fp);
      BreakLeads(u, touched, fp, reply.error, gates);
      var s2 := Alone(touched, I.Failing(fp, reply.error), gates);
      acts := Then(u, s0, acts, s1, I.BreakAct(0, reply.error), s2);
      acts := Then(u, s0, acts, s2, I.MarkAct(0), Rest(MarkedFailed(touched, fp, reply.error), gates));
    } else {
      ReturnLeads(u, touched, fp, gates);
      acts := Then(u, s0, acts, s1, I.EndAct(0), Rest(touched, gates));
    }
  }

  lemma CallLeads(u: I.Setup, st: State, fp: Fp, now: nat, gates: nat)
    ensures Leads(u, Rest(st, gates), I.CallAct(0, fp, now), Alone(Touched(st, fp, now), I.Task.Calling(fp), gates))
  {
    hide Touched;
  }

  lemma BreakLeads(u: I.Setup, st: State, fp: Fp, error: string, gates: nat)
    requires Running(st.bridge, fp) > 0
    ensures Leads(u, Alone(st, I.Task.Calling(fp), gates), I.BreakAct(0, error), Alone(st, I.Failing(fp, error), gates))
    ensures Leads(u, Alone(st, I.Failing(fp, error), gates), I.MarkAct(0), Rest(MarkedFailed(st, fp, error), gates))
  {
    hide Running, MarkedFailed;
  }

  lemma ReturnLeads(u: I.Setup, st: State, fp: Fp, gates: nat)
    ensures Leads(u, Alone(st, I.Task.Calling(fp), gates), I.EndAct(0), Rest(st, gates))
  {
  }

  function Distinct(fps: seq<Fp>): set<Fp> {
    set fp | fp in fps
  }

  /** After clearing some of what was reaped: done, or the rest still to clear. */
  function Cleared(st: State, fps: seq<Fp>, i: nat, gates: nat): I.Sys
    requires i <= |fps|
  {
    var left := Distinct(fps) - Distinct(fps[..i]);
    var mid := AllDropped(st, fps[..i]);
    if left == {} then Rest(mid, gates) else Alone(mid, I.Clearing(left, None), gates)
  }

  lemma ClearNext(u: I.Setup, st: State, fps: seq<Fp>, i: nat, gates: nat)
    requires i < |fps| && fps[i] !in fps[..i]
    ensures var s, a := Cleared(st, fps, i, gates), I.ClearAct(0, fps[i]);
            && I.Enabled(s, a) && A.Whole(s, a) && I.Next(u, s, a) == Cleared(st, fps, i + 1, gates)
  {
    var left := Distinct(fps) - Distinct(fps[..i]);
    assert fps[i] in left;
    assert fps[..i + 1] == fps[..i] + [fps[i]];
    assert Distinct(fps) - Distinct(fps[..i + 1]) == left - {fps[i]};
    assert fps[..i + 1][..i] == fps[..i];
    hide Without, Distinct;
  }

  lemma ClearAgain(st: State, fps: seq<Fp>, i: nat, gates: nat)
    requires i < |fps| && fps[i] in fps[..i]
    ensures Cleared(st, fps, i + 1, gates) == Cleared(st, fps, i, gates)
  {
    assert fps[..i + 1] == fps[..i] + [fps[i]];
    assert Distinct(fps[..i + 1]) == Distinct(fps[..i]);
    assert fps[..i + 1][..i] == fps[..i];
    AllDroppedRuns(st, fps[..i], fps[i]);
    WithoutNone(AllDropped(st, fps[..i]).bridge, fps[i]);
  }

  lemma ClearingGoes(u: I.Setup, s0: I.Sys, was: seq<I.Act>, st: State, fps: seq<Fp>, gates: nat)
    returns (acts: seq<I.Act>)
    requires Goes(u, s0, was, Cleared(st, fps, 0, gates))
    ensures Goes(u, s0, acts, Cleared(st, fps, |fps|, gates))
  {
    hide Goes, Cleared;
    acts := was;
    for i := 0 to |fps|
      invariant Goes(u, s0, acts, Cleared(st, fps, i, gates))
    {
      if fps[i] in fps[..i] {
        ClearAgain(st, fps, i, gates);
      } else {
        ClearNext(u, st, fps, i, gates);
        ClearedTasks(st, fps, i + 1, gates);
        acts := Then(u, s0, acts, Cleared(st, fps, i, gates), I.ClearAct(0, fps[i]), Cleared(st, fps, i + 1, gates));
      }
    }
  }

  lemma ClearedTasks(st: State, fps: seq<Fp>, i: nat, gates: nat)
    requires i <= |fps|
    ensures var s := Cleared(st, fps, i, gates); s.tasks == map[] || s.tasks.Keys == {0}
  {
  }

  lemma ReapGoes(u: I.Setup, st: State, now: nat, fps: seq<Fp>, gates: nat) returns (acts: seq<I.Act>)
    requires ListsExpired(st, now, u.timeout, fps)
    ensures Goes(u, Rest(st, gates), acts, Rest(AllDropped(AllReaped(st, now, u.timeout), fps), gates))
  {
    var s0, mid := Rest(st, gates), AllReaped(st, now, u.timeout);
    NothingGoes(u, s0);
    I.ReapStep(u, s0, I.ReapAct(0, now));
    assert I.ExpiredIn(st, now, u.timeout) == Distinct(fps);
    assert fps[..0] == [] && fps[..|fps|] == fps;
    assert Distinct(fps) - Distinct(fps[..0]) == Distinct(fps);
    hide Goes, AllReaped, Distinct, AllDropped;
    assert AllDropped(mid, fps[..0]) == mid by {
      NoneDropped(mid);
    }
    assert I.Next(u, s0, I.ReapAct(0, now)) == Cleared(mid, fps, 0, gates);
    ClearedTasks(mid, fps, 0, gates);
    acts := Then(u, s0, [], s0, I.ReapAct(0, now), Cleared(mid, fps, 0, gates));
    acts := ClearingGoes(u, s0, acts, mid, fps, gates);
    assert Distinct(fps) - Distinct(fps[..|fps|]) == {};
  }

  lemma NoneDropped(st: State)
    ensures AllDropped(st, []) == st
  {
  }

  // ----- What whole operations keep -----

  lemma GoesAgrees(u: I.Setup, s: I.Sys, acts: seq<I.Act>, st: State, gates: nat)
    requires s.tasks == map[] && Agree(s.st) && Goes(u, s, acts, Rest(st, gates))
    ensures Agree(st)
  {
    hide Agree;
    A.UndisturbedFromRest(u, s, acts, Rest(st, gates));
  }

  const ANY: I.Setup := I.Setup(_ => 0, 0)

  lemma RegisteringAgrees(st: State, fingerprint: string -> Fp, key: Owner, cfg: Config, gate: nat)
    requires Agree(st) && Owned(st, fingerprint)
    ensures Agree(Registering(st, key, cfg, fingerprint(cfg.peer), gate))
    ensures Owned(Registering(st, key, cfg, fingerprint(cfg.peer), gate), fingerprint)
  {
    hide Agree, Owned, Claimed, Goes, DropOrphan;
    ClaimedOwned(st, fingerprint, key, cfg, gate);
    DropOwned(st, Claimed(st, key, cfg, fingerprint(cfg.peer), gate), key, fingerprint);
    var u := I.Setup(fingerprint, 0);
    var acts := RegisterGoes(u, st, key, cfg, gate);
    GoesAgrees(u, Rest(st, gate), acts, Registering(st, key, cfg, fingerprint(cfg.peer), gate), gate + 1);
  }

  lemma UnregisteringAgrees(st: State, fingerprint: string -> Fp, key: Owner)
    requires Agree(st) && Owned(st, fingerprint)
    ensures Agree(Unregistering(st, key)) && Owned(Unregistering(st, key), fingerprint)
  {
    hide Agree, Owned, Unclaimed, Goes, DropOrphan;
    UnclaimedOwned(st, fingerprint, key);
    DropOwned(st, Unclaimed(st, key), key, fingerprint);
    var acts := UnregisterGoes(ANY, st, key, 0);
    GoesAgrees(ANY, Rest(st, 0), acts, Unregistering(st, key), 0);
  }

  lemma ConnectingAgrees(st: State, fp: Fp, outcome: Outcome, now: nat)
    requires Agree(st)
    ensures Agree(Attempted(st, fp, outcome, now))
    ensures SameClaims(st, Attempted(st, fp, outcome, now))
    ensures fp in st.peers ==> Settled(Attempted(st, fp, outcome, now).peers[fp].status)
  {
    hide Agree, Goes;
    var acts := ConnectGoes(ANY, st, fp, outcome, now, 0);
    GoesAgrees(ANY, Rest(st, 0), acts, Attempted(st, fp, outcome, now), 0);
  }

  /** After a reap no settled peer has been quiet for the timeout, and what was reaped is not running. */
  lemma ReapingAgrees(st: State, now: nat, timeout: nat, fps: seq<Fp>)
    requires Agree(st) && ListsExpired(st, now, timeout, fps)
    ensures var st' := AllDropped(AllReaped(st, now, timeout), fps);
            && Agree(st') && SameClaims(st, st')
            && (forall fp :: fp in st'.peers && Settled(st'.peers[fp].status) ==>
                  st'.peers[fp].lastUsed.Some? && now - st'.peers[fp].lastUsed.value < timeout)
            && forall fp :: fp in fps ==> fp in st'.peers && st'.peers[fp].status == Disconnected && Running(st'.bridge, fp) == 0
  {
    var mid := AllReaped(st, now, timeout);
    var st' := AllDropped(mid, fps);
    var u := I.Setup(_ => 0, timeout);
    var acts := ReapGoes(u, st, now, fps, 0);
    GoesAgrees(u, Rest(st, 0), acts, st', 0);
    AllDroppedPeers(mid, fps);
    forall fp | fp in fps
      ensures st'.peers[fp].status == Disconnected && Running(st'.bridge, fp) == 0
    {
      AllDroppedRuns(mid, fps, fp);
    }
    ReapKeepsClaims(st, 0, now, timeout);
    hide Goes, AllDropped, Running, SameClaims, ListsExpired;
    SameClaimsAgain(st, mid, st');
    SettledIsRecent(st, now, timeout);
  }

  lemma SettledIsRecent(st: State, now: nat, timeout: nat)
    requires Agree(st)
    ensures var mid := AllReaped(st, now, timeout);
            forall fp :: fp in mid.peers && Settled(mid.peers[fp].status) ==>
              mid.peers[fp].lastUsed.Some? && now - mid.peers[fp].lastUsed.value < timeout
  {
    hide Running;
  }

  lemma {:induction false} AllDroppedPeers(st: State, fps: seq<Fp>)
    ensures AllDropped(st, fps).peers == st.peers && AllDropped(st, fps).owners == st.owners
    decreases |fps|
  {
    if fps != [] {
      AllDroppedPeers(st, fps[..|fps| - 1]);
    }
  }

  lemma ReconnectingAgrees(st: State, fp: Fp, outcome: Outcome, now: nat)
    requires Agree(st)
    ensures Agree(Reconnecting(st, fp, outcome, now)) && SameClaims(st, Reconnecting(st, fp, outcome, now))
    ensures fp in st.peers && outcome.Up? ==>
      Reconnecting(st, fp, outcome, now).peers[fp].status == Connected && Running(Reconnecting(st, fp, outcome, now).bridge, fp) == 1
  {
    var s0 := Alone(st, I.Resetting(fp), 0);
    ResettingIsSteady(st, fp);
    NothingGoes(ANY, s0);
    var acts := ResettingGoes(ANY, s0, [], st, fp, outcome, now, 0);
    hide Goes, Agree, Running, Without;
    GoesSteady(ANY, s0, acts, Reconnecting(st, fp, outcome, now));
    ReconnectingKeepsClaims(st, fp, outcome, now);
    if fp in st.peers && outcome.Up? {
      WithoutRuns(st.bridge, fp, fp);
      PushRuns(Without(st.bridge, fp), Process(fp, outcome.tools), fp);
    }
  }

  lemma ReconnectingKeepsClaims(st: State, fp: Fp, outcome: Outcome, now: nat)
    ensures SameClaims(st, Reconnecting(st, fp, outcome, now))
  {
    hide Without;
  }

  lemma ResettingIsSteady(st: State, fp: Fp)
    requires Agree(st)
    ensures A.Steady(Alone(st, I.Resetting(fp), 0))
  {
    AgreeIsEverywhere(st);
    hide Agree, AgreesAt;
  }

  lemma GoesSteady(u: I.Setup, s: I.Sys, acts: seq<I.Act>, st: State)
    requires A.Steady(s) && Goes(u, s, acts, Rest(st, 0))
    ensures Agree(st)
  {
    hide Agree, A.Steady;
    A.RunKeepsSteady(u, s, acts, Rest(st, 0));
    A.SteadyAgrees(Rest(st, 0));
  }

  /** What a reconnect tears down is down before it is connected again. */
  lemma ResetAgrees(st: State, fp: Fp)
    requires Agree(st) && fp in st.peers
    ensures var mid := Dropped(Reset(st, fp), fp); Agree(mid) && SameClaims(st, mid) && Running(mid.bridge, fp) == 0
  {
    AgreeIsEverywhere(st);
    var mid := Dropped(Reset(st, fp), fp);
    AgreeIsEverywhere(mid);
    hide Agree;
    forall other: Fp
      ensures AgreesAt(mid, other)
    {
      WithoutRuns(st.bridge, fp, other);
      assert AgreesAt(st, other);
      hide Running, Without;
    }
    ReapKeepsClaims(st, fp, 0, 0);
    BridgeKeepsClaims(Reset(st, fp), fp, []);
    WithoutRuns(st.bridge, fp, fp);
    hide *;
    SameClaimsTrans(st, Reset(st, fp), mid);
  }

  lemma CallingAgrees(st: State, fp: Fp, tool: string, reply: Reply, now: nat)
    requires Agree(st)
    ensures Agree(Calling(st, fp, tool, reply, now)) && SameClaims(st, Calling(st, fp, tool, reply, now))
  {
    hide Agree, Goes, Running, Reaches;
    var acts := CallGoes(ANY, st, fp, tool, reply, now, 0);
    GoesAgrees(ANY, Rest(st, 0), acts, Calling(st, fp, tool, reply, now), 0);
  }
}
