/** The MCP handler and its bridge as they run, one whole operation at a time. */
module McpHandler {
  import opened Wrappers
  import opened McpState
  import opened McpOperations

  // ----- The bridge and the handler -----

  /** The tool names of the processes under an id, as a removal reports them. */
  function ToolsUnder(bridge: seq<Process>, id: Fp): seq<string> {
    if bridge == [] then []
    else ToolsUnder(bridge[..|bridge| - 1], id)
         + if bridge[|bridge| - 1].id == id then bridge[|bridge| - 1].tools else []
  }

  class Bridge {
    var peers: seq<Process>

    constructor ()
      ensures peers == []
    {
      peers := [];
    }

    method RegisterPeer(id: Fp, tools: seq<string>)
      modifies this
      ensures peers == old(peers) + [Process(id, tools)]
    {
      peers := peers + [Process(id, tools)];
    }

    /** Every process under the id goes, and the tool names that went with it are returned. */
    method RemoveServer(id: Fp) returns (removed: seq<string>)
      modifies this
      ensures peers == Without(old(peers), id) && removed == ToolsUnder(old(peers), id)
    {
      var kept: seq<Process> := [];
      removed := [];
      for i := 0 to |peers|
        invariant peers == old(peers)
        invariant kept == Without(peers[..i], id) && removed == ToolsUnder(peers[..i], id)
      {
        assert peers[..i + 1][..i] == peers[..i];
        if peers[i].id == id {
          removed := removed + peers[i].tools;
        } else {
          kept := kept + [peers[i]];
        }
      }
      assert peers[..|peers|] == peers;
      peers := kept;
    }

    /** The far side's answer, if the call gets that far. */
    method Call(id: Fp, tool: string, far: Reply) returns (r: Reply)
      ensures Reaches(peers, id, tool) ==> r == far
      ensures !Reaches(peers, id, tool) ==> r.Rejected?
    {
      var at := 0;
      while at < |peers| && peers[at].id != id
        invariant at <= |peers| && First(peers, id) == at + First(peers[at..], id)
      {
        assert peers[at..][1..] == peers[at + 1..];
        at := at + 1;
      }
      if at == |peers| {
        return Rejected("not connected");
      }
      if tool !in peers[at].tools {
        return Rejected("not exported");
      }
      r := far;
    }
  }

  /** Claims stay, and what was settled is as it was. */
  ghost predicate Frame(a: State, b: State) {
    && a.owners == b.owners && a.peers.Keys == b.peers.Keys
    && forall fp :: fp in a.peers && Settled(a.peers[fp].status) ==> b.peers[fp] == a.peers[fp]
  }

  /** Whatever the owner claims is settled. */
  ghost predicate Ready(st: State, key: Owner) {
    key in st.owners ==> st.owners[key] in st.peers && Settled(st.peers[st.owners[key]].status)
  }

  lemma FrameSelf(st: State)
    ensures Frame(st, st)
  {
  }

  lemma FrameOwners(a: State, b: State)
    requires Frame(a, b)
    ensures b.owners == a.owners && b.peers.Keys == a.peers.Keys
  {
  }

  lemma FrameTrans(a: State, b: State, c: State)
    requires Frame(a, b) && Frame(b, c)
    ensures Frame(a, c)
  {
  }

  lemma ReadyStays(a: State, b: State, agent: string, names: seq<string>)
    requires Frame(a, b) && forall name :: name in names ==> Ready(a, Owner(agent, name))
    ensures forall name :: name in names ==> Ready(b, Owner(agent, name))
  {
  }

  lemma ConnectingFrames(st: State, fp: Fp, outcome: Outcome, now: nat, key: Owner)
    requires key in st.owners && st.owners[key] == fp && fp in st.peers
    ensures Frame(st, Attempted(st, fp, outcome, now)) && Ready(Attempted(st, fp, outcome, now), key)
    ensures Settled(st.peers[fp].status) ==> Attempted(st, fp, outcome, now) == st
  {
  }

  // ----- What an operation does to the entries, one by one -----

  /** No claim moves, no peer comes or goes, and only this one's entry may differ. */
  ghost predicate OnlyEntry(a: State, b: State, fp: Fp) {
    && b.owners == a.owners && b.peers.Keys == a.peers.Keys
    && forall f :: f in a.peers && f != fp ==> b.peers[f] == a.peers[f]
  }

  ghost predicate SameDeclaration(a: Entry, b: Entry) {
    b.refs == a.refs && b.cfg == a.cfg && b.gate == a.gate
  }

  /** An entry as a connect settles it, the time of use included. */
  ghost predicate SettledBy(was: Entry, e: Entry, outcome: Outcome, now: nat) {
    && SameDeclaration(was, e) && e.lastUsed == Some(now)
    && match outcome
       case Up(tools) => e.status == Connected && e.tools == tools && e.error == None
       case Down(error) => e.status == Failed && e.tools == [] && e.error == Some(error)
  }

  /** Used last at least a timeout ago, by a peer that may be running. */
  ghost predicate Idle(e: Entry, now: nat, timeout: nat) {
    && (e.status == Connected || e.status == Failed)
    && match e.lastUsed case Some(at) => now >= at + timeout case None => false
  }

  /** A reaped entry keeps its declaration and its error. */
  ghost predicate PutDown(was: Entry, e: Entry) {
    && SameDeclaration(was, e) && e.error == was.error
    && e.status == Disconnected && e.tools == [] && e.lastUsed == None
  }

  ghost predicate Reported(was: Entry, e: Entry, reply: Reply) {
    match reply
    case Transport(error) =>
      if was.status == Failed then e.status == Failed && e.error == was.error
      else e.status == Failed && e.error == Some(error)
    case _ => e.status == was.status && e.error == was.error
  }

  /** Each reaped peer is put down and has no process, every other one is as it was. */
  ghost predicate ReapedExactly(a: State, b: State, now: nat, timeout: nat) {
    && b.owners == a.owners && b.peers.Keys == a.peers.Keys
    && (forall fp :: fp in a.peers && Idle(a.peers[fp], now, timeout) ==>
          PutDown(a.peers[fp], b.peers[fp]) && Running(b.bridge, fp) == 0)
    && (forall fp :: fp in a.peers && !Idle(a.peers[fp], now, timeout) ==>
          b.peers[fp] == a.peers[fp] && Running(b.bridge, fp) == Running(a.bridge, fp))
  }

  lemma ReapsExactly(st: State, now: nat, timeout: nat, fps: seq<Fp>)
    requires ListsExpired(st, now, timeout, fps)
    ensures ReapedExactly(st, AllDropped(AllReaped(st, now, timeout), fps), now, timeout)
  {
    var mid := AllReaped(st, now, timeout);
    forall fp: Fp
      ensures Running(AllDropped(mid, fps).bridge, fp) == if fp in fps then 0 else Running(st.bridge, fp)
    {
      AllDroppedRuns(mid, fps, fp);
    }
    AllDroppedPeers(mid, fps);
    hide Running, AllDropped;
  }

  /** The claim is with the new peer, which is tracked; it is with no other, and a peer left without one is gone. */
  ghost predicate ClaimMoved(a: State, b: State, key: Owner, cfg: Config, fp: Fp, gate: nat) {
    && b.owners == a.owners[key := fp] && fp in b.peers
    && (if fp in a.peers then b.peers[fp] == a.peers[fp].(refs := a.peers[fp].refs + {key})
        else b.peers[fp] == Entry(Disconnected, [], None, {key}, cfg, None, gate))
    && (forall f :: f != fp ==> LetGo(a, b, f, key))
  }

  /** Of one peer: the claim is off it, and with its last claim it goes, process and all. */
  ghost predicate LetGo(a: State, b: State, f: Fp, key: Owner) {
    if f !in a.peers then f !in b.peers && Running(b.bridge, f) == Running(a.bridge, f)
    else if key in a.owners && a.owners[key] == f && a.peers[f].refs == {key} then f !in b.peers && Running(b.bridge, f) == 0
    else
      && f in b.peers && b.peers[f] == a.peers[f].(refs := a.peers[f].refs - if key in a.owners && a.owners[key] == f then {key} else {})
      && Running(b.bridge, f) == Running(a.bridge, f)
  }

  lemma Registers(st: State, fingerprint: string -> Fp, key: Owner, cfg: Config, gate: nat)
    requires Owned(st, fingerprint)
    ensures ClaimMoved(st, Registering(st, key, cfg, fingerprint(cfg.peer), gate), key, cfg, fingerprint(cfg.peer), gate)
  {
    var fp := fingerprint(cfg.peer);
    var b := Registering(st, key, cfg, fp, gate);
    if key in st.owners {
      OwnedAt(st, fingerprint, key);
    }
    forall f: Fp
      ensures f != fp ==> LetGo(st, b, f, key)
    {
      if key in st.owners {
        WithoutRuns(st.bridge, st.owners[key], f);
        RefsLeft(st, st.owners[key], key);
      }
      hide Running, Without;
    }
  }

  lemma RefsLeft(st: State, f: Fp, key: Owner)
    requires f in st.peers && key in st.peers[f].refs
    ensures st.peers[f].refs - {key} == {} <==> st.peers[f].refs == {key}
  {
  }

  lemma Unregisters(st: State, fingerprint: string -> Fp, key: Owner)
    requires Owned(st, fingerprint)
    ensures var b := Unregistering(st, key);
            b.owners == st.owners - {key} && forall f: Fp :: LetGo(st, b, f, key)
  {
    var b := Unregistering(st, key);
    if key in st.owners {
      OwnedAt(st, fingerprint, key);
    } else {
      assert st.owners - {key} == st.owners;
    }
    forall f: Fp
      ensures LetGo(st, b, f, key)
    {
      if key in st.owners {
        WithoutRuns(st.bridge, st.owners[key], f);
        RefsLeft(st, st.owners[key], key);
      }
      hide Running, Without;
    }
  }

  /** What a connect leaves: nothing new for a settled peer, one more process at most for any other. */
  ghost predicate ConnectedExactly(a: State, b: State, fp: Fp, outcome: Outcome, now: nat) {
    if fp !in a.peers || Settled(a.peers[fp].status) then b == a
    else
      && OnlyEntry(a, b, fp) && SettledBy(a.peers[fp], b.peers[fp], outcome, now)
      && b.bridge == a.bridge + if outcome.Up? then [Process(fp, outcome.tools)] else []
  }

  lemma Connects(st: State, fp: Fp, outcome: Outcome, now: nat)
    ensures ConnectedExactly(st, Attempted(st, fp, outcome, now), fp, outcome, now)
  {
  }

  /** The entry is as it was, or it was not settled and is one of the agent's that a connect settled. */
  ghost predicate Brought(a: State, b: State, agent: string, names: seq<string>, outcomes: Fp -> Outcome, now: nat, fp: Fp)
    requires fp in a.peers && fp in b.peers
  {
    || b.peers[fp] == a.peers[fp]
    || (&& !Settled(a.peers[fp].status) && SettledBy(a.peers[fp], b.peers[fp], outcomes(fp), now)
        && exists name :: name in names && Owner(agent, name) in a.owners && a.owners[Owner(agent, name)] == fp)
  }

  lemma BroughtMore(a: State, mid: State, b: State, agent: string, names: seq<string>, name: string,
                    outcomes: Fp -> Outcome, now: nat, fp: Fp, f: Fp)
    requires f in a.peers && f in mid.peers && mid.owners == a.owners && Brought(a, mid, agent, names, outcomes, now, f)
    requires Owner(agent, name) in a.owners && a.owners[Owner(agent, name)] == fp
    requires ConnectedExactly(mid, b, fp, outcomes(fp), now)
    ensures f in b.peers && Brought(a, b, agent, names + [name], outcomes, now, f)
  {
    assert name in names + [name];
    assert forall n :: n in names ==> n in names + [name];
  }

  lemma ReconnectRuns(st: State, fp: Fp, outcome: Outcome, now: nat, f: Fp)
    requires fp in st.peers
    ensures Running(Reconnecting(st, fp, outcome, now).bridge, f)
         == if f != fp then Running(st.bridge, f) else if outcome.Up? then 1 else 0
  {
    WithoutRuns(st.bridge, fp, f);
    if outcome.Up? {
      PushRuns(Without(st.bridge, fp), Process(fp, outcome.tools), f);
    }
    hide Running, Without;
  }

  lemma ReconnectEntries(st: State, fp: Fp, outcome: Outcome, now: nat)
    requires fp in st.peers
    ensures var b := Reconnecting(st, fp, outcome, now);
            OnlyEntry(st, b, fp) && SettledBy(st.peers[fp], b.peers[fp], outcome, now)
  {
    hide Without;
  }

  lemma Reconnects(st: State, fp: Fp, outcome: Outcome, now: nat)
    requires fp in st.peers
    ensures var b := Reconnecting(st, fp, outcome, now);
            && OnlyEntry(st, b, fp) && SettledBy(st.peers[fp], b.peers[fp], outcome, now)
            && Running(b.bridge, fp) == (if outcome.Up? then 1 else 0)
            && forall f: Fp :: f != fp ==> Running(b.bridge, f) == Running(st.bridge, f)
  {
    ReconnectEntries(st, fp, outcome, now);
    hide Running, Reconnecting, OnlyEntry, SettledBy;
    forall f: Fp
      ensures Running(Reconnecting(st, fp, outcome, now).bridge, f)
           == if f != fp then Running(st.bridge, f) else if outcome.Up? then 1 else 0
    {
      ReconnectRuns(st, fp, outcome, now, f);
    }
  }

  class Handler {
    var peers: map<Fp, Entry>
    var owners: map<Owner, Fp>
    const bridge: Bridge
    const fingerprint: string -> Fp
    const timeout: nat

    /** The next gate to hand out. */
    var gates: nat

    function Now(): State
      reads this, bridge
    {
      State(peers, owners, bridge.peers)
    }

    ghost predicate Valid()
      reads this, bridge
    {
      Owned(Now(), fingerprint) && Agree(Now())
    }

    constructor (hash: string -> Fp, idle: nat)
      ensures Valid() && Now() == NOTHING && fresh(bridge)
      ensures fingerprint == hash && timeout == idle
    {
      peers, owners, gates := map[], map[], 0;
      bridge := new Bridge();
      fingerprint, timeout := hash, idle;
    }

    method Drop(fp: Fp)
      modifies bridge
      ensures Now() == Dropped(old(Now()), fp)
    {
      var _ := bridge.RemoveServer(fp);
    }

    /** Let go of one claim; true if it was the last one, and the entry is gone. */
    method Release(fp: Fp, key: Owner) returns (gone: bool)
      modifies `peers
      ensures peers == Released(old(peers), fp, key)
      ensures gone <==> fp in old(peers) && fp !in peers
    {
      gone := false;
      if fp in peers {
        var refs := peers[fp].refs - {key};
        if refs == {} {
          peers := peers - {fp};
          gone := true;
        } else {
          peers := peers[fp := peers[fp].(refs := refs)];
        }
      }
    }

    /** A declaration only: the config is kept for the connect to come. */
    method RegisterForAgent(agent: string, cfg: Config)
      requires Valid()
      modifies this, bridge
      ensures Valid()
      ensures Now() == Registering(old(Now()), Owner(agent, cfg.name), cfg, fingerprint(cfg.peer), old(gates))
      ensures ClaimMoved(old(Now()), Now(), Owner(agent, cfg.name), cfg, fingerprint(cfg.peer), old(gates))
    {
      var fp := fingerprint(cfg.peer);
      var key := Owner(agent, cfg.name);
      Registers(Now(), fingerprint, key, cfg, gates);
      hide ClaimMoved;
      RegisteringAgrees(Now(), fingerprint, key, cfg, gates);
      hide Owned, Agree;
      var stale: Option<Fp> := None;
      if key in owners && owners[key] != fp {
        var gone := Release(owners[key], key);
        if gone {
          stale := Some(owners[key]);
        }
      }
      owners := owners[key := fp];
      if fp in peers {
        peers := peers[fp := peers[fp].(refs := peers[fp].refs + {key})];
      } else {
        peers := peers[fp := Entry(Disconnected, [], None, {key}, cfg, None, gates)];
      }
      gates := gates + 1;
      assert Now() == Claimed(old(Now()), key, cfg, fp, old(gates));
      if stale.Some? {
        Drop(stale.value);
      }
    }

    /** Give up a claim. A peer nobody claims any more loses its entry and its process. */
    method UnregisterForAgent(agent: string, name: string)
      requires Valid()
      modifies this, bridge
      ensures Valid() && Now() == Unregistering(old(Now()), Owner(agent, name))
      ensures owners == old(owners) - {Owner(agent, name)}
      ensures forall f: Fp :: LetGo(old(Now()), Now(), f, Owner(agent, name))
    {
      var key := Owner(agent, name);
      Unregisters(Now(), fingerprint, key);
      hide LetGo;
      UnregisteringAgrees(Now(), fingerprint, key);
      hide Owned, Agree;
      if key !in owners {
        return;
      }
      var fp := owners[key];
      owners := owners - {key};
      var gone := Release(fp, key);
      assert Now() == Unclaimed(old(Now()), key);
      if gone {
        Drop(fp);
      }
    }

    /** Spawn the peer unless it is settled; `outcome` is how the attempt ends. */
    method ConnectPeer(fp: Fp, outcome: Outcome, now: nat)
      requires Valid()
      modifies this, bridge
      ensures Valid() && Now() == Attempted(old(Now()), fp, outcome, now)
      ensures fp in peers ==> Settled(peers[fp].status)
      ensures ConnectedExactly(old(Now()), Now(), fp, outcome, now)
    {
      Connects(Now(), fp, outcome, now);
      hide ConnectedExactly;
      ConnectingAgrees(Now(), fp, outcome, now);
      SameClaimsOwned(Now(), Attempted(Now(), fp, outcome, now), fingerprint);
      hide Owned, Agree, SameClaims, Running;
      if fp !in peers || Settled(peers[fp].status) {
        return;
      }
      peers := peers[fp := peers[fp].(status := Status.Connecting, tools := [], error := None)];
      assert Now() == Checked(old(Now()), fp);
      if outcome.Up? {
        bridge.RegisterPeer(fp, outcome.tools);
      }
      var e := peers[fp].(lastUsed := Some(now));
      peers := peers[fp := match outcome
        case Up(tools) => e.(status := Connected, tools := tools, error := None)
        case Down(error) => e.(status := Failed, tools := [], error := Some(error))];
    }

    /** One connect for each peer the agent declared that is not settled. */
    method EnsureConnected(agent: string, names: seq<string>, outcomes: Fp -> Outcome, now: nat)
      requires Valid()
      modifies this, bridge
      ensures Valid() && Frame(old(Now()), Now())
      ensures forall name :: name in names ==> Ready(Now(), Owner(agent, name))
      ensures forall fp :: fp in old(peers) ==> Brought(old(Now()), Now(), agent, names, outcomes, now, fp)
    {
      FrameSelf(Now());
      for i := 0 to |names|
        invariant Valid() && Frame(old(Now()), Now())
        invariant forall name :: name in names[..i] ==> Ready(Now(), Owner(agent, name))
        invariant forall fp :: fp in old(peers) ==> fp in peers && Brought(old(Now()), Now(), agent, names[..i], outcomes, now, fp)
      {
        var key := Owner(agent, names[i]);
        assert names[..i + 1] == names[..i] + [names[i]];
        ghost var was := Now();
        if key in owners {
          OwnedAt(Now(), fingerprint, key);
          hide Valid, Attempted, Frame, Ready;
          var fp := owners[key];
          ConnectingFrames(Now(), fp, outcomes(fp), now, key);
          hide Brought, ConnectedExactly;
          if !Settled(peers[fp].status) {
            ConnectPeer(fp, outcomes(fp), now);
          } else {
            Connects(was, fp, outcomes(fp), now);
          }
          FrameOwners(old(Now()), was);
          forall f | f in old(peers)
            ensures f in peers && Brought(old(Now()), Now(), agent, names[..i + 1], outcomes, now, f)
          {
            BroughtMore(old(Now()), was, Now(), agent, names[..i], names[i], outcomes, now, fp, f);
          }
          ReadyStays(was, Now(), agent, names[..i]);
          FrameTrans(old(Now()), was, Now());
        } else {
          assert Ready(Now(), key);
        }
      }
      assert names[..|names|] == names;
    }

    /** Expired peers lose their process and keep their entry. */
    method ReapIdle(now: nat) returns (ghost reaped: seq<Fp>)
      requires Valid()
      modifies this, bridge
      ensures Valid() && ListsExpired(old(Now()), now, timeout, reaped)
      ensures Now() == AllDropped(AllReaped(old(Now()), now, timeout), reaped)
      ensures ReapedExactly(old(Now()), Now(), now, timeout)
      ensures forall fp :: fp in peers && Settled(peers[fp].status) ==>
                peers[fp].lastUsed.Some? && now - peers[fp].lastUsed.value < timeout
      ensures forall fp :: fp in reaped ==> fp in peers && peers[fp].status == Disconnected && Running(bridge.peers, fp) == 0
    {
      var expired := ListExpired(now);
      ReapingAgrees(Now(), now, timeout, expired);
      ReapsExactly(Now(), now, timeout, expired);
      hide ReapedExactly;
      SameClaimsOwned(Now(), AllDropped(AllReaped(Now(), now, timeout), expired), fingerprint);
      ghost var st := AllDropped(AllReaped(Now(), now, timeout), expired);
      assert forall fp :: fp in st.peers && Settled(st.peers[fp].status) ==> st.peers[fp].lastUsed.Some?;
      assert forall fp :: fp in expired ==> fp in peers;
      AllDroppedPeers(AllReaped(Now(), now, timeout), expired);
      hide Owned, Agree, SameClaims, Running, Without;
      peers := map fp | fp in peers :: if Expired(peers[fp], now, timeout) then Reaped(peers[fp]) else peers[fp];
      assert Now() == AllReaped(old(Now()), now, timeout);
      for i := 0 to |expired|
        invariant Now() == AllDropped(AllReaped(old(Now()), now, timeout), expired[..i])
      {
        assert expired[..i + 1][..i] == expired[..i];
        Drop(expired[i]);
      }
      assert expired[..|expired|] == expired;
      reaped := expired;
    }

    method ListExpired(now: nat) returns (expired: seq<Fp>)
      ensures ListsExpired(Now(), now, timeout, expired)
    {
      expired := [];
      var rest := peers.Keys;
      while rest != {}
        invariant rest <= peers.Keys
        invariant forall fp :: fp in expired <==> fp in peers && fp !in rest && Expired(peers[fp], now, timeout)
        decreases |rest|
      {
        var fp :| fp in rest;
        rest := rest - {fp};
        if Expired(peers[fp], now, timeout) {
          expired := expired + [fp];
        }
      }
    }

    /** Reset, drop the process, and one more connect; no claim moves. */
    method ReconnectForAgent(agent: string, name: string, outcome: Outcome, now: nat) returns (ok: bool)
      requires Valid()
      modifies this, bridge
      ensures Valid() && (ok <==> Owner(agent, name) in old(owners))
      ensures Now() == if ok then Reconnecting(old(Now()), old(owners)[Owner(agent, name)], outcome, now) else old(Now())
      ensures ok ==>
                var fp := old(owners)[Owner(agent, name)];
                && OnlyEntry(old(Now()), Now(), fp)
                && fp in old(peers) && SettledBy(old(peers)[fp], peers[fp], outcome, now)
                && Running(bridge.peers, fp) == (if outcome.Up? then 1 else 0)
                && forall f: Fp :: f != fp ==> Running(bridge.peers, f) == Running(old(bridge.peers), f)
    {
      var key := Owner(agent, name);
      if key !in owners {
        return false;
      }
      OwnedAt(Now(), fingerprint, key);
      var fp := owners[key];
      ReconnectingAgrees(Now(), fp, outcome, now);
      Reconnects(Now(), fp, outcome, now);
      hide OnlyEntry, SettledBy;
      ResetAgrees(Now(), fp);
      SameClaimsOwned(Now(), Dropped(Reset(Now(), fp), fp), fingerprint);
      hide Owned, Agree, SameClaims, Running, Without;
      peers := peers[fp := peers[fp].(status := Disconnected, tools := [], error := None)];
      assert Now() == Reset(old(Now()), fp);
      Drop(fp);
      ConnectPeer(fp, outcome, now);
      ok := true;
    }

    /** Call a tool; only a transport error says anything about the peer. */
    method Call(fp: Fp, tool: string, far: Reply, now: nat) returns (r: Reply)
      requires Valid()
      modifies this
      ensures Valid() && Now() == Calling(old(Now()), fp, tool, far, now)
      ensures Reaches(bridge.peers, fp, tool) ==> r == far
      ensures !Reaches(bridge.peers, fp, tool) ==> r.Rejected?
      ensures OnlyEntry(old(Now()), Now(), fp) && bridge.peers == old(bridge.peers)
      ensures fp in peers ==>
                && peers[fp].lastUsed == Some(now) && peers[fp].tools == old(peers)[fp].tools
                && SameDeclaration(old(peers)[fp], peers[fp]) && Reported(old(peers)[fp], peers[fp], r)
    {
      CallingAgrees(Now(), fp, tool, far, now);
      SameClaimsOwned(Now(), Calling(Now(), fp, tool, far, now), fingerprint);
      hide Owned, Agree, SameClaims, Running, Reaches;
      if fp in peers {
        peers := peers[fp := peers[fp].(lastUsed := Some(now))];
      }
      r := bridge.Call(fp, tool, far);
      if r.Transport? && fp in peers && peers[fp].status != Failed {
        peers := peers[fp := peers[fp].(status := Failed, error := Some(r.error))];
      }
    }
  }
}
