/** MCP peers: declarations shared by fingerprint, processes with a lifetime of their own. */
module McpState {
  import opened Wrappers

  type Fp = nat

  /** An agent and the name it knows the server under. */
  datatype Owner = Owner(agent: string, name: string)

  /** A server's configuration; `peer` stands for the fields that make it the peer it is. */
  datatype Config = Config(name: string, peer: string)

  datatype Status = Connecting | Connected | Failed | Disconnected

  /** A declaration. `gate` is the identity of the lock connects of this very entry are serialized by. */
  datatype Entry = Entry(
    status: Status,
    tools: seq<string>,
    error: Option<string>,
    refs: set<Owner>,
    cfg: Config,
    lastUsed: Option<nat>,
    gate: nat)

  /** A running process, as the bridge knows it. */
  datatype Process = Process(id: Fp, tools: seq<string>)

  datatype State = State(peers: map<Fp, Entry>, owners: map<Owner, Fp>, bridge: seq<Process>)

  const NOTHING: State := State(map[], map[], [])

  /** A connect brings a process up, or does not. */
  datatype Outcome = Up(tools: seq<string>) | Down(error: string)

  predicate Settled(status: Status) {
    status == Connected || status == Failed
  }

  // ----- Lock-held sections -----

  /** Let go of one claim on a peer; the last one takes the entry with it. */
  function Released(peers: map<Fp, Entry>, fp: Fp, key: Owner): map<Fp, Entry> {
    if fp !in peers then peers
    else
      var entry := peers[fp].(refs := peers[fp].refs - {key});
      if entry.refs == {} then peers - {fp} else peers[fp := entry]
  }

  /** Claim the peer of a config, moving any earlier claim under the same name. */
  function Claimed(st: State, key: Owner, cfg: Config, fp: Fp, gate: nat): State {
    var peers := if key in st.owners && st.owners[key] != fp then Released(st.peers, st.owners[key], key) else st.peers;
    var entry := if fp in peers then peers[fp].(refs := peers[fp].refs + {key})
                 else Entry(Disconnected, [], None, {key}, cfg, None, gate);
    State(peers[fp := entry], st.owners[key := fp], st.bridge)
  }

  /** The peer a section left without a declaration. */
  function Orphaned(before: State, after: State, key: Owner): Option<Fp> {
    if key in before.owners && before.owners[key] in before.peers && before.owners[key] !in after.peers
    then Some(before.owners[key]) else None
  }

  function Unclaimed(st: State, key: Owner): State {
    if key !in st.owners then st
    else State(Released(st.peers, st.owners[key], key), st.owners - {key}, st.bridge)
  }

  function WithEntry(st: State, fp: Fp, entry: Entry): State {
    st.(peers := st.peers[fp := entry])
  }

  /** Under the gate: a peer somebody settled is left alone, any other one starts connecting. */
  function Checked(st: State, fp: Fp): State {
    if fp in st.peers && !Settled(st.peers[fp].status)
    then WithEntry(st, fp, st.peers[fp].(status := Connecting, tools := [], error := None))
    else st
  }

  function SettledAs(st: State, fp: Fp, outcome: Outcome, now: nat): State {
    if fp !in st.peers then st
    else
      var e := st.peers[fp].(lastUsed := Some(now));
      WithEntry(st, fp, match outcome
        case Up(tools) => e.(status := Connected, tools := tools, error := None)
        case Down(error) => e.(status := Failed, tools := [], error := Some(error)))
  }

  /** Quiet for at least the timeout, with a process that may still be running. */
  predicate Expired(e: Entry, now: nat, timeout: nat) {
    Settled(e.status) && e.lastUsed.Some? && now - e.lastUsed.value >= timeout
  }

  /** What an expired entry becomes. The error, if there was one, is kept. */
  function Reaped(e: Entry): Entry {
    e.(status := Disconnected, tools := [], lastUsed := None)
  }

  function AllReaped(st: State, now: nat, timeout: nat): State {
    st.(peers := map fp | fp in st.peers ::
      if Expired(st.peers[fp], now, timeout) then Reaped(st.peers[fp]) else st.peers[fp])
  }

  /** What a reconnect does first; the time of last use stays. */
  function Reset(st: State, fp: Fp): State {
    if fp in st.peers then WithEntry(st, fp, st.peers[fp].(status := Disconnected, tools := [], error := None)) else st
  }

  function Touched(st: State, fp: Fp, now: nat): State {
    if fp in st.peers then WithEntry(st, fp, st.peers[fp].(lastUsed := Some(now))) else st
  }

  /** Only status and error change; the tools are those of the last connect. */
  function MarkedFailed(st: State, fp: Fp, error: string): State {
    if fp in st.peers && st.peers[fp].status != Failed
    then WithEntry(st, fp, st.peers[fp].(status := Failed, error := Some(error))) else st
  }

  // ----- The bridge -----

  function Without(bridge: seq<Process>, id: Fp): seq<Process> {
    if bridge == [] then []
    else Without(bridge[..|bridge| - 1], id)
         + if bridge[|bridge| - 1].id == id then [] else [bridge[|bridge| - 1]]
  }

  function Running(bridge: seq<Process>, id: Fp): nat {
    if bridge == [] then 0
    else Running(bridge[..|bridge| - 1], id) + if bridge[|bridge| - 1].id == id then 1 else 0
  }

  lemma {:induction false} WithoutRuns(bridge: seq<Process>, id: Fp, other: Fp)
    ensures Running(Without(bridge, id), other) == if other == id then 0 else Running(bridge, other)
    decreases |bridge|
  {
    if bridge != [] {
      var n := |bridge| - 1;
      WithoutRuns(bridge[..n], id, other);
      if bridge[n].id != id {
        var rest := Without(bridge[..n], id);
        assert (rest + [bridge[n]])[..|rest + [bridge[n]]| - 1] == rest;
      } else {
        assert Without(bridge, id) == Without(bridge[..n], id);
      }
    }
  }

  lemma PushRuns(bridge: seq<Process>, p: Process, other: Fp)
    ensures Running(bridge + [p], other) == Running(bridge, other) + if other == p.id then 1 else 0
  {
    assert (bridge + [p])[..|bridge + [p]| - 1] == bridge;
  }

  function Dropped(st: State, fp: Fp): State {
    st.(bridge := Without(st.bridge, fp))
  }

  function Pushed(st: State, fp: Fp, tools: seq<string>): State {
    st.(bridge := st.bridge + [Process(fp, tools)])
  }

  // ----- Ownership -----

  ghost predicate Owns(st: State, key: Owner, fp: Fp) {
    fp in st.peers && key in st.peers[fp].refs
  }

  /**
   * The reverse lookup is exact, a tracked peer has an owner, and the config kept for respawning
   * is one of this very peer.
   */
  ghost predicate Owned(st: State, fingerprint: string -> Fp) {
    && (forall key, fp :: key in st.owners && st.owners[key] == fp <==> Owns(st, key, fp))
    && (forall fp :: fp in st.peers ==> st.peers[fp].refs != {} && fingerprint(st.peers[fp].cfg.peer) == fp)
  }

  lemma OwnedAt(st: State, fingerprint: string -> Fp, key: Owner)
    requires Owned(st, fingerprint) && key in st.owners
    ensures st.owners[key] in st.peers && key in st.peers[st.owners[key]].refs
  {
    assert Owns(st, key, st.owners[key]);
  }

  lemma ClaimedOwned(st: State, fingerprint: string -> Fp, key: Owner, cfg: Config, gate: nat)
    requires Owned(st, fingerprint)
    ensures Owned(Claimed(st, key, cfg, fingerprint(cfg.peer), gate), fingerprint)
  {
    var fp := fingerprint(cfg.peer);
    var st' := Claimed(st, key, cfg, fp, gate);
    forall k, f
      ensures k in st'.owners && st'.owners[k] == f <==> Owns(st', k, f)
    {
      assert k in st.owners && st.owners[k] == f <==> Owns(st, k, f);
      if key in st.owners {
        assert key in st.owners && st.owners[key] == f <==> Owns(st, key, f);
        assert Owns(st, key, st.owners[key]);
      } else {
        assert !Owns(st, key, f);
      }
    }
  }

  lemma UnclaimedOwned(st: State, fingerprint: string -> Fp, key: Owner)
    requires Owned(st, fingerprint)
    ensures Owned(Unclaimed(st, key), fingerprint)
  {
    var st' := Unclaimed(st, key);
    forall k, f
      ensures k in st'.owners && st'.owners[k] == f <==> Owns(st', k, f)
    {
      assert k in st.owners && st.owners[k] == f <==> Owns(st, k, f);
      if key in st.owners {
        assert key in st.owners && st.owners[key] == f <==> Owns(st, key, f);
      }
    }
  }

  /** Same declarations: only what is running, and since when, differs. */
  ghost predicate SameClaims(a: State, b: State) {
    && a.owners == b.owners && a.peers.Keys == b.peers.Keys
    && forall fp :: fp in a.peers ==>
         a.peers[fp].refs == b.peers[fp].refs && a.peers[fp].cfg == b.peers[fp].cfg && a.peers[fp].gate == b.peers[fp].gate
  }

  lemma EntryKeepsClaims(st: State, fp: Fp, e: Entry)
    requires fp in st.peers && e.refs == st.peers[fp].refs && e.cfg == st.peers[fp].cfg && e.gate == st.peers[fp].gate
    ensures SameClaims(st, WithEntry(st, fp, e))
  {
  }

  /** Every section but those two leaves the claims alone. */
  lemma ConnectKeepsClaims(st: State, fp: Fp, outcome: Outcome, now: nat)
    ensures SameClaims(st, Checked(st, fp)) && SameClaims(st, SettledAs(st, fp, outcome, now))
  {
    if fp in st.peers {
      EntryKeepsClaims(st, fp, Checked(st, fp).peers[fp]);
      EntryKeepsClaims(st, fp, SettledAs(st, fp, outcome, now).peers[fp]);
      hide SameClaims;
      assert WithEntry(st, fp, st.peers[fp]) == st;
    }
  }

  lemma ReapKeepsClaims(st: State, fp: Fp, now: nat, timeout: nat)
    ensures SameClaims(st, AllReaped(st, now, timeout)) && SameClaims(st, Reset(st, fp))
  {
  }

  lemma CallKeepsClaims(st: State, fp: Fp, error: string, now: nat)
    ensures SameClaims(st, Touched(st, fp, now)) && SameClaims(st, MarkedFailed(st, fp, error))
  {
  }

  lemma BridgeKeepsClaims(st: State, fp: Fp, tools: seq<string>)
    ensures SameClaims(st, Dropped(st, fp)) && SameClaims(st, Pushed(st, fp, tools))
  {
  }

  lemma SameClaimsOwned(a: State, b: State, fingerprint: string -> Fp)
    requires SameClaims(a, b) && Owned(a, fingerprint)
    ensures Owned(b, fingerprint)
  {
    forall k, f
      ensures k in b.owners && b.owners[k] == f <==> Owns(b, k, f)
    {
      assert k in a.owners && a.owners[k] == f <==> Owns(a, k, f);
    }
  }

  // ----- Agreement -----

  ghost predicate PeerAgrees(e: Entry, running: nat) {
    && e.status != Status.Connecting && running <= 1
    && (e.status == Connected ==> running == 1)
    && (running == 1 ==> Settled(e.status))
    && (Settled(e.status) ==> e.lastUsed.Some?)
  }

  /**
   * A connected peer has exactly one process, every process is that of a tracked settled peer,
   * and a settled peer has a time of last use for the reaper to go by.
   */
  ghost predicate Agree(st: State) {
    && (forall fp :: fp in st.peers ==> PeerAgrees(st.peers[fp], Running(st.bridge, fp)))
    && forall fp :: fp !in st.peers ==> Running(st.bridge, fp) == 0
  }

  lemma NothingAgrees()
    ensures Agree(NOTHING)
  {
  }

  ghost predicate AgreesAt(st: State, fp: Fp) {
    if fp in st.peers then PeerAgrees(st.peers[fp], Running(st.bridge, fp)) else Running(st.bridge, fp) == 0
  }

  lemma AgreeIsEverywhere(st: State)
    ensures Agree(st) <==> forall fp: Fp :: AgreesAt(st, fp)
  {
    hide PeerAgrees, Running;
    if Agree(st) {
      forall fp: Fp
        ensures AgreesAt(st, fp)
      {
      }
    }
    if forall fp: Fp :: AgreesAt(st, fp) {
      forall fp: Fp
        ensures fp in st.peers ==> PeerAgrees(st.peers[fp], Running(st.bridge, fp))
        ensures fp !in st.peers ==> Running(st.bridge, fp) == 0
      {
        assert AgreesAt(st, fp);
      }
    }
  }
}
