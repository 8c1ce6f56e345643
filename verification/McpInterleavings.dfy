/** Every interleaving of the lock-held sections: what they keep, and what only whole operations keep. */
module McpInterleavings {
  import opened Wrappers
  import opened McpState

  /** An operation in progress, between two of its sections. */
  datatype Task =
    | Waiting(fp: Fp, cfg: Config, gate: nat)
    | Holding(fp: Fp, cfg: Config, gate: nat)
    | Spawning(fp: Fp, cfg: Config, gate: nat)
    | Settling(fp: Fp, cfg: Config, gate: nat, outcome: Outcome)
    | Clearing(fps: set<Fp>, next: Option<Fp>)
    | Resetting(fp: Fp)
    | Calling(fp: Fp)
    | Failing(fp: Fp, error: string)

  /** The handler, the operations in progress, and the gates handed out so far. */
  datatype Sys = Sys(st: State, tasks: map<nat, Task>, gates: nat)

  const START: Sys := Sys(NOTHING, map[], 0)

  datatype Act =
    | RegisterAct(t: nat, key: Owner, cfg: Config)
    | UnregisterAct(t: nat, key: Owner)
    | ConnectAct(t: nat, fp: Fp)
    | LockAct(t: nat)
    | CheckAct(t: nat)
    | UpAct(t: nat, tools: seq<string>)
    | DownAct(t: nat, error: string)
    | SettleAct(t: nat, now: nat)
    | ReapAct(t: nat, now: nat)
    | ReconnectAct(t: nat, key: Owner)
    | ResetAct(t: nat)
    | ClearAct(t: nat, fp: Fp)
    | CallAct(t: nat, fp: Fp, now: nat)
    | BreakAct(t: nat, error: string)
    | MarkAct(t: nat)
    | EndAct(t: nat)

  /** What all runs share: the hash, and the idle timeout. */
  datatype Setup = Setup(fingerprint: string -> Fp, timeout: nat)

  predicate Holds(task: Task) {
    task.Holding? || task.Spawning? || task.Settling?
  }

  predicate Starts(a: Act) {
    a.RegisterAct? || a.UnregisterAct? || a.ConnectAct? || a.ReapAct? || a.ReconnectAct? || a.CallAct?
  }

  /** What lets a started operation take its next step. */
  predicate CanGoOn(s: Sys, a: Act)
    requires a.t in s.tasks
  {
    var task := s.tasks[a.t];
    match a
    case LockAct(_) => task.Waiting? && forall u :: u in s.tasks && Holds(s.tasks[u]) ==> s.tasks[u].gate != task.gate
    case CheckAct(_) => task.Holding?
    case UpAct(_, _) => task.Spawning?
    case DownAct(_, _) => task.Spawning?
    case SettleAct(_, _) => task.Settling?
    case ResetAct(_) => task.Resetting?
    case ClearAct(_, fp) => task.Clearing? && fp in task.fps
    // Only a running process can break a call.
    case BreakAct(_, _) => task.Calling? && Running(s.st.bridge, task.fp) > 0
    case MarkAct(_) => task.Failing?
    // A call returns, or an operation is dropped where it waits.
    case EndAct(_) => task.Waiting? || task.Spawning? || task.Clearing? || task.Resetting? || task.Calling?
    case _ => false
  }

  predicate Enabled(s: Sys, a: Act) {
    if Starts(a)
    then a.t !in s.tasks && (a.ReconnectAct? ==> a.key in s.st.owners)
    else a.t in s.tasks && CanGoOn(s, a)
  }

  function With(s: Sys, st: State, t: nat, task: Task): Sys {
    s.(st := st, tasks := s.tasks[t := task])
  }

  function Ended(s: Sys, st: State, t: nat): Sys {
    s.(st := st, tasks := s.tasks - {t})
  }

  /** Clear what a section orphaned, if it did. */
  function Clear(s: Sys, st: State, t: nat, orphan: Option<Fp>): Sys {
    if orphan.Some? then With(s, st, t, Clearing({orphan.value}, None)) else Ended(s, st, t)
  }

  /** `connect_peer`: read the entry, then queue at its gate. */
  function Queued(s: Sys, st: State, t: nat, fp: Fp): Sys {
    if fp in st.peers then With(s, st, t, Waiting(fp, st.peers[fp].cfg, st.peers[fp].gate)) else Ended(s, st, t)
  }

  function ExpiredIn(st: State, now: nat, timeout: nat): set<Fp> {
    set fp | fp in st.peers && Expired(st.peers[fp], now, timeout)
  }

  function Begin(u: Setup, s: Sys, a: Act): Sys
    requires Starts(a) && Enabled(s, a)
  {
    match a
    case RegisterAct(t, key, cfg) =>
      var st := Claimed(s.st, key, cfg, u.fingerprint(cfg.peer), s.gates);
      Clear(s, st, t, Orphaned(s.st, st, key)).(gates := s.gates + 1)
    case UnregisterAct(t, key) =>
      var st := Unclaimed(s.st, key);
      Clear(s, st, t, Orphaned(s.st, st, key))
    case ConnectAct(t, fp) => Queued(s, s.st, t, fp)
    case ReapAct(t, now) =>
      var expired := ExpiredIn(s.st, now, u.timeout);
      if expired == {} then s else With(s, AllReaped(s.st, now, u.timeout), t, Clearing(expired, None))
    case ReconnectAct(t, key) => With(s, s.st, t, Resetting(s.st.owners[key]))
    case CallAct(t, fp, now) => With(s, Touched(s.st, fp, now), t, Calling(fp))
  }

  function GoOn(s: Sys, a: Act): Sys
    requires !Starts(a) && Enabled(s, a)
  {
    var task := s.tasks[a.t];
    match a
    case LockAct(t) => With(s, s.st, t, Holding(task.fp, task.cfg, task.gate))
    case CheckAct(t) =>
      if Spawns(s, a) then With(s, Checked(s.st, task.fp), t, Spawning(task.fp, task.cfg, task.gate))
      else Ended(s, s.st, t)
    case UpAct(t, tools) => With(s, Pushed(s.st, task.fp, tools), t, Settling(task.fp, task.cfg, task.gate, Up(tools)))
    case DownAct(t, error) => With(s, s.st, t, Settling(task.fp, task.cfg, task.gate, Down(error)))
    case SettleAct(t, now) => Ended(s, SettledAs(s.st, task.fp, task.outcome, now), t)
    case ResetAct(t) =>
      if task.fp in s.st.peers then With(s, Reset(s.st, task.fp), t, Clearing({task.fp}, Some(task.fp)))
      else Ended(s, s.st, t)
    case ClearAct(t, fp) =>
      var st := Dropped(s.st, fp);
      if task.fps != {fp} then With(s, st, t, Clearing(task.fps - {fp}, task.next))
      else if task.next.Some? then Queued(s, st, t, task.next.value)
      else Ended(s, st, t)
    case BreakAct(t, error) => With(s, s.st, t, Failing(task.fp, error))
    case MarkAct(t) => Ended(s, MarkedFailed(s.st, task.fp, task.error), t)
    case EndAct(t) => Ended(s, s.st, t)
  }

  function Next(u: Setup, s: Sys, a: Act): Sys
    requires Enabled(s, a)
  {
    if Starts(a) then Begin(u, s, a) else GoOn(s, a)
  }

  /** The section that starts a process. */
  predicate Spawns(s: Sys, a: Act) {
    && a.CheckAct? && a.t in s.tasks && s.tasks[a.t].Holding? && s.tasks[a.t].fp in s.st.peers
    && !Settled(s.st.peers[s.tasks[a.t].fp].status)
  }

  // ----- What every interleaving keeps -----

  /** One operation at a time holds a gate. */
  ghost predicate GatesHeldOnce(tasks: map<nat, Task>) {
    forall t, t' :: t in tasks && t' in tasks && Holds(tasks[t]) && Holds(tasks[t']) && tasks[t].gate == tasks[t'].gate ==> t == t'
  }

  /** A process is only ever started from a config of its own fingerprint. */
  ghost predicate ConfigsMatch(u: Setup, tasks: map<nat, Task>) {
    forall t :: t in tasks && (Holds(tasks[t]) || tasks[t].Waiting?) ==> u.fingerprint(tasks[t].cfg.peer) == tasks[t].fp
  }

  ghost predicate Sound(u: Setup, s: Sys) {
    Owned(s.st, u.fingerprint) && GatesHeldOnce(s.tasks) && ConfigsMatch(u, s.tasks)
  }

  lemma BeginKeepsTasks(u: Setup, s: Sys, a: Act)
    requires Sound(u, s) && Starts(a) && Enabled(s, a)
    ensures GatesHeldOnce(Begin(u, s, a).tasks) && ConfigsMatch(u, Begin(u, s, a).tasks)
  {
    hide Claimed, Unclaimed, AllReaped, Touched, Expired, Orphaned;
  }

  lemma BeginKeepsOwned(u: Setup, s: Sys, a: Act)
    requires Sound(u, s) && Starts(a) && Enabled(s, a)
    ensures Owned(Begin(u, s, a).st, u.fingerprint)
  {
    match a
    case RegisterAct(t, key, cfg) =>
      hide Owned, Claimed;
      ClaimedOwned(s.st, u.fingerprint, key, cfg, s.gates);
    case UnregisterAct(t, key) =>
      hide Owned, Unclaimed;
      UnclaimedOwned(s.st, u.fingerprint, key);
    case ReapAct(t, now) =>
      ReapKeepsClaims(s.st, 0, now, u.timeout);
      hide Owned, SameClaims, AllReaped;
      SameClaimsOwned(s.st, AllReaped(s.st, now, u.timeout), u.fingerprint);
    case CallAct(t, fp, now) =>
      CallKeepsClaims(s.st, fp, "", now);
      hide Owned, SameClaims, Touched;
      SameClaimsOwned(s.st, Touched(s.st, fp, now), u.fingerprint);
    case _ =>
  }

  lemma GoOnKeepsTasks(u: Setup, s: Sys, a: Act)
    requires Sound(u, s) && !Starts(a) && Enabled(s, a)
    ensures GatesHeldOnce(GoOn(s, a).tasks) && ConfigsMatch(u, GoOn(s, a).tasks)
  {
    hide Checked, Pushed, SettledAs, Reset, MarkedFailed, Running, Without;
  }

  lemma GoOnKeepsOwned(u: Setup, s: Sys, a: Act)
    requires Sound(u, s) && !Starts(a) && Enabled(s, a)
    ensures Owned(GoOn(s, a).st, u.fingerprint)
  {
    var st := GoOn(s, a).st;
    hide Owned;
    if st != s.st {
      GoOnKeepsClaims(s, a);
      SameClaimsOwned(s.st, st, u.fingerprint);
    }
  }

  lemma GoOnKeepsClaims(s: Sys, a: Act)
    requires !Starts(a) && Enabled(s, a)
    ensures SameClaims(s.st, GoOn(s, a).st)
  {
    var task := s.tasks[a.t];
    match a
    case CheckAct(t) => ConnectKeepsClaims(s.st, task.fp, Down(""), 0);
    case SettleAct(t, now) => ConnectKeepsClaims(s.st, task.fp, task.outcome, now);
    case UpAct(t, tools) => BridgeKeepsClaims(s.st, task.fp, tools);
    case ClearAct(t, fp) => BridgeKeepsClaims(s.st, fp, []);
    case ResetAct(t) => ReapKeepsClaims(s.st, task.fp, 0, 0);
    case MarkAct(t) => CallKeepsClaims(s.st, task.fp, task.error, 0);
    case _ =>
  }

  lemma StepKeepsSound(u: Setup, s: Sys, a: Act)
    requires Sound(u, s) && Enabled(s, a)
    ensures Sound(u, Next(u, s, a))
  {
    hide Owned, GatesHeldOnce, ConfigsMatch, Begin, GoOn, Enabled;
    if Starts(a) {
      BeginKeepsTasks(u, s, a);
      BeginKeepsOwned(u, s, a);
    } else {
      GoOnKeepsTasks(u, s, a);
      GoOnKeepsOwned(u, s, a);
    }
  }

  /** A run: each act is enabled where it happens. */
  ghost predicate Runs(u: Setup, s: Sys, acts: seq<Act>, s': Sys)
    decreases |acts|
  {
    if acts == [] then s == s' else Enabled(s, acts[0]) && Runs(u, Next(u, s, acts[0]), acts[1..], s')
  }

  /** Under every interleaving the ownership bookkeeping holds, and a gate is held once. */
  lemma {:induction false} RunKeepsSound(u: Setup, s: Sys, acts: seq<Act>, s': Sys)
    requires Sound(u, s) && Runs(u, s, acts, s')
    ensures Sound(u, s')
    decreases |acts|
  {
    hide Sound, Next, Enabled;
    if acts != [] {
      StepKeepsSound(u, s, acts[0]);
      RunKeepsSound(u, Next(u, s, acts[0]), acts[1..], s');
    }
  }

  lemma StartIsSound(u: Setup)
    ensures Sound(u, START)
  {
  }

  // ----- Once settled, no respawn until a reset -----

  /** The acts that take a peer out of a settled status: a reap of it, a reset of it, or its last claim going. */
  predicate Unsettles(u: Setup, s: Sys, a: Act, fp: Fp)
    requires Enabled(s, a) && fp in s.st.peers
  {
    match a
    case ReapAct(_, now) => Expired(s.st.peers[fp], now, u.timeout)
    case ResetAct(t) => s.tasks[t].fp == fp
    case RegisterAct(_, key, cfg) =>
      key in s.st.owners && s.st.owners[key] == fp && u.fingerprint(cfg.peer) != fp && s.st.peers[fp].refs == {key}
    case UnregisterAct(_, key) => key in s.st.owners && s.st.owners[key] == fp && s.st.peers[fp].refs == {key}
    case _ => false
  }

  lemma SettledStays(u: Setup, s: Sys, a: Act, fp: Fp)
    requires Sound(u, s) && Enabled(s, a) && fp in s.st.peers && Settled(s.st.peers[fp].status)
    ensures !(Spawns(s, a) && s.tasks[a.t].fp == fp)
    ensures var st := Next(u, s, a).st;
            fp in st.peers && Settled(st.peers[fp].status) <==> !Unsettles(u, s, a, fp)
  {
    if a.RegisterAct? || a.UnregisterAct? {
      ClaimsStay(u, s, a, fp);
    } else if a.ReapAct? {
      ReapStep(u, s, a);
      hide Begin, Sound;
    } else {
      hide Sound;
      OthersStay(u, s, a, fp);
    }
  }

  lemma ClaimsStay(u: Setup, s: Sys, a: Act, fp: Fp)
    requires Sound(u, s) && Enabled(s, a) && fp in s.st.peers && Settled(s.st.peers[fp].status)
    requires a.RegisterAct? || a.UnregisterAct?
    ensures var st := Next(u, s, a).st;
            fp in st.peers && Settled(st.peers[fp].status) <==> !Unsettles(u, s, a, fp)
  {
    hide Owned, Claimed, Unclaimed, GatesHeldOnce, ConfigsMatch, Orphaned;
    if a.RegisterAct? {
      ClaimStays(s.st, u.fingerprint, a.key, a.cfg, s.gates, fp);
      assert Next(u, s, a).st == Claimed(s.st, a.key, a.cfg, u.fingerprint(a.cfg.peer), s.gates);
    } else {
      UnclaimStays(s.st, u.fingerprint, a.key, fp);
      assert Next(u, s, a).st == Unclaimed(s.st, a.key);
    }
  }

  lemma OthersStay(u: Setup, s: Sys, a: Act, fp: Fp)
    requires Enabled(s, a) && fp in s.st.peers && Settled(s.st.peers[fp].status)
    requires !a.RegisterAct? && !a.UnregisterAct? && !a.ReapAct?
    ensures !(Spawns(s, a) && s.tasks[a.t].fp == fp)
    ensures var st := Next(u, s, a).st;
            fp in st.peers && Settled(st.peers[fp].status) <==> !Unsettles(u, s, a, fp)
  {
    hide Running, Without, AllReaped, Claimed, Unclaimed, Expired;
  }

  lemma ReapStep(u: Setup, s: Sys, a: Act)
    requires a.ReapAct? && Enabled(s, a)
    ensures Next(u, s, a).st == AllReaped(s.st, a.now, u.timeout)
  {
    var expired := ExpiredIn(s.st, a.now, u.timeout);
    if expired == {} {
      forall fp | fp in s.st.peers
        ensures !Expired(s.st.peers[fp], a.now, u.timeout)
      {
        assert fp !in expired;
      }
      assert AllReaped(s.st, a.now, u.timeout).peers == s.st.peers;
    }
  }

  lemma ClaimStays(st: State, fingerprint: string -> Fp, key: Owner, cfg: Config, gate: nat, fp: Fp)
    requires Owned(st, fingerprint) && fp in st.peers
    ensures var st' := Claimed(st, key, cfg, fingerprint(cfg.peer), gate);
            var last := key in st.owners && st.owners[key] == fp && fingerprint(cfg.peer) != fp && st.peers[fp].refs == {key};
            (fp in st'.peers <==> !last) && (fp in st'.peers ==> st'.peers[fp].status == st.peers[fp].status)
  {
    if key in st.owners {
      OwnedAt(st, fingerprint, key);
    }
    assert st.peers[fp].refs - {key} == {} <==> st.peers[fp].refs == {key} || st.peers[fp].refs == {};
  }

  lemma UnclaimStays(st: State, fingerprint: string -> Fp, key: Owner, fp: Fp)
    requires Owned(st, fingerprint) && fp in st.peers
    ensures var st' := Unclaimed(st, key);
            var last := key in st.owners && st.owners[key] == fp && st.peers[fp].refs == {key};
            (fp in st'.peers <==> !last) && (fp in st'.peers ==> st'.peers[fp].status == st.peers[fp].status)
  {
    if key in st.owners {
      OwnedAt(st, fingerprint, key);
    }
    assert st.peers[fp].refs - {key} == {} <==> st.peers[fp].refs == {key} || st.peers[fp].refs == {};
  }

  ghost predicate NeverUnsettled(u: Setup, s: Sys, acts: seq<Act>, fp: Fp)
    decreases |acts|
  {
    acts == []
    || (&& Enabled(s, acts[0]) && fp in s.st.peers && !Unsettles(u, s, acts[0], fp)
        && NeverUnsettled(u, Next(u, s, acts[0]), acts[1..], fp))
  }

  ghost predicate NeverSpawned(u: Setup, s: Sys, acts: seq<Act>, fp: Fp)
    decreases |acts|
  {
    acts == []
    || (&& Enabled(s, acts[0]) && !(Spawns(s, acts[0]) && s.tasks[acts[0].t].fp == fp)
        && NeverSpawned(u, Next(u, s, acts[0]), acts[1..], fp))
  }

  /** Once a connect settles a peer, no process is started for it until one of those acts resets it. */
  lemma {:induction false} NoRespawnUntilReset(u: Setup, s: Sys, acts: seq<Act>, fp: Fp)
    requires Sound(u, s) && fp in s.st.peers && Settled(s.st.peers[fp].status) && NeverUnsettled(u, s, acts, fp)
    ensures NeverSpawned(u, s, acts, fp)
    decreases |acts|
  {
    hide Sound, Next, Enabled, Unsettles, Spawns;
    if acts != [] {
      SettledStays(u, s, acts[0], fp);
      StepKeepsSound(u, s, acts[0]);
      NoRespawnUntilReset(u, Next(u, s, acts[0]), acts[1..], fp);
    }
  }

  // ----- Since when a peer is quiet -----

  /** No use of the peer on record is older than `t0`. */
  ghost predicate UsedSince(st: State, fp: Fp, t0: nat) {
    fp in st.peers ==> match st.peers[fp].lastUsed case Some(at) => at >= t0 case None => true
  }

  /** The act uses the peer, or settles it, at this time. */
  predicate Uses(s: Sys, a: Act, fp: Fp, at: nat) {
    || (a.CallAct? && a.fp == fp && a.now == at)
    || (a.SettleAct? && a.t in s.tasks && s.tasks[a.t].Settling? && s.tasks[a.t].fp == fp && a.now == at)
  }

  /** The clock does not go back: no call and no settling from here on is earlier. */
  predicate NotEarlier(acts: seq<Act>, t0: nat) {
    forall a :: a in acts && (a.CallAct? || a.SettleAct?) ==> a.now >= t0
  }

  lemma UseIsRecorded(u: Setup, s: Sys, a: Act, fp: Fp, t0: nat)
    requires Enabled(s, a) && Uses(s, a, fp, t0)
    ensures UsedSince(Next(u, s, a).st, fp, t0)
    ensures fp in s.st.peers ==> fp in Next(u, s, a).st.peers && Next(u, s, a).st.peers[fp].lastUsed == Some(t0)
  {
    hide Running, Without, AllReaped, Claimed, Unclaimed, Expired;
  }

  lemma StaysUsed(u: Setup, s: Sys, a: Act, fp: Fp, t0: nat)
    requires Enabled(s, a) && UsedSince(s.st, fp, t0) && NotEarlier([a], t0)
    ensures UsedSince(Next(u, s, a).st, fp, t0)
  {
    assert a in [a];
    if a.ReapAct? {
      ReapStep(u, s, a);
      hide Begin;
    } else {
      hide Running, Without, AllReaped, Expired, NotEarlier;
    }
  }

  lemma {:induction false} RunStaysUsed(u: Setup, s: Sys, acts: seq<Act>, s': Sys, fp: Fp, t0: nat)
    requires UsedSince(s.st, fp, t0) && Runs(u, s, acts, s') && NotEarlier(acts, t0)
    ensures UsedSince(s'.st, fp, t0)
    decreases |acts|
  {
    hide Next, Enabled, UsedSince;
    if acts != [] {
      StaysUsed(u, s, acts[0], fp, t0);
      RunStaysUsed(u, Next(u, s, acts[0]), acts[1..], s', fp, t0);
    }
  }

  /** A reap leaves this peer alone: its entry stays as it is, and it is not among those to be cleared. */
  ghost predicate Spares(u: Setup, s: Sys, a: Act, fp: Fp)
    requires Enabled(s, a)
  {
    var next := Next(u, s, a);
    && (fp in next.st.peers <==> fp in s.st.peers) && (fp in s.st.peers ==> next.st.peers[fp] == s.st.peers[fp])
    && (a.t in next.tasks && a.t !in s.tasks && next.tasks[a.t].Clearing? ==> fp !in next.tasks[a.t].fps)
  }

  /**
   * A peer that was called or settled at `t0` is reaped by nobody before a whole timeout has gone by,
   * whatever else happens to it and to all others in between.
   */
  lemma UsedPeersAreSpared(u: Setup, s: Sys, a: Act, acts: seq<Act>, s': Sys, fp: Fp, t0: nat, t: nat, now: nat)
    requires Enabled(s, a) && Uses(s, a, fp, t0)
    requires Runs(u, Next(u, s, a), acts, s') && NotEarlier(acts, t0)
    requires Enabled(s', ReapAct(t, now)) && now < t0 + u.timeout
    ensures Spares(u, s', ReapAct(t, now), fp)
  {
    hide Next, UsedSince, Runs, NotEarlier;
    UseIsRecorded(u, s, a, fp, t0);
    RunStaysUsed(u, Next(u, s, a), acts, s', fp, t0);
    RecentIsSpared(u, s', t, now, fp, t0);
  }

  lemma RecentIsSpared(u: Setup, s: Sys, t: nat, now: nat, fp: Fp, t0: nat)
    requires Enabled(s, ReapAct(t, now)) && UsedSince(s.st, fp, t0) && now < t0 + u.timeout
    ensures Spares(u, s, ReapAct(t, now), fp)
  {
    ReapStep(u, s, ReapAct(t, now));
    assert fp in s.st.peers ==> !Expired(s.st.peers[fp], now, u.timeout);
  }

  /** And one that has been quiet for the timeout is: it is disconnected at once and its process is to go. */
  lemma QuietPeersAreReaped(u: Setup, s: Sys, t: nat, now: nat, fp: Fp)
    requires Enabled(s, ReapAct(t, now)) && fp in s.st.peers && s.st.peers[fp].lastUsed.Some?
    requires s.st.peers[fp].status in {Connected, Failed} && now >= s.st.peers[fp].lastUsed.value + u.timeout
    ensures var next := Next(u, s, ReapAct(t, now));
            && fp in next.st.peers && next.st.peers[fp].status == Disconnected && next.st.peers[fp].lastUsed == None
            && t in next.tasks && next.tasks[t].Clearing? && fp in next.tasks[t].fps && next.tasks[t].next == None
  {
    assert fp in ExpiredIn(s.st, now, u.timeout);
  }

  // ----- What only whole operations keep -----

  lemma {:induction false} RunsMore(u: Setup, s: Sys, acts: seq<Act>, s': Sys, a: Act)
    requires Runs(u, s, acts, s') && Enabled(s', a)
    ensures Runs(u, s, acts + [a], Next(u, s', a))
    decreases |acts|
  {
    hide Next, Enabled;
    if acts == [] {
      assert [a][1..] == [];
      assert Runs(u, Next(u, s', a), [], Next(u, s', a));
      assert acts + [a] == [a];
    } else {
      assert (acts + [a])[1..] == acts[1..] + [a];
      RunsMore(u, Next(u, s, acts[0]), acts[1..], s', a);
    }
  }

  lemma Then(u: Setup, acts: seq<Act>, s: Sys, a: Act, s': Sys) returns (more: seq<Act>)
    requires Runs(u, START, acts, s) && Enabled(s, a) && Next(u, s, a) == s'
    ensures Runs(u, START, more, s')
  {
    RunsMore(u, START, acts, s, a);
    more := acts + [a];
  }

  /** Nothing is in progress any more. */
  predicate Quiet(s: Sys) {
    s.tasks == map[]
  }

  function OnePeer(key: Owner, fp: Fp, e: Entry, bridge: seq<Process>): State {
    State(map[fp := e], map[key := fp], bridge)
  }

  function Fresh(key: Owner, cfg: Config, gate: nat): Entry {
    Entry(Disconnected, [], None, {key}, cfg, None, gate)
  }

  function InProgress(key: Owner, cfg: Config): Entry {
    Fresh(key, cfg, 0).(status := Connecting)
  }

  /** One agent registers one server and queues for its first connect. */
  lemma FirstConnect(u: Setup, key: Owner, cfg: Config) returns (acts: seq<Act>)
    ensures var fp := u.fingerprint(cfg.peer);
            Runs(u, START, acts, Sys(OnePeer(key, fp, Fresh(key, cfg, 0), []), map[0 := Waiting(fp, cfg, 0)], 1))
  {
    var fp := u.fingerprint(cfg.peer);
    var s1 := Sys(OnePeer(key, fp, Fresh(key, cfg, 0), []), map[], 1);
    Registered(u, key, cfg);
    assert Runs(u, START, [], START);
    acts := Then(u, [], START, RegisterAct(0, key, cfg), s1);
    var s2 := Sys(s1.st, map[0 := Waiting(fp, cfg, 0)], 1);
    assert Next(u, s1, ConnectAct(0, fp)) == s2;
    acts := Then(u, acts, s1, ConnectAct(0, fp), s2);
  }

  /** The process comes up; the connect has yet to settle. */
  lemma ProcessUp(u: Setup, key: Owner, cfg: Config, tools: seq<string>) returns (acts: seq<Act>)
    ensures var fp := u.fingerprint(cfg.peer);
            Runs(u, START, acts, Sys(OnePeer(key, fp, InProgress(key, cfg), [Process(fp, tools)]),
                                     map[0 := Settling(fp, cfg, 0, Up(tools))], 1))
  {
    var fp := u.fingerprint(cfg.peer);
    acts := FirstConnect(u, key, cfg);
    hide Runs;
    var s2 := Sys(OnePeer(key, fp, Fresh(key, cfg, 0), []), map[0 := Waiting(fp, cfg, 0)], 1);
    var s3 := Sys(s2.st, map[0 := Holding(fp, cfg, 0)], 1);
    assert Next(u, s2, LockAct(0)) == s3;
    acts := Then(u, acts, s2, LockAct(0), s3);
    var s4 := Sys(OnePeer(key, fp, InProgress(key, cfg), []), map[0 := Spawning(fp, cfg, 0)], 1);
    assert Next(u, s3, CheckAct(0)) == s4;
    acts := Then(u, acts, s3, CheckAct(0), s4);
    var s5 := Sys(OnePeer(key, fp, InProgress(key, cfg), [Process(fp, tools)]), map[0 := Settling(fp, cfg, 0, Up(tools))], 1);
    assert [] + [Process(fp, tools)] == [Process(fp, tools)];
    assert Next(u, s4, UpAct(0, tools)) == s5;
    acts := Then(u, acts, s4, UpAct(0, tools), s5);
  }

  lemma Registered(u: Setup, key: Owner, cfg: Config)
    ensures Enabled(START, RegisterAct(0, key, cfg))
    ensures Next(u, START, RegisterAct(0, key, cfg))
         == Sys(OnePeer(key, u.fingerprint(cfg.peer), Fresh(key, cfg, 0), []), map[], 1)
  {
  }

  lemma OneGone(fp: Fp, tools: seq<string>)
    ensures Without([Process(fp, tools)], fp) == []
  {
    assert [Process(fp, tools)][..0] == [];
  }

  lemma ReconnectBegins(u: Setup, key: Owner, cfg: Config, tools: seq<string>) returns (acts: seq<Act>)
    ensures var fp := u.fingerprint(cfg.peer);
            Runs(u, START, acts, Sys(OnePeer(key, fp, Fresh(key, cfg, 0), []),
                                     map[0 := Settling(fp, cfg, 0, Up(tools)), 1 := Waiting(fp, cfg, 0)], 1))
  {
    var fp := u.fingerprint(cfg.peer);
    acts := ProcessUp(u, key, cfg, tools);
    hide Runs;
    var busy, up := Settling(fp, cfg, 0, Up(tools)), [Process(fp, tools)];
    var s0 := Sys(OnePeer(key, fp, InProgress(key, cfg), up), map[0 := busy], 1);
    var s1 := Sys(s0.st, map[0 := busy, 1 := Resetting(fp)], 1);
    assert Next(u, s0, ReconnectAct(1, key)) == s1;
    acts := Then(u, acts, s0, ReconnectAct(1, key), s1);
    var s2 := Sys(OnePeer(key, fp, Fresh(key, cfg, 0), up), map[0 := busy, 1 := Clearing({fp}, Some(fp))], 1);
    assert Next(u, s1, ResetAct(1)) == s2;
    acts := Then(u, acts, s1, ResetAct(1), s2);
    OneGone(fp, tools);
    var s3 := Sys(OnePeer(key, fp, Fresh(key, cfg, 0), []), map[0 := busy, 1 := Waiting(fp, cfg, 0)], 1);
    assert Next(u, s2, ClearAct(1, fp)) == s3;
    acts := Then(u, acts, s2, ClearAct(1, fp), s3);
  }

  /**
   * A reconnect that overlaps a connect takes the new process down and then finds the peer
   * settled: it ends up connected, with no operation left and no process running.
   */
  lemma ReconnectOverlapsConnect(u: Setup, key: Owner, cfg: Config, tools: seq<string>, now: nat)
    returns (acts: seq<Act>, s: Sys)
    ensures Runs(u, START, acts, s) && Quiet(s)
    ensures var fp := u.fingerprint(cfg.peer);
            fp in s.st.peers && s.st.peers[fp].status == Connected && Running(s.st.bridge, fp) == 0
  {
    var fp := u.fingerprint(cfg.peer);
    acts := ReconnectBegins(u, key, cfg, tools);
    hide Runs;
    var s3 := Sys(OnePeer(key, fp, Fresh(key, cfg, 0), []),
                  map[0 := Settling(fp, cfg, 0, Up(tools)), 1 := Waiting(fp, cfg, 0)], 1);
    var e := Entry(Connected, tools, None, {key}, cfg, Some(now), 0);
    var s4 := Sys(OnePeer(key, fp, e, []), map[1 := Waiting(fp, cfg, 0)], 1);
    assert Next(u, s3, SettleAct(0, now)) == s4;
    acts := Then(u, acts, s3, SettleAct(0, now), s4);
    var s5 := Sys(s4.st, map[1 := Holding(fp, cfg, 0)], 1);
    assert Next(u, s4, LockAct(1)) == s5;
    acts := Then(u, acts, s4, LockAct(1), s5);
    s := Sys(s4.st, map[], 1);
    assert Next(u, s5, CheckAct(1)) == s;
    acts := Then(u, acts, s5, CheckAct(1), s);
  }

  /** Failed, with no time of last use. */
  predicate Stuck(st: State, fp: Fp) {
    fp in st.peers && st.peers[fp].status == Failed && st.peers[fp].lastUsed == None && st.peers[fp].tools == []
  }

  function Used(key: Owner, cfg: Config, tools: seq<string>): Entry {
    Entry(Connected, tools, None, {key}, cfg, Some(0), 0)
  }

  lemma CallBegins(u: Setup, key: Owner, cfg: Config, tools: seq<string>) returns (acts: seq<Act>)
    ensures var fp := u.fingerprint(cfg.peer);
            Runs(u, START, acts, Sys(OnePeer(key, fp, Used(key, cfg, tools), [Process(fp, tools)]), map[1 := Calling(fp)], 1))
  {
    var fp := u.fingerprint(cfg.peer);
    acts := ProcessUp(u, key, cfg, tools);
    hide Runs;
    var up := [Process(fp, tools)];
    var s0 := Sys(OnePeer(key, fp, InProgress(key, cfg), up), map[0 := Settling(fp, cfg, 0, Up(tools))], 1);
    var s1 := Sys(OnePeer(key, fp, Used(key, cfg, tools), up), map[], 1);
    assert Next(u, s0, SettleAct(0, 0)) == s1;
    acts := Then(u, acts, s0, SettleAct(0, 0), s1);
    var s2 := Sys(s1.st, map[1 := Calling(fp)], 1);
    assert Next(u, s1, CallAct(1, fp, 0)) == s2;
    acts := Then(u, acts, s1, CallAct(1, fp, 0), s2);
  }

  lemma CallBreaks(u: Setup, key: Owner, cfg: Config, tools: seq<string>, error: string) returns (acts: seq<Act>)
    ensures var fp := u.fingerprint(cfg.peer);
            Runs(u, START, acts, Sys(OnePeer(key, fp, Used(key, cfg, tools), [Process(fp, tools)]), map[1 := Failing(fp, error)], 1))
  {
    var fp := u.fingerprint(cfg.peer);
    acts := CallBegins(u, key, cfg, tools);
    var up := [Process(fp, tools)];
    PushRuns([], up[0], fp);
    assert [] + up == up;
    hide Runs, Running;
    var s2 := Sys(OnePeer(key, fp, Used(key, cfg, tools), up), map[1 := Calling(fp)], 1);
    var s3 := Sys(s2.st, map[1 := Failing(fp, error)], 1);
    assert Next(u, s2, BreakAct(1, error)) == s3;
    acts := Then(u, acts, s2, BreakAct(1, error), s3);
  }

  lemma ReapedMeanwhile(u: Setup, key: Owner, cfg: Config, tools: seq<string>, error: string) returns (acts: seq<Act>)
    ensures var fp := u.fingerprint(cfg.peer);
            Runs(u, START, acts, Sys(OnePeer(key, fp, Reaped(Used(key, cfg, tools)), []), map[1 := Failing(fp, error)], 1))
  {
    var fp := u.fingerprint(cfg.peer);
    acts := CallBreaks(u, key, cfg, tools, error);
    hide Runs;
    var up, e := [Process(fp, tools)], Used(key, cfg, tools);
    var s3 := Sys(OnePeer(key, fp, e, up), map[1 := Failing(fp, error)], 1);
    var s4 := Sys(OnePeer(key, fp, Reaped(e), up), map[1 := Failing(fp, error), 2 := Clearing({fp}, None)], 1);
    ReapedOne(u, s3, fp, e);
    hide ExpiredIn, AllReaped, Reaped, Used;
    assert Next(u, s3, ReapAct(2, u.timeout)) == s4;
    acts := Then(u, acts, s3, ReapAct(2, u.timeout), s4);
    OneGone(fp, tools);
    var s5 := Sys(OnePeer(key, fp, Reaped(e), []), map[1 := Failing(fp, error)], 1);
    assert Next(u, s4, ClearAct(2, fp)) == s5;
    acts := Then(u, acts, s4, ClearAct(2, fp), s5);
  }

  /**
   * A call that breaks while its peer is being reaped marks the peer failed after the reap: it
   * ends up failed, never used, and offering no tool.
   */
  lemma FailureAfterReap(u: Setup, key: Owner, cfg: Config, tools: seq<string>, error: string)
    returns (acts: seq<Act>, s: Sys)
    ensures Runs(u, START, acts, s) && Quiet(s) && Stuck(s.st, u.fingerprint(cfg.peer))
  {
    var fp := u.fingerprint(cfg.peer);
    acts := ReapedMeanwhile(u, key, cfg, tools, error);
    hide Runs;
    var e := Reaped(Used(key, cfg, tools));
    var s5 := Sys(OnePeer(key, fp, e, []), map[1 := Failing(fp, error)], 1);
    s := Sys(OnePeer(key, fp, e.(status := Failed, error := Some(error)), []), map[], 1);
    assert Next(u, s5, MarkAct(1)) == s;
    acts := Then(u, acts, s5, MarkAct(1), s);
  }

  lemma ReapedOne(u: Setup, s: Sys, fp: Fp, e: Entry)
    requires s.st.peers == map[fp := e] && e.status == Connected && e.lastUsed == Some(0)
    ensures ExpiredIn(s.st, u.timeout, u.timeout) == {fp}
    ensures AllReaped(s.st, u.timeout, u.timeout).peers == map[fp := Reaped(e)]
  {
  }

  /** `allowed`: the tools an agent may be offered. */
  function Allowed(st: State, agent: string, names: seq<string>): seq<(Fp, string)> {
    if names == [] then []
    else
      var key := Owner(agent, names[0]);
      (if key in st.owners && st.owners[key] in st.peers
       then Offered(st.owners[key], st.peers[st.owners[key]].tools) else [])
      + Allowed(st, agent, names[1..])
  }

  function Offered(fp: Fp, tools: seq<string>): (r: seq<(Fp, string)>)
    ensures |r| == |tools| && forall i :: 0 <= i < |r| ==> r[i] == (fp, tools[i])
  {
    seq(|tools|, i requires 0 <= i < |tools| => (fp, tools[i]))
  }

  lemma {:induction false} NothingOffered(st: State, agent: string, names: seq<string>, fp: Fp)
    requires Stuck(st, fp)
    ensures forall i :: 0 <= i < |Allowed(st, agent, names)| ==> Allowed(st, agent, names)[i].0 != fp
    decreases |names|
  {
    if names != [] {
      NothingOffered(st, agent, names[1..], fp);
    }
  }

  /**
   * Such a peer stays that way: no reap takes it, no connect starts it, and no tool of it is
   * offered, so only a call to it by fingerprint, a reconnect or its last claim going ends it.
   */
  lemma StuckStays(u: Setup, s: Sys, a: Act, fp: Fp)
    requires Sound(u, s) && Enabled(s, a) && Stuck(s.st, fp)
    requires !(a.CallAct? && a.fp == fp) && !(a.SettleAct? && s.tasks[a.t].fp == fp) && !Unsettles(u, s, a, fp)
    ensures Stuck(Next(u, s, a).st, fp)
    ensures !(Spawns(s, a) && s.tasks[a.t].fp == fp)
    ensures forall now :: !Expired(s.st.peers[fp], now, u.timeout)
    ensures forall agent, names, i :: 0 <= i < |Allowed(s.st, agent, names)| ==> Allowed(s.st, agent, names)[i].0 != fp
  {
    forall agent, names
      ensures forall i :: 0 <= i < |Allowed(s.st, agent, names)| ==> Allowed(s.st, agent, names)[i].0 != fp
    {
      NothingOffered(s.st, agent, names, fp);
    }
    hide Allowed;
    SettledStays(u, s, a, fp);
    StuckEntry(u, s, a, fp);
  }

  lemma StuckEntry(u: Setup, s: Sys, a: Act, fp: Fp)
    requires Enabled(s, a) && Stuck(s.st, fp) && fp in Next(u, s, a).st.peers
    requires !(a.CallAct? && a.fp == fp) && !(a.SettleAct? && s.tasks[a.t].fp == fp) && !(a.ResetAct? && s.tasks[a.t].fp == fp)
    requires a.RegisterAct? && a.key in s.st.owners && s.st.owners[a.key] == fp ==>
               u.fingerprint(a.cfg.peer) == fp || s.st.peers[fp].refs != {a.key}
    ensures Stuck(Next(u, s, a).st, fp)
  {
    if a.ReapAct? {
      ReapStep(u, s, a);
      hide Begin;
    } else {
      hide Running, Without, AllReaped, Expired;
    }
  }

  // ----- Two processes under one id -----

  function Crossed(key: Owner, cfg: Config, fp: Fp, status: Status, bridge: seq<Process>, tasks: map<nat, Task>): Sys {
    Sys(OnePeer(key, fp, Fresh(key, cfg, 1).(status := status), bridge), tasks, 2)
  }

  /** A connect queues at the gate of an entry that goes and comes back with another gate. */
  lemma GateReplaced(u: Setup, key: Owner, cfg: Config) returns (acts: seq<Act>)
    ensures var fp := u.fingerprint(cfg.peer);
            Runs(u, START, acts, Crossed(key, cfg, fp, Disconnected, [], map[0 := Waiting(fp, cfg, 0)]))
  {
    var fp := u.fingerprint(cfg.peer);
    acts := FirstConnect(u, key, cfg);
    hide Runs;
    var s0 := Sys(OnePeer(key, fp, Fresh(key, cfg, 0), []), map[0 := Waiting(fp, cfg, 0)], 1);
    var s1 := Sys(NOTHING, map[0 := Waiting(fp, cfg, 0), 1 := Clearing({fp}, None)], 1);
    LastClaimGoes(s0.st, key, fp);
    assert Next(u, s0, UnregisterAct(1, key)) == s1;
    acts := Then(u, acts, s0, UnregisterAct(1, key), s1);
    var s2 := Sys(NOTHING, map[0 := Waiting(fp, cfg, 0)], 1);
    assert Without([], fp) == [];
    assert Next(u, s1, ClearAct(1, fp)) == s2;
    acts := Then(u, acts, s1, ClearAct(1, fp), s2);
    var s3 := Crossed(key, cfg, fp, Disconnected, [], map[0 := Waiting(fp, cfg, 0)]);
    assert Next(u, s2, RegisterAct(1, key, cfg)) == s3;
    acts := Then(u, acts, s2, RegisterAct(1, key, cfg), s3);
  }

  lemma LastClaimGoes(st: State, key: Owner, fp: Fp)
    requires st.owners == map[key := fp] && st.peers.Keys == {fp} && st.peers[fp].refs == {key} && st.bridge == []
    ensures Unclaimed(st, key) == NOTHING && Orphaned(st, Unclaimed(st, key), key) == Some(fp)
  {
  }

  lemma BothSpawning(u: Setup, key: Owner, cfg: Config) returns (acts: seq<Act>)
    ensures var fp := u.fingerprint(cfg.peer);
            Runs(u, START, acts, Crossed(key, cfg, fp, Connecting, [],
                                         map[0 := Spawning(fp, cfg, 0), 1 := Spawning(fp, cfg, 1)]))
  {
    var fp := u.fingerprint(cfg.peer);
    acts := GateReplaced(u, key, cfg);
    hide Runs, Claimed, Unclaimed, AllReaped, Expired;
    var waiting0, waiting1 := Waiting(fp, cfg, 0), Waiting(fp, cfg, 1);
    var s3 := Crossed(key, cfg, fp, Disconnected, [], map[0 := waiting0]);
    var s4 := Crossed(key, cfg, fp, Disconnected, [], map[0 := waiting0, 1 := waiting1]);
    assert Next(u, s3, ConnectAct(1, fp)) == s4;
    acts := Then(u, acts, s3, ConnectAct(1, fp), s4);
    var s5 := Crossed(key, cfg, fp, Disconnected, [], map[0 := Holding(fp, cfg, 0), 1 := waiting1]);
    assert Next(u, s4, LockAct(0)) == s5;
    acts := Then(u, acts, s4, LockAct(0), s5);
    acts := FirstSpawn(u, key, cfg, acts);
    acts := SecondSpawn(u, key, cfg, acts);
  }

  lemma FirstSpawn(u: Setup, key: Owner, cfg: Config, was: seq<Act>) returns (acts: seq<Act>)
    requires var fp := u.fingerprint(cfg.peer);
             Runs(u, START, was, Crossed(key, cfg, fp, Disconnected, [],
                                         map[0 := Holding(fp, cfg, 0), 1 := Waiting(fp, cfg, 1)]))
    ensures var fp := u.fingerprint(cfg.peer);
            Runs(u, START, acts, Crossed(key, cfg, fp, Connecting, [],
                                         map[0 := Spawning(fp, cfg, 0), 1 := Waiting(fp, cfg, 1)]))
  {
    var fp := u.fingerprint(cfg.peer);
    hide Runs, Claimed, Unclaimed, AllReaped, Expired;
    var s5 := Crossed(key, cfg, fp, Disconnected, [], map[0 := Holding(fp, cfg, 0), 1 := Waiting(fp, cfg, 1)]);
    var s6 := Crossed(key, cfg, fp, Connecting, [], map[0 := Spawning(fp, cfg, 0), 1 := Waiting(fp, cfg, 1)]);
    assert Next(u, s5, CheckAct(0)) == s6;
    acts := Then(u, was, s5, CheckAct(0), s6);
  }

  lemma SecondSpawn(u: Setup, key: Owner, cfg: Config, was: seq<Act>) returns (acts: seq<Act>)
    requires var fp := u.fingerprint(cfg.peer);
             Runs(u, START, was, Crossed(key, cfg, fp, Connecting, [],
                                         map[0 := Spawning(fp, cfg, 0), 1 := Waiting(fp, cfg, 1)]))
    ensures var fp := u.fingerprint(cfg.peer);
            Runs(u, START, acts, Crossed(key, cfg, fp, Connecting, [],
                                         map[0 := Spawning(fp, cfg, 0), 1 := Spawning(fp, cfg, 1)]))
  {
    var fp := u.fingerprint(cfg.peer);
    hide Runs, Claimed, Unclaimed, AllReaped, Expired;
    var spawning := Spawning(fp, cfg, 0);
    var s6 := Crossed(key, cfg, fp, Connecting, [], map[0 := spawning, 1 := Waiting(fp, cfg, 1)]);
    var s7 := Crossed(key, cfg, fp, Connecting, [], map[0 := spawning, 1 := Holding(fp, cfg, 1)]);
    assert Next(u, s6, LockAct(1)) == s7;
    acts := Then(u, was, s6, LockAct(1), s7);
    var s8 := Crossed(key, cfg, fp, Connecting, [], map[0 := spawning, 1 := Spawning(fp, cfg, 1)]);
    assert Next(u, s7, CheckAct(1)) == s8;
    acts := Then(u, acts, s7, CheckAct(1), s8);
  }

  lemma BothUp(u: Setup, key: Owner, cfg: Config, tools: seq<string>) returns (acts: seq<Act>)
    ensures var fp := u.fingerprint(cfg.peer);
            Runs(u, START, acts, Crossed(key, cfg, fp, Connecting, [Process(fp, tools), Process(fp, tools)],
                                         map[0 := Settling(fp, cfg, 0, Up(tools)), 1 := Settling(fp, cfg, 1, Up(tools))]))
  {
    var fp := u.fingerprint(cfg.peer);
    acts := BothSpawning(u, key, cfg);
    hide Runs, Claimed, Unclaimed, AllReaped, Expired;
    var up, one := Process(fp, tools), Settling(fp, cfg, 0, Up(tools));
    var s8 := Crossed(key, cfg, fp, Connecting, [], map[0 := Spawning(fp, cfg, 0), 1 := Spawning(fp, cfg, 1)]);
    var s9 := Crossed(key, cfg, fp, Connecting, [up], map[0 := one, 1 := Spawning(fp, cfg, 1)]);
    assert [] + [up] == [up] && [up] + [up] == [up, up];
    assert Next(u, s8, UpAct(0, tools)) == s9;
    acts := Then(u, acts, s8, UpAct(0, tools), s9);
    var s10 := Crossed(key, cfg, fp, Connecting, [up, up], map[0 := one, 1 := Settling(fp, cfg, 1, Up(tools))]);
    assert Next(u, s9, UpAct(1, tools)) == s10;
    acts := Then(u, acts, s9, UpAct(1, tools), s10);
  }

  /**
   * The gate serializes connects of one entry only. A connect that queued before the last claim
   * went, and another for the entry that came back, start two processes under one id.
   */
  lemma TwoProcessesOneId(u: Setup, key: Owner, cfg: Config, tools: seq<string>, now: nat)
    returns (acts: seq<Act>, s: Sys)
    ensures Runs(u, START, acts, s) && Quiet(s)
    ensures var fp := u.fingerprint(cfg.peer);
            fp in s.st.peers && s.st.peers[fp].status == Connected && Running(s.st.bridge, fp) == 2
  {
    var fp := u.fingerprint(cfg.peer);
    acts := BothUp(u, key, cfg, tools);
    hide Runs, Claimed, Unclaimed, AllReaped, Expired;
    var up, two := Process(fp, tools), Settling(fp, cfg, 1, Up(tools));
    var s10 := Crossed(key, cfg, fp, Connecting, [up, up], map[0 := Settling(fp, cfg, 0, Up(tools)), 1 := two]);
    var e := Entry(Connected, tools, None, {key}, cfg, Some(now), 1);
    var s11 := Sys(OnePeer(key, fp, e, [up, up]), map[1 := two], 2);
    assert Next(u, s10, SettleAct(0, now)) == s11;
    acts := Then(u, acts, s10, SettleAct(0, now), s11);
    s := Sys(OnePeer(key, fp, e, [up, up]), map[], 2);
    assert Next(u, s11, SettleAct(1, now)) == s;
    acts := Then(u, acts, s11, SettleAct(1, now), s);
    PushRuns([], up, fp);
    PushRuns([up], up, fp);
    assert [] + [up] == [up] && [up] + [up] == [up, up];
  }
}
