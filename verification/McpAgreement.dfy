/**
 * When status and process agree over runs: every interleaving in which tearing a peer down does not
 * overlap another operation on that peer, and no operation is dropped where it waits.
 */
module McpAgreement {
  import opened Wrappers
  import opened McpState
  import opened McpInterleavings

  // ----- Operations kept apart -----

  /** An operation on this peer is in progress. */
  predicate Touches(task: Task, fp: Fp) {
    match task
    case Clearing(fps, next) => fp in fps || next == Some(fp)
    case Waiting(f, _, _) => f == fp
    case Holding(f, _, _) => f == fp
    case Spawning(f, _, _) => f == fp
    case Settling(f, _, _, _) => f == fp
    case Resetting(f) => f == fp
    case Calling(f) => f == fp
    case Failing(f, _) => f == fp
  }

  /** It tears the peer down: a reap, the first half of a reconnect, or the last claim going. */
  predicate TearsDown(task: Task, fp: Fp) {
    (task.Clearing? || task.Resetting?) && Touches(task, fp)
  }

  /** While a peer is torn down no other operation on it is in progress. */
  ghost predicate Apart(tasks: map<nat, Task>) {
    forall t, t', fp :: t in tasks && t' in tasks && t != t' && TearsDown(tasks[t], fp) ==> !Touches(tasks[t'], fp)
  }

  lemma TornApart(tasks: map<nat, Task>, t: nat, k: nat, fp: Fp)
    requires Apart(tasks) && t in tasks && k in tasks && t != k
    ensures TearsDown(tasks[t], fp) ==> !Touches(tasks[k], fp)
  {
  }

  /** Only a call ends without more ado: nothing else is dropped where it waits. */
  predicate Whole(s: Sys, a: Act) {
    a.EndAct? && a.t in s.tasks ==> s.tasks[a.t].Calling?
  }

  /** Along the whole run peers are torn down apart from everything else, and nothing is dropped. */
  ghost predicate Undisturbed(u: Setup, s: Sys, acts: seq<Act>)
    decreases |acts|
  {
    && Apart(s.tasks)
    && (acts == [] || (Enabled(s, acts[0]) && Whole(s, acts[0]) && Undisturbed(u, Next(u, s, acts[0]), acts[1..])))
  }

  // ----- The invariant -----

  /** The operation is between starting a process, or taking one down, and saying so. */
  predicate Occupies(task: Task, fp: Fp) {
    ((task.Spawning? || task.Settling?) && task.fp == fp) || (task.Clearing? && fp in task.fps)
  }

  ghost predicate Busy(tasks: map<nat, Task>, fp: Fp) {
    exists t :: t in tasks && Occupies(tasks[t], fp)
  }

  /** What a half-done operation can rely on. */
  ghost predicate TaskOk(st: State, task: Task) {
    match task
    case Waiting(fp, _, gate) => fp in st.peers && st.peers[fp].gate == gate
    case Holding(fp, _, gate) => fp in st.peers && st.peers[fp].gate == gate
    case Spawning(fp, _, gate) =>
      && fp in st.peers && st.peers[fp].gate == gate
      && st.peers[fp].status == Connecting && Running(st.bridge, fp) == 0
    case Settling(fp, _, gate, outcome) =>
      && fp in st.peers && st.peers[fp].gate == gate
      && (st.peers[fp].status == Connecting || (outcome.Up? && st.peers[fp].status == Failed))
      && Running(st.bridge, fp) == if outcome.Up? then 1 else 0
    case Clearing(fps, _) => forall fp :: fp in fps ==> Down(st, fp)
    case Resetting(_) => true
    case Calling(_) => true
    case Failing(fp, _) => Running(st.bridge, fp) == 1
  }

  /** Said to be disconnected, or not tracked at all; what may still run is one process. */
  ghost predicate Down(st: State, fp: Fp) {
    Running(st.bridge, fp) <= 1 && (fp in st.peers ==> st.peers[fp].status == Disconnected)
  }

  ghost predicate Steady(s: Sys) {
    && GatesHeldOnce(s.tasks)
    && (forall t :: t in s.tasks ==> TaskOk(s.st, s.tasks[t]))
    && forall fp: Fp :: Busy(s.tasks, fp) || AgreesAt(s.st, fp)
  }

  lemma QuietIsSteady(s: Sys)
    requires Quiet(s) && Agree(s.st)
    ensures Steady(s) && Apart(s.tasks)
  {
    AgreeIsEverywhere(s.st);
    hide Agree, AgreesAt;
  }

  lemma SteadyAgrees(s: Sys)
    requires Steady(s) && Quiet(s)
    ensures Agree(s.st)
  {
    AgreeIsEverywhere(s.st);
    hide Agree, AgreesAt;
  }

  lemma StartIsSteady()
    ensures Steady(START) && Apart(START.tasks)
  {
    NothingAgrees();
    QuietIsSteady(START);
  }

  // ----- What a section does to one peer -----

  /** Two states say the same of a peer, as far as operations rely on it. */
  ghost predicate SameAt(a: State, b: State, fp: Fp) {
    && (fp in a.peers <==> fp in b.peers)
    && (fp in a.peers ==> a.peers[fp].status == b.peers[fp].status && a.peers[fp].gate == b.peers[fp].gate
                          && (a.peers[fp].lastUsed.Some? ==> b.peers[fp].lastUsed.Some?))
    && Running(a.bridge, fp) == Running(b.bridge, fp)
  }

  lemma SameAgrees(a: State, b: State, fp: Fp)
    requires SameAt(a, b, fp) && AgreesAt(a, fp)
    ensures AgreesAt(b, fp)
  {
    hide Running;
  }

  /** A task relies on the peers it touches only. */
  lemma TaskStaysOk(a: State, b: State, task: Task)
    requires TaskOk(a, task) && forall fp :: Touches(task, fp) ==> SameAt(a, b, fp)
    ensures TaskOk(b, task)
  {
    hide Running;
    if task.Clearing? {
      forall fp | fp in task.fps
        ensures Down(b, fp)
      {
        assert Touches(task, fp);
      }
    } else if !task.Resetting? && !task.Calling? {
      assert Touches(task, task.fp);
    }
  }

  /** The peer is not torn down, and nobody but `t` starts a process for it. */
  lemma HolderIsAlone(s: Sys, t: nat, t': nat)
    requires Steady(s) && t in s.tasks && t' in s.tasks && t != t' && Holds(s.tasks[t]) && Holds(s.tasks[t'])
    ensures s.tasks[t'].fp != s.tasks[t].fp
  {
    hide Running, AgreesAt;
    assert TaskOk(s.st, s.tasks[t]) && TaskOk(s.st, s.tasks[t']);
  }

  lemma HoldingAgrees(s: Sys, t: nat)
    requires Steady(s) && Apart(s.tasks) && t in s.tasks && s.tasks[t].Holding?
    ensures AgreesAt(s.st, s.tasks[t].fp)
  {
    var fp := s.tasks[t].fp;
    if Busy(s.tasks, fp) {
      var t' :| t' in s.tasks && Occupies(s.tasks[t'], fp);
      if Holds(s.tasks[t']) {
        HolderIsAlone(s, t, t');
      } else {
        assert TearsDown(s.tasks[t'], fp) && Touches(s.tasks[t], fp);
      }
      assert false;
    }
  }

  // ----- Steps that change one peer, or none -----

  /**
   * A step that moves one operation on and changes at most what the state says of some peers: those
   * must be touched by no other operation, or by ones that can live with it.
   */
  ghost predicate Fits(s: Sys, next: Sys, t: nat) {
    && (forall k :: k in next.tasks && k != t ==> k in s.tasks && next.tasks[k] == s.tasks[k])
    && (forall k :: k in s.tasks && k != t ==> k in next.tasks)
    && (t in next.tasks ==> TaskOk(next.st, next.tasks[t]))
    && (forall k :: k in s.tasks && k != t ==> TaskOk(next.st, s.tasks[k]))
    && forall fp: Fp :: SettlesAt(s, next, t, fp)
  }

  /** One peer after the step: still in another's hands, in this one's, or in agreement. */
  ghost predicate SettlesAt(s: Sys, next: Sys, t: nat, fp: Fp) {
    || (exists k :: k in s.tasks && k != t && Occupies(s.tasks[k], fp))
    || (t in next.tasks && Occupies(next.tasks[t], fp))
    || AgreesAt(next.st, fp)
  }

  lemma FitsSteady(s: Sys, next: Sys, t: nat)
    requires Steady(s) && GatesHeldOnce(next.tasks) && Fits(s, next, t)
    ensures Steady(next)
  {
    hide TaskOk, AgreesAt, GatesHeldOnce, Occupies;
    forall fp: Fp
      ensures Busy(next.tasks, fp) || AgreesAt(next.st, fp)
    {
      assert SettlesAt(s, next, t, fp);
      if k :| k in s.tasks && k != t && Occupies(s.tasks[k], fp) {
        assert k in next.tasks && Occupies(next.tasks[k], fp);
      }
    }
  }

  /** Before the step a peer was in agreement, in another's hands, or in this one's. */
  lemma WasAt(s: Sys, t: nat, fp: Fp)
    requires Steady(s)
    ensures (exists k :: k in s.tasks && k != t && Occupies(s.tasks[k], fp))
         || (t in s.tasks && Occupies(s.tasks[t], fp))
         || AgreesAt(s.st, fp)
  {
    hide TaskOk, AgreesAt, GatesHeldOnce, Occupies;
    if Busy(s.tasks, fp) {
      var k :| k in s.tasks && Occupies(s.tasks[k], fp);
    }
  }

  lemma SameSettles(s: Sys, next: Sys, t: nat, fp: Fp)
    requires Steady(s) && SameAt(s.st, next.st, fp)
    requires t in s.tasks && Occupies(s.tasks[t], fp) ==> t in next.tasks && Occupies(next.tasks[t], fp)
    ensures SettlesAt(s, next, t, fp)
  {
    hide TaskOk, AgreesAt, GatesHeldOnce, Occupies, SameAt;
    WasAt(s, t, fp);
    if AgreesAt(s.st, fp) {
      SameAgrees(s.st, next.st, fp);
    }
  }

  /** The frame of a step: one task moves, and these peers only are told differently of. */
  ghost predicate Frames(s: Sys, next: Sys, t: nat, changed: set<Fp>) {
    && (forall k :: k in next.tasks && k != t ==> k in s.tasks && next.tasks[k] == s.tasks[k])
    && (forall k :: k in s.tasks && k != t ==> k in next.tasks)
    && (forall fp: Fp :: fp !in changed ==> SameAt(s.st, next.st, fp))
    && (forall fp: Fp :: fp !in changed && t in s.tasks && Occupies(s.tasks[t], fp) ==>
          t in next.tasks && Occupies(next.tasks[t], fp))
  }

  /** The other tasks that touch a changed peer are fine too. */
  ghost predicate OthersOk(s: Sys, next: Sys, t: nat, changed: set<Fp>) {
    forall k, fp :: k in s.tasks && k != t && fp in changed && Touches(s.tasks[k], fp) ==> TaskOk(next.st, s.tasks[k])
  }

  lemma FramedFits(s: Sys, next: Sys, t: nat, changed: set<Fp>)
    requires Steady(s) && Frames(s, next, t, changed) && OthersOk(s, next, t, changed)
    requires t in next.tasks ==> TaskOk(next.st, next.tasks[t])
    requires forall fp :: fp in changed ==> SettlesAt(s, next, t, fp)
    ensures Fits(s, next, t)
  {
    hide AgreesAt, GatesHeldOnce, Occupies, SameAt, TaskOk, SettlesAt, Touches;
    forall k | k in s.tasks && k != t
      ensures TaskOk(next.st, s.tasks[k])
    {
      if !(exists fp :: fp in changed && Touches(s.tasks[k], fp)) {
        TaskStaysOk(s.st, next.st, s.tasks[k]);
      }
    }
    forall fp: Fp
      ensures SettlesAt(s, next, t, fp)
    {
      if fp !in changed {
        SameSettles(s, next, t, fp);
      }
    }
  }

  /** A peer has at most one process, whoever is busy with it. */
  lemma AtMostOneProcess(s: Sys, fp: Fp)
    requires Steady(s)
    ensures Running(s.st.bridge, fp) <= 1
  {
    hide Running, GatesHeldOnce;
    if Busy(s.tasks, fp) {
      var k :| k in s.tasks && Occupies(s.tasks[k], fp);
      assert TaskOk(s.st, s.tasks[k]);
      if s.tasks[k].Clearing? {
        assert Down(s.st, fp);
      }
    } else {
      assert AgreesAt(s.st, fp);
    }
  }

  lemma GatesKept(u: Setup, s: Sys, a: Act)
    requires GatesHeldOnce(s.tasks) && Enabled(s, a)
    ensures GatesHeldOnce(Next(u, s, a).tasks)
  {
    hide Claimed, Unclaimed, AllReaped, Touched, Expired, Orphaned, Checked, Pushed, SettledAs, Reset, MarkedFailed,
      Running, Without, Dropped;
  }

  /** What another operation relies on survives a change to the status of a peer it does not hold. */
  lemma OtherStaysOk(s: Sys, t: nat, k: nat, st: State, fp: Fp)
    requires Steady(s) && k in s.tasks && k != t && !Occupies(s.tasks[k], fp)
    requires fp in s.st.peers ==> fp in st.peers && st.peers[fp].gate == s.st.peers[fp].gate
    requires forall f: Fp :: f != fp ==> SameAt(s.st, st, f)
    requires s.tasks[k].Failing? && s.tasks[k].fp == fp ==> Running(st.bridge, fp) == 1
    ensures TaskOk(st, s.tasks[k])
  {
    hide Running, AgreesAt, GatesHeldOnce;
    var task := s.tasks[k];
    assert TaskOk(s.st, task);
    if task.Clearing? {
      forall f | f in task.fps
        ensures Down(st, f)
      {
        assert Down(s.st, f) && SameAt(s.st, st, f);
      }
    } else if !task.Resetting? && !task.Calling? && task.fp != fp {
      assert SameAt(s.st, st, task.fp);
    }
  }

  // ----- The steps -----

  /** What a section that moves claims leaves: at most one peer without a declaration, to be cleared. */
  lemma ClaimsFit(s: Sys, next: Sys, t: nat, orphan: Option<Fp>)
    requires Steady(s) && Apart(next.tasks) && t !in s.tasks && next.st.bridge == s.st.bridge
    requires next.tasks == if orphan.Some? then s.tasks[t := Clearing({orphan.value}, None)] else s.tasks
    requires orphan.Some? ==> orphan.value !in next.st.peers
    requires forall fp :: fp in s.st.peers && fp !in next.st.peers ==> orphan == Some(fp)
    requires forall fp :: fp in s.st.peers && fp in next.st.peers ==> SameAt(s.st, next.st, fp)
    requires forall fp :: fp in next.st.peers && fp !in s.st.peers ==> next.st.peers[fp].status == Disconnected
    ensures Fits(s, next, t)
  {
    var gone := if orphan.Some? then {orphan.value} else {};
    var added := next.st.peers.Keys - s.st.peers.Keys;
    var changed := gone + added;
    forall fp | fp in changed
      ensures SettlesAt(s, next, t, fp)
    {
      if fp !in gone {
        WasAt(s, t, fp);
        AddedAgrees(s.st, next.st, fp);
      }
      hide AgreesAt, Running;
    }
    forall k, fp | k in s.tasks && k != t && fp in gone
      ensures !Touches(s.tasks[k], fp)
    {
      TornApart(next.tasks, t, k, fp);
    }
    forall k, fp | k in s.tasks && k != t && fp in added && Touches(s.tasks[k], fp)
      ensures TaskOk(next.st, s.tasks[k])
    {
      AddedIsOk(s, next, t, k, fp, gone);
    }
    if orphan.Some? {
      AtMostOneProcess(s, orphan.value);
    }
    hide AgreesAt, Running, SettlesAt, GatesHeldOnce;
    assert Frames(s, next, t, changed);
    FramedFits(s, next, t, changed);
  }

  lemma AddedAgrees(a: State, b: State, fp: Fp)
    requires fp !in a.peers && fp in b.peers && b.peers[fp].status == Disconnected && a.bridge == b.bridge
    ensures AgreesAt(a, fp) ==> AgreesAt(b, fp)
  {
    hide Running;
  }

  lemma AddedIsOk(s: Sys, next: Sys, t: nat, k: nat, fp: Fp, gone: set<Fp>)
    requires Steady(s) && k in s.tasks && k != t && Touches(s.tasks[k], fp)
    requires fp !in s.st.peers && fp in next.st.peers && next.st.peers[fp].status == Disconnected
    requires next.st.bridge == s.st.bridge
    requires forall f :: f in next.st.peers && f !in s.st.peers ==> next.st.peers[f].status == Disconnected
    requires forall f :: f in s.st.peers && f in next.st.peers ==> SameAt(s.st, next.st, f)
    ensures TaskOk(next.st, s.tasks[k])
  {
    hide Running, AgreesAt, GatesHeldOnce;
    var task := s.tasks[k];
    assert TaskOk(s.st, task);
    if task.Clearing? {
      forall f | f in task.fps
        ensures Down(next.st, f)
      {
        assert Down(s.st, f);
      }
    }
  }

  lemma RegisterFits(u: Setup, s: Sys, a: Act)
    requires Steady(s) && Enabled(s, a) && a.RegisterAct? && Apart(Next(u, s, a).tasks)
    ensures Fits(s, Next(u, s, a), a.t)
  {
    var fp := u.fingerprint(a.cfg.peer);
    var st := Claimed(s.st, a.key, a.cfg, fp, s.gates);
    var next := Next(u, s, a);
    assert s.tasks - {a.t} == s.tasks;
    assert next.st == st;
    hide Steady, Apart, Running;
    ClaimsFit(s, next, a.t, Orphaned(s.st, st, a.key));
  }

  lemma UnregisterFits(u: Setup, s: Sys, a: Act)
    requires Steady(s) && Enabled(s, a) && a.UnregisterAct? && Apart(Next(u, s, a).tasks)
    ensures Fits(s, Next(u, s, a), a.t)
  {
    var st := Unclaimed(s.st, a.key);
    var next := Next(u, s, a);
    assert s.tasks - {a.t} == s.tasks;
    assert next.st == st;
    hide Steady, Apart, Running;
    ClaimsFit(s, next, a.t, Orphaned(s.st, st, a.key));
  }

  /** A step after which no peer is told differently of, and the operation is fine where it gets to. */
  lemma MoveFits(s: Sys, next: Sys, t: nat)
    requires Steady(s)
    requires forall k :: k != t ==> (k in next.tasks <==> k in s.tasks) && (k in s.tasks ==> next.tasks[k] == s.tasks[k])
    requires t in next.tasks ==> TaskOk(next.st, next.tasks[t])
    requires forall fp: Fp :: SameAt(s.st, next.st, fp)
    requires forall fp: Fp :: t in s.tasks && Occupies(s.tasks[t], fp) ==> t in next.tasks && Occupies(next.tasks[t], fp)
    ensures Fits(s, next, t)
  {
    hide TaskOk, AgreesAt, GatesHeldOnce, Occupies, SameAt;
    FramedFits(s, next, t, {});
  }

  lemma ReapFits(u: Setup, s: Sys, a: Act)
    requires Steady(s) && Enabled(s, a) && a.ReapAct? && Apart(Next(u, s, a).tasks)
    requires ExpiredIn(s.st, a.now, u.timeout) != {}
    ensures Fits(s, Next(u, s, a), a.t)
  {
    var next, expired := Next(u, s, a), ExpiredIn(s.st, a.now, u.timeout);
    assert next.tasks[a.t] == Clearing(expired, None);
    forall fp | fp in expired
      ensures Down(next.st, fp) && TearsDown(next.tasks[a.t], fp)
      ensures SettlesAt(s, next, a.t, fp)
    {
      AtMostOneProcess(s, fp);
      hide Running, AgreesAt;
    }
    forall k, fp | k in s.tasks && k != a.t && fp in expired
      ensures !Touches(s.tasks[k], fp)
    {
      TornApart(next.tasks, a.t, k, fp);
    }
    assert OthersOk(s, next, a.t, expired) by {
      hide Running, AgreesAt, TaskOk, Down, SettlesAt, Touches, Steady;
    }
    hide Running, AgreesAt, SettlesAt, GatesHeldOnce, Down, OthersOk;
    assert Frames(s, next, a.t, expired);
    FramedFits(s, next, a.t, expired);
  }

  lemma StartFits(u: Setup, s: Sys, a: Act)
    requires Steady(s) && Enabled(s, a) && (a.ConnectAct? || a.ReconnectAct? || a.CallAct?)
    ensures Fits(s, Next(u, s, a), a.t)
  {
    hide Running, Steady;
    MoveFits(s, Next(u, s, a), a.t);
  }

  lemma WaitFits(u: Setup, s: Sys, a: Act)
    requires Steady(s) && Enabled(s, a) && Whole(s, a) && (a.LockAct? || a.DownAct? || a.EndAct?)
    ensures Fits(s, Next(u, s, a), a.t)
  {
    assert TaskOk(s.st, s.tasks[a.t]);
    hide Running, Steady;
    MoveFits(s, Next(u, s, a), a.t);
  }

  lemma BreakFits(u: Setup, s: Sys, a: Act)
    requires Steady(s) && Enabled(s, a) && a.BreakAct?
    ensures Fits(s, Next(u, s, a), a.t)
  {
    AtMostOneProcess(s, s.tasks[a.t].fp);
    hide Running, Steady;
    MoveFits(s, Next(u, s, a), a.t);
  }

  lemma CheckFits(u: Setup, s: Sys, a: Act)
    requires Steady(s) && Apart(s.tasks) && Enabled(s, a) && a.CheckAct?
    ensures Fits(s, Next(u, s, a), a.t)
  {
    var next, fp := Next(u, s, a), s.tasks[a.t].fp;
    assert TaskOk(s.st, s.tasks[a.t]);
    if Spawns(s, a) {
      HoldingAgrees(s, a.t);
      assert TaskOk(next.st, next.tasks[a.t]) by {
        hide Running, Steady;
      }
      HolderFits(s, next, a.t, fp);
    } else {
      hide Running, Steady;
      MoveFits(s, next, a.t);
    }
  }

  /** A step of the one that holds the gate, which says something new of its peer only. */
  lemma HolderFits(s: Sys, next: Sys, t: nat, fp: Fp)
    requires Steady(s) && Apart(s.tasks) && t in s.tasks && Holds(s.tasks[t]) && s.tasks[t].fp == fp
    requires forall k :: k != t ==> (k in next.tasks <==> k in s.tasks) && (k in s.tasks ==> next.tasks[k] == s.tasks[k])
    requires forall f: Fp :: f != fp ==> SameAt(s.st, next.st, f)
    requires fp in next.st.peers && fp in s.st.peers && next.st.peers[fp].gate == s.st.peers[fp].gate
    requires Running(next.st.bridge, fp) == Running(s.st.bridge, fp) || Running(next.st.bridge, fp) == 1
    requires t in next.tasks ==> TaskOk(next.st, next.tasks[t]) && Occupies(next.tasks[t], fp)
    requires t !in next.tasks ==> AgreesAt(next.st, fp)
    ensures Fits(s, next, t)
  {
    forall k, f | k in s.tasks && k != t && f in {fp} && Touches(s.tasks[k], f)
      ensures TaskOk(next.st, s.tasks[k])
    {
      hide Running, AgreesAt;
      assert TaskOk(s.st, s.tasks[k]);
      if Holds(s.tasks[k]) {
        HolderIsAlone(s, t, k);
        assert false;
      } else {
        TornApart(s.tasks, k, t, fp);
        OtherStaysOk(s, t, k, next.st, fp);
      }
    }
    hide Running, AgreesAt, TaskOk, GatesHeldOnce, Apart, SameAt;
    assert SettlesAt(s, next, t, fp);
    assert OthersOk(s, next, t, {fp});
    assert Frames(s, next, t, {fp}) by {
      hide SettlesAt, OthersOk;
    }
    FramedFits(s, next, t, {fp});
  }

  lemma PushedAt(st: State, fp: Fp, tools: seq<string>, f: Fp)
    ensures f != fp ==> SameAt(st, Pushed(st, fp, tools), f)
    ensures Running(Pushed(st, fp, tools).bridge, fp) == Running(st.bridge, fp) + 1
  {
    PushRuns(st.bridge, Process(fp, tools), f);
    PushRuns(st.bridge, Process(fp, tools), fp);
    hide Running;
  }

  lemma UpFits(u: Setup, s: Sys, a: Act)
    requires Steady(s) && Apart(s.tasks) && Enabled(s, a) && a.UpAct?
    ensures Fits(s, Next(u, s, a), a.t)
  {
    var next, fp := Next(u, s, a), s.tasks[a.t].fp;
    assert TaskOk(s.st, s.tasks[a.t]);
    hide Steady, Apart, Running;
    forall f: Fp
      ensures f != fp ==> SameAt(s.st, Pushed(s.st, fp, a.tools), f)
    {
      PushedAt(s.st, fp, a.tools, f);
    }
    PushedAt(s.st, fp, a.tools, fp);
    hide SameAt;
    assert next.st == Pushed(s.st, fp, a.tools);
    HolderFits(s, next, a.t, fp);
  }

  lemma SettleFits(u: Setup, s: Sys, a: Act)
    requires Steady(s) && Apart(s.tasks) && Enabled(s, a) && a.SettleAct?
    ensures Fits(s, Next(u, s, a), a.t)
  {
    var next, fp := Next(u, s, a), s.tasks[a.t].fp;
    assert TaskOk(s.st, s.tasks[a.t]);
    hide Running, Steady, Apart;
    HolderFits(s, next, a.t, fp);
  }

  /** A step of the one that tears a peer down. */
  lemma TearerFits(s: Sys, next: Sys, t: nat, fp: Fp)
    requires Steady(s) && Apart(s.tasks) && t in s.tasks && TearsDown(s.tasks[t], fp)
    requires forall k :: k != t ==> (k in next.tasks <==> k in s.tasks) && (k in s.tasks ==> next.tasks[k] == s.tasks[k])
    requires forall f: Fp :: f != fp ==> SameAt(s.st, next.st, f)
    requires forall f: Fp :: f != fp && Occupies(s.tasks[t], f) ==> t in next.tasks && Occupies(next.tasks[t], f)
    requires t in next.tasks ==> TaskOk(next.st, next.tasks[t])
    requires (t in next.tasks && Occupies(next.tasks[t], fp)) || AgreesAt(next.st, fp)
    ensures Fits(s, next, t)
  {
    hide Running, AgreesAt, TaskOk, GatesHeldOnce, SameAt;
    assert SettlesAt(s, next, t, fp);
    assert OthersOk(s, next, t, {fp});
    assert Frames(s, next, t, {fp}) by {
      hide SettlesAt, OthersOk, Apart;
    }
    FramedFits(s, next, t, {fp});
  }

  lemma ResetFits(u: Setup, s: Sys, a: Act)
    requires Steady(s) && Apart(s.tasks) && Enabled(s, a) && a.ResetAct?
    ensures Fits(s, Next(u, s, a), a.t)
  {
    var next, fp := Next(u, s, a), s.tasks[a.t].fp;
    AtMostOneProcess(s, fp);
    hide Running, Steady, Apart;
    if fp in s.st.peers {
      TearerFits(s, next, a.t, fp);
    } else {
      MoveFits(s, next, a.t);
    }
  }

  lemma DroppedAt(st: State, fp: Fp, f: Fp)
    ensures f != fp ==> SameAt(st, Dropped(st, fp), f)
    ensures Down(st, fp) ==> AgreesAt(Dropped(st, fp), fp)
    ensures f != fp && Down(st, f) ==> Down(Dropped(st, fp), f)
  {
    WithoutRuns(st.bridge, fp, f);
    WithoutRuns(st.bridge, fp, fp);
    hide Running, Without;
  }

  lemma ClearFits(u: Setup, s: Sys, a: Act)
    requires Steady(s) && Apart(s.tasks) && Enabled(s, a) && a.ClearAct?
    ensures Fits(s, Next(u, s, a), a.t)
  {
    var next, task := Next(u, s, a), s.tasks[a.t];
    assert TaskOk(s.st, task) && Down(s.st, a.fp);
    forall f: Fp
      ensures f != a.fp ==> SameAt(s.st, Dropped(s.st, a.fp), f)
      ensures f in task.fps - {a.fp} ==> Down(Dropped(s.st, a.fp), f)
    {
      DroppedAt(s.st, a.fp, f);
    }
    DroppedAt(s.st, a.fp, a.fp);
    hide Dropped, Steady, Apart, SameAt, AgreesAt, Down;
    assert next.st == Dropped(s.st, a.fp);
    if task.fps != {a.fp} {
      assert next.tasks[a.t] == Clearing(task.fps - {a.fp}, task.next);
    }
    TearerFits(s, next, a.t, a.fp);
  }

  lemma MarkFits(u: Setup, s: Sys, a: Act)
    requires Steady(s) && Apart(s.tasks) && Enabled(s, a) && a.MarkAct?
    ensures Fits(s, Next(u, s, a), a.t)
  {
    var next, t, fp := Next(u, s, a), a.t, s.tasks[a.t].fp;
    assert TaskOk(s.st, s.tasks[t]);
    assert next.st.bridge == s.st.bridge;
    forall f: Fp | f != fp
      ensures SameAt(s.st, next.st, f)
    {
      hide Running;
    }
    forall k, f | k in s.tasks && k != t && f in {fp} && Touches(s.tasks[k], f)
      ensures TaskOk(next.st, s.tasks[k])
    {
      hide Running, AgreesAt;
      assert TaskOk(s.st, s.tasks[k]);
      TornApart(s.tasks, k, t, fp);
      if !Occupies(s.tasks[k], fp) {
        OtherStaysOk(s, t, k, next.st, fp);
      }
    }
    WasAt(s, t, fp);
    MarkedAgrees(s.st, fp, s.tasks[t].error);
    hide Running, AgreesAt, TaskOk, GatesHeldOnce, Apart, SameAt;
    assert SettlesAt(s, next, t, fp);
    assert OthersOk(s, next, t, {fp});
    assert Frames(s, next, t, {fp}) by {
      hide SettlesAt, OthersOk;
    }
    FramedFits(s, next, t, {fp});
  }

  lemma MarkedAgrees(st: State, fp: Fp, error: string)
    requires Running(st.bridge, fp) == 1
    ensures AgreesAt(st, fp) ==> AgreesAt(MarkedFailed(st, fp, error), fp)
  {
    hide Running;
  }

  // ----- Runs -----

  lemma StepKeepsSteady(u: Setup, s: Sys, a: Act)
    requires Steady(s) && Apart(s.tasks) && Enabled(s, a) && Whole(s, a) && Apart(Next(u, s, a).tasks)
    ensures Steady(Next(u, s, a))
  {
    GatesKept(u, s, a);
    if a.ReapAct? && ExpiredIn(s.st, a.now, u.timeout) == {} {
      assert Next(u, s, a) == s;
    } else {
      StepFits(u, s, a);
      hide Steady, Fits, Next, Apart, GatesHeldOnce;
      FitsSteady(s, Next(u, s, a), a.t);
    }
  }

  lemma StepFits(u: Setup, s: Sys, a: Act)
    requires Steady(s) && Apart(s.tasks) && Enabled(s, a) && Whole(s, a) && Apart(Next(u, s, a).tasks)
    requires a.ReapAct? ==> ExpiredIn(s.st, a.now, u.timeout) != {}
    ensures Fits(s, Next(u, s, a), a.t)
  {
    hide Steady, Apart, Enabled, Next, Whole, Fits, ExpiredIn;
    match a
    case RegisterAct(_, _, _) => RegisterFits(u, s, a);
    case UnregisterAct(_, _) => UnregisterFits(u, s, a);
    case ConnectAct(_, _) => StartFits(u, s, a);
    case LockAct(_) => WaitFits(u, s, a);
    case CheckAct(_) => CheckFits(u, s, a);
    case UpAct(_, _) => UpFits(u, s, a);
    case DownAct(_, _) => WaitFits(u, s, a);
    case SettleAct(_, _) => SettleFits(u, s, a);
    case ReapAct(_, _) => ReapFits(u, s, a);
    case ReconnectAct(_, _) => StartFits(u, s, a);
    case ResetAct(_) => ResetFits(u, s, a);
    case ClearAct(_, _) => ClearFits(u, s, a);
    case CallAct(_, _, _) => StartFits(u, s, a);
    case BreakAct(_, _) => BreakFits(u, s, a);
    case MarkAct(_) => MarkFits(u, s, a);
    case EndAct(_) => WaitFits(u, s, a);
  }

  lemma {:induction false} RunKeepsSteady(u: Setup, s: Sys, acts: seq<Act>, s': Sys)
    requires Steady(s) && Runs(u, s, acts, s') && Undisturbed(u, s, acts)
    ensures Steady(s') && Apart(s'.tasks)
    decreases |acts|
  {
    hide Steady, Apart, Next, Enabled, Whole;
    if acts != [] {
      assert Undisturbed(u, Next(u, s, acts[0]), acts[1..]);
      StepKeepsSteady(u, s, acts[0]);
      RunKeepsSteady(u, Next(u, s, acts[0]), acts[1..], s');
    }
  }

  /**
   * Over any run from an empty handler, operations on any peers interleaving at will: as long as no
   * reap, reset or last-claim release of a peer overlaps another operation on that very peer, and no
   * operation is dropped where it waits, no peer ever has two processes, and whenever nothing is in
   * progress status and process agree for every peer.
   */
  lemma UndisturbedRunsAgree(u: Setup, acts: seq<Act>, s: Sys)
    requires Runs(u, START, acts, s) && Undisturbed(u, START, acts)
    ensures forall fp: Fp :: Running(s.st.bridge, fp) <= 1
    ensures Quiet(s) ==> Agree(s.st)
  {
    hide Steady, Runs, Undisturbed, Agree, Running;
    StartIsSteady();
    RunKeepsSteady(u, START, acts, s);
    forall fp: Fp
      ensures Running(s.st.bridge, fp) <= 1
    {
      AtMostOneProcess(s, fp);
    }
    if Quiet(s) {
      SteadyAgrees(s);
    }
  }

  /** The same from any handler at rest that agrees, which is how one operation at a time keeps it. */
  lemma UndisturbedFromRest(u: Setup, s: Sys, acts: seq<Act>, s': Sys)
    requires Quiet(s) && Agree(s.st) && Runs(u, s, acts, s') && Undisturbed(u, s, acts) && Quiet(s')
    ensures Agree(s'.st)
  {
    hide Steady, Runs, Undisturbed, Agree;
    QuietIsSteady(s);
    RunKeepsSteady(u, s, acts, s');
    SteadyAgrees(s');
  }

  // ----- Joined connects -----

  /** A connect of this peer is under way. */
  predicate Connects(task: Task, fp: Fp) {
    (task.Waiting? || Holds(task)) && task.fp == fp
  }

  /** Tracked, and settled or about to be. */
  ghost predicate Underway(s: Sys, fp: Fp) {
    fp in s.st.peers && (Settled(s.st.peers[fp].status) || exists t :: t in s.tasks && Connects(s.tasks[t], fp))
  }

  ghost predicate NothingDropped(u: Setup, s: Sys, acts: seq<Act>)
    decreases |acts|
  {
    acts == [] || (Enabled(s, acts[0]) && Whole(s, acts[0]) && NothingDropped(u, Next(u, s, acts[0]), acts[1..]))
  }

  lemma StaysTracked(u: Setup, s: Sys, a: Act, fp: Fp)
    requires Sound(u, s) && Enabled(s, a) && fp in s.st.peers && !Unsettles(u, s, a, fp)
    ensures fp in Next(u, s, a).st.peers
  {
    hide Owned, Claimed, Unclaimed, GatesHeldOnce, ConfigsMatch, Orphaned, Running, Without;
    if a.RegisterAct? {
      ClaimStays(s.st, u.fingerprint, a.key, a.cfg, s.gates, fp);
      assert Next(u, s, a).st == Claimed(s.st, a.key, a.cfg, u.fingerprint(a.cfg.peer), s.gates);
    } else if a.UnregisterAct? {
      UnclaimStays(s.st, u.fingerprint, a.key, fp);
      assert Next(u, s, a).st == Unclaimed(s.st, a.key);
    }
  }

  lemma StaysUnderway(u: Setup, s: Sys, a: Act, fp: Fp)
    requires Sound(u, s) && Enabled(s, a) && Whole(s, a) && Underway(s, fp) && !Unsettles(u, s, a, fp)
    ensures Underway(Next(u, s, a), fp)
  {
    StaysTracked(u, s, a, fp);
    var next := Next(u, s, a);
    if Settled(s.st.peers[fp].status) {
      SettledStays(u, s, a, fp);
      hide Next, Sound, Unsettles;
    } else {
      var t :| t in s.tasks && Connects(s.tasks[t], fp);
      hide Sound, Unsettles, Claimed, Unclaimed, AllReaped, Touched, Orphaned, Running, Without;
      if a.t == t {
        ConnectMoves(u, s, a, fp);
      } else {
        assert t in next.tasks && next.tasks[t] == s.tasks[t];
      }
    }
  }

  /** The next section of a connect gets on with it, or settles the peer. */
  lemma ConnectMoves(u: Setup, s: Sys, a: Act, fp: Fp)
    requires Enabled(s, a) && Whole(s, a) && a.t in s.tasks && Connects(s.tasks[a.t], fp)
    requires fp in s.st.peers && fp in Next(u, s, a).st.peers
    ensures Underway(Next(u, s, a), fp)
  {
    hide Running, Without;
    var next := Next(u, s, a);
    if a.t in next.tasks {
      assert Connects(next.tasks[a.t], fp);
    }
  }

  /**
   * Connects joined in any way: over every run, a tracked peer some operation queued for is settled
   * once nothing is in progress, unless it was reaped, reset or let go of meanwhile.
   */
  lemma {:induction false} ConnectsSettle(u: Setup, s: Sys, acts: seq<Act>, s': Sys, fp: Fp)
    requires Sound(u, s) && Underway(s, fp) && Runs(u, s, acts, s') && Quiet(s')
    requires NothingDropped(u, s, acts) && NeverUnsettled(u, s, acts, fp)
    ensures fp in s'.st.peers && Settled(s'.st.peers[fp].status)
    decreases |acts|
  {
    if acts != [] {
      hide Sound, Next, Enabled, Unsettles, Whole, Underway;
      StepKeepsSound(u, s, acts[0]);
      StaysUnderway(u, s, acts[0], fp);
      ConnectsSettle(u, Next(u, s, acts[0]), acts[1..], s', fp);
    }
  }

  lemma ConnectQueues(u: Setup, s: Sys, t: nat, fp: Fp)
    requires Enabled(s, ConnectAct(t, fp)) && fp in s.st.peers
    ensures Underway(Next(u, s, ConnectAct(t, fp)), fp)
  {
    assert Connects(Next(u, s, ConnectAct(t, fp)).tasks[t], fp);
  }

  /** From the connect on, then: whatever else goes on, the peer it is for ends settled. */
  lemma QueuedConnectSettles(u: Setup, s: Sys, t: nat, fp: Fp, acts: seq<Act>, s': Sys)
    requires Sound(u, s) && Enabled(s, ConnectAct(t, fp)) && fp in s.st.peers
    requires var next := Next(u, s, ConnectAct(t, fp));
             Runs(u, next, acts, s') && NothingDropped(u, next, acts) && NeverUnsettled(u, next, acts, fp)
    requires Quiet(s')
    ensures fp in s'.st.peers && Settled(s'.st.peers[fp].status)
  {
    hide Sound, Next, Enabled, Runs, NothingDropped, NeverUnsettled, Underway;
    ConnectQueues(u, s, t, fp);
    StepKeepsSound(u, s, ConnectAct(t, fp));
    ConnectsSettle(u, Next(u, s, ConnectAct(t, fp)), acts, s', fp);
  }
}
