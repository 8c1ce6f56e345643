/** What every run of the agent loop keeps: pairing, order independence, the event protocol. */
module AgentTheorems {
  import opened Wrappers
  import opened History
  import opened AgentLoop

  ghost predicate AllFeasible(b: Builder, rounds: seq<Round>) {
    forall r :: r in rounds ==> Feasible(b, r)
  }

  // ----- Tool pairing -----

  /** The history a list of committed steps stands for. */
  function Flatten(steps: seq<Step>): seq<Entry> {
    if steps == [] then []
    else
      var last := steps[|steps| - 1];
      Flatten(steps[..|steps| - 1]) + [AssistantEntry(Said(last.text), last.calls)] + last.results
  }

  ghost predicate StepsAnswered(steps: seq<Step>) {
    forall i :: 0 <= i < |steps| ==> Answers(steps[i].results, steps[i].calls)
  }

  /** What may follow the committed steps: nothing, or the partial text of a cancelled stream. */
  ghost predicate Leftover(extra: seq<Entry>) {
    extra == [] || (|extra| == 1 && extra[0].calls == [] && extra[0].result.None? && extra[0].role == Assistant)
  }

  ghost predicate Explains(history: seq<Entry>, s: State, extra: seq<Entry>) {
    s.history == history + Flatten(s.steps) + extra && StepsAnswered(s.steps) && Leftover(extra)
  }

  lemma FlattenSnoc(steps: seq<Step>, step: Step)
    ensures Flatten(steps + [step]) == Flatten(steps) + [AssistantEntry(Said(step.text), step.calls)] + step.results
  {
    assert (steps + [step])[..|steps|] == steps;
  }

  /** A round either ends the run with at most a partial text, or commits one answered step. */
  lemma PlayedShape(b: Builder, before: seq<Step>, r: Round)
    requires Feasible(b, r)
    ensures var e := Played(b, before, r);
            && (e.steps == [] ==> e.over && Leftover(e.entries))
            && (e.steps != [] ==>
                  && |e.steps| == 1 && Answers(e.steps[0].results, e.steps[0].calls)
                  && e.entries == [AssistantEntry(Said(e.steps[0].text), e.steps[0].calls)] + e.steps[0].results)
  {
    hide StreamOut, Filled, ResultEvents, FinishOf, TokensOf;
  }

  lemma StepExplained(history: seq<Entry>, s: State, s': State, step: Step)
    requires Explains(history, s, []) && Answers(step.results, step.calls)
    requires s'.steps == s.steps + [step]
    requires s'.history == s.history + ([AssistantEntry(Said(step.text), step.calls)] + step.results)
    ensures Explains(history, s', [])
  {
    FlattenSnoc(s.steps, step);
    hide Answers, Flatten, Said;
    var entry := [AssistantEntry(Said(step.text), step.calls)];
    assert s.history == history + Flatten(s.steps);
    Regroup(history, Flatten(s.steps), entry, step.results);
  }

  lemma EndExplained(history: seq<Entry>, s: State, s': State, extra: seq<Entry>)
    requires Explains(history, s, []) && Leftover(extra)
    requires s'.steps == s.steps && s'.history == s.history + extra
    ensures Explains(history, s', extra)
  {
    hide Answers, Flatten, Leftover;
    assert s.history == history + Flatten(s.steps);
  }

  lemma Regroup<T>(a: seq<T>, b: seq<T>, c: seq<T>, d: seq<T>)
    ensures (a + b) + (c + d) == a + (b + c + d) + []
  {
  }

  lemma RoundExplained(b: Builder, history: seq<Entry>, s: State, r: Round) returns (extra: seq<Entry>)
    requires Feasible(b, r) && Explains(history, s, [])
    ensures Explains(history, AfterRound(b, s, r), extra)
    ensures !AfterRound(b, s, r).over ==> extra == []
  {
    PlayedShape(b, s.steps, r);
    hide Played, Feasible, Answers, Explains, Leftover;
    var e, s' := Played(b, s.steps, r), AfterRound(b, s, r);
    if e.steps == [] {
      extra := e.entries;
      assert s'.steps == s.steps;
      EndExplained(history, s, s', extra);
    } else {
      extra := [];
      assert s'.steps == s.steps + [e.steps[0]];
      StepExplained(history, s, s', e.steps[0]);
    }
  }

  lemma {:induction false} RunExplained(b: Builder, history: seq<Entry>, s: State, rounds: seq<Round>)
    returns (extra: seq<Entry>)
    requires AllFeasible(b, rounds) && Explains(history, s, []) && !s.over
    ensures Explains(history, RunRounds(b, s, rounds), extra)
    ensures !RunRounds(b, s, rounds).over ==> extra == []
    decreases |rounds|
  {
    extra := [];
    if rounds != [] {
      hide Feasible, Played, Explains;
      assert rounds[0] in rounds;
      extra := RoundExplained(b, history, s, rounds[0]);
      var s' := AfterRound(b, s, rounds[0]);
      if !s'.over {
        extra := RunExplained(b, history, s', rounds[1..]);
      }
    }
  }

  function Block(step: Step): seq<Entry> {
    [AssistantEntry(Said(step.text), step.calls)] + step.results
  }

  lemma BlockPaired(step: Step)
    requires Answers(step.results, step.calls)
    ensures WellPaired(Block(step))
  {
    var block, n := Block(step), |step.calls|;
    assert block[1..1 + n] == step.results && block[1 + n..] == [];
    assert WellPaired(block[1 + n..]);
    hide Answers;
  }

  lemma {:induction false} FlattenPaired(steps: seq<Step>)
    requires StepsAnswered(steps)
    ensures WellPaired(Flatten(steps))
    decreases |steps|
  {
    hide WellPaired, Answers;
    if steps == [] {
      assert WellPaired(Flatten([])) by { NothingPaired(); }
    } else {
      var n := |steps| - 1;
      FlattenPaired(steps[..n]);
      BlockPaired(steps[n]);
      WellPairedConcat(Flatten(steps[..n]), Block(steps[n]));
      assert Flatten(steps) == Flatten(steps[..n]) + Block(steps[n]);
    }
  }

  lemma NothingPaired()
    ensures WellPaired([])
  {
  }

  /**
   * For every model stream, completion order, cancel point and error: the run only appends to the
   * history, what it appends is exactly its committed steps (plus the partial text of a cancelled
   * stream), and a well-paired history stays well paired.
   */
  lemma RunKeepsPairing(b: Builder, history: seq<Entry>, rounds: seq<Round>) returns (extra: seq<Entry>)
    requires AllFeasible(b, rounds)
    ensures var s := Run(b, history, rounds);
            && Explains(history, s, extra)
            && (WellPaired(history) ==> WellPaired(s.history))
  {
    var s0 := State(history, [], [], false);
    assert history + Flatten([]) + [] == history;
    hide Feasible, RunRounds, WellPaired;
    extra := RunExplained(b, history, s0, rounds);
    var s := RunRounds(b, s0, rounds);
    FlattenPaired(s.steps);
    if WellPaired(history) {
      if extra != [] {
        WellPairedSingle(extra[0]);
      }
      WellPairedConcat(history, Flatten(s.steps));
      WellPairedConcat(history + Flatten(s.steps), extra);
    }
  }

  /** A round that commits no step (cancelled, failed, malformed, empty) adds no call and no result. */
  lemma UncommittedAddsNoCall(b: Builder, before: seq<Step>, r: Round)
    requires Feasible(b, r)
    ensures var e := Played(b, before, r);
            e.steps == [] <==> (r.ending != Drained
              || (b.malformed(r.events) != [] && FinishOf(r.events) != Some(Length))
              || (b.text(r.events).None? && b.calls(r.events) == [])
              || (b.calls(r.events) != [] && r.dispatchCancelled))
    ensures var e := Played(b, before, r);
            e.steps == [] ==> e.over && forall x :: x in e.entries ==> x.calls == [] && x.result.None?
  {
  }

  // ----- Completion order -----

  lemma {:induction false} FilledAt(n: nat, done: seq<Completion>, i: nat)
    requires forall j :: 0 <= j < |done| ==> done[j].idx < n
    requires forall j, k :: 0 <= j < k < |done| ==> done[j].idx != done[k].idx
    requires i < n
    ensures forall j :: 0 <= j < |done| && done[j].idx == i ==> Filled(n, done)[i] == Some(done[j].out)
    ensures (forall j :: 0 <= j < |done| ==> done[j].idx != i) ==> Filled(n, done)[i] == None
    decreases |done|
  {
    if done != [] {
      FilledAt(n, done[..|done| - 1], i);
    }
  }

  ghost function Indices(done: seq<Completion>): set<nat> {
    set j | 0 <= j < |done| :: done[j].idx
  }

  lemma IndicesSnoc(done: seq<Completion>)
    requires forall j, k :: 0 <= j < k < |done| ==> done[j].idx != done[k].idx
    requires done != []
    ensures var last := |done| - 1;
            && Indices(done) == Indices(done[..last]) + {done[last].idx}
            && done[last].idx !in Indices(done[..last])
  {
  }

  lemma {:induction false} IndicesCount(done: seq<Completion>)
    requires forall j, k :: 0 <= j < k < |done| ==> done[j].idx != done[k].idx
    ensures |Indices(done)| == |done|
    decreases |done|
  {
    if done != [] {
      var last := |done| - 1;
      IndicesCount(done[..last]);
      IndicesSnoc(done);
    }
  }

  ghost function Below(n: nat): (s: set<nat>)
    ensures |s| == n && forall i: nat :: i in s <==> i < n
  {
    if n == 0 then {} else Below(n - 1) + {n - 1}
  }

  lemma SubsetOfSameSize(a: set<nat>, b: set<nat>)
    requires a <= b && |a| == |b|
    ensures a == b
  {
    assert a + (b - a) == b;
    assert |b - a| == 0;
  }

  /** A dispatch that drains fills every slot, each from exactly one completion. */
  lemma DrainedFillsEverySlot(n: nat, done: seq<Completion>, i: nat)
    requires forall j :: 0 <= j < |done| ==> done[j].idx < n
    requires forall j, k :: 0 <= j < k < |done| ==> done[j].idx != done[k].idx
    requires |done| == n && i < n
    ensures exists j :: 0 <= j < n && done[j].idx == i && Filled(n, done)[i] == Some(done[j].out)
  {
    IndicesCount(done);
    SubsetOfSameSize(Indices(done), Below(n));
    assert i in Indices(done);
    FilledAt(n, done, i);
  }

  /** The same completions in some other order. */
  ghost predicate SameOutcomes(a: seq<Completion>, b: seq<Completion>) {
    && |a| == |b|
    && forall j :: 0 <= j < |a| ==> exists k :: 0 <= k < |b| && b[k].idx == a[j].idx && b[k].out == a[j].out
  }

  ghost predicate Reordered(r: Round, r': Round) {
    && r'.events == r.events && r'.ending == r.ending && r'.dispatchCancelled == r.dispatchCancelled
    && (!r.dispatchCancelled ==> SameOutcomes(r.completions, r'.completions))
  }

  lemma FilledReordered(n: nat, a: seq<Completion>, b: seq<Completion>)
    requires forall j :: 0 <= j < |a| ==> a[j].idx < n
    requires forall j :: 0 <= j < |b| ==> b[j].idx < n
    requires forall j, k :: 0 <= j < k < |a| ==> a[j].idx != a[k].idx
    requires forall j, k :: 0 <= j < k < |b| ==> b[j].idx != b[k].idx
    requires |a| == n && SameOutcomes(a, b)
    ensures Filled(n, a) == Filled(n, b)
  {
    forall i | 0 <= i < n
      ensures Filled(n, a)[i] == Filled(n, b)[i]
    {
      DrainedFillsEverySlot(n, a, i);
      FilledAt(n, b, i);
    }
  }

  lemma RoundReordered(b: Builder, before: seq<Step>, r: Round, r': Round)
    requires Feasible(b, r) && Feasible(b, r') && Reordered(r, r')
    ensures var e, e' := Played(b, before, r), Played(b, before, r');
            e.entries == e'.entries && e.steps == e'.steps && e.over == e'.over
  {
    if !r.dispatchCancelled {
      FilledReordered(|b.calls(r.events)|, r.completions, r'.completions);
    }
  }

  /** Whatever order the tools of each round finish in, a run commits the same history and steps. */
  lemma {:induction false} OrderIndependence(b: Builder, s: State, s': State, rounds: seq<Round>, rounds': seq<Round>)
    requires AllFeasible(b, rounds) && AllFeasible(b, rounds') && |rounds| == |rounds'|
    requires forall i :: 0 <= i < |rounds| ==> Reordered(rounds[i], rounds'[i])
    requires s'.history == s.history && s'.steps == s.steps && s'.over == s.over
    ensures var t, t' := RunRounds(b, s, rounds), RunRounds(b, s', rounds');
            t.history == t'.history && t.steps == t'.steps && t.over == t'.over
    decreases |rounds|
  {
    if rounds != [] && !s.over {
      hide Feasible, Played, Reordered;
      assert rounds[0] in rounds && rounds'[0] in rounds';
      RoundReordered(b, s.steps, rounds[0], rounds'[0]);
      OrderIndependence(b, AfterRound(b, s, rounds[0]), AfterRound(b, s', rounds'[0]), rounds[1..], rounds'[1..]);
    }
  }

  // ----- The event protocol -----

  /** Where a listener stands: in a stream, waiting for `pending` call ids, or done. */
  datatype Phase =
    | Streaming(open: Segment, begun: bool)
    | Dispatching(pending: multiset<string>)
    | Over
    | Broken

  function Ids(calls: seq<Call>): multiset<string> {
    if calls == [] then multiset{} else Ids(calls[..|calls| - 1]) + multiset{calls[|calls| - 1].id}
  }

  /** Segments bracket their own deltas and never nest; results arrive only for pending calls. */
  function Advance(p: Phase, e: AgentEvent): Phase {
    match p
    case Streaming(open, begun) =>
      (match e
       case TextStart => if open == NoSegment then Streaming(TextSegment, begun) else Broken
       case TextDelta(_) => if open == TextSegment then p else Broken
       case TextEnd => if open == TextSegment then Streaming(NoSegment, begun) else Broken
       case ThinkingStart => if open == NoSegment then Streaming(ThinkingSegment, begun) else Broken
       case ThinkingDelta(text) => if open == ThinkingSegment && text != "" then p else Broken
       case ThinkingEnd => if open == ThinkingSegment then Streaming(NoSegment, begun) else Broken
       case ToolCallsBegin(calls) => if !begun && calls != [] then Streaming(open, true) else Broken
       case ToolCallsStart(calls) =>
         if open == NoSegment && begun && calls != [] then Dispatching(Ids(calls)) else Broken
       case ContextUsage(tokens) => if open == NoSegment && tokens > 0 then p else Broken
       case Done(_) => if open == NoSegment then Over else Broken
       case _ => Broken)
    case Dispatching(pending) =>
      (match e
       case ToolResult(id, _, _) => if id in pending then Dispatching(pending - multiset{id}) else Broken
       case ToolCallsComplete => if pending == multiset{} then Streaming(NoSegment, false) else Broken
       case Done(_) => Over
       case _ => Broken)
    case _ => Broken
  }

  function Walk(p: Phase, events: seq<AgentEvent>): Phase {
    if events == [] then p else Advance(Walk(p, events[..|events| - 1]), events[|events| - 1])
  }

  lemma {:induction false} WalkConcat(p: Phase, a: seq<AgentEvent>, b: seq<AgentEvent>)
    ensures Walk(p, a + b) == Walk(Walk(p, a), b)
    decreases |b|
  {
    hide Advance;
    if b == [] {
      assert a + b == a;
    } else {
      var last := |b| - 1;
      assert (a + b)[..|a| + last] == a + b[..last];
      WalkConcat(p, a, b[..last]);
    }
  }

  lemma WalkOne(p: Phase, e: AgentEvent)
    ensures Walk(p, [e]) == Advance(p, e)
  {
    assert [e][..0] == [];
  }

  lemma WalkTwo(p: Phase, e: AgentEvent, f: AgentEvent)
    ensures Walk(p, [e, f]) == Advance(Advance(p, e), f)
  {
    assert [e, f] == [e] + [f];
    WalkConcat(p, [e], [f]);
    WalkOne(p, e);
    WalkOne(Advance(p, e), f);
  }

  const READY: Phase := Streaming(NoSegment, false)

  lemma HeardWalks(s: Streamed, e: StreamEvent)
    requires Walk(READY, s.out) == Streaming(s.open, s.begun)
    ensures Walk(READY, Heard(s, e).out) == Streaming(Heard(s, e).open, s.begun)
  {
    hide Walk, OpenText, OpenThinking;
    match e
    case TextPart(text) =>
      OpenWalks(s.open, s.begun, TextSegment);
      WalkConcat(READY, s.out, OpenText(s.open));
      WalkConcat(READY, s.out + OpenText(s.open), [TextDelta(text)]);
      WalkOne(Streaming(TextSegment, s.begun), TextDelta(text));
    case ThinkingPart(text) =>
      OpenWalks(s.open, s.begun, ThinkingSegment);
      WalkConcat(READY, s.out, OpenThinking(s.open));
      WalkConcat(READY, s.out + OpenThinking(s.open), [ThinkingDelta(text)]);
      WalkOne(Streaming(ThinkingSegment, s.begun), ThinkingDelta(text));
    case _ =>
  }

  lemma OpenWalks(open: Segment, begun: bool, to: Segment)
    ensures to == TextSegment ==> Walk(Streaming(open, begun), OpenText(open)) == Streaming(to, begun)
    ensures to == ThinkingSegment ==> Walk(Streaming(open, begun), OpenThinking(open)) == Streaming(to, begun)
    ensures Walk(Streaming(open, begun), CloseSegment(open)) == Streaming(NoSegment, begun)
  {
    var p := Streaming(open, begun);
    WalkOne(p, TextStart);
    WalkOne(p, ThinkingStart);
    WalkOne(p, TextEnd);
    WalkOne(p, ThinkingEnd);
    WalkTwo(p, ThinkingEnd, TextStart);
    WalkTwo(p, TextEnd, ThinkingStart);
  }

  lemma AnnouncedWalks(s: Streamed, calls: seq<Call>)
    requires Walk(READY, s.out) == Streaming(s.open, s.begun)
    ensures var a := Announced(s, calls);
            Walk(READY, a.out) == Streaming(a.open, a.begun) && (calls != [] ==> a.begun)
  {
    WalkConcat(READY, s.out, [ToolCallsBegin(calls)]);
    WalkOne(Streaming(s.open, s.begun), ToolCallsBegin(calls));
    hide Walk;
  }

  lemma {:induction false} StreamWalks(b: Builder, events: seq<StreamEvent>)
    requires b.calls([]) == []
    ensures var s := StreamOut(b, events);
            Walk(READY, s.out) == Streaming(s.open, s.begun) && (b.calls(events) != [] ==> s.begun)
    decreases |events|
  {
    hide Walk, Heard, Announced, Advance;
    if events == [] {
      NothingWalks();
    } else {
      var last := |events| - 1;
      StreamWalks(b, events[..last]);
      var s := StreamOut(b, events[..last]);
      HeardWalks(s, events[last]);
      HeardKeepsBegun(s, events[last]);
      AnnouncedWalks(Heard(s, events[last]), b.calls(events));
    }
  }

  lemma HeardKeepsBegun(s: Streamed, e: StreamEvent)
    ensures Heard(s, e).begun == s.begun
  {
  }

  // ----- Pending results -----

  ghost function IdsAt(calls: seq<Call>, at: set<nat>): multiset<string>
    requires forall i :: i in at ==> i < |calls|
  {
    if at == {} then multiset{}
    else var i :| i in at; IdsAt(calls, at - {i}) + multiset{calls[i].id}
  }

  lemma {:induction false} IdsAtRemove(calls: seq<Call>, at: set<nat>, i: nat)
    requires i in at && forall j :: j in at ==> j < |calls|
    ensures IdsAt(calls, at) == IdsAt(calls, at - {i}) + multiset{calls[i].id}
    decreases |at|
  {
    var j :| j in at && IdsAt(calls, at) == IdsAt(calls, at - {j}) + multiset{calls[j].id};
    if j != i {
      IdsAtRemove(calls, at - {j}, i);
      IdsAtRemove(calls, at - {i}, j);
      assert at - {j} - {i} == at - {i} - {j};
    }
  }

  lemma {:induction false} IdsAreAll(calls: seq<Call>, n: nat)
    requires n <= |calls|
    ensures IdsAt(calls, Below(n)) == Ids(calls[..n])
  {
    if n > 0 {
      var c := calls[..n];
      assert c[..|c| - 1] == calls[..n - 1] && c[|c| - 1] == calls[n - 1];
      assert Ids(c) == Ids(calls[..n - 1]) + multiset{calls[n - 1].id};
      hide IdsAt, Ids;
      IdsAreAll(calls, n - 1);
      assert n - 1 in Below(n);
      IdsAtRemove(calls, Below(n), n - 1);
      assert Below(n) - {n - 1} == Below(n - 1);
    }
  }

  lemma ResultWalks(p: Phase, said: seq<AgentEvent>, calls: seq<Call>, at: set<nat>, i: nat, e: AgentEvent)
    requires i in at && (forall j :: j in at ==> j < |calls|) && e.ToolResult? && e.id == calls[i].id
    requires Walk(p, said) == Dispatching(IdsAt(calls, at))
    ensures Walk(p, said + [e]) == Dispatching(IdsAt(calls, at - {i}))
  {
    IdsAtRemove(calls, at, i);
    WalkConcat(p, said, [e]);
    WalkOne(Walk(p, said), e);
    hide IdsAt, Walk;
    var rest := IdsAt(calls, at - {i});
    assert rest + multiset{e.id} - multiset{e.id} == rest;
  }

  lemma ResultEventsSnoc(calls: seq<Call>, done: seq<Completion>)
    requires done != [] && forall j :: 0 <= j < |done| ==> done[j].idx < |calls|
    ensures var last := |done| - 1;
            ResultEvents(calls, done) == ResultEvents(calls, done[..last])
              + [ToolResult(calls[done[last].idx].id, done[last].out, done[last].millis)]
  {
  }

  /** After some results exactly the other calls are pending. */
  lemma {:induction false} ResultsWalk(calls: seq<Call>, done: seq<Completion>)
    requires forall j :: 0 <= j < |done| ==> done[j].idx < |calls|
    requires forall j, k :: 0 <= j < k < |done| ==> done[j].idx != done[k].idx
    ensures Walk(Dispatching(Ids(calls)), ResultEvents(calls, done))
         == Dispatching(IdsAt(calls, Below(|calls|) - Indices(done)))
    decreases |done|
  {
    var all, start := Below(|calls|), Dispatching(Ids(calls));
    if done == [] {
      IdsAreAll(calls, |calls|);
      assert calls[..|calls|] == calls;
      assert all - Indices([]) == all;
    } else {
      hide Ids, Walk, ResultEvents, Indices, IdsAt;
      var last := |done| - 1;
      var i, before := done[last].idx, all - Indices(done[..last]);
      ResultsWalk(calls, done[..last]);
      IndicesSnoc(done);
      ResultEventsSnoc(calls, done);
      assert before - {i} == all - Indices(done);
      ResultWalks(start, ResultEvents(calls, done[..last]), calls, before, i,
                  ToolResult(calls[i].id, done[last].out, done[last].millis));
    }
  }

  lemma DrainedWalks(calls: seq<Call>, done: seq<Completion>)
    requires forall j :: 0 <= j < |done| ==> done[j].idx < |calls|
    requires forall j, k :: 0 <= j < k < |done| ==> done[j].idx != done[k].idx
    requires |done| == |calls|
    ensures Walk(Dispatching(Ids(calls)), ResultEvents(calls, done)) == Dispatching(multiset{})
  {
    ResultsWalk(calls, done);
    IndicesCount(done);
    SubsetOfSameSize(Indices(done), Below(|calls|));
    assert Below(|calls|) - Indices(done) == {};
  }

  // ----- Rounds and runs -----

  lemma UsageWalks(begun: bool, tokens: nat)
    ensures Walk(Streaming(NoSegment, begun), Usage(tokens)) == Streaming(NoSegment, begun)
  {
    WalkOne(Streaming(NoSegment, begun), ContextUsage(tokens));
  }

  lemma CommitWalks(before: seq<Step>, heard: seq<AgentEvent>, begun: bool, step: Step, done: seq<Completion>)
    requires Walk(READY, heard) == Streaming(NoSegment, begun) && (step.calls != [] ==> begun)
    requires forall j :: 0 <= j < |done| ==> done[j].idx < |step.calls|
    requires forall j, k :: 0 <= j < k < |done| ==> done[j].idx != done[k].idx
    requires step.calls != [] ==> |done| == |step.calls|
    ensures var e := Committed(before, heard, step, done); Walk(READY, e.said) == if e.over then Over else READY
  {
    hide Walk, ResultEvents;
    var usage := Usage(step.tokens);
    if step.calls == [] {
      var end := Done(Response(step.text, |before| + 1, StopOf(step), before + [step]));
      WalkConcat(READY, heard, usage);
      UsageWalks(begun, step.tokens);
      WalkConcat(READY, heard + usage, [end]);
      WalkOne(Streaming(NoSegment, begun), end);
    } else {
      var start, results := [ToolCallsStart(step.calls)], ResultEvents(step.calls, done);
      WalkConcat(READY, heard, start);
      WalkOne(Streaming(NoSegment, begun), start[0]);
      WalkConcat(READY, heard + start, results);
      DrainedWalks(step.calls, done);
      WalkConcat(READY, heard + start + results, [ToolCallsComplete]);
      WalkOne(Dispatching(multiset{}), ToolCallsComplete);
      WalkConcat(READY, heard + start + results + [ToolCallsComplete], usage);
      UsageWalks(false, step.tokens);
    }
  }

  lemma EndWalks(said: seq<AgentEvent>, end: AgentEvent)
    requires end.Done?
    requires var p := Walk(READY, said); (p.Streaming? && p.open == NoSegment) || p.Dispatching?
    ensures Walk(READY, said + [end]) == Over
  {
    WalkConcat(READY, said, [end]);
    WalkOne(Walk(READY, said), end);
  }

  function HeardIn(b: Builder, events: seq<StreamEvent>): seq<AgentEvent> {
    StreamOut(b, events).out + CloseSegment(StreamOut(b, events).open)
  }

  lemma HeardInWalks(b: Builder, events: seq<StreamEvent>)
    requires b.calls([]) == []
    ensures Walk(READY, HeardIn(b, events)) == Streaming(NoSegment, StreamOut(b, events).begun)
    ensures b.calls(events) != [] ==> StreamOut(b, events).begun
  {
    var st := StreamOut(b, events);
    StreamWalks(b, events);
    OpenWalks(st.open, st.begun, NoSegment);
    WalkConcat(READY, st.out, CloseSegment(st.open));
  }

  lemma CutDispatchWalks(b: Builder, r: Round, end: AgentEvent)
    requires Feasible(b, r) && b.calls([]) == [] && b.calls(r.events) != [] && end.Done?
    ensures var calls := b.calls(r.events);
            Walk(READY, HeardIn(b, r.events) + [ToolCallsStart(calls)] + ResultEvents(calls, r.completions) + [end])
            == Over
  {
    hide Walk, HeardIn, ResultEvents, Ids, IdsAt, StreamOut;
    var calls, heard := b.calls(r.events), HeardIn(b, r.events);
    var start, results := [ToolCallsStart(calls)], ResultEvents(calls, r.completions);
    HeardInWalks(b, r.events);
    WalkConcat(READY, heard, start);
    WalkOne(Walk(READY, heard), start[0]);
    WalkConcat(READY, heard + start, results);
    ResultsWalk(calls, r.completions);
    EndWalks(heard + start + results, end);
  }

  /** What a round says, by how it went. */
  lemma PlayedSays(b: Builder, before: seq<Step>, r: Round) returns (end: AgentEvent)
    requires Feasible(b, r)
    ensures end.Done?
    ensures var e, heard, calls := Played(b, before, r), HeardIn(b, r.events), b.calls(r.events);
            e.steps == [] ==>
              && e.over
              && (e.said == heard + [end]
                  || (calls != [] && e.said == heard + [ToolCallsStart(calls)] + ResultEvents(calls, r.completions) + [end]))
    ensures var e, heard, calls := Played(b, before, r), HeardIn(b, r.events), b.calls(r.events);
            e.steps != [] ==>
              && e == Committed(before, heard, e.steps[0], r.completions) && e.steps[0].calls == calls
              && (calls != [] ==> |r.completions| == |calls|)
  {
    hide StreamOut, Filled, ResultEvents, FinishOf, TokensOf;
    var e := Played(b, before, r);
    end := if e.steps == [] then e.said[|e.said| - 1] else Done(Response(None, 0, Cancelled, []));
  }

  lemma RoundWalks(b: Builder, before: seq<Step>, r: Round)
    requires Feasible(b, r) && b.calls([]) == []
    ensures var e := Played(b, before, r); Walk(READY, e.said) == if e.over then Over else READY
  {
    HeardInWalks(b, r.events);
    var end := PlayedSays(b, before, r);
    hide Walk, ResultEvents, HeardIn, Played, Committed;
    var e, heard, calls := Played(b, before, r), HeardIn(b, r.events), b.calls(r.events);
    if e.steps != [] {
      CommitWalks(before, heard, StreamOut(b, r.events).begun, e.steps[0], r.completions);
    } else {
      EndWalks(heard, end);
      if calls != [] {
        CutDispatchWalks(b, r, end);
      }
    }
  }

  lemma {:induction false} RunWalks(b: Builder, s: State, rounds: seq<Round>)
    requires AllFeasible(b, rounds) && b.calls([]) == []
    requires Walk(READY, s.out) == if s.over then Over else READY
    ensures var t := RunRounds(b, s, rounds); Walk(READY, t.out) == if t.over then Over else READY
    decreases |rounds|
  {
    if rounds != [] && !s.over {
      assert rounds[0] in rounds;
      RoundWalks(b, s.steps, rounds[0]);
      WalkConcat(READY, s.out, Played(b, s.steps, rounds[0]).said);
      hide Feasible, Played, Walk;
      RunWalks(b, AfterRound(b, s, rounds[0]), rounds[1..]);
    }
  }

  /** A walk that ends over has exactly one Done, and it is the last event. */
  lemma {:induction false} OverMeansOneDone(p: Phase, events: seq<AgentEvent>)
    requires p.Streaming? && Walk(p, events) == Over
    ensures events != [] && events[|events| - 1].Done?
    ensures forall i :: 0 <= i < |events| - 1 ==> !events[i].Done?
  {
    var last := |events| - 1;
    DoneClosesWalk(Walk(p, events[..last]), events[last]);
    hide Advance;
    NoDoneBefore(p, events[..last]);
  }

  lemma DoneClosesWalk(p: Phase, e: AgentEvent)
    ensures Advance(p, e).Streaming? || Advance(p, e).Dispatching? ==>
              !e.Done? && (p.Streaming? || p.Dispatching?)
    ensures Advance(p, e) == Over ==> e.Done? && (p.Streaming? || p.Dispatching?)
  {
  }

  lemma {:induction false} NoDoneBefore(p: Phase, events: seq<AgentEvent>)
    requires p.Streaming? && (Walk(p, events).Streaming? || Walk(p, events).Dispatching?)
    ensures forall i :: 0 <= i < |events| ==> !events[i].Done?
    decreases |events|
  {
    hide Advance;
    if events != [] {
      var last := |events| - 1;
      DoneClosesWalk(Walk(p, events[..last]), events[last]);
      NoDoneBefore(p, events[..last]);
    }
  }

  lemma {:induction false} StepsBounded(b: Builder, s: State, rounds: seq<Round>)
    requires AllFeasible(b, rounds)
    ensures |RunRounds(b, s, rounds).steps| <= |s.steps| + |rounds|
    decreases |rounds|
  {
    if rounds != [] && !s.over {
      assert rounds[0] in rounds;
      assert |Played(b, s.steps, rounds[0]).steps| <= 1;
      StepsBounded(b, AfterRound(b, s, rounds[0]), rounds[1..]);
    }
  }

  ghost predicate Reports(s: State, e: AgentEvent) {
    e.Done? && e.response.steps == s.steps && e.response.iterations == |s.steps|
  }

  lemma PlayedReports(b: Builder, before: seq<Step>, r: Round)
    requires Feasible(b, r)
    ensures var e := Played(b, before, r);
            e.over ==> e.said != [] && Reports(State([], before + e.steps, [], true), e.said[|e.said| - 1])
  {
    hide StreamOut, Filled, ResultEvents, FinishOf, TokensOf, ResultEntries, Feasible, CloseSegment, Usage;
  }

  lemma {:induction false} DoneReports(b: Builder, s: State, rounds: seq<Round>)
    requires AllFeasible(b, rounds)
    requires s.over ==> s.out != [] && Reports(s, s.out[|s.out| - 1])
    ensures var t := RunRounds(b, s, rounds); t.over ==> t.out != [] && Reports(t, t.out[|t.out| - 1])
    decreases |rounds|
  {
    hide Played, Feasible;
    if rounds != [] && !s.over {
      assert rounds[0] in rounds;
      var e, t := Played(b, s.steps, rounds[0]), AfterRound(b, s, rounds[0]);
      PlayedReports(b, s.steps, rounds[0]);
      assert e.over ==> t.out[|t.out| - 1] == e.said[|e.said| - 1];
      DoneReports(b, t, rounds[1..]);
    }
  }

  /**
   * Every drained run speaks the protocol, ends with its only Done, and that Done reports as many
   * iterations as there are steps, never more than the limit.
   */
  lemma RunSpeaksProtocol(b: Builder, history: seq<Entry>, rounds: seq<Round>)
    requires AllFeasible(b, rounds) && b.calls([]) == []
    ensures var s := Run(b, history, rounds);
            && s.over && Walk(READY, s.out) == Over
            && s.out != [] && Reports(s, s.out[|s.out| - 1])
            && (forall i :: 0 <= i < |s.out| - 1 ==> !s.out[i].Done?)
            && |s.steps| <= |rounds|
  {
    hide RunRounds, Walk, Advance, Feasible;
    var s0 := State(history, [], [], false);
    assert Walk(READY, []) == READY by { NothingWalks(); }
    RunWalks(b, s0, rounds);
    StepsBounded(b, s0, rounds);
    DoneReports(b, s0, rounds);
    var t, s := RunRounds(b, s0, rounds), Run(b, history, rounds);
    if !t.over {
      EndWalks(t.out, s.out[|s.out| - 1]);
    }
    OverMeansOneDone(READY, s.out);
  }

  lemma NothingWalks()
    ensures Walk(READY, []) == READY
  {
  }

  // ----- Nothing streamed is lost or invented -----

  function TextOf(out: seq<AgentEvent>): string {
    if out == [] then ""
    else match out[|out| - 1]
      case TextDelta(t) => TextOf(out[..|out| - 1]) + t
      case _ => TextOf(out[..|out| - 1])
  }

  function StreamedText(events: seq<StreamEvent>): string {
    if events == [] then ""
    else match events[|events| - 1]
      case TextPart(t) => StreamedText(events[..|events| - 1]) + t
      case _ => StreamedText(events[..|events| - 1])
  }

  lemma TextOfSnoc(out: seq<AgentEvent>, e: AgentEvent)
    ensures TextOf(out + [e]) == TextOf(out) + (match e case TextDelta(t) => t case _ => "")
  {
    assert (out + [e])[..|out|] == out;
  }

  lemma TextOfTwo(out: seq<AgentEvent>, e: AgentEvent, f: AgentEvent)
    ensures TextOf(out + [e, f]) == TextOf(out) + (match e case TextDelta(t) => t case _ => "")
                                                + (match f case TextDelta(t) => t case _ => "")
  {
    TextOfSnoc(out, e);
    TextOfSnoc(out + [e], f);
    assert out + [e, f] == out + [e] + [f];
  }

  /** The text deltas a round says are, in order, exactly the text the model streamed. */
  lemma {:induction false} TextIsConserved(b: Builder, events: seq<StreamEvent>)
    ensures TextOf(StreamOut(b, events).out) == StreamedText(events)
    decreases |events|
  {
    if events != [] {
      var last := |events| - 1;
      TextIsConserved(b, events[..last]);
      var s, e, calls := StreamOut(b, events[..last]), events[last], b.calls(events);
      HeardText(s, e);
      TextOfSnoc(Heard(s, e).out, ToolCallsBegin(calls));
    }
  }

  function ThoughtOf(out: seq<AgentEvent>): string {
    if out == [] then ""
    else match out[|out| - 1]
      case ThinkingDelta(t) => ThoughtOf(out[..|out| - 1]) + t
      case _ => ThoughtOf(out[..|out| - 1])
  }

  function StreamedThought(events: seq<StreamEvent>): string {
    if events == [] then ""
    else match events[|events| - 1]
      case ThinkingPart(t) => StreamedThought(events[..|events| - 1]) + t
      case _ => StreamedThought(events[..|events| - 1])
  }

  lemma ThoughtOfSnoc(out: seq<AgentEvent>, e: AgentEvent)
    ensures ThoughtOf(out + [e]) == ThoughtOf(out) + (match e case ThinkingDelta(t) => t case _ => "")
  {
    assert (out + [e])[..|out|] == out;
  }

  lemma ThoughtOfTwo(out: seq<AgentEvent>, e: AgentEvent, f: AgentEvent)
    requires !e.ThinkingDelta? && !f.ThinkingDelta?
    ensures ThoughtOf(out + [e, f]) == ThoughtOf(out)
  {
    ThoughtOfSnoc(out, e);
    ThoughtOfSnoc(out + [e], f);
    assert out + [e, f] == out + [e] + [f];
  }

  /** So are its thinking deltas, the thinking. */
  lemma {:induction false} ThinkingIsConserved(b: Builder, events: seq<StreamEvent>)
    ensures ThoughtOf(StreamOut(b, events).out) == StreamedThought(events)
    decreases |events|
  {
    if events != [] {
      var last := |events| - 1;
      ThinkingIsConserved(b, events[..last]);
      var s, e, calls := StreamOut(b, events[..last]), events[last], b.calls(events);
      HeardThought(s, e);
      ThoughtOfSnoc(Heard(s, e).out, ToolCallsBegin(calls));
    }
  }

  lemma HeardThought(s: Streamed, e: StreamEvent)
    ensures ThoughtOf(Heard(s, e).out) == ThoughtOf(s.out) + (match e case ThinkingPart(t) => t case _ => "")
  {
    match e
    case TextPart(t) =>
      ThoughtOfSnoc(s.out, TextStart);
      ThoughtOfTwo(s.out, ThinkingEnd, TextStart);
      assert s.out + [] == s.out;
      ThoughtOfSnoc(s.out + OpenText(s.open), TextDelta(t));
    case ThinkingPart(t) =>
      ThoughtOfSnoc(s.out, ThinkingStart);
      ThoughtOfTwo(s.out, TextEnd, ThinkingStart);
      assert s.out + [] == s.out;
      ThoughtOfSnoc(s.out + OpenThinking(s.open), ThinkingDelta(t));
    case _ =>
  }

  lemma HeardText(s: Streamed, e: StreamEvent)
    ensures TextOf(Heard(s, e).out) == TextOf(s.out) + (match e case TextPart(t) => t case _ => "")
  {
    match e
    case TextPart(t) =>
      TextOfSnoc(s.out, TextStart);
      TextOfTwo(s.out, ThinkingEnd, TextStart);
      assert s.out + [] == s.out;
      TextOfSnoc(s.out + OpenText(s.open), TextDelta(t));
    case ThinkingPart(t) =>
      TextOfSnoc(s.out, ThinkingStart);
      TextOfTwo(s.out, TextEnd, ThinkingStart);
      assert s.out + [] == s.out;
      TextOfSnoc(s.out + OpenThinking(s.open), ThinkingDelta(t));
    case _ =>
  }

  // ----- Who a dispatch is made for -----

  /** The sender a round's tools are dispatched under: that of the last user-role entry. */
  function LastSender(history: seq<Entry>): string {
    if history == [] then ""
    else if history[|history| - 1].role == User then history[|history| - 1].sender
    else LastSender(history[..|history| - 1])
  }

  /** Tool results have the user role and no sender, so after a round with calls the history has none to give. */
  lemma ToolRoundForgetsSender(b: Builder, s: State, r: Round)
    requires Feasible(b, r) && !AfterRound(b, s, r).over
    ensures LastSender(AfterRound(b, s, r).history) == ""
  {
    var h := AfterRound(b, s, r).history;
    var calls := b.calls(r.events);
    var results := ResultEntries(calls, Filled(|calls|, r.completions));
    assert h[|h| - 1] == results[|results| - 1];
  }

  /** One round's tools, and the sender they are dispatched under. */
  datatype Request = Request(sender: string, calls: seq<Call>)

  /** The round gets as far as its tools. */
  predicate Dispatches(b: Builder, r: Round) {
    && r.ending == Drained && (b.malformed(r.events) == [] || FinishOf(r.events) == Some(Length))
    && b.calls(r.events) != []
  }

  /** What a run dispatches, round by round: the sender is read off the history the round finds. */
  function Requests(b: Builder, s: State, rounds: seq<Round>): seq<Request>
    requires forall r :: r in rounds ==> Feasible(b, r)
    decreases |rounds|
  {
    if s.over || rounds == [] then []
    else
      (if Dispatches(b, rounds[0]) then [Request(LastSender(s.history), b.calls(rounds[0].events))] else [])
      + Requests(b, AfterRound(b, s, rounds[0]), rounds[1..])
  }

  lemma UndispatchedEnds(b: Builder, s: State, r: Round)
    requires Feasible(b, r) && !Dispatches(b, r)
    ensures AfterRound(b, s, r).over
  {
  }

  lemma {:induction false} NoSenderAnyMore(b: Builder, s: State, rounds: seq<Round>)
    requires AllFeasible(b, rounds) && LastSender(s.history) == ""
    ensures forall i :: 0 <= i < |Requests(b, s, rounds)| ==> Requests(b, s, rounds)[i].sender == ""
    decreases |rounds|
  {
    if !s.over && rounds != [] {
      hide Feasible, Played, LastSender, Dispatches;
      assert rounds[0] in rounds;
      var t := AfterRound(b, s, rounds[0]);
      if !t.over {
        ToolRoundForgetsSender(b, s, rounds[0]);
        NoSenderAnyMore(b, t, rounds[1..]);
      }
    }
  }

  /**
   * Over a whole run the tools of the first round only are dispatched under the sender of the message
   * that opened the turn, and those of every later round under none.
   */
  lemma SenderReachesFirstRoundOnly(b: Builder, history: seq<Entry>, rounds: seq<Round>)
    requires AllFeasible(b, rounds)
    ensures var asked := Requests(b, State(history, [], [], false), rounds);
            forall i :: 0 <= i < |asked| ==> asked[i].sender == if i == 0 then LastSender(history) else ""
  {
    var s := State(history, [], [], false);
    if rounds != [] {
      hide Feasible, Played, LastSender;
      assert rounds[0] in rounds;
      var t := AfterRound(b, s, rounds[0]);
      if t.over {
        assert Requests(b, t, rounds[1..]) == [];
      } else {
        assert Dispatches(b, rounds[0]) by {
          if !Dispatches(b, rounds[0]) {
            UndispatchedEnds(b, s, rounds[0]);
          }
        }
        ToolRoundForgetsSender(b, s, rounds[0]);
        NoSenderAnyMore(b, t, rounds[1..]);
      }
    }
  }
}
