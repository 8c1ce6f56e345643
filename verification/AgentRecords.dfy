/** What a run of the agent loop leaves behind, told by what came in: its entries, its last word, its reports. */
module AgentRecords {
  import opened Wrappers
  import opened History
  import opened AgentLoop
  import opened AgentTheorems

  // ----- What a run records -----

  /** How many entries these steps take in a history: one each, and one per call. */
  function Entries(steps: seq<Step>): nat {
    if steps == [] then 0 else Entries(steps[..|steps| - 1]) + 1 + |steps[|steps| - 1].calls|
  }

  /**
   * From `at` on the history holds what a round came to: the model's text and calls, and behind it
   * one entry per call, with its id and the very output its dispatch finished with.
   */
  ghost predicate Recorded(h: seq<Entry>, at: nat, b: Builder, r: Round) {
    var calls, text := b.calls(r.events), b.text(r.events);
    && at + |calls| < |h|
    && h[at].role == Assistant && h[at].calls == calls && h[at].result.None? && !h[at].autoInjected
    && h[at].text == (match text case Some(t) => t case None => "")
    && (forall k :: 0 <= k < |calls| ==> IsResultOf(h[at + 1 + k], calls[k]))
    && forall c :: c in r.completions ==> c.idx < |calls| && SaysOutput(h[at + 1 + c.idx], c)
  }

  ghost predicate IsResultOf(e: Entry, call: Call) {
    e.role == User && e.result == Some(call.id) && e.calls == [] && e.sender == "" && !e.autoInjected
  }

  /** A tool's answer and a tool's error are recorded alike. */
  ghost predicate SaysOutput(e: Entry, c: Completion) {
    match c.out case Ok(output) => e.text == output case Err(error) => e.text == error
  }

  ghost predicate StepOf(step: Step, b: Builder, r: Round) {
    && step.text == b.text(r.events) && step.calls == b.calls(r.events)
    && LastDelta(r.events, step.finish, step.tokens)
  }

  /** The finish reason and token count of the last delta that has them, or none. */
  ghost predicate LastDelta(events: seq<StreamEvent>, finish: Option<Finish>, tokens: nat) {
    || (finish == None && tokens == 0 && forall i :: 0 <= i < |events| ==> !events[i].MessageDelta?)
    || exists k :: 0 <= k < |events| && events[k] == MessageDelta(finish, tokens)
                   && forall i :: k < i < |events| ==> !events[i].MessageDelta?
  }

  lemma {:induction false} DeltaIsLast(events: seq<StreamEvent>)
    ensures LastDelta(events, FinishOf(events), TokensOf(events))
    decreases |events|
  {
    if events != [] {
      var n := |events| - 1;
      if events[n].MessageDelta? {
        assert events[n] == MessageDelta(FinishOf(events), TokensOf(events));
      } else {
        DeltaIsLast(events[..n]);
        if k :| 0 <= k < n && events[..n][k] == MessageDelta(FinishOf(events), TokensOf(events))
                && forall i :: k < i < n ==> !events[..n][i].MessageDelta? {
          assert events[k] == events[..n][k];
          forall i | k < i < |events|
            ensures !events[i].MessageDelta?
          {
            assert i < n ==> events[i] == events[..n][i];
          }
        } else {
          forall i | 0 <= i < |events|
            ensures !events[i].MessageDelta?
          {
            assert i < n ==> events[i] == events[..n][i];
          }
        }
      }
    }
  }

  /** A drained dispatch puts every output at the place of its call. */
  lemma ResultsSay(calls: seq<Call>, done: seq<Completion>, c: Completion)
    requires forall i :: 0 <= i < |done| ==> done[i].idx < |calls|
    requires forall i, j :: 0 <= i < j < |done| ==> done[i].idx != done[j].idx
    requires c in done
    ensures c.idx < |calls| && SaysOutput(ResultEntries(calls, Filled(|calls|, done))[c.idx], c)
  {
    var j :| 0 <= j < |done| && done[j] == c;
    FilledAt(|calls|, done, c.idx);
  }

  lemma CommittedForm(b: Builder, before: seq<Step>, r: Round)
    requires Feasible(b, r) && Played(b, before, r).steps != []
    ensures var e, calls, text := Played(b, before, r), b.calls(r.events), b.text(r.events);
            var results := ResultEntries(calls, Filled(|calls|, r.completions));
            && e.steps == [Step(text, TokensOf(r.events), FinishOf(r.events), calls, results)]
            && e.entries == [AssistantEntry(Said(text), calls)] + results && (e.over <==> calls == [])
            && (calls != [] ==> !r.dispatchCancelled)
  {
    hide StreamOut, Filled, ResultEvents, FinishOf, TokensOf, ResultEntries, CloseSegment, Usage;
  }

  lemma ResultEntryIs(calls: seq<Call>, slots: seq<Option<Outcome>>, k: nat)
    requires |slots| == |calls| && k < |calls|
    ensures IsResultOf(ResultEntries(calls, slots)[k], calls[k])
  {
  }

  lemma EntriesRecord(b: Builder, r: Round)
    requires Feasible(b, r)
    ensures var calls, text := b.calls(r.events), b.text(r.events);
            Recorded([AssistantEntry(Said(text), calls)] + ResultEntries(calls, Filled(|calls|, r.completions)), 0, b, r)
  {
    hide Filled, ResultEntries, SaysOutput, IsResultOf;
    var calls := b.calls(r.events);
    var slots := Filled(|calls|, r.completions);
    var results := ResultEntries(calls, slots);
    var h := [AssistantEntry(Said(b.text(r.events)), calls)] + results;
    forall k | 0 <= k < |calls|
      ensures IsResultOf(h[1 + k], calls[k])
    {
      ResultEntryIs(calls, slots, k);
      assert h[1 + k] == results[k];
    }
    forall c | c in r.completions
      ensures c.idx < |calls| && SaysOutput(h[1 + c.idx], c)
    {
      ResultsSay(calls, r.completions, c);
      assert h[1 + c.idx] == results[c.idx];
    }
  }

  lemma CommittedRecords(b: Builder, before: seq<Step>, r: Round)
    requires Feasible(b, r) && Played(b, before, r).steps != []
    ensures var e := Played(b, before, r);
            |e.steps| == 1 && StepOf(e.steps[0], b, r) && Recorded(e.entries, 0, b, r)
            && |e.entries| == 1 + |b.calls(r.events)| && (e.over <==> b.calls(r.events) == [])
  {
    CommittedForm(b, before, r);
    EntriesRecord(b, r);
    DeltaIsLast(r.events);
    hide Played, Feasible, Filled, FinishOf, TokensOf, LastDelta, Recorded, ResultEntries;
  }

  lemma RecordedStays(h: seq<Entry>, h': seq<Entry>, at: nat, b: Builder, r: Round)
    requires Recorded(h, at, b, r) && h <= h'
    ensures Recorded(h', at, b, r)
  {
    hide IsResultOf, SaysOutput;
    forall c | c in r.completions
      ensures c.idx < |b.calls(r.events)| && SaysOutput(h'[at + 1 + c.idx], c)
    {
      assert h'[at + 1 + c.idx] == h[at + 1 + c.idx];
    }
  }

  lemma RecordedBehind(front: seq<Entry>, h: seq<Entry>, at: nat, b: Builder, r: Round)
    requires Recorded(h, at, b, r)
    ensures Recorded(front + h, |front| + at, b, r)
  {
    hide IsResultOf, SaysOutput;
    var all, calls, base := front + h, b.calls(r.events), |front| + at;
    assert all[base] == h[at];
    forall k | 0 <= k < |calls|
      ensures IsResultOf(all[base + 1 + k], calls[k])
    {
      assert all[base + 1 + k] == h[at + 1 + k];
    }
    forall c | c in r.completions
      ensures c.idx < |calls| && SaysOutput(all[base + 1 + c.idx], c)
    {
      assert all[base + 1 + c.idx] == h[at + 1 + c.idx];
    }
  }

  lemma EntriesCons(step: Step, steps: seq<Step>)
    ensures Entries([step] + steps) == 1 + |step.calls| + Entries(steps)
    decreases |steps|
  {
    var all := [step] + steps;
    if steps == [] {
      assert all[..|all| - 1] == [];
    } else {
      assert all[..|all| - 1] == [step] + steps[..|steps| - 1];
      EntriesCons(step, steps[..|steps| - 1]);
    }
  }

  /** The text a cancelled stream leaves: what there is of it, if any. */
  function CutText(b: Builder, r: Round): seq<Entry> {
    match b.text(r.events)
    case Some(t) => if r.ending == StreamCancelled && t != "" then [AssistantEntry(t, [])] else []
    case None => []
  }

  /** What follows the committed steps: a round that committed nothing, if one was played. */
  ghost function Trailing(b: Builder, steps: seq<Step>, rounds: seq<Round>): seq<Entry> {
    if |steps| < |rounds| && (steps == [] || steps[|steps| - 1].calls != []) then CutText(b, rounds[|steps|]) else []
  }

  /** The `i`-th step is that of the `i`-th round, and stands in the history behind those before it. */
  ghost predicate StandsAt(h: seq<Entry>, at: nat, b: Builder, steps: seq<Step>, rounds: seq<Round>, i: nat)
    requires i < |steps| <= |rounds|
  {
    StepOf(steps[i], b, rounds[i]) && Recorded(h, at + Entries(steps[..i]), b, rounds[i])
  }

  ghost predicate EndsWith(h: seq<Entry>, at: nat, rest: seq<Entry>) {
    at <= |h| && h[at..] == rest
  }

  /** These steps are those of the first rounds, and this is how they and the round after them stand in the history. */
  ghost predicate RecordsAll(h: seq<Entry>, at: nat, b: Builder, steps: seq<Step>, rounds: seq<Round>) {
    && |steps| <= |rounds|
    && (forall i :: 0 <= i < |steps| ==> StandsAt(h, at, b, steps, rounds, i))
    && EndsWith(h, at + Entries(steps), Trailing(b, steps, rounds))
  }

  lemma FirstStands(h: seq<Entry>, at: nat, b: Builder, step: Step, steps: seq<Step>, rounds: seq<Round>)
    requires |steps| < |rounds| && StepOf(step, b, rounds[0]) && Recorded(h, at, b, rounds[0])
    ensures StandsAt(h, at, b, [step] + steps, rounds, 0)
  {
    hide Recorded, StepOf;
    assert ([step] + steps)[..0] == [];
  }

  lemma NextStands(h: seq<Entry>, at: nat, b: Builder, step: Step, steps: seq<Step>, rounds: seq<Round>, i: nat)
    requires i < |steps| < |rounds| && StandsAt(h, at + 1 + |step.calls|, b, steps, rounds[1..], i)
    ensures StandsAt(h, at, b, [step] + steps, rounds, i + 1)
  {
    hide Recorded, StepOf, Entries;
    var all := [step] + steps;
    assert all[..i + 1] == [step] + steps[..i];
    EntriesCons(step, steps[..i]);
    assert rounds[1..][i] == rounds[i + 1] && all[i + 1] == steps[i];
  }

  lemma NoEntries()
    ensures Entries([]) == 0
  {
  }

  lemma TrailingMore(b: Builder, step: Step, steps: seq<Step>, rounds: seq<Round>)
    requires rounds != [] && step.calls != [] && |steps| <= |rounds[1..]|
    ensures Trailing(b, [step] + steps, rounds) == Trailing(b, steps, rounds[1..])
  {
    hide CutText;
    var all := [step] + steps;
    assert |steps| < |rounds[1..]| ==> rounds[1..][|steps|] == rounds[|all|];
    assert steps != [] ==> all[|all| - 1] == steps[|steps| - 1];
  }

  lemma RecordsMore(h: seq<Entry>, at: nat, b: Builder, step: Step, steps: seq<Step>, rounds: seq<Round>)
    requires rounds != [] && StepOf(step, b, rounds[0]) && Recorded(h, at, b, rounds[0]) && step.calls != []
    requires RecordsAll(h, at + 1 + |step.calls|, b, steps, rounds[1..])
    ensures RecordsAll(h, at, b, [step] + steps, rounds)
  {
    var all := [step] + steps;
    EntriesCons(step, steps);
    TrailingMore(b, step, steps, rounds);
    hide Recorded, StepOf, Trailing, Entries, StandsAt, EndsWith;
    FirstStands(h, at, b, step, steps, rounds);
    forall i | 0 <= i < |all|
      ensures StandsAt(h, at, b, all, rounds, i)
    {
      if i > 0 {
        NextStands(h, at, b, step, steps, rounds, i - 1);
      }
    }
  }

  lemma LastRecords(h: seq<Entry>, at: nat, b: Builder, step: Step, rounds: seq<Round>)
    requires rounds != [] && StepOf(step, b, rounds[0]) && Recorded(h, at, b, rounds[0]) && step.calls == []
    requires |h| == at + 1
    ensures RecordsAll(h, at, b, [step], rounds)
  {
    assert [step] + [] == [step];
    FirstStands(h, at, b, step, [], rounds);
    hide Recorded, StepOf, StandsAt;
    assert [step][..0] == [] && Entries([step]) == 1;
  }

  lemma UncommittedTrails(b: Builder, before: seq<Step>, r: Round)
    requires Feasible(b, r) && Played(b, before, r).steps == []
    ensures Played(b, before, r).over && Played(b, before, r).entries == CutText(b, r)
  {
    hide StreamOut, Filled, ResultEvents, FinishOf, TokensOf;
  }

  /** A round that commits, in the state it leaves. */
  lemma RoundCommits(b: Builder, s: State, r: Round) returns (step: Step)
    requires Feasible(b, r) && Played(b, s.steps, r).steps != []
    ensures var t := AfterRound(b, s, r);
            && t.steps == s.steps + [step] && s.history <= t.history
            && StepOf(step, b, r) && Recorded(t.history, |s.history|, b, r)
            && |t.history| == |s.history| + 1 + |step.calls| && (t.over <==> step.calls == [])
  {
    hide Feasible, Played, Recorded, StepOf;
    var e := Played(b, s.steps, r);
    CommittedRecords(b, s.steps, r);
    step := e.steps[0];
    StepCalls(step, b, r);
    RecordedBehind(s.history, e.entries, 0, b, r);
    assert e.steps == [step];
  }

  lemma RoundTrails(b: Builder, s: State, rounds: seq<Round>)
    requires rounds != [] && Feasible(b, rounds[0]) && Played(b, s.steps, rounds[0]).steps == []
    ensures AfterRound(b, s, rounds[0]).over && Records(AfterRound(b, s, rounds[0]), s, b, [], rounds)
  {
    UncommittedTrails(b, s.steps, rounds[0]);
    hide Played, CutText, Recorded, StepOf;
  }

  /** What a state that began as `before` has come to over these rounds. */
  ghost predicate Records(t: State, before: State, b: Builder, steps: seq<Step>, rounds: seq<Round>) {
    t.steps == before.steps + steps && before.history <= t.history
    && RecordsAll(t.history, |before.history|, b, steps, rounds)
  }

  lemma CommitRecords(t: State, s: State, t1: State, b: Builder, step: Step, rest: seq<Step>, rounds: seq<Round>)
    requires rounds != [] && t1.steps == s.steps + [step] && s.history <= t1.history && step.calls != []
    requires StepOf(step, b, rounds[0]) && Recorded(t1.history, |s.history|, b, rounds[0])
    requires |t1.history| == |s.history| + 1 + |step.calls| && Records(t, t1, b, rest, rounds[1..])
    ensures Records(t, s, b, [step] + rest, rounds)
  {
    hide Recorded, StepOf, RecordsAll;
    RecordedStays(t1.history, t.history, |s.history|, b, rounds[0]);
    RecordsMore(t.history, |s.history|, b, step, rest, rounds);
    assert s.steps + [step] + rest == s.steps + ([step] + rest);
  }

  lemma {:induction false} RoundsRecord(b: Builder, s: State, rounds: seq<Round>) returns (steps: seq<Step>)
    requires AllFeasible(b, rounds) && !s.over
    ensures Records(RunRounds(b, s, rounds), s, b, steps, rounds)
    decreases |rounds|
  {
    if rounds == [] {
      steps := [];
      NothingRecords(s.history, b);
      hide RecordsAll;
      assert s.steps + [] == s.steps;
    } else {
      assert rounds[0] in rounds;
      var t1 := AfterRound(b, s, rounds[0]);
      hide Feasible, AfterRound, Played, Recorded, StepOf, RecordsAll, Records;
      if Played(b, s.steps, rounds[0]).steps == [] {
        steps := [];
        RoundTrails(b, s, rounds);
      } else {
        var step := RoundCommits(b, s, rounds[0]);
        if t1.over {
          steps := [step];
          AnswerRecords(s, t1, b, step, rounds);
        } else {
          var rest := RoundsRecord(b, t1, rounds[1..]);
          steps := [step] + rest;
          CommitRecords(RunRounds(b, s, rounds), s, t1, b, step, rest, rounds);
        }
      }
    }
  }

  lemma AnswerRecords(s: State, t: State, b: Builder, step: Step, rounds: seq<Round>)
    requires rounds != [] && t.steps == s.steps + [step] && s.history <= t.history && step.calls == []
    requires StepOf(step, b, rounds[0]) && Recorded(t.history, |s.history|, b, rounds[0])
    requires |t.history| == |s.history| + 1
    ensures Records(t, s, b, [step], rounds)
  {
    hide Recorded, StepOf, RecordsAll;
    LastRecords(t.history, |s.history|, b, step, rounds);
  }

  lemma NothingRecords(h: seq<Entry>, b: Builder)
    ensures RecordsAll(h, |h|, b, [], [])
  {
  }

  lemma StepCalls(step: Step, b: Builder, r: Round)
    ensures StepOf(step, b, r) ==> step.calls == b.calls(r.events) && step.text == b.text(r.events)
  {
  }

  /**
   * What a run writes into the history: its committed steps are those of the first rounds in turn,
   * each as the model's own text and calls followed by one entry per call that carries what that
   * call's tool came back with, whichever finished first; then at most the text of a cut stream.
   */
  lemma RunRecordsRounds(b: Builder, history: seq<Entry>, rounds: seq<Round>)
    requires AllFeasible(b, rounds)
    ensures var s := Run(b, history, rounds);
            history <= s.history && RecordsAll(s.history, |history|, b, s.steps, rounds)
  {
    hide Feasible, RunRounds, RecordsAll;
    var s0 := State(history, [], [], false);
    var steps := RoundsRecord(b, s0, rounds);
    assert [] + steps == steps;
  }

  // ----- Why a run ends -----

  /** Why a round that commits nothing ends the run. */
  ghost predicate StopsFor(stop: StopReason, b: Builder, r: Round) {
    match r.ending
    case StreamCancelled => stop == Cancelled
    case Failed(e) => stop == ErrorStop(e)
    case Drained =>
      if b.malformed(r.events) != [] && FinishOf(r.events) != Some(Length) then stop.ErrorStop?
      else if b.text(r.events).None? && b.calls(r.events) == [] then stop == NoAction
      else stop == Cancelled && r.dispatchCancelled
  }

  /** What the run's last word says of how it ended: a plain answer, a round that committed nothing, or the limit. */
  ghost predicate EndsFor(done: Response, b: Builder, steps: seq<Step>, rounds: seq<Round>) {
    if steps != [] && steps[|steps| - 1].calls == [] then
      done.stop == TextResponse && done.final.Some? && done.final == steps[|steps| - 1].text
    else if |steps| < |rounds| then done.final == None && StopsFor(done.stop, b, rounds[|steps|])
    else done.stop == MaxIterations && done.final == if steps == [] then None else steps[|steps| - 1].text
  }

  lemma UncommittedStops(b: Builder, before: seq<Step>, r: Round)
    requires Feasible(b, r) && Played(b, before, r).steps == []
    ensures var e := Played(b, before, r);
            && e.over && e.said != [] && e.said[|e.said| - 1].Done?
            && e.said[|e.said| - 1].response.final == None && StopsFor(e.said[|e.said| - 1].response.stop, b, r)
  {
    hide StreamOut, Filled, ResultEvents, FinishOf, TokensOf;
  }

  lemma AnswerStops(b: Builder, before: seq<Step>, r: Round)
    requires Feasible(b, r) && Played(b, before, r).steps != [] && Played(b, before, r).over
    ensures var e := Played(b, before, r);
            && |e.steps| == 1 && e.steps[0].calls == [] && e.said != [] && e.said[|e.said| - 1].Done?
            && e.said[|e.said| - 1].response.stop == TextResponse
            && e.said[|e.said| - 1].response.final == e.steps[0].text && e.steps[0].text.Some?
  {
    hide StreamOut, Filled, ResultEvents, FinishOf, TokensOf;
  }

  lemma GoesOnWithCalls(b: Builder, before: seq<Step>, r: Round)
    requires Feasible(b, r) && !Played(b, before, r).over
    ensures |Played(b, before, r).steps| == 1 && Played(b, before, r).steps[0].calls != []
  {
    hide StreamOut, Filled, ResultEvents, FinishOf, TokensOf;
  }

  /** What a state says of the rounds since: over for a reason, or every one of them gone on. */
  ghost predicate Ends(t: State, b: Builder, steps: seq<Step>, rounds: seq<Round>) {
    if t.over then
      && t.out != [] && t.out[|t.out| - 1].Done? && EndsFor(t.out[|t.out| - 1].response, b, steps, rounds)
      && (|steps| < |rounds| || (steps != [] && steps[|steps| - 1].calls == []))
    else |steps| == |rounds| && (steps != [] ==> steps[|steps| - 1].calls != [])
  }

  lemma EndsMore(t: State, b: Builder, step: Step, steps: seq<Step>, rounds: seq<Round>)
    requires rounds != [] && step.calls != [] && Ends(t, b, steps, rounds[1..])
    ensures Ends(t, b, [step] + steps, rounds)
  {
    hide StopsFor;
    var all := [step] + steps;
    assert steps != [] ==> all[|all| - 1] == steps[|steps| - 1];
    assert |steps| < |rounds[1..]| ==> rounds[1..][|steps|] == rounds[|all|];
  }

  lemma RoundEnds(b: Builder, s: State, rounds: seq<Round>) returns (steps: seq<Step>)
    requires rounds != [] && Feasible(b, rounds[0]) && AfterRound(b, s, rounds[0]).over
    ensures var t := AfterRound(b, s, rounds[0]); t.steps == s.steps + steps && Ends(t, b, steps, rounds)
  {
    hide Played, Feasible, StopsFor;
    var e, t := Played(b, s.steps, rounds[0]), AfterRound(b, s, rounds[0]);
    assert e.said != [] ==> t.out[|t.out| - 1] == e.said[|e.said| - 1];
    if e.steps == [] {
      UncommittedStops(b, s.steps, rounds[0]);
    } else {
      AnswerStops(b, s.steps, rounds[0]);
    }
    steps := e.steps;
  }

  lemma RoundGoesOn(b: Builder, s: State, r: Round) returns (step: Step)
    requires Feasible(b, r) && !AfterRound(b, s, r).over
    ensures AfterRound(b, s, r).steps == s.steps + [step] && step.calls != []
  {
    GoesOnWithCalls(b, s.steps, r);
    step := Played(b, s.steps, r).steps[0];
    assert Played(b, s.steps, r).steps == [step];
    hide Played, Feasible;
  }

  lemma {:induction false} RoundsEnd(b: Builder, s: State, rounds: seq<Round>) returns (steps: seq<Step>)
    requires AllFeasible(b, rounds) && !s.over
    ensures var t := RunRounds(b, s, rounds); t.steps == s.steps + steps && Ends(t, b, steps, rounds)
    decreases |rounds|
  {
    steps := [];
    if rounds == [] {
      assert s.steps + [] == s.steps;
    } else {
      hide Feasible, AfterRound, Ends;
      assert rounds[0] in rounds;
      var t1 := AfterRound(b, s, rounds[0]);
      if t1.over {
        steps := RoundEnds(b, s, rounds);
      } else {
        var step := RoundGoesOn(b, s, rounds[0]);
        var rest := RoundsEnd(b, t1, rounds[1..]);
        steps := [step] + rest;
        EndsMore(RunRounds(b, s, rounds), b, step, rest, rounds);
        assert s.steps + [step] + rest == s.steps + steps;
      }
    }
  }

  /** The last event of every run says why it ended, as its rounds have it, and gives the last answer. */
  lemma DoneSaysWhy(b: Builder, history: seq<Entry>, rounds: seq<Round>)
    requires AllFeasible(b, rounds)
    ensures var s := Run(b, history, rounds);
            s.out != [] && s.out[|s.out| - 1].Done? && EndsFor(s.out[|s.out| - 1].response, b, s.steps, rounds)
  {
    hide Feasible, RunRounds, StopsFor;
    var steps := RoundsEnd(b, State(history, [], [], false), rounds);
    assert [] + steps == steps;
  }

  // ----- What a round says of its tools -----

  /** From `at` on the events announce the calls, report each completion as it came, and close. */
  ghost predicate ReportsTools(said: seq<AgentEvent>, at: nat, calls: seq<Call>, done: seq<Completion>) {
    && at + |done| < |said| && said[at] == ToolCallsStart(calls)
    && forall j :: 0 <= j < |done| ==>
         done[j].idx < |calls| && said[at + 1 + j] == ToolResult(calls[done[j].idx].id, done[j].out, done[j].millis)
  }

  /** A round that gets to its tools says what each came back with, in finishing order, and the tokens it used. */
  lemma RoundReportsTools(b: Builder, before: seq<Step>, r: Round)
    requires Feasible(b, r) && Dispatches(b, r)
    ensures var said, at, n := Played(b, before, r).said, |HeardIn(b, r.events)|, |r.completions|;
            && ReportsTools(said, at, b.calls(r.events), r.completions)
            && (!r.dispatchCancelled ==>
                  && at + 1 + n < |said| && said[at + 1 + n] == ToolCallsComplete
                  && said[at + 2 + n..] == if TokensOf(r.events) > 0 then [ContextUsage(TokensOf(r.events))] else [])
  {
    hide StreamOut, Filled, FinishOf, TokensOf, ResultEntries;
  }

  // ----- What a stream announces -----

  /** The calls are announced once while they stream, as soon as there are any, and as they then were. */
  lemma {:induction false} AnnouncedAtFirstCall(b: Builder, events: seq<StreamEvent>, n: nat)
    requires 0 < n <= |events| && b.calls(events[..n]) != [] && forall m :: 0 < m < n ==> b.calls(events[..m]) == []
    ensures var out := StreamOut(b, events).out;
            && (forall e :: e in out && e.ToolCallsBegin? ==> e.calls == b.calls(events[..n]))
            && ToolCallsBegin(b.calls(events[..n])) in out
    decreases |events|
  {
    var last := |events| - 1;
    var front := events[..last];
    HeardAnnouncesNothing(StreamOut(b, front), events[last]);
    forall m | 0 < m <= last
      ensures front[..m] == events[..m]
    {
    }
    if n == |events| {
      assert events[..n] == events;
      NotYetAnnounced(b, front);
    } else {
      AnnouncedAtFirstCall(b, front, n);
      BegunOnce(b, front, n);
    }
    hide Heard;
  }

  lemma HeardAnnouncesNothing(s: Streamed, e: StreamEvent)
    ensures forall x :: x in Heard(s, e).out && x.ToolCallsBegin? ==> x in s.out
    ensures forall x :: x in s.out ==> x in Heard(s, e).out
    ensures Heard(s, e).begun == s.begun
  {
  }

  lemma {:induction false} NotYetAnnounced(b: Builder, events: seq<StreamEvent>)
    requires forall m :: 0 < m <= |events| ==> b.calls(events[..m]) == []
    ensures !StreamOut(b, events).begun && forall x :: x in StreamOut(b, events).out ==> !x.ToolCallsBegin?
    decreases |events|
  {
    if events != [] {
      var last := |events| - 1;
      forall m | 0 < m <= last
        ensures b.calls(events[..last][..m]) == []
      {
        assert events[..last][..m] == events[..m];
      }
      NotYetAnnounced(b, events[..last]);
      HeardAnnouncesNothing(StreamOut(b, events[..last]), events[last]);
      assert events[..|events|] == events;
      hide Heard;
    }
  }

  lemma {:induction false} BegunOnce(b: Builder, events: seq<StreamEvent>, n: nat)
    requires 0 < n <= |events| && b.calls(events[..n]) != []
    ensures StreamOut(b, events).begun
    decreases |events|
  {
    var last := |events| - 1;
    HeardAnnouncesNothing(StreamOut(b, events[..last]), events[last]);
    if n == |events| {
      assert events[..n] == events;
    } else {
      assert events[..last][..n] == events[..n];
      BegunOnce(b, events[..last], n);
    }
    hide Heard;
  }
}
