/**
 * The agent loop over one session: model stream, tool dispatch, commit. What the model streams,
 * in which order tools finish, and where a cancellation lands are inputs.
 */
module AgentLoop {
  import opened Wrappers
  import opened History

  // ----- What the outside world does -----

  datatype Finish = Length | OtherReason

  datatype StreamEvent =
    | TextPart(text: string)
    | ThinkingPart(text: string)
    | ArgumentPart(json: string)
    | MessageDelta(finish: Option<Finish>, tokens: nat)
    | OtherEvent

  /** The message accumulator, as what it answers after accepting a list of events. */
  datatype Builder = Builder(
    calls: seq<StreamEvent> -> seq<Call>,
    text: seq<StreamEvent> -> Option<string>,
    malformed: seq<StreamEvent> -> seq<string>)

  datatype StreamEnd = Drained | Failed(error: string) | StreamCancelled

  type Outcome = Result<string, string>

  datatype Completion = Completion(idx: nat, out: Outcome, millis: nat)

  /**
   * One round's script: the events the model got out before the stream ended, was cancelled or
   * failed; then the dispatches that finished, in finishing order, and whether a cancellation cut
   * them short.
   */
  datatype Round = Round(
    events: seq<StreamEvent>,
    ending: StreamEnd,
    completions: seq<Completion>,
    dispatchCancelled: bool)

  /** Each dispatch finishes at most once, and all of them do unless a cancellation came first. */
  predicate Feasible(b: Builder, r: Round) {
    var n := |b.calls(r.events)|;
    && (forall i :: 0 <= i < |r.completions| ==> r.completions[i].idx < n)
    && (forall i, j :: 0 <= i < j < |r.completions| ==> r.completions[i].idx != r.completions[j].idx)
    && (!r.dispatchCancelled ==> |r.completions| == n)
  }

  // ----- What the loop says -----

  datatype StopReason =
    | TextResponse | MaxIterations | NoAction | ErrorStop(error: string) | Cancelled

  datatype Step = Step(text: Option<string>, tokens: nat, finish: Option<Finish>,
                       calls: seq<Call>, results: seq<Entry>)

  datatype Response = Response(final: Option<string>, iterations: nat, stop: StopReason, steps: seq<Step>)

  datatype AgentEvent =
    | TextStart | TextDelta(text: string) | TextEnd
    | ThinkingStart | ThinkingDelta(text: string) | ThinkingEnd
    | ToolCallsBegin(calls: seq<Call>)
    | ToolCallsStart(calls: seq<Call>)
    | ToolResult(id: string, out: Outcome, millis: nat)
    | ToolCallsComplete
    | ContextUsage(tokens: nat)
    | Done(response: Response)

  datatype Segment = NoSegment | TextSegment | ThinkingSegment

  // ----- One round's stream -----

  function OpenText(open: Segment): seq<AgentEvent> {
    match open
    case TextSegment => []
    case ThinkingSegment => [ThinkingEnd, TextStart]
    case NoSegment => [TextStart]
  }

  function OpenThinking(open: Segment): seq<AgentEvent> {
    match open
    case ThinkingSegment => []
    case TextSegment => [TextEnd, ThinkingStart]
    case NoSegment => [ThinkingStart]
  }

  function CloseSegment(open: Segment): seq<AgentEvent> {
    match open case NoSegment => [] case TextSegment => [TextEnd] case ThinkingSegment => [ThinkingEnd]
  }

  datatype Streamed = Streamed(out: seq<AgentEvent>, open: Segment, begun: bool)

  /** An empty text part opens a segment; an empty thinking part is dropped. */
  function Heard(s: Streamed, e: StreamEvent): Streamed {
    match e
    case TextPart(text) => Streamed(s.out + OpenText(s.open) + [TextDelta(text)], TextSegment, s.begun)
    case ThinkingPart(text) =>
      if text == "" then s
      else Streamed(s.out + OpenThinking(s.open) + [ThinkingDelta(text)], ThinkingSegment, s.begun)
    case _ => s
  }

  function Announced(s: Streamed, calls: seq<Call>): Streamed {
    if s.begun || calls == [] then s
    else Streamed(s.out + [ToolCallsBegin(calls)], s.open, true)
  }

  function StreamOut(b: Builder, events: seq<StreamEvent>): Streamed {
    if events == [] then Streamed([], NoSegment, false)
    else
      var last := |events| - 1;
      Announced(Heard(StreamOut(b, events[..last]), events[last]), b.calls(events))
  }

  /** Every message delta overwrites the finish reason, also with "none". */
  function FinishOf(events: seq<StreamEvent>): Option<Finish> {
    if events == [] then None
    else match events[|events| - 1]
      case MessageDelta(finish, _) => finish
      case _ => FinishOf(events[..|events| - 1])
  }

  function TokensOf(events: seq<StreamEvent>): nat {
    if events == [] then 0
    else match events[|events| - 1]
      case MessageDelta(_, tokens) => tokens
      case _ => TokensOf(events[..|events| - 1])
  }

  // ----- One round's dispatch -----

  /** The slot buffer after these completions. */
  function Filled(n: nat, done: seq<Completion>): (slots: seq<Option<Outcome>>)
    requires forall i :: 0 <= i < |done| ==> done[i].idx < n
    ensures |slots| == n
  {
    if done == [] then seq(n, _ => None)
    else
      var last := done[|done| - 1];
      Filled(n, done[..|done| - 1])[last.idx := Some(last.out)]
  }

  function Text(out: Outcome): string {
    match out case Ok(s) => s case Err(s) => s
  }

  function ResultEvents(calls: seq<Call>, done: seq<Completion>): (out: seq<AgentEvent>)
    requires forall i :: 0 <= i < |done| ==> done[i].idx < |calls|
    ensures |out| == |done|
  {
    seq(|done|, i requires 0 <= i < |done| =>
      ToolResult(calls[done[i].idx].id, done[i].out, done[i].millis))
  }

  /** The result entries in call order. A slot left empty would be a panic; `Feasible` rules it out. */
  function ResultEntries(calls: seq<Call>, slots: seq<Option<Outcome>>): (entries: seq<Entry>)
    requires |slots| == |calls|
    ensures Answers(entries, calls)
  {
    seq(|calls|, i requires 0 <= i < |calls| =>
      ToolEntry(match slots[i] case Some(out) => Text(out) case None => "", calls[i]))
  }

  // ----- A whole round, a whole run -----

  datatype State = State(history: seq<Entry>, steps: seq<Step>, out: seq<AgentEvent>, over: bool)

  /** What one round adds to history and steps, what it says, and whether the run ends with it. */
  datatype Effect = Effect(entries: seq<Entry>, steps: seq<Step>, said: seq<AgentEvent>, over: bool)

  function Ends(entries: seq<Entry>, before: seq<Step>, said: seq<AgentEvent>, stop: StopReason): Effect {
    Effect(entries, [], said + [Done(Response(None, |before|, stop, before))], true)
  }

  function Said(text: Option<string>): string {
    match text case Some(t) => t case None => ""
  }

  function Usage(tokens: nat): seq<AgentEvent> {
    if tokens > 0 then [ContextUsage(tokens)] else []
  }

  function StopOf(step: Step): StopReason {
    if step.text.Some? then TextResponse else NoAction
  }

  function Partial(text: Option<string>): seq<Entry> {
    if Said(text) != "" then [AssistantEntry(Said(text), [])] else []
  }

  function Played(b: Builder, before: seq<Step>, r: Round): Effect
    requires Feasible(b, r)
  {
    var st := StreamOut(b, r.events);
    var heard := st.out + CloseSegment(st.open);
    var text, calls, finish := b.text(r.events), b.calls(r.events), FinishOf(r.events);
    match r.ending
    case StreamCancelled => Ends(Partial(text), before, heard, Cancelled)
    case Failed(e) => Ends([], before, heard, ErrorStop(e))
    case Drained =>
      if b.malformed(r.events) != [] && finish != Some(Length) then
        Ends([], before, heard, ErrorStop("unparsable arguments"))
      else if text.None? && calls == [] then Ends([], before, heard, NoAction)
      else if calls != [] && r.dispatchCancelled then
        Ends([], before, heard + [ToolCallsStart(calls)] + ResultEvents(calls, r.completions), Cancelled)
      else
        var results := ResultEntries(calls, Filled(|calls|, r.completions));
        var step := Step(text, TokensOf(r.events), finish, calls, results);
        Committed(before, heard, step, r.completions)
  }

  /** The atomic commit: the assistant entry and all its results, or the assistant entry alone. */
  function Committed(before: seq<Step>, heard: seq<AgentEvent>, step: Step, done: seq<Completion>): Effect
    requires forall i :: 0 <= i < |done| ==> done[i].idx < |step.calls|
  {
    var entries := [AssistantEntry(Said(step.text), step.calls)] + step.results;
    if step.calls == [] then
      Effect(entries, [step],
             heard + Usage(step.tokens) + [Done(Response(step.text, |before| + 1, StopOf(step), before + [step]))], true)
    else
      Effect(entries, [step],
             heard + [ToolCallsStart(step.calls)] + ResultEvents(step.calls, done) + [ToolCallsComplete]
             + Usage(step.tokens), false)
  }

  function AfterRound(b: Builder, s: State, r: Round): State
    requires Feasible(b, r)
  {
    var e := Played(b, s.steps, r);
    State(s.history + e.entries, s.steps + e.steps, s.out + e.said, e.over)
  }

  function RunRounds(b: Builder, s: State, rounds: seq<Round>): State
    requires forall r :: r in rounds ==> Feasible(b, r)
    decreases |rounds|
  {
    if s.over || rounds == [] then s
    else RunRounds(b, AfterRound(b, s, rounds[0]), rounds[1..])
  }

  function LastText(steps: seq<Step>): Option<string> {
    if steps == [] then None else steps[|steps| - 1].text
  }

  /** A run whose iteration limit is the number of rounds scripted. */
  function Run(b: Builder, history: seq<Entry>, rounds: seq<Round>): State
    requires forall r :: r in rounds ==> Feasible(b, r)
  {
    var s := RunRounds(b, State(history, [], [], false), rounds);
    if s.over then s
    else s.(out := s.out + [Done(Response(LastText(s.steps), |s.steps|, MaxIterations, s.steps))], over := true)
  }

  // ----- The loop as it runs -----

  method StreamRound(b: Builder, events: seq<StreamEvent>) returns (st: Streamed)
    ensures st == StreamOut(b, events)
  {
    var out: seq<AgentEvent>, open, begun := [], NoSegment, false;
    for i := 0 to |events|
      invariant Streamed(out, open, begun) == StreamOut(b, events[..i])
    {
      assert events[..i + 1][..i] == events[..i];
      match events[i] {
        case TextPart(text) =>
          if open != TextSegment {
            if open == ThinkingSegment {
              out := out + [ThinkingEnd];
            }
            out := out + [TextStart];
            open := TextSegment;
          }
          out := out + [TextDelta(text)];
        case ThinkingPart(text) =>
          if text != "" {
            if open != ThinkingSegment {
              if open == TextSegment {
                out := out + [TextEnd];
              }
              out := out + [ThinkingStart];
              open := ThinkingSegment;
            }
            out := out + [ThinkingDelta(text)];
          }
        case _ =>
      }
      assert Streamed(out, open, begun) == Heard(StreamOut(b, events[..i]), events[i]);
      var calls := b.calls(events[..i + 1]);
      if !begun && calls != [] {
        begun := true;
        out := out + [ToolCallsBegin(calls)];
      }
    }
    assert events[..|events|] == events;
    st := Streamed(out, open, begun);
  }

  method Dispatch(calls: seq<Call>, done: seq<Completion>) returns (out: seq<AgentEvent>, slots: seq<Option<Outcome>>)
    requires forall i :: 0 <= i < |done| ==> done[i].idx < |calls|
    ensures out == ResultEvents(calls, done) && slots == Filled(|calls|, done)
  {
    out, slots := [], seq(|calls|, _ => None);
    for i := 0 to |done|
      invariant out == ResultEvents(calls, done[..i]) && slots == Filled(|calls|, done[..i])
    {
      assert done[..i + 1][..i] == done[..i];
      out := out + [ToolResult(calls[done[i].idx].id, done[i].out, done[i].millis)];
      slots := slots[done[i].idx := Some(done[i].out)];
    }
    assert done[..|done|] == done;
  }

  /** One turn of the outer loop: `over` is where the source returns. */
  method PlayRound(b: Builder, before: seq<Step>, r: Round) returns (e: Effect)
    requires Feasible(b, r)
    ensures e == Played(b, before, r)
  {
    var st := StreamRound(b, r.events);
    var said := st.out + CloseSegment(st.open);
    var text, calls, finish := b.text(r.events), b.calls(r.events), FinishOf(r.events);
    if r.ending == StreamCancelled {
      var kept := if Said(text) != "" then [AssistantEntry(Said(text), [])] else [];
      return Effect(kept, [], said + [Done(Response(None, |before|, Cancelled, before))], true);
    }
    if r.ending.Failed? {
      return Effect([], [], said + [Done(Response(None, |before|, ErrorStop(r.ending.error), before))], true);
    }
    if b.malformed(r.events) != [] && finish != Some(Length) {
      var stop := ErrorStop("unparsable arguments");
      return Effect([], [], said + [Done(Response(None, |before|, stop, before))], true);
    }
    if text.None? && calls == [] {
      return Effect([], [], said + [Done(Response(None, |before|, NoAction, before))], true);
    }
    var entries: seq<Entry>, results: seq<Entry> := [], [];
    if calls != [] {
      said := said + [ToolCallsStart(calls)];
      var finished, slots := Dispatch(calls, r.completions);
      said := said + finished;
      if r.dispatchCancelled {
        return Effect([], [], said + [Done(Response(None, |before|, Cancelled, before))], true);
      }
      entries, results := CommitResults(text, calls, slots);
      said := said + [ToolCallsComplete];
    } else {
      entries := [AssistantEntry(Said(text), calls)];
    }
    var tokens := TokensOf(r.events);
    if tokens > 0 {
      said := said + [ContextUsage(tokens)];
    }
    var step := Step(text, tokens, finish, calls, results);
    if calls != [] {
      e := Effect(entries, [step], said, false);
    } else {
      said := said + [Done(Response(text, |before| + 1, StopOf(step), before + [step]))];
      e := Effect(entries, [step], said, true);
    }
  }

  method CommitResults(text: Option<string>, calls: seq<Call>, slots: seq<Option<Outcome>>)
    returns (entries: seq<Entry>, results: seq<Entry>)
    requires |slots| == |calls|
    ensures results == ResultEntries(calls, slots)
    ensures forall i :: 0 <= i < |calls| && slots[i].Some? ==>
              results[i].text == (match slots[i].value case Ok(output) => output case Err(error) => error)
    ensures forall i :: 0 <= i < |calls| ==> results[i].result == Some(calls[i].id) && results[i].role == User
    ensures entries == [AssistantEntry(Said(text), calls)] + results
  {
    entries, results := [AssistantEntry(Said(text), calls)], [];
    for i := 0 to |calls|
      invariant results == ResultEntries(calls, slots)[..i]
      invariant entries == [AssistantEntry(Said(text), calls)] + results
    {
      var entry := ToolEntry(match slots[i] case Some(o) => Text(o) case None => "", calls[i]);
      entries := entries + [entry];
      results := results + [entry];
    }
  }

  method RunStream(b: Builder, history0: seq<Entry>, rounds: seq<Round>)
    returns (history: seq<Entry>, out: seq<AgentEvent>)
    requires forall r :: r in rounds ==> Feasible(b, r)
    ensures history == Run(b, history0, rounds).history && out == Run(b, history0, rounds).out
  {
    hide Played, Feasible;
    var steps: seq<Step>;
    history, steps, out := history0, [], [];
    ghost var start := State(history0, [], [], false);
    assert rounds[0..] == rounds;
    for n := 0 to |rounds|
      invariant RunRounds(b, start, rounds) == RunRounds(b, State(history, steps, out, false), rounds[n..])
    {
      assert rounds[n] in rounds && rounds[n..][0] == rounds[n] && rounds[n..][1..] == rounds[n + 1..];
      var e := PlayRound(b, steps, rounds[n]);
      history, steps, out := history + e.entries, steps + e.steps, out + e.said;
      if e.over {
        return;
      }
    }
    out := out + [Done(Response(LastText(steps), |steps|, MaxIterations, steps))];
  }
}
