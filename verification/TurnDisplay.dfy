/**
 * One turn as a reader sees it: what the agent loop says, forwarded to the transcript. The loop
 * announces each round of tools twice and ends it once, and the transcript counts.
 */
module TurnDisplay {
  import opened Wrappers
  import opened History
  import opened AgentLoop
  import opened AgentTheorems
  import T = Transcript

  /** How a tool call is labelled, and which outputs count as failures. */
  datatype View = View(named: (string, string) -> string, failed: string -> bool)

  function Labels(v: View, calls: seq<Call>): seq<string> {
    seq(|calls|, i requires 0 <= i < |calls| => v.named(calls[i].name, calls[i].args))
  }

  /** While they still stream, the calls are announced without their arguments. */
  function Unarmed(calls: seq<Call>): seq<Call> {
    seq(|calls|, i requires 0 <= i < |calls| => calls[i].(args := ""))
  }

  /** What the transcript gets of one event: both announcements of a round's tools start one. */
  function Forward(v: View, e: AgentEvent): seq<T.Event> {
    match e
    case TextDelta(text) => [T.TextChunk(text)]
    case ThinkingDelta(text) => [T.ThinkingChunk(text)]
    case ToolCallsBegin(calls) => [T.ToolsBegin(Labels(v, Unarmed(calls)))]
    case ToolCallsStart(calls) => [T.ToolsBegin(Labels(v, calls))]
    case ToolResult(_, out, _) => [T.ToolOutput(Text(out), v.failed(Text(out)))]
    case ToolCallsComplete => [T.ToolsEnd]
    case Done(response) =>
      if response.stop.ErrorStop? && response.stop.error != ""
      then [T.TurnEnds, T.Notice(T.Error(response.stop.error)), T.Notice(T.Blank)]
      else [T.TurnEnds]
    case _ => []
  }

  function Forwarded(v: View, out: seq<AgentEvent>): seq<T.Event> {
    if out == [] then [] else Forwarded(v, out[..|out| - 1]) + Forward(v, out[|out| - 1])
  }

  /** The events of a page without those that only hand items out. */
  function Unshown(events: seq<T.Event>): seq<T.Event> {
    if events == [] then []
    else Unshown(events[..|events| - 1]) + if events[|events| - 1].Show? then [] else [events[|events| - 1]]
  }

  function LessOne(n: nat): nat {
    if n == 0 then 0 else n - 1
  }

  // ----- What the loop's events come to -----

  function Up(n: nat, e: AgentEvent): nat {
    match e
    case ToolCallsBegin(_) => n + 1
    case ToolCallsStart(_) => n + 1
    case ToolCallsComplete => LessOne(n)
    case Done(_) => LessOne(n)
    case _ => n
  }

  function Aloft(n: nat, out: seq<AgentEvent>): nat {
    if out == [] then n else Up(Aloft(n, out[..|out| - 1]), out[|out| - 1])
  }

  lemma {:induction false} AloftConcat(n: nat, a: seq<AgentEvent>, b: seq<AgentEvent>)
    ensures Aloft(n, a + b) == Aloft(Aloft(n, a), b)
    decreases |b|
  {
    hide Up;
    if b == [] {
      assert a + b == a;
    } else {
      var last := |b| - 1;
      assert (a + b)[..|a + b| - 1] == a + b[..last];
      AloftConcat(n, a, b[..last]);
    }
  }

  lemma AloftOne(n: nat, e: AgentEvent)
    ensures Aloft(n, [e]) == Up(n, e)
  {
    assert [e][..0] == [];
  }

  lemma {:induction false} FlightConcat(n: nat, a: seq<T.Event>, b: seq<T.Event>)
    ensures T.FlightAfter(n, a + b) == T.FlightAfter(T.FlightAfter(n, a), b)
    decreases |a|
  {
    hide T.Flight;
    if a == [] {
      assert a + b == b;
    } else {
      assert (a + b)[1..] == a[1..] + b;
      FlightConcat(T.Flight(n, a[0]), a[1..], b);
    }
  }

  lemma FlightOne(n: nat, e: T.Event)
    ensures T.FlightAfter(n, [e]) == T.Flight(n, e)
  {
    assert [e][1..] == [];
  }

  lemma ForwardFlies(v: View, n: nat, e: AgentEvent)
    ensures T.FlightAfter(n, Forward(v, e)) == Up(n, e)
  {
    var sent := Forward(v, e);
    if |sent| == 1 {
      FlightOne(n, sent[0]);
    } else if e.Done? {
      assert sent[1..] == [T.Notice(T.Error(e.response.stop.error)), T.Notice(T.Blank)];
      assert sent[1..][1..] == [T.Notice(T.Blank)] && sent[1..][1..][1..] == [];
      assert T.FlightAfter(n, sent) == T.FlightAfter(LessOne(n), sent[1..]);
      assert T.FlightAfter(LessOne(n), sent[1..]) == T.FlightAfter(LessOne(n), sent[1..][1..]);
      FlightOne(LessOne(n), T.Notice(T.Blank));
    }
  }

  lemma {:induction false} ForwardedFlies(v: View, n: nat, out: seq<AgentEvent>)
    ensures T.FlightAfter(n, Forwarded(v, out)) == Aloft(n, out)
    decreases |out|
  {
    hide Forward, Up, T.Flight;
    if out != [] {
      var last := |out| - 1;
      ForwardedFlies(v, n, out[..last]);
      FlightConcat(n, Forwarded(v, out[..last]), Forward(v, out[last]));
      ForwardFlies(v, Aloft(n, out[..last]), out[last]);
    }
  }

  lemma {:induction false} UnshownFlies(n: nat, events: seq<T.Event>)
    ensures T.FlightAfter(n, events) == T.FlightAfter(n, Unshown(events))
    decreases |events|
  {
    hide T.FlightAfter;
    if events != [] {
      var last := |events| - 1;
      UnshownFlies(n, events[..last]);
      assert events == events[..last] + [events[last]];
      assert Unshown(events[..last]) + [] == Unshown(events[..last]);
      FlightConcat(n, events[..last], [events[last]]);
      FlightConcat(n, Unshown(events[..last]), [events[last]]);
      FlightOne(T.FlightAfter(n, events[..last]), events[last]);
    } else {
      assert Unshown(events) == events;
    }
  }

  // ----- What the transcript is given -----

  function TextIn(events: seq<T.Event>): string {
    if events == [] then ""
    else TextIn(events[..|events| - 1])
         + match events[|events| - 1] case TextChunk(chunk) => chunk case _ => ""
  }

  function ThoughtIn(events: seq<T.Event>): string {
    if events == [] then ""
    else ThoughtIn(events[..|events| - 1])
         + match events[|events| - 1] case ThinkingChunk(chunk) => chunk case _ => ""
  }

  function OutputsIn(events: seq<T.Event>): seq<(string, bool)> {
    if events == [] then []
    else OutputsIn(events[..|events| - 1])
         + match events[|events| - 1] case ToolOutput(output, failed) => [(output, failed)] case _ => []
  }

  /** What the tools of a run came back with, in the order it said so. */
  function Reported(v: View, out: seq<AgentEvent>): seq<(string, bool)> {
    if out == [] then []
    else
      var before := Reported(v, out[..|out| - 1]);
      match out[|out| - 1]
      case ToolResult(_, Ok(output), _) => before + [(output, v.failed(output))]
      case ToolResult(_, Err(error), _) => before + [(error, v.failed(error))]
      case _ => before
  }

  lemma {:induction false} TextInConcat(a: seq<T.Event>, b: seq<T.Event>)
    ensures TextIn(a + b) == TextIn(a) + TextIn(b)
    decreases |b|
  {
    if b == [] {
      assert a + b == a;
    } else {
      assert (a + b)[..|a + b| - 1] == a + b[..|b| - 1];
      TextInConcat(a, b[..|b| - 1]);
    }
  }

  lemma {:induction false} ThoughtInConcat(a: seq<T.Event>, b: seq<T.Event>)
    ensures ThoughtIn(a + b) == ThoughtIn(a) + ThoughtIn(b)
    decreases |b|
  {
    if b == [] {
      assert a + b == a;
    } else {
      assert (a + b)[..|a + b| - 1] == a + b[..|b| - 1];
      ThoughtInConcat(a, b[..|b| - 1]);
    }
  }

  lemma {:induction false} OutputsInConcat(a: seq<T.Event>, b: seq<T.Event>)
    ensures OutputsIn(a + b) == OutputsIn(a) + OutputsIn(b)
    decreases |b|
  {
    if b == [] {
      assert a + b == a;
    } else {
      assert (a + b)[..|a + b| - 1] == a + b[..|b| - 1];
      OutputsInConcat(a, b[..|b| - 1]);
    }
  }

  lemma InConcat(a: seq<T.Event>, b: seq<T.Event>)
    ensures TextIn(a + b) == TextIn(a) + TextIn(b) && ThoughtIn(a + b) == ThoughtIn(a) + ThoughtIn(b)
    ensures OutputsIn(a + b) == OutputsIn(a) + OutputsIn(b)
  {
    hide *;
    TextInConcat(a, b);
    ThoughtInConcat(a, b);
    OutputsInConcat(a, b);
  }

  lemma InOne(e: T.Event)
    ensures TextIn([e]) == (if e.TextChunk? then e.chunk else "")
    ensures ThoughtIn([e]) == (if e.ThinkingChunk? then e.chunk else "")
    ensures OutputsIn([e]) == if e.ToolOutput? then [(e.output, e.failed)] else []
  {
    assert [e][..0] == [];
  }

  lemma ForwardSays(v: View, e: AgentEvent)
    ensures TextIn(Forward(v, e)) == (if e.TextDelta? then e.text else "")
    ensures ThoughtIn(Forward(v, e)) == (if e.ThinkingDelta? then e.text else "")
    ensures OutputsIn(Forward(v, e)) == if e.ToolResult? then [(Text(e.out), v.failed(Text(e.out)))] else []
  {
    var sent := Forward(v, e);
    if |sent| == 1 {
      InOne(sent[0]);
    } else if e.Done? {
      NoticesSayNothing(e.response.stop.error);
    }
  }

  lemma NoticesSayNothing(error: string)
    ensures var sent := [T.TurnEnds, T.Notice(T.Error(error)), T.Notice(T.Blank)];
            TextIn(sent) == ThoughtIn(sent) == "" && OutputsIn(sent) == []
  {
    var a, b, c := T.TurnEnds, T.Notice(T.Error(error)), T.Notice(T.Blank);
    InOne(a);
    InOne(b);
    InOne(c);
    hide *;
    InConcat([a], [b]);
    InConcat([a] + [b], [c]);
    assert [a] + [b] + [c] == [a, b, c];
  }

  /** The transcript is given all text, all thinking and every tool's output, and nothing else of these. */
  lemma {:induction false} ForwardedSays(v: View, out: seq<AgentEvent>)
    ensures TextIn(Forwarded(v, out)) == TextOf(out) && ThoughtIn(Forwarded(v, out)) == ThoughtOf(out)
    ensures OutputsIn(Forwarded(v, out)) == Reported(v, out)
    decreases |out|
  {
    if out != [] {
      var last := |out| - 1;
      SaidLast(v, out);
      assert Forwarded(v, out) == Forwarded(v, out[..last]) + Forward(v, out[last]);
      hide *;
      ForwardedSays(v, out[..last]);
      ForwardSays(v, out[last]);
      InConcat(Forwarded(v, out[..last]), Forward(v, out[last]));
    }
  }

  lemma SaidLast(v: View, out: seq<AgentEvent>)
    requires out != []
    ensures var front, e := out[..|out| - 1], out[|out| - 1];
            && TextOf(out) == TextOf(front) + (if e.TextDelta? then e.text else "")
            && ThoughtOf(out) == ThoughtOf(front) + (if e.ThinkingDelta? then e.text else "")
            && Reported(v, out)
               == Reported(v, front) + if e.ToolResult? then [(Text(e.out), v.failed(Text(e.out)))] else []
  {
    TextEnds(out);
    hide TextOf, ThoughtOf;
    var before := Reported(v, out[..|out| - 1]);
    assert before + [] == before;
  }

  lemma TextEnds(out: seq<AgentEvent>)
    requires out != []
    ensures var front, e := out[..|out| - 1], out[|out| - 1];
            && TextOf(out) == TextOf(front) + (if e.TextDelta? then e.text else "")
            && ThoughtOf(out) == ThoughtOf(front) + (if e.ThinkingDelta? then e.text else "")
  {
    var front := out[..|out| - 1];
    assert TextOf(front) + "" == TextOf(front) && ThoughtOf(front) + "" == ThoughtOf(front);
  }

  /** So what the model streams in a round is what the transcript is given of it. */
  lemma StreamReachesTheTranscript(v: View, b: Builder, events: seq<StreamEvent>)
    ensures TextIn(Forwarded(v, StreamOut(b, events).out)) == StreamedText(events)
    ensures ThoughtIn(Forwarded(v, StreamOut(b, events).out)) == StreamedThought(events)
  {
    hide Forwarded, StreamOut;
    ForwardedSays(v, StreamOut(b, events).out);
    TextIsConserved(b, events);
    ThinkingIsConserved(b, events);
  }

  // ----- A round -----

  /** Whether the stream of a round announced its tools. */
  function Begun(b: Builder, r: Round): nat {
    if StreamOut(b, r.events).begun then 1 else 0
  }

  /** A round cut short after its tools were started. */
  predicate CutShort(b: Builder, r: Round) {
    && r.ending == Drained && (b.malformed(r.events) == [] || FinishOf(r.events) == Some(Length))
    && b.calls(r.events) != [] && r.dispatchCancelled
  }

  /** How often a round that ends its run announced tools: while streaming, and when starting them. */
  function Announcements(b: Builder, r: Round): nat {
    Begun(b, r) + if CutShort(b, r) then 1 else 0
  }

  lemma HeardAloft(n: nat, s: Streamed, e: StreamEvent)
    ensures Aloft(n, Heard(s, e).out) == Aloft(n, s.out)
  {
    match e
    case TextPart(text) =>
      AloftConcat(n, s.out, OpenText(s.open));
      SegmentsStay(Aloft(n, s.out), s.open);
      AloftConcat(n, s.out + OpenText(s.open), [TextDelta(text)]);
      AloftOne(Aloft(n, s.out), TextDelta(text));
    case ThinkingPart(text) =>
      AloftConcat(n, s.out, OpenThinking(s.open));
      SegmentsStay(Aloft(n, s.out), s.open);
      AloftConcat(n, s.out + OpenThinking(s.open), [ThinkingDelta(text)]);
      AloftOne(Aloft(n, s.out), ThinkingDelta(text));
    case _ =>
  }

  lemma SegmentsStay(n: nat, open: Segment)
    ensures Aloft(n, OpenText(open)) == Aloft(n, OpenThinking(open)) == Aloft(n, CloseSegment(open)) == n
  {
    AloftOne(n, TextStart);
    AloftOne(n, ThinkingStart);
    AloftOne(n, TextEnd);
    AloftOne(n, ThinkingEnd);
    AloftConcat(n, [ThinkingEnd], [TextStart]);
    AloftConcat(n, [TextEnd], [ThinkingStart]);
    assert [ThinkingEnd] + [TextStart] == [ThinkingEnd, TextStart];
    assert [TextEnd] + [ThinkingStart] == [TextEnd, ThinkingStart];
    hide Aloft;
  }

  lemma {:induction false} StreamAloft(n: nat, b: Builder, events: seq<StreamEvent>)
    ensures Aloft(n, StreamOut(b, events).out) == n + if StreamOut(b, events).begun then 1 else 0
    decreases |events|
  {
    if events != [] {
      hide Aloft, Heard;
      var last := |events| - 1;
      StreamAloft(n, b, events[..last]);
      var s := StreamOut(b, events[..last]);
      HeardAloft(n, s, events[last]);
      HeardKeepsBegun(s, events[last]);
      AloftConcat(n, Heard(s, events[last]).out, [ToolCallsBegin(b.calls(events))]);
      AloftOne(n, ToolCallsBegin(b.calls(events)));
    }
  }

  lemma HeardInAloft(n: nat, b: Builder, r: Round)
    ensures Aloft(n, HeardIn(b, r.events)) == n + Begun(b, r)
  {
    var st := StreamOut(b, r.events);
    StreamAloft(n, b, r.events);
    AloftConcat(n, st.out, CloseSegment(st.open));
    SegmentsStay(Aloft(n, st.out), st.open);
  }

  lemma {:induction false} ResultsStay(n: nat, calls: seq<Call>, done: seq<Completion>)
    requires forall i :: 0 <= i < |done| ==> done[i].idx < |calls|
    ensures Aloft(n, ResultEvents(calls, done)) == n
    decreases |done|
  {
    if done != [] {
      var last := |done| - 1;
      ResultEventsSnoc(calls, done);
      ResultsStay(n, calls, done[..last]);
      var e := ToolResult(calls[done[last].idx].id, done[last].out, done[last].millis);
      hide Aloft, ResultEvents;
      AloftConcat(n, ResultEvents(calls, done[..last]), [e]);
      AloftOne(n, e);
    }
  }

  lemma UsageStays(n: nat, tokens: nat)
    ensures Aloft(n, Usage(tokens)) == n
  {
    AloftOne(n, ContextUsage(tokens));
  }

  lemma CommitAloft(n: nat, before: seq<Step>, heard: seq<AgentEvent>, begun: nat, step: Step, done: seq<Completion>)
    requires Aloft(n, heard) == n + begun
    requires forall i :: 0 <= i < |done| ==> done[i].idx < |step.calls|
    ensures var e := Committed(before, heard, step, done);
            Aloft(n, e.said) == if e.over then LessOne(n + begun) else n + begun
  {
    hide Aloft, ResultEvents;
    var usage := Usage(step.tokens);
    if step.calls == [] {
      var end := Done(Response(step.text, |before| + 1, StopOf(step), before + [step]));
      AloftConcat(n, heard, usage);
      UsageStays(n + begun, step.tokens);
      AloftConcat(n, heard + usage, [end]);
      AloftOne(n + begun, end);
    } else {
      var start, results := ToolCallsStart(step.calls), ResultEvents(step.calls, done);
      AloftConcat(n, heard, [start]);
      AloftOne(n + begun, start);
      AloftConcat(n, heard + [start], results);
      ResultsStay(n + begun + 1, step.calls, done);
      AloftConcat(n, heard + [start] + results, [ToolCallsComplete]);
      AloftOne(n + begun + 1, ToolCallsComplete);
      AloftConcat(n, heard + [start] + results + [ToolCallsComplete], usage);
      UsageStays(n + begun, step.tokens);
    }
  }

  lemma EndAloft(n: nat, said: seq<AgentEvent>, end: AgentEvent)
    requires end.Done?
    ensures Aloft(n, said + [end]) == LessOne(Aloft(n, said))
  {
    AloftConcat(n, said, [end]);
    AloftOne(Aloft(n, said), end);
  }

  lemma CutAloft(n: nat, b: Builder, r: Round)
    requires Feasible(b, r)
    ensures var calls := b.calls(r.events);
            Aloft(n, HeardIn(b, r.events) + [ToolCallsStart(calls)] + ResultEvents(calls, r.completions))
            == n + Begun(b, r) + 1
  {
    hide Aloft, HeardIn, ResultEvents, StreamOut;
    var calls, heard := b.calls(r.events), HeardIn(b, r.events);
    HeardInAloft(n, b, r);
    AloftConcat(n, heard, [ToolCallsStart(calls)]);
    AloftOne(n + Begun(b, r), ToolCallsStart(calls));
    AloftConcat(n, heard + [ToolCallsStart(calls)], ResultEvents(calls, r.completions));
    ResultsStay(n + Begun(b, r) + 1, calls, r.completions);
  }

  /** What a round that commits nothing says before its end. */
  lemma UncommittedSays(b: Builder, before: seq<Step>, r: Round) returns (end: AgentEvent)
    requires Feasible(b, r) && Played(b, before, r).steps == []
    ensures end.Done? && Played(b, before, r).over
    ensures var calls, heard := b.calls(r.events), HeardIn(b, r.events);
            Played(b, before, r).said
            == (if CutShort(b, r) then heard + [ToolCallsStart(calls)] + ResultEvents(calls, r.completions) else heard)
               + [end]
  {
    hide StreamOut, Filled, ResultEvents, FinishOf, TokensOf;
    var e := Played(b, before, r);
    end := e.said[|e.said| - 1];
  }

  lemma UncommittedAloft(n: nat, b: Builder, before: seq<Step>, r: Round)
    requires Feasible(b, r) && Played(b, before, r).steps == []
    ensures var e := Played(b, before, r); e.over && Aloft(n, e.said) == LessOne(n + Announcements(b, r))
  {
    var end := UncommittedSays(b, before, r);
    hide Aloft, HeardIn, ResultEvents, Played, StreamOut;
    HeardInAloft(n, b, r);
    EndAloft(n, HeardIn(b, r.events), end);
    CutAloft(n, b, r);
    var calls := b.calls(r.events);
    EndAloft(n, HeardIn(b, r.events) + [ToolCallsStart(calls)] + ResultEvents(calls, r.completions), end);
  }

  lemma CommittedAloft(n: nat, b: Builder, before: seq<Step>, r: Round)
    requires Feasible(b, r) && b.calls([]) == [] && Played(b, before, r).steps != []
    ensures var e := Played(b, before, r);
            Aloft(n, e.said) == if e.over then LessOne(n + Announcements(b, r)) else n + 1
  {
    CommittedForm(b, before, r);
    hide Aloft, HeardIn, Walk, ResultEvents, Played, StreamOut, Committed;
    HeardInAloft(n, b, r);
    HeardInWalks(b, r.events);
    CommitAloft(n, before, HeardIn(b, r.events), Begun(b, r), Played(b, before, r).steps[0], r.completions);
  }

  /** A round with tools that goes on leaves one more in flight; one that ends the run, its announcements less one. */
  lemma RoundAloft(n: nat, b: Builder, before: seq<Step>, r: Round)
    requires Feasible(b, r) && b.calls([]) == []
    ensures var e := Played(b, before, r);
            Aloft(n, e.said) == if e.over then LessOne(n + Announcements(b, r)) else n + 1
  {
    hide Aloft, Played, Announcements, Feasible;
    if Played(b, before, r).steps == [] {
      UncommittedAloft(n, b, before, r);
    } else {
      CommittedAloft(n, b, before, r);
    }
  }

  lemma CommittedForm(b: Builder, before: seq<Step>, r: Round)
    requires Feasible(b, r) && Played(b, before, r).steps != []
    ensures var e := Played(b, before, r);
            && e == Committed(before, HeardIn(b, r.events), e.steps[0], r.completions)
            && e.steps[0].calls == b.calls(r.events) && (e.over <==> b.calls(r.events) == []) && !CutShort(b, r)
  {
    hide StreamOut, Filled, ResultEvents, FinishOf, TokensOf;
  }

  // ----- A run -----

  /** The committed rounds that had calls. */
  function ToolRounds(steps: seq<Step>): nat {
    if steps == [] then 0
    else ToolRounds(steps[..|steps| - 1]) + if steps[|steps| - 1].calls == [] then 0 else 1
  }

  /** The announcements of the round that ends the run, if one does. */
  function LastAnnouncements(b: Builder, s: State, rounds: seq<Round>): nat
    requires forall r :: r in rounds ==> Feasible(b, r)
    decreases |rounds|
  {
    if s.over || rounds == [] then 0
    else if AfterRound(b, s, rounds[0]).over then Announcements(b, rounds[0])
    else LastAnnouncements(b, AfterRound(b, s, rounds[0]), rounds[1..])
  }

  lemma ToolRoundsSnoc(steps: seq<Step>, step: Step)
    ensures ToolRounds(steps + [step]) == ToolRounds(steps) + if step.calls == [] then 0 else 1
  {
    assert (steps + [step])[..|steps|] == steps;
  }

  lemma RoundSteps(b: Builder, s: State, r: Round)
    requires Feasible(b, r)
    ensures var t := AfterRound(b, s, r);
            ToolRounds(t.steps) == ToolRounds(s.steps) + if t.over then 0 else 1
  {
    var e := Played(b, s.steps, r);
    PlayedShape(b, s.steps, r);
    if e.steps != [] {
      CommittedForm(b, s.steps, r);
      assert e.steps == [e.steps[0]];
      ToolRoundsSnoc(s.steps, e.steps[0]);
    } else {
      assert s.steps + e.steps == s.steps;
    }
    hide Played, ToolRounds;
  }

  /** What is aloft after a state, if the announcements of the round that ended it are these. */
  ghost predicate Leaves(n: nat, s: State, last: nat) {
    Aloft(n, s.out) == if s.over then LessOne(n + ToolRounds(s.steps) + last) else n + ToolRounds(s.steps)
  }

  lemma RoundLeaves(n: nat, b: Builder, s: State, r: Round)
    requires Feasible(b, r) && b.calls([]) == [] && !s.over && Leaves(n, s, 0)
    ensures var t := AfterRound(b, s, r); Leaves(n, t, if t.over then Announcements(b, r) else 0)
  {
    RoundAloft(Aloft(n, s.out), b, s.steps, r);
    AloftConcat(n, s.out, Played(b, s.steps, r).said);
    RoundSteps(b, s, r);
    hide Feasible, Played, Aloft, ToolRounds, Announcements;
  }

  lemma {:induction false} RoundsLeave(n: nat, b: Builder, s: State, rounds: seq<Round>)
    requires AllFeasible(b, rounds) && b.calls([]) == [] && !s.over && Leaves(n, s, 0)
    ensures Leaves(n, RunRounds(b, s, rounds), LastAnnouncements(b, s, rounds))
    ensures !RunRounds(b, s, rounds).over ==> LastAnnouncements(b, s, rounds) == 0
    decreases |rounds|
  {
    if rounds != [] {
      hide Feasible, Leaves, AfterRound, Announcements;
      assert rounds[0] in rounds;
      var t := AfterRound(b, s, rounds[0]);
      RoundLeaves(n, b, s, rounds[0]);
      if !t.over {
        RoundsLeave(n, b, t, rounds[1..]);
      }
    }
  }

  lemma RunLeaves(n: nat, b: Builder, history: seq<Entry>, rounds: seq<Round>)
    requires AllFeasible(b, rounds) && b.calls([]) == []
    ensures var s, s0 := Run(b, history, rounds), State(history, [], [], false);
            Aloft(n, s.out) == LessOne(n + ToolRounds(s.steps) + LastAnnouncements(b, s0, rounds))
  {
    var s0 := State(history, [], [], false);
    StartLeaves(n, history);
    hide Feasible, RunRounds, LastAnnouncements, Aloft, ToolRounds, AfterRound, Leaves;
    RoundsLeave(n, b, s0, rounds);
    FinishLeaves(n, RunRounds(b, s0, rounds), LastAnnouncements(b, s0, rounds));
  }

  lemma StartLeaves(n: nat, history: seq<Entry>)
    ensures Leaves(n, State(history, [], [], false), 0)
  {
  }

  /** A run that reaches its limit says so itself. */
  lemma FinishLeaves(n: nat, t: State, last: nat)
    requires Leaves(n, t, last) && (!t.over ==> last == 0)
    ensures var end := Done(Response(LastText(t.steps), |t.steps|, MaxIterations, t.steps));
            Aloft(n, if t.over then t.out else t.out + [end]) == LessOne(n + ToolRounds(t.steps) + last)
  {
    hide Aloft, ToolRounds;
    EndAloft(n, t.out, Done(Response(LastText(t.steps), |t.steps|, MaxIterations, t.steps)));
  }

  /** The page of these events is the one that was forwarded this, however its items were handed out. */
  ghost predicate Shows(v: View, trim: string -> string, p: T.Page, out: seq<AgentEvent>, q: T.Page) {
    exists events :: T.Runs(trim, p, events, q) && Unshown(events) == Forwarded(v, out)
  }

  lemma ShownFlies(v: View, trim: string -> string, p: T.Page, out: seq<AgentEvent>, q: T.Page)
    requires Shows(v, trim, p, out, q)
    ensures T.InFlight(q.items) == Aloft(T.InFlight(p.items), out)
  {
    var n := T.InFlight(p.items);
    var events :| T.Runs(trim, p, events, q) && Unshown(events) == Forwarded(v, out);
    hide T.InFlight, T.FlightAfter, Forwarded, Unshown, Aloft, T.Runs;
    T.RunFlies(trim, p, events, q);
    UnshownFlies(n, events);
    ForwardedFlies(v, n, out);
  }

  /**
   * What a drained run leaves in flight on the page it is forwarded to: what was in flight, one tool
   * for each committed round with calls, and the announcements of the round that ended the run,
   * less one.
   */
  lemma TurnLeavesInFlight(v: View, trim: string -> string, b: Builder, history: seq<Entry>, rounds: seq<Round>,
                           p: T.Page, q: T.Page)
    requires AllFeasible(b, rounds) && b.calls([]) == []
    requires Shows(v, trim, p, Run(b, history, rounds).out, q)
    ensures var s, s0 := Run(b, history, rounds), State(history, [], [], false);
            T.InFlight(q.items)
            == LessOne(T.InFlight(p.items) + ToolRounds(s.steps) + LastAnnouncements(b, s0, rounds))
  {
    hide Feasible, Run, LastAnnouncements, T.InFlight, Aloft, Shows, ToolRounds;
    ShownFlies(v, trim, p, Run(b, history, rounds).out, q);
    RunLeaves(T.InFlight(p.items), b, history, rounds);
  }

  /**
   * So a turn on a page with nothing in flight ends with everything settled if and only if it had
   * no more than one tool round, counting with it what the last round announced and did not commit.
   */
  lemma TurnSettlesIff(v: View, trim: string -> string, b: Builder, history: seq<Entry>, rounds: seq<Round>,
                       p: T.Page, q: T.Page)
    requires AllFeasible(b, rounds) && b.calls([]) == [] && T.InFlight(p.items) == 0
    requires Shows(v, trim, p, Run(b, history, rounds).out, q)
    ensures var s, s0 := Run(b, history, rounds), State(history, [], [], false);
            (forall i :: 0 <= i < |q.items| ==> T.Settled(q.items[i]))
            <==> ToolRounds(s.steps) + LastAnnouncements(b, s0, rounds) <= 1
  {
    hide Feasible, Run, LastAnnouncements, ToolRounds, T.InFlight, Shows, T.Settled;
    TurnLeavesInFlight(v, trim, b, history, rounds, p, q);
    T.InFlightNone(q.items);
  }
}
