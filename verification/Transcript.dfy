/** What the terminal shows of a session: a stream of chunks becomes items, and what was shown is not taken back. */
module Transcript {

  datatype ToolStatus = Running | Success | Failure

  datatype Item =
    | Text(md: string, marker: bool)
    | Prompt(text: string)
    | Border(caption: string)
    | Code(code: string)
    | Table(rows: string)
    | Tool(labels: seq<string>, status: ToolStatus)
    | Result(output: string, failed: bool)
    | Thought(text: string)
    | Error(text: string)
    | Blank

  /** What the model is in the middle of. */
  datatype Mode = Normal | InCode(code: string) | InTable(rows: string) | Thinking

  datatype Page = Page(
    items: seq<Item>,
    waiting: bool,
    committed: nat,
    line: string,
    mode: Mode,
    marker: bool,
    started: bool,
    afterTool: bool,
    thinking: string,
    toolFailed: bool)

  const NEW: Page := Page([], false, 0, "", Normal, false, false, false, "", false)

  predicate Settled(item: Item) {
    !(item.Tool? && item.status == Running)
  }

  const FENCE: string := "```"

  predicate Fenced(line: string) {
    |line| >= 3 && line[..3] == FENCE
  }

  predicate Row(line: string) {
    line != "" && line[0] == '|'
  }

  // ----- Lines -----

  function Put(p: Page, item: Item): Page {
    p.(items := p.items + [item])
  }

  function CodeOpened(p: Page, lang: string): Page {
    Put(p, Border(if lang == "" then "┌─" else "┌ " + lang + " ─")).(marker := false, mode := InCode(""))
  }

  function TableFlushed(p: Page): Page {
    (if p.mode.InTable? then Put(p, Table(p.mode.rows)) else p).(mode := Normal)
  }

  /** A whole line outside a code block or a table. */
  function PlainLine(trim: string -> string, p: Page, line: string): Page {
    if Fenced(line) then CodeOpened(p, trim(line[3..]))
    else if Row(line) then p.(mode := InTable(line + "\n"))
    else if line == "" then Put(p, Blank)
    else Put(p, Text(line, p.marker))
  }

  function LineDone(trim: string -> string, p: Page, line: string): Page {
    match p.mode
    case InCode(code) =>
      if Fenced(line) then Put(p, Code(code)).(mode := Normal) else p.(mode := InCode(code + line + "\n"))
    case InTable(rows) =>
      if Row(line) then p.(mode := InTable(rows + line + "\n")) else PlainLine(trim, TableFlushed(p), line)
    case _ => PlainLine(trim, p, line)
  }

  /** A newline completes the line; a line with content uses up the marker. */
  function Typed(trim: string -> string, p: Page, ch: char): Page {
    if ch != '\n' then p.(line := p.line + [ch])
    else
      var done := LineDone(trim, p.(line := ""), p.line);
      if p.line != "" then done.(marker := false) else done
  }

  function AllTyped(trim: string -> string, p: Page, chunk: string): Page {
    if chunk == "" then p else Typed(trim, AllTyped(trim, p, chunk[..|chunk| - 1]), chunk[|chunk| - 1])
  }

  function ThinkingFlushed(p: Page): Page {
    var q := if p.thinking != "" then Put(p, Thought(p.thinking)).(thinking := "") else p;
    if q.mode.Thinking? then q.(mode := Normal) else q
  }

  /** What the first character of a chunk finds: the thinking put away, and the marker owed to a new response. */
  function Opened(p: Page): Page {
    var q := if p.mode.Thinking? then ThinkingFlushed(p) else p;
    q.(waiting := false, started := true, afterTool := false, marker := if p.started && !p.afterTool then q.marker else true)
  }

  function TextPushed(trim: string -> string, p: Page, chunk: string): Page {
    if chunk == "" then p else AllTyped(trim, Opened(p), chunk)
  }

  function ThinkingPushed(p: Page, chunk: string): Page {
    if chunk == "" then p else p.(waiting := false, mode := Thinking, thinking := p.thinking + chunk)
  }

  /** Half a line becomes an item; inside a code block, the block does. */
  function LineFlushed(p: Page): Page {
    if p.line == "" then p
    else
      var q := if p.mode.InCode? then Put(p, Code(p.mode.code + p.line)).(mode := Normal) else Put(p, Text(p.line, p.marker));
      q.(line := "", marker := false)
  }

  function ToolStarted(p: Page, labels: seq<string>): Page {
    var q := LineFlushed(ThinkingFlushed(p)).(waiting := false, toolFailed := false);
    Put(Put(q, Blank), Tool(labels, Running))
  }

  function ToolResulted(p: Page, output: string, failed: bool): Page {
    Put(Put(p.(toolFailed := p.toolFailed || failed), Result(output, failed)), Blank)
  }

  /** Where the last running tool is, or the length without one. */
  function LastRunning(items: seq<Item>): (at: nat)
    ensures at <= |items| && (at < |items| ==> !Settled(items[at]))
    ensures forall i :: 0 <= i < |items| && (i > at || at == |items|) ==> Settled(items[i])
  {
    if items == [] then 0
    else
      var n := |items| - 1;
      if !Settled(items[n]) then n
      else if LastRunning(items[..n]) < n then LastRunning(items[..n]) else |items|
  }

  function ToolDone(p: Page): Page {
    var at := LastRunning(p.items);
    var items := if at < |p.items|
                 then p.items[at := p.items[at].(status := if p.toolFailed then Failure else Success)] else p.items;
    p.(items := items, afterTool := true)
  }

  function Finished(p: Page): Page {
    LineFlushed(ThinkingFlushed(ToolDone(p))).(waiting := false, afterTool := false)
  }

  function Begun(p: Page): Page {
    p.(waiting := true, started := false, marker := false, afterTool := false, toolFailed := false)
  }

  /** Up to the first item that is still in flight. */
  function Ready(items: seq<Item>, from: nat): (to: nat)
    requires from <= |items|
    ensures from <= to <= |items|
    ensures forall i :: from <= i < to ==> Settled(items[i])
    ensures to < |items| ==> !Settled(items[to])
    decreases |items| - from
  {
    if from < |items| && Settled(items[from]) then Ready(items, from + 1) else from
  }

  // ----- Chunks -----

  /** In the middle of a response: opening it again changes nothing. */
  predicate Receiving(p: Page) {
    !p.waiting && p.started && !p.afterTool && !p.mode.Thinking?
  }

  lemma OpenedReceives(p: Page)
    ensures Receiving(Opened(p)) && (Receiving(p) ==> Opened(p) == p)
  {
  }

  lemma LineReceives(trim: string -> string, p: Page, line: string)
    requires Receiving(p)
    ensures Receiving(LineDone(trim, p, line))
  {
    hide Fenced, Row;
  }

  lemma TypedReceives(trim: string -> string, p: Page, ch: char)
    requires Receiving(p)
    ensures Receiving(Typed(trim, p, ch))
  {
    LineReceives(trim, p.(line := ""), p.line);
    hide LineDone;
  }

  lemma {:induction false} TypingReceives(trim: string -> string, p: Page, chunk: string)
    requires Receiving(p)
    ensures Receiving(AllTyped(trim, p, chunk))
    decreases |chunk|
  {
    hide Receiving, Typed;
    if chunk != "" {
      TypingReceives(trim, p, chunk[..|chunk| - 1]);
      TypedReceives(trim, AllTyped(trim, p, chunk[..|chunk| - 1]), chunk[|chunk| - 1]);
    }
  }

  lemma {:induction false} TypedConcat(trim: string -> string, p: Page, a: string, b: string)
    ensures AllTyped(trim, p, a + b) == AllTyped(trim, AllTyped(trim, p, a), b)
    decreases |b|
  {
    hide Typed;
    if b == "" {
      assert a + b == a;
    } else {
      assert (a + b)[..|a + b| - 1] == a + b[..|b| - 1];
      TypedConcat(trim, p, a, b[..|b| - 1]);
    }
  }

  /** Where a chunk ends does not matter: two chunks do what their concatenation does. */
  lemma ChunksJoin(trim: string -> string, p: Page, a: string, b: string)
    ensures TextPushed(trim, TextPushed(trim, p, a), b) == TextPushed(trim, p, a + b)
  {
    hide Opened, AllTyped, Receiving;
    if a == "" {
      assert a + b == b;
    } else if b == "" {
      assert a + b == a;
    } else {
      OpenedReceives(p);
      TypingReceives(trim, Opened(p), a);
      OpenedReceives(AllTyped(trim, Opened(p), a));
      TypedConcat(trim, Opened(p), a, b);
    }
  }

  function Concat(chunks: seq<string>): string {
    if chunks == [] then "" else Concat(chunks[..|chunks| - 1]) + chunks[|chunks| - 1]
  }

  function AllPushed(trim: string -> string, p: Page, chunks: seq<string>): Page {
    if chunks == [] then p
    else TextPushed(trim, AllPushed(trim, p, chunks[..|chunks| - 1]), chunks[|chunks| - 1])
  }

  /** However a response is cut into chunks, the transcript is the same. */
  lemma {:induction false} ChunkingIsInvisible(trim: string -> string, p: Page, chunks: seq<string>)
    ensures AllPushed(trim, p, chunks) == TextPushed(trim, p, Concat(chunks))
    decreases |chunks|
  {
    if chunks != [] {
      var n := |chunks| - 1;
      ChunkingIsInvisible(trim, p, chunks[..n]);
      ChunksJoin(trim, p, Concat(chunks[..n]), chunks[n]);
    }
  }

  // ----- What has been shown -----

  /** Everything committed has settled. */
  ghost predicate Sound(p: Page) {
    p.committed <= |p.items| && forall i :: 0 <= i < p.committed ==> Settled(p.items[i])
  }

  function Shown(p: Page): seq<Item>
    requires p.committed <= |p.items|
  {
    p.items[..p.committed]
  }

  /** What has been shown stays, and nothing more is shown. */
  ghost predicate Extends(p: Page, q: Page) {
    && p.committed == q.committed && |p.items| <= |q.items|
    && forall i :: 0 <= i < |p.items| && Settled(p.items[i]) ==> q.items[i] == p.items[i]
  }

  lemma ExtendsSound(p: Page, q: Page)
    requires Sound(p) && Extends(p, q)
    ensures Sound(q) && Shown(q) == Shown(p)
  {
  }

  lemma ExtendsTrans(p: Page, q: Page, r: Page)
    requires Extends(p, q) && Extends(q, r)
    ensures Extends(p, r)
  {
  }

  lemma PutExtends(p: Page, item: Item)
    ensures Extends(p, Put(p, item))
  {
  }

  lemma PlainLineExtends(trim: string -> string, p: Page, line: string)
    ensures Extends(p, PlainLine(trim, p, line))
  {
    hide Fenced, Row;
  }

  /** Only the items and how many are committed matter. */
  lemma SameItems(p: Page, q: Page, p': Page, q': Page)
    requires Extends(p, q) && p.items == p'.items && q.items == q'.items
    requires p.committed == p'.committed && q.committed == q'.committed
    ensures Extends(p', q')
  {
  }

  lemma LineDoneExtends(trim: string -> string, p: Page, line: string)
    ensures Extends(p, LineDone(trim, p, line))
  {
    match p.mode
    case InTable(rows) =>
      PutExtends(p, Table(rows));
      PlainLineExtends(trim, TableFlushed(p), line);
      hide PlainLine, Fenced, Row, Extends;
      SameItems(p, Put(p, Table(rows)), p, TableFlushed(p));
      ExtendsTrans(p, TableFlushed(p), PlainLine(trim, TableFlushed(p), line));
      ExtendsSelf(p, LineDone(trim, p, line));
    case InCode(code) =>
      PutExtends(p, Code(code));
      ExtendsSelf(p, LineDone(trim, p, line));
      hide Extends, Fenced;
      SameItems(p, Put(p, Code(code)), p, Put(p, Code(code)).(mode := Normal));
    case _ => PlainLineExtends(trim, p, line);
  }

  lemma ExtendsSelf(p: Page, q: Page)
    ensures q.items == p.items && q.committed == p.committed ==> Extends(p, q)
  {
  }

  lemma TypedExtends(trim: string -> string, p: Page, ch: char)
    ensures Extends(p, Typed(trim, p, ch))
  {
    if ch != '\n' {
      ExtendsSelf(p, Typed(trim, p, ch));
    } else {
      LineDoneExtends(trim, p.(line := ""), p.line);
      hide Extends, LineDone;
      SameItems(p.(line := ""), LineDone(trim, p.(line := ""), p.line), p, Typed(trim, p, ch));
    }
  }

  lemma {:induction false} AllTypedExtends(trim: string -> string, p: Page, chunk: string)
    ensures Extends(p, AllTyped(trim, p, chunk))
    decreases |chunk|
  {
    if chunk != "" {
      var q := AllTyped(trim, p, chunk[..|chunk| - 1]);
      AllTypedExtends(trim, p, chunk[..|chunk| - 1]);
      TypedExtends(trim, q, chunk[|chunk| - 1]);
      hide Extends, Typed;
      ExtendsTrans(p, q, AllTyped(trim, p, chunk));
    }
  }

  datatype Event =
    | TextChunk(chunk: string)
    | ThinkingChunk(chunk: string)
    | ToolsBegin(labels: seq<string>)
    | ToolOutput(output: string, failed: bool)
    | ToolsEnd
    | TurnBegins
    | TurnEnds
    | Notice(item: Item)
    | Show

  function Step(trim: string -> string, p: Page, e: Event): Page
    requires p.committed <= |p.items|
  {
    match e
    case TextChunk(chunk) => TextPushed(trim, p, chunk)
    case ThinkingChunk(chunk) => ThinkingPushed(p, chunk)
    case ToolsBegin(labels) => ToolStarted(p, labels)
    case ToolOutput(output, failed) => ToolResulted(p, output, failed)
    case ToolsEnd => ToolDone(p)
    case TurnBegins => Begun(p)
    case TurnEnds => Finished(p)
    case Notice(item) => Put(p, item)
    case Show => p.(committed := Ready(p.items, p.committed))
  }

  lemma FlushesExtend(p: Page)
    ensures Extends(p, ThinkingFlushed(p)) && Extends(p, LineFlushed(p))
  {
    ExtendsSelf(p, ThinkingFlushed(p));
    ExtendsSelf(p, LineFlushed(p));
    PutExtends(p, Thought(p.thinking));
    PutExtends(p, Text(p.line, p.marker));
    if p.mode.InCode? {
      PutExtends(p, Code(p.mode.code + p.line));
    }
    hide Extends;
    if p.thinking != "" {
      SameItems(p, Put(p, Thought(p.thinking)), p, ThinkingFlushed(p));
    }
    if p.line != "" {
      SameItems(p, if p.mode.InCode? then Put(p, Code(p.mode.code + p.line)) else Put(p, Text(p.line, p.marker)),
                p, LineFlushed(p));
    }
  }

  lemma ToolStartExtends(p: Page, labels: seq<string>)
    ensures Extends(p, ToolStarted(p, labels))
  {
    var q := ThinkingFlushed(p);
    FlushesExtend(p);
    FlushesExtend(q);
    hide LineFlushed, ThinkingFlushed;
    ExtendsTrans(p, q, LineFlushed(q));
  }

  lemma FinishExtends(p: Page)
    ensures Extends(p, Finished(p))
  {
    var q := ToolDone(p);
    DoneExtends(p);
    FlushesExtend(q);
    FlushesExtend(ThinkingFlushed(q));
    hide LineFlushed, ThinkingFlushed, ToolDone;
    ExtendsTrans(q, ThinkingFlushed(q), LineFlushed(ThinkingFlushed(q)));
    ExtendsTrans(p, q, LineFlushed(ThinkingFlushed(q)));
  }

  lemma StepExtends(trim: string -> string, p: Page, e: Event)
    requires p.committed <= |p.items| && !e.Show?
    ensures Extends(p, Step(trim, p, e))
  {
    hide AllTyped, LineFlushed, ToolDone;
    match e
    case TextChunk(chunk) =>
      if chunk != "" {
        AllTypedExtends(trim, Opened(p), chunk);
        assert Extends(p, Opened(p));
        ExtendsTrans(p, Opened(p), AllTyped(trim, Opened(p), chunk));
      }
    case ToolsBegin(labels) =>
      ToolStartExtends(p, labels);
    case TurnEnds =>
      FinishExtends(p);
    case ToolsEnd =>
      DoneExtends(p);
    case _ =>
  }

  /** Only a running tool is ever edited. */
  lemma DoneExtends(p: Page)
    ensures Extends(p, ToolDone(p))
  {
  }

  ghost predicate Runs(trim: string -> string, p: Page, events: seq<Event>, q: Page)
    decreases |events|
  {
    if events == [] then p == q
    else p.committed <= |p.items| && Runs(trim, Step(trim, p, events[0]), events[1..], q)
  }

  /** Over every run, what has been handed out stays handed out, unaltered and in place. */
  lemma {:induction false} ShownNeverChanges(trim: string -> string, p: Page, events: seq<Event>, q: Page)
    requires Sound(p) && Runs(trim, p, events, q)
    ensures Sound(q) && Shown(p) <= Shown(q) <= q.items
    decreases |events|
  {
    if events != [] {
      var next := Step(trim, p, events[0]);
      if !events[0].Show? {
        StepExtends(trim, p, events[0]);
        ExtendsSound(p, next);
      }
      assert Sound(next) && Shown(p) <= Shown(next);
      hide Step;
      ShownNeverChanges(trim, next, events[1..], q);
    }
  }

  // ----- The end of a turn -----

  function InFlight(items: seq<Item>): nat {
    if items == [] then 0
    else InFlight(items[..|items| - 1]) + if Settled(items[|items| - 1]) then 0 else 1
  }

  lemma {:induction false} InFlightAt(items: seq<Item>, at: nat, item: Item)
    requires at < |items| && !Settled(items[at]) && Settled(item)
    ensures InFlight(items) == InFlight(items[at := item]) + 1
    decreases |items|
  {
    var n := |items| - 1;
    var after := items[at := item];
    if at < n {
      InFlightAt(items[..n], at, item);
      assert after[..n] == items[..n][at := item];
    } else {
      assert after[..n] == items[..n];
    }
  }

  lemma {:induction false} InFlightNone(items: seq<Item>)
    ensures InFlight(items) == 0 <==> forall i :: 0 <= i < |items| ==> Settled(items[i])
    decreases |items|
  {
    if items != [] {
      InFlightNone(items[..|items| - 1]);
    }
  }

  lemma InFlightPut(items: seq<Item>, item: Item)
    ensures InFlight(items + [item]) == InFlight(items) + if Settled(item) then 0 else 1
  {
    assert (items + [item])[..|items|] == items;
  }

  /** Ending a turn settles one running tool, the last. */
  lemma DoneSettlesOne(p: Page)
    ensures InFlight(ToolDone(p).items) == if InFlight(p.items) == 0 then 0 else InFlight(p.items) - 1
  {
    var at := LastRunning(p.items);
    InFlightNone(p.items);
    if at < |p.items| {
      InFlightAt(p.items, at, ToolDone(p).items[at]);
    } else {
      assert ToolDone(p).items == p.items;
    }
    hide InFlight, LastRunning;
  }

  lemma FlushesSettled(p: Page)
    ensures InFlight(ThinkingFlushed(p).items) == InFlight(p.items) == InFlight(LineFlushed(p).items)
  {
    InFlightPut(p.items, Thought(p.thinking));
    InFlightPut(p.items, Text(p.line, p.marker));
    assert ThinkingFlushed(p).items == if p.thinking != "" then p.items + [Thought(p.thinking)] else p.items;
    if p.mode.InCode? && p.line != "" {
      InFlightPut(p.items, Code(p.mode.code + p.line));
      assert LineFlushed(p).items == p.items + [Code(p.mode.code + p.line)];
    } else if p.line != "" {
      assert LineFlushed(p).items == p.items + [Text(p.line, p.marker)];
    }
    hide InFlight;
  }

  /** How an event changes the number of tools in flight. */
  function Flight(n: nat, e: Event): nat {
    match e
    case ToolsBegin(_) => n + 1
    case ToolsEnd => if n == 0 then 0 else n - 1
    case TurnEnds => if n == 0 then 0 else n - 1
    case Notice(item) => n + if Settled(item) then 0 else 1
    case _ => n
  }

  function FlightAfter(n: nat, events: seq<Event>): nat
    decreases |events|
  {
    if events == [] then n else FlightAfter(Flight(n, events[0]), events[1..])
  }

  lemma PlainLineFlies(trim: string -> string, p: Page, line: string)
    ensures InFlight(PlainLine(trim, p, line).items) == InFlight(p.items)
  {
    hide Row, InFlight;
    InFlightPut(p.items, Blank);
    InFlightPut(p.items, Text(line, p.marker));
    if Fenced(line) {
      var lang := trim(line[3..]);
      InFlightPut(p.items, Border(if lang == "" then "┌─" else "┌ " + lang + " ─"));
    }
  }

  lemma LineFlies(trim: string -> string, p: Page, line: string)
    ensures InFlight(LineDone(trim, p, line).items) == InFlight(p.items)
  {
    hide Fenced, Row, InFlight, PlainLine;
    match p.mode
    case InCode(code) =>
      InFlightPut(p.items, Code(code));
    case InTable(rows) =>
      InFlightPut(p.items, Table(rows));
      PlainLineFlies(trim, TableFlushed(p), line);
    case _ =>
      PlainLineFlies(trim, p, line);
  }

  lemma {:induction false} TypingFlies(trim: string -> string, p: Page, chunk: string)
    ensures InFlight(AllTyped(trim, p, chunk).items) == InFlight(p.items)
    decreases |chunk|
  {
    hide LineDone, InFlight;
    if chunk != "" {
      var q := AllTyped(trim, p, chunk[..|chunk| - 1]);
      TypingFlies(trim, p, chunk[..|chunk| - 1]);
      LineFlies(trim, q.(line := ""), q.line);
    }
  }

  lemma ToolStartFlies(p: Page, labels: seq<string>)
    ensures InFlight(ToolStarted(p, labels).items) == InFlight(p.items) + 1
  {
    FlushesSettled(p);
    FlushesSettled(ThinkingFlushed(p));
    hide InFlight, ThinkingFlushed, LineFlushed;
    var q := LineFlushed(ThinkingFlushed(p));
    InFlightPut(q.items, Blank);
    InFlightPut(q.items + [Blank], Tool(labels, Running));
  }

  lemma FinishFlies(p: Page)
    ensures InFlight(Finished(p).items) == if InFlight(p.items) == 0 then 0 else InFlight(p.items) - 1
  {
    DoneSettlesOne(p);
    FlushesSettled(ToolDone(p));
    FlushesSettled(ThinkingFlushed(ToolDone(p)));
    hide InFlight, ToolDone, ThinkingFlushed, LineFlushed;
  }

  lemma OutputFlies(p: Page, output: string, failed: bool)
    ensures InFlight(ToolResulted(p, output, failed).items) == InFlight(p.items)
  {
    InFlightPut(p.items, Result(output, failed));
    InFlightPut(p.items + [Result(output, failed)], Blank);
    hide InFlight;
  }

  lemma StepFlies(trim: string -> string, p: Page, e: Event)
    requires p.committed <= |p.items|
    ensures InFlight(Step(trim, p, e).items) == Flight(InFlight(p.items), e)
  {
    hide InFlight, AllTyped, ToolStarted, ToolDone, Finished, ToolResulted, ThinkingFlushed;
    match e
    case TextChunk(chunk) =>
      FlushesSettled(p);
      TypingFlies(trim, Opened(p), chunk);
    case ToolsBegin(labels) =>
      ToolStartFlies(p, labels);
    case ToolOutput(output, failed) =>
      OutputFlies(p, output, failed);
    case ToolsEnd =>
      DoneSettlesOne(p);
    case TurnEnds =>
      FinishFlies(p);
    case Notice(item) =>
      InFlightPut(p.items, item);
    case _ =>
  }

  /** Over every run the tools in flight are those begun less those ended, one for one. */
  lemma {:induction false} RunFlies(trim: string -> string, p: Page, events: seq<Event>, q: Page)
    requires Runs(trim, p, events, q)
    ensures InFlight(q.items) == FlightAfter(InFlight(p.items), events)
    decreases |events|
  {
    hide InFlight, Step, Flight;
    if events != [] {
      StepFlies(trim, p, events[0]);
      RunFlies(trim, Step(trim, p, events[0]), events[1..], q);
    }
  }

  /** A round of tools announced twice and ended once, on a page with nothing half done. */
  function ToolRound(labels: seq<string>): seq<Event> {
    [ToolsBegin(labels), ToolsBegin(labels), ToolsEnd]
  }

  /** The page after such a round: the first announcement is still in flight. */
  function AfterToolRound(p: Page, labels: seq<string>): Page {
    p.(items := p.items + [Blank, Tool(labels, Running), Blank, Tool(labels, Success)],
       waiting := false, toolFailed := false, afterTool := true)
  }

  lemma ToolRoundRuns(trim: string -> string, p: Page, labels: seq<string>, rest: seq<Event>, q: Page)
    requires p.committed <= |p.items| && p.line == "" && p.thinking == "" && p.mode == Normal
    requires Runs(trim, AfterToolRound(p, labels), rest, q)
    ensures Runs(trim, p, ToolRound(labels) + rest, q)
  {
    var begun := p.(items := p.items + [Blank, Tool(labels, Running)], waiting := false, toolFailed := false);
    var twice := begun.(items := begun.items + [Blank, Tool(labels, Running)]);
    var events := ToolRound(labels) + rest;
    BeginsPlainly(p, labels);
    BeginsPlainly(begun, labels);
    LastRunningIs(twice.items, |twice.items| - 1);
    var done := ToolDone(twice);
    assert done.items == AfterToolRound(p, labels).items;
    assert done == AfterToolRound(p, labels);
    assert events[1..][0] == ToolsBegin(labels) && events[2..][0] == ToolsEnd;
    assert events[1..][1..] == events[2..] && events[2..][1..] == rest;
    hide ToolStarted, ToolDone, Runs, AfterToolRound;
    RunsOn(trim, twice, events[2..], q);
    RunsOn(trim, begun, events[1..], q);
    RunsOn(trim, p, events, q);
  }

  lemma RunsOn(trim: string -> string, p: Page, events: seq<Event>, q: Page)
    requires events != [] && p.committed <= |p.items| && Runs(trim, Step(trim, p, events[0]), events[1..], q)
    ensures Runs(trim, p, events, q)
  {
  }

  lemma BeginsPlainly(p: Page, labels: seq<string>)
    requires p.line == "" && p.thinking == "" && p.mode == Normal
    ensures ToolStarted(p, labels)
         == p.(items := p.items + [Blank, Tool(labels, Running)], waiting := false, toolFailed := false)
  {
    assert p.items + [Blank] + [Tool(labels, Running)] == p.items + [Blank, Tool(labels, Running)];
  }

  /** Two such rounds and the end of the turn: the first tool stays in flight, and holds back all behind it. */
  lemma TwoToolRoundsStayInFlight(trim: string -> string, labels: seq<string>) returns (q: Page)
    ensures Runs(trim, NEW, ToolRound(labels) + (ToolRound(labels) + [TurnEnds]), q)
    ensures InFlight(q.items) == 1 && |q.items| == 8
    ensures q.items[1] == Tool(labels, Running) && Ready(q.items, 0) == 1
  {
    var once := AfterToolRound(NEW, labels);
    var p := AfterToolRound(once, labels);
    q := Finished(p);
    LastRunningIs(p.items, 5);
    assert q.items == p.items[5 := Tool(labels, Success)];
    assert Settled(q.items[0]) && Ready(q.items, 0) == Ready(q.items, 1) == 1;
    OneRunning(q.items);
    hide ToolDone, Finished, InFlight, Ready, AfterToolRound;
    assert Runs(trim, p, [TurnEnds], q) by {
      assert [TurnEnds][1..] == [];
      assert Step(trim, p, TurnEnds) == q;
    }
    OnceNormal(NEW, labels);
    ToolRoundRuns(trim, once, labels, [TurnEnds], q);
    ToolRoundRuns(trim, NEW, labels, ToolRound(labels) + [TurnEnds], q);
  }

  lemma OnceNormal(p: Page, labels: seq<string>)
    requires p.committed <= |p.items| && p.line == "" && p.thinking == "" && p.mode == Normal
    ensures var q := AfterToolRound(p, labels);
            q.committed <= |q.items| && q.line == "" && q.thinking == "" && q.mode == Normal
  {
  }

  lemma OneRunning(items: seq<Item>)
    requires |items| == 8 && !Settled(items[1]) && forall i :: 0 <= i < 8 && i != 1 ==> Settled(items[i])
    ensures InFlight(items) == 1
  {
    InFlightAt(items, 1, Blank);
    InFlightNone(items[1 := Blank]);
  }

  /** Text that has arrived and is in no item yet. */
  predicate Holding(p: Page) {
    p.line != "" || p.thinking != "" || (p.mode.InCode? && p.mode.code != "") || (p.mode.InTable? && p.mode.rows != "")
  }

  /**
   * The end of a turn leaves text behind exactly in two cases: a table, which is never flushed
   * there, and a code block that was not in the middle of a line.
   */
  lemma FinishHoldsIff(p: Page)
    ensures Holding(Finished(p))
       <==> (p.mode.InTable? && p.mode.rows != "") || (p.mode.InCode? && p.line == "" && p.mode.code != "")
  {
    var q := ToolDone(p);
    assert q.line == p.line && q.mode == p.mode;
    hide ToolDone;
    var r := ThinkingFlushed(q);
    assert r.thinking == "" && r.line == p.line && r.mode == if p.mode.Thinking? then Normal else p.mode;
    hide ThinkingFlushed;
    var z := LineFlushed(r);
    assert z.thinking == "" && z.line == "" && z.mode == if r.mode.InCode? && r.line != "" then Normal else r.mode;
    hide LineFlushed;
  }

  /** The text of a page that is not in an item yet, outside the line being typed. */
  function Block(p: Page): string {
    match p.mode case InCode(code) => code case InTable(rows) => rows case _ => ""
  }

  // ----- Conservation of text -----

  /** How often a character is in a text, line ends aside. */
  ghost function Count(s: string, c: char): nat {
    if c == '\n' then 0 else multiset(s)[c]
  }

  ghost function ItemCount(item: Item, c: char): nat {
    match item
    case Text(md, _) => Count(md, c)
    case Code(code) => Count(code, c)
    case Table(rows) => Count(rows, c)
    case Thought(text) => Count(text, c)
    case Prompt(text) => Count(text, c)
    case Error(text) => Count(text, c)
    case Result(output, _) => Count(output, c)
    case Tool(labels, _) => LabelsCount(labels, c)
    case _ => 0
  }

  ghost function LabelsCount(labels: seq<string>, c: char): nat {
    if labels == [] then 0 else LabelsCount(labels[..|labels| - 1], c) + Count(labels[|labels| - 1], c)
  }

  ghost function ItemsCount(items: seq<Item>, c: char): nat {
    if items == [] then 0 else ItemsCount(items[..|items| - 1], c) + ItemCount(items[|items| - 1], c)
  }

  /** How often a page holds a character, the line being typed aside: in items, open block and thinking. */
  ghost function Held(p: Page, c: char): nat {
    ItemsCount(p.items, c) + Count(Block(p), c) + Count(p.thinking, c)
  }

  /** The line that is open after a chunk. */
  function LineAfter(line: string, chunk: string): string {
    if chunk == "" then line
    else if chunk[|chunk| - 1] == '\n' then ""
    else LineAfter(line, chunk[..|chunk| - 1]) + [chunk[|chunk| - 1]]
  }

  /** In the lines a chunk completes, fences left out: they are the markup of a block, not its text. */
  ghost function Completed(line: string, chunk: string, c: char): nat {
    if chunk == "" then 0
    else
      var before := chunk[..|chunk| - 1];
      var last := LineAfter(line, before);
      Completed(line, before, c) + if chunk[|chunk| - 1] == '\n' && !Fenced(last) then Count(last, c) else 0
  }

  /** The open line after an event: a tool or the end of the turn takes up what there is of it. */
  function EventLine(line: string, e: Event): string {
    match e
    case TextChunk(chunk) => LineAfter(line, chunk)
    case ToolsBegin(_) => ""
    case TurnEnds => ""
    case _ => line
  }

  /** What an event hands the page to hold, as a bystander reads it off the stream. */
  ghost function Handed(line: string, e: Event, c: char): nat {
    match e
    case TextChunk(chunk) => Completed(line, chunk, c)
    case ThinkingChunk(chunk) => Count(chunk, c)
    case ToolsBegin(labels) => Count(line, c) + LabelsCount(labels, c)
    case ToolOutput(output, _) => Count(output, c)
    case TurnEnds => Count(line, c)
    case Notice(item) => ItemCount(item, c)
    case _ => 0
  }

  function RunLine(line: string, events: seq<Event>): string
    decreases |events|
  {
    if events == [] then line else RunLine(EventLine(line, events[0]), events[1..])
  }

  ghost function RunHanded(line: string, events: seq<Event>, c: char): nat
    decreases |events|
  {
    if events == [] then 0
    else Handed(line, events[0], c) + RunHanded(EventLine(line, events[0]), events[1..], c)
  }

  /** Thinking that arrives inside a code block or a table takes the place of the block. */
  predicate Interrupts(p: Page, e: Event) {
    e.ThinkingChunk? && e.chunk != "" && exists i :: 0 <= i < |Block(p)| && Block(p)[i] != '\n'
  }

  ghost function Forgotten(p: Page, e: Event, c: char): nat {
    if e.ThinkingChunk? && e.chunk != "" then Count(Block(p), c) else 0
  }

  ghost function RunForgotten(trim: string -> string, p: Page, events: seq<Event>, c: char): nat
    decreases |events|
  {
    if events == [] || p.committed > |p.items| then 0
    else Forgotten(p, events[0], c) + RunForgotten(trim, Step(trim, p, events[0]), events[1..], c)
  }

  /** No thinking arrives along the run while the open block holds a character. */
  ghost predicate NeverInterrupted(trim: string -> string, p: Page, events: seq<Event>)
    decreases |events|
  {
    events == [] || p.committed > |p.items|
    || (!Interrupts(p, events[0]) && NeverInterrupted(trim, Step(trim, p, events[0]), events[1..]))
  }

  lemma CountConcat(a: string, b: string, c: char)
    ensures Count(a + b, c) == Count(a, c) + Count(b, c)
    ensures Count("\n", c) == Count("", c) == 0
  {
  }

  lemma PutCount(items: seq<Item>, item: Item, c: char)
    ensures ItemsCount(items + [item], c) == ItemsCount(items, c) + ItemCount(item, c)
  {
    assert (items + [item])[..|items|] == items;
  }

  lemma {:induction false} SameCount(items: seq<Item>, at: nat, item: Item, c: char)
    requires at < |items| && ItemCount(items[at], c) == ItemCount(item, c)
    ensures ItemsCount(items[at := item], c) == ItemsCount(items, c)
    decreases |items|
  {
    hide ItemCount;
    var n := |items| - 1;
    if at < n {
      SameCount(items[..n], at, item, c);
      assert items[at := item][..n] == items[..n][at := item];
    } else {
      assert items[at := item][..n] == items[..n];
    }
  }

  lemma PlainLineHolds(trim: string -> string, p: Page, line: string, c: char)
    requires Block(p) == ""
    ensures Held(PlainLine(trim, p, line), c) == Held(p, c) + if Fenced(line) then 0 else Count(line, c)
  {
    hide Held, CodeOpened, Count, Row;
    if Fenced(line) {
      BorderHolds(p, trim(line[3..]), c);
    } else if Row(line) {
      RowHolds(p, line, c);
    } else {
      WordsHold(p, line, c);
    }
  }

  lemma RowHolds(p: Page, line: string, c: char)
    requires Block(p) == ""
    ensures Held(p.(mode := InTable(line + "\n")), c) == Held(p, c) + Count(line, c)
  {
    hide ItemsCount, Count;
    CountConcat(line, "\n", c);
  }

  lemma WordsHold(p: Page, line: string, c: char)
    ensures Held(Put(p, Text(line, p.marker)), c) == Held(p, c) + Count(line, c)
    ensures line == "" ==> Held(Put(p, Blank), c) == Held(p, c) + Count(line, c)
  {
    hide ItemsCount, Count;
    CountConcat("", "", c);
    PutCount(p.items, Blank, c);
    PutCount(p.items, Text(line, p.marker), c);
  }

  lemma BorderHolds(p: Page, lang: string, c: char)
    requires Block(p) == ""
    ensures Held(CodeOpened(p, lang), c) == Held(p, c)
  {
    hide ItemsCount, Count;
    PutCount(p.items, Border(if lang == "" then "┌─" else "┌ " + lang + " ─"), c);
  }

  lemma CodeGrows(code: string, line: string, c: char)
    ensures Count(code + line + "\n", c) == Count(code, c) + Count(line, c)
  {
    CountConcat(code, line, c);
    CountConcat(code + line, "\n", c);
  }

  lemma FlushedTableHolds(p: Page, c: char)
    ensures Held(TableFlushed(p), c) == if p.mode.InCode? then Held(p, c) - Count(p.mode.code, c) else Held(p, c)
    ensures Block(TableFlushed(p)) == ""
  {
    CountConcat("", "", c);
    if p.mode.InTable? {
      PutCount(p.items, Table(p.mode.rows), c);
    }
    hide ItemsCount, Count;
  }

  lemma LineHolds(trim: string -> string, p: Page, line: string, c: char)
    ensures Held(LineDone(trim, p, line), c) == Held(p, c) + if Fenced(line) then 0 else Count(line, c)
  {
    CountConcat("", "", c);
    hide Fenced, Row, ItemsCount, Count, PlainLine, TableFlushed;
    match p.mode
    case InCode(code) =>
      PutCount(p.items, Code(code), c);
      CodeGrows(code, line, c);
    case InTable(rows) =>
      CodeGrows(rows, line, c);
      FlushedTableHolds(p, c);
      RowIsNoFence(line);
      PlainLineHolds(trim, TableFlushed(p), line, c);
    case _ =>
      PlainLineHolds(trim, p, line, c);
  }

  lemma RowIsNoFence(line: string)
    ensures Row(line) ==> !Fenced(line)
  {
    assert Fenced(line) ==> line[0] == line[..3][0] == FENCE[0];
  }

  lemma {:induction false} TypingHolds(trim: string -> string, p: Page, chunk: string, c: char)
    ensures AllTyped(trim, p, chunk).line == LineAfter(p.line, chunk)
    ensures Held(AllTyped(trim, p, chunk), c) == Held(p, c) + Completed(p.line, chunk, c)
    decreases |chunk|
  {
    hide Held, Typed, Count, Fenced;
    if chunk != "" {
      var q := AllTyped(trim, p, chunk[..|chunk| - 1]);
      TypingHolds(trim, p, chunk[..|chunk| - 1], c);
      TypedHolds(trim, q, chunk[|chunk| - 1], c);
    }
  }

  lemma TypedHolds(trim: string -> string, p: Page, ch: char, c: char)
    ensures Typed(trim, p, ch).line == if ch == '\n' then "" else p.line + [ch]
    ensures Held(Typed(trim, p, ch), c)
         == Held(p, c) + if ch == '\n' && !Fenced(p.line) then Count(p.line, c) else 0
  {
    LineKeepsLine(trim, p.(line := ""), p.line);
    hide LineDone, Count, ItemsCount, Fenced;
    LineHolds(trim, p.(line := ""), p.line, c);
  }

  lemma LineKeepsLine(trim: string -> string, p: Page, line: string)
    ensures LineDone(trim, p, line).line == p.line
  {
    PlainKeepsLine(trim, p, line);
    PlainKeepsLine(trim, TableFlushed(p), line);
    hide Fenced, Row, PlainLine;
  }

  lemma PlainKeepsLine(trim: string -> string, p: Page, line: string)
    ensures PlainLine(trim, p, line).line == p.line
  {
    hide Fenced, Row;
  }

  lemma ThinkingFlushHolds(p: Page, c: char)
    ensures Held(ThinkingFlushed(p), c) == Held(p, c) && ThinkingFlushed(p).line == p.line
  {
    CountConcat("", "", c);
    PutCount(p.items, Thought(p.thinking), c);
    hide ItemsCount, Count;
  }

  lemma OpenedHolds(p: Page, c: char)
    ensures Held(Opened(p), c) == Held(p, c) && Opened(p).line == p.line
  {
    ThinkingFlushHolds(p, c);
    hide ItemsCount, Count, ThinkingFlushed;
  }

  lemma LineFlushHolds(p: Page, c: char)
    ensures Held(LineFlushed(p), c) == Held(p, c) + Count(p.line, c) && LineFlushed(p).line == ""
  {
    hide ItemsCount, Count;
    CountConcat("", "", c);
    if p.mode.InCode? {
      PutCount(p.items, Code(p.mode.code + p.line), c);
      CountConcat(p.mode.code, p.line, c);
    } else {
      PutCount(p.items, Text(p.line, p.marker), c);
    }
  }

  lemma DoneHolds(p: Page, c: char)
    ensures Held(ToolDone(p), c) == Held(p, c) && ToolDone(p).line == p.line
  {
    var at := LastRunning(p.items);
    if at < |p.items| {
      SameCount(p.items, at, ToolDone(p).items[at], c);
    }
    hide ItemsCount, Count, LastRunning;
  }

  lemma ToolStartHolds(p: Page, labels: seq<string>, c: char)
    ensures Held(ToolStarted(p, labels), c) == Held(p, c) + Count(p.line, c) + LabelsCount(labels, c)
    ensures ToolStarted(p, labels).line == ""
  {
    ThinkingFlushHolds(p, c);
    LineFlushHolds(ThinkingFlushed(p), c);
    hide ItemsCount, Count, ThinkingFlushed, LineFlushed, LabelsCount;
    var q := LineFlushed(ThinkingFlushed(p));
    PutCount(q.items, Blank, c);
    PutCount(q.items + [Blank], Tool(labels, Running), c);
  }

  lemma FinishHolds(p: Page, c: char)
    ensures Held(Finished(p), c) == Held(p, c) + Count(p.line, c) && Finished(p).line == ""
  {
    DoneHolds(p, c);
    ThinkingFlushHolds(ToolDone(p), c);
    LineFlushHolds(ThinkingFlushed(ToolDone(p)), c);
    hide ItemsCount, Count, ThinkingFlushed, LineFlushed, ToolDone;
  }

  lemma ThinkingHolds(p: Page, chunk: string, c: char)
    ensures ThinkingPushed(p, chunk).line == p.line
    ensures Held(ThinkingPushed(p, chunk), c) + Forgotten(p, ThinkingChunk(chunk), c) == Held(p, c) + Count(chunk, c)
  {
    CountConcat(p.thinking, chunk, c);
    CountConcat("", "", c);
    hide Count, ItemsCount;
  }

  lemma OutputHolds(p: Page, output: string, failed: bool, c: char)
    ensures Held(ToolResulted(p, output, failed), c) == Held(p, c) + Count(output, c)
    ensures ToolResulted(p, output, failed).line == p.line
  {
    PutCount(p.items, Result(output, failed), c);
    PutCount(p.items + [Result(output, failed)], Blank, c);
    hide Count, ItemsCount;
  }

  /** One event: what the page held and what it is handed, less what thinking takes the place of. */
  lemma StepConserves(trim: string -> string, p: Page, e: Event, c: char)
    requires p.committed <= |p.items|
    ensures Step(trim, p, e).line == EventLine(p.line, e)
    ensures Held(Step(trim, p, e), c) + Forgotten(p, e, c) == Held(p, c) + Handed(p.line, e, c)
  {
    hide AllTyped, Opened, Count, ToolStarted, ToolDone, Finished, LineAfter, Completed, ToolResulted, ItemsCount,
      ItemCount, LabelsCount;
    match e
    case TextChunk(chunk) =>
      OpenedHolds(p, c);
      TypingHolds(trim, Opened(p), chunk, c);
      NoChunk(p.line, c);
    case ThinkingChunk(chunk) =>
      ThinkingHolds(p, chunk, c);
    case ToolsBegin(labels) =>
      ToolStartHolds(p, labels, c);
    case ToolOutput(output, failed) =>
      OutputHolds(p, output, failed, c);
    case ToolsEnd =>
      DoneHolds(p, c);
    case TurnEnds =>
      FinishHolds(p, c);
    case Notice(item) =>
      PutCount(p.items, item, c);
    case _ =>
  }

  lemma NoChunk(line: string, c: char)
    ensures LineAfter(line, "") == line && Completed(line, "", c) == 0
  {
  }

  /** Over any run: what the page came to hold is what it was handed, less what thinking took the place of. */
  lemma {:induction false} RunConserves(trim: string -> string, p: Page, events: seq<Event>, q: Page, c: char)
    requires Runs(trim, p, events, q)
    ensures q.line == RunLine(p.line, events)
    ensures Held(q, c) + RunForgotten(trim, p, events, c) == Held(p, c) + RunHanded(p.line, events, c)
    decreases |events|
  {
    hide Held, Step, Forgotten, Handed, EventLine;
    if events != [] {
      StepConserves(trim, p, events[0], c);
      RunConserves(trim, Step(trim, p, events[0]), events[1..], q, c);
    }
  }

  lemma {:induction false} UninterruptedForgetsNothing(trim: string -> string, p: Page, events: seq<Event>, c: char)
    requires NeverInterrupted(trim, p, events)
    ensures RunForgotten(trim, p, events, c) == 0
    decreases |events|
  {
    hide Step;
    if events != [] && p.committed <= |p.items| {
      UninterruptedForgetsNothing(trim, Step(trim, p, events[0]), events[1..], c);
      if events[0].ThinkingChunk? && events[0].chunk != "" {
        BlankCount(Block(p), c);
      }
    }
  }

  lemma BlankCount(s: string, c: char)
    requires forall i :: 0 <= i < |s| ==> s[i] == '\n'
    ensures Count(s, c) == 0
  {
    if c != '\n' {
      assert c !in s;
    }
  }

  lemma {:induction false} InterruptedForgets(trim: string -> string, p: Page, events: seq<Event>) returns (c: char)
    requires !NeverInterrupted(trim, p, events)
    ensures RunForgotten(trim, p, events, c) > 0
    decreases |events|
  {
    hide Step;
    if Interrupts(p, events[0]) {
      var i :| 0 <= i < |Block(p)| && Block(p)[i] != '\n';
      c := Block(p)[i];
      assert c in Block(p) && Count(Block(p), c) > 0;
    } else {
      c := InterruptedForgets(trim, Step(trim, p, events[0]), events[1..]);
    }
  }

  /**
   * All text pushed over a run, fences and line ends aside, is in the items, the open block, the
   * thinking or the open line at its end, if and only if no thinking ever arrived while a code
   * block or a table held some.
   */
  lemma ConservedIff(trim: string -> string, p: Page, events: seq<Event>, q: Page)
    requires Runs(trim, p, events, q)
    ensures q.line == RunLine(p.line, events)
    ensures (forall c :: Held(q, c) == Held(p, c) + RunHanded(p.line, events, c)) <==> NeverInterrupted(trim, p, events)
  {
    hide Held, RunHanded, RunForgotten, NeverInterrupted, RunLine;
    forall c
      ensures Held(q, c) + RunForgotten(trim, p, events, c) == Held(p, c) + RunHanded(p.line, events, c)
      ensures q.line == RunLine(p.line, events)
    {
      RunConserves(trim, p, events, q, c);
    }
    assert q.line == RunLine(p.line, events) by {
      RunConserves(trim, p, events, q, 'a');
    }
    if NeverInterrupted(trim, p, events) {
      forall c
        ensures RunForgotten(trim, p, events, c) == 0
      {
        UninterruptedForgetsNothing(trim, p, events, c);
      }
    } else {
      var c := InterruptedForgets(trim, p, events);
      assert Held(q, c) != Held(p, c) + RunHanded(p.line, events, c);
    }
  }

  // ----- Order, markers, verdicts -----

  /** A text without its line ends. */
  function Joined(s: string): string {
    if s == "" then ""
    else Joined(s[..|s| - 1]) + if s[|s| - 1] == '\n' then "" else [s[|s| - 1]]
  }

  lemma {:induction false} JoinedConcat(a: string, b: string)
    ensures Joined(a + b) == Joined(a) + Joined(b)
    decreases |b|
  {
    if b == "" {
      assert a + b == a;
    } else {
      assert (a + b)[..|a + b| - 1] == a + b[..|b| - 1];
      JoinedConcat(a, b[..|b| - 1]);
    }
  }

  function ItemScript(item: Item): string {
    match item
    case Text(md, _) => Joined(md)
    case Code(code) => Joined(code)
    case Table(rows) => Joined(rows)
    case Thought(text) => Joined(text)
    case _ => ""
  }

  function ItemsScript(items: seq<Item>): string {
    if items == [] then "" else ItemsScript(items[..|items| - 1]) + ItemScript(items[|items| - 1])
  }

  /** What the model has said, as the page has it, from top to bottom; the line being typed aside. */
  function Script(p: Page): string {
    ItemsScript(p.items) + Joined(Block(p)) + Joined(p.thinking)
  }

  /** The lines a chunk completes, one after the other, fences left out. */
  function CompletedText(line: string, chunk: string): string {
    if chunk == "" then ""
    else
      var before := chunk[..|chunk| - 1];
      var last := LineAfter(line, before);
      CompletedText(line, before) + if chunk[|chunk| - 1] == '\n' && !Fenced(last) then Joined(last) else ""
  }

  lemma PutScript(items: seq<Item>, item: Item)
    ensures ItemsScript(items + [item]) == ItemsScript(items) + ItemScript(item)
  {
    assert (items + [item])[..|items|] == items;
  }

  /** Outside thinking there is none held back. */
  predicate Coherent(p: Page) {
    p.mode.Thinking? || p.thinking == ""
  }

  lemma Regrouped(a: string, b: string, c: string)
    ensures a + b + c == a + (b + c) && a + "" == a && "" + a == a && a + b + "" == a + b
  {
  }

  /** Only the items, the open block and the thinking matter. */
  lemma ScriptSame(p: Page, q: Page)
    requires p.items == q.items && Block(p) == Block(q) && p.thinking == q.thinking
    ensures Script(p) == Script(q)
  {
  }

  lemma ScriptEnds(p: Page)
    requires p.thinking == ""
    ensures Script(p) == ItemsScript(p.items) + Joined(Block(p))
    ensures Block(p) == "" ==> Script(p) == ItemsScript(p.items)
  {
    assert Joined("") == "";
    hide Joined, ItemsScript;
    Regrouped(ItemsScript(p.items), Joined(Block(p)), "");
  }

  lemma PutSays(p: Page, item: Item)
    requires p.thinking == "" && Block(p) == ""
    ensures Script(Put(p, item)) == Script(p) + ItemScript(item)
  {
    ScriptEnds(p);
    ScriptEnds(Put(p, item));
    PutScript(p.items, item);
    hide ItemsScript, ItemScript, Script;
  }

  lemma BlockSays(p: Page, line: string, block: string, mode: Mode)
    requires p.thinking == "" && Block(p) == block && Block(p.(mode := mode)) == block + line + "\n"
    ensures Script(p.(mode := mode)) == Script(p) + Joined(line)
  {
    ScriptEnds(p);
    ScriptEnds(p.(mode := mode));
    LineJoins(block, line);
    hide Joined, ItemsScript, Script;
    Regrouped(ItemsScript(p.items), Joined(block), Joined(line));
  }

  lemma LineJoins(block: string, line: string)
    ensures Joined(block + line + "\n") == Joined(block) + Joined(line)
  {
    JoinedConcat(block, line);
    JoinedConcat(block + line, "\n");
    assert Joined("\n") == "";
    hide Joined;
    Regrouped(Joined(block), Joined(line), "");
  }

  lemma FenceSays(p: Page, lang: string)
    requires p.thinking == "" && Block(p) == ""
    ensures Script(CodeOpened(p, lang)) == Script(p)
  {
    var border := Border(if lang == "" then "┌─" else "┌ " + lang + " ─");
    PutSays(p, border);
    ScriptSame(CodeOpened(p, lang), Put(p, border));
    hide Script;
    Regrouped(Script(p), "", "");
  }

  lemma PlainLineSays(trim: string -> string, p: Page, line: string)
    requires p.thinking == "" && Block(p) == ""
    ensures Script(PlainLine(trim, p, line)) == Script(p) + if Fenced(line) then "" else Joined(line)
  {
    assert Joined("") == "" && ItemScript(Blank) == "" && ItemScript(Text(line, p.marker)) == Joined(line);
    assert Fenced(line) ==> |line| >= 3;
    Regrouped(Script(p), "", "");
    hide Script, Joined, CodeOpened, Put, ItemScript, Fenced;
    if Fenced(line) {
      FenceSays(p, trim(line[3..]));
    } else if Row(line) {
      hide Row;
      Regrouped(line, "", "");
      BlockSays(p, line, "", InTable(line + "\n"));
    } else if line == "" {
      PutSays(p, Blank);
    } else {
      PutSays(p, Text(line, p.marker));
    }
  }

  lemma BlockPut(p: Page, item: Item)
    requires p.thinking == "" && ItemScript(item) == Joined(Block(p))
    ensures Script(Put(p, item).(mode := Normal)) == Script(p)
  {
    ScriptEnds(p);
    PutScript(p.items, item);
    ScriptEnds(Put(p, item).(mode := Normal));
    hide Joined, ItemsScript, ItemScript, Script;
  }

  lemma LineSays(trim: string -> string, p: Page, line: string)
    requires p.thinking == "" && !p.mode.Thinking?
    ensures LineDone(trim, p, line).thinking == "" && !LineDone(trim, p, line).mode.Thinking?
    ensures Script(LineDone(trim, p, line)) == Script(p) + if Fenced(line) then "" else Joined(line)
  {
    LineReceivesPlain(trim, p, line);
    RowIsNoFence(line);
    hide Fenced, Row;
    match p.mode
    case InCode(code) =>
      CodeSays(p, line, code);
      hide Joined, Script;
      Regrouped(Script(p), "", "");
    case InTable(rows) =>
      TableSays(p, line, rows);
      hide Joined, Script, PlainLine, TableFlushed;
      if !Row(line) {
        PlainLineSays(trim, TableFlushed(p), line);
      }
    case _ =>
      PlainLineSays(trim, p, line);
      hide Joined, Script, PlainLine;
  }

  lemma CodeSays(p: Page, line: string, code: string)
    requires p.thinking == "" && p.mode == InCode(code)
    ensures Script(Put(p, Code(code)).(mode := Normal)) == Script(p)
    ensures Script(p.(mode := InCode(code + line + "\n"))) == Script(p) + Joined(line)
  {
    BlockPut(p, Code(code));
    BlockSays(p, line, code, InCode(code + line + "\n"));
    hide Joined, Script;
  }

  lemma TableSays(p: Page, line: string, rows: string)
    requires p.thinking == "" && p.mode == InTable(rows)
    ensures TableFlushed(p).thinking == "" && Block(TableFlushed(p)) == "" && Script(TableFlushed(p)) == Script(p)
    ensures Script(p.(mode := InTable(rows + line + "\n"))) == Script(p) + Joined(line)
  {
    BlockPut(p, Table(rows));
    BlockSays(p, line, rows, InTable(rows + line + "\n"));
    hide Joined, Script;
  }

  lemma LineReceivesPlain(trim: string -> string, p: Page, line: string)
    requires p.thinking == "" && !p.mode.Thinking?
    ensures LineDone(trim, p, line).thinking == "" && !LineDone(trim, p, line).mode.Thinking?
  {
    PlainLineThinks(trim, p, line);
    PlainLineThinks(trim, TableFlushed(p), line);
    assert TableFlushed(p).thinking == "" && !TableFlushed(p).mode.Thinking?;
    hide Fenced, Row, PlainLine, TableFlushed;
  }

  lemma PlainLineThinks(trim: string -> string, p: Page, line: string)
    requires p.thinking == "" && !p.mode.Thinking?
    ensures PlainLine(trim, p, line).thinking == "" && !PlainLine(trim, p, line).mode.Thinking?
  {
    hide Fenced, Row;
  }

  lemma TypedSays(trim: string -> string, p: Page, ch: char)
    requires p.thinking == "" && !p.mode.Thinking?
    ensures var q := Typed(trim, p, ch);
            && q.thinking == "" && !q.mode.Thinking? && q.line == (if ch == '\n' then "" else p.line + [ch])
            && Script(q) == Script(p) + if ch == '\n' && !Fenced(p.line) then Joined(p.line) else ""
  {
    var p0 := p.(line := "");
    var q := Typed(trim, p, ch);
    ScriptSame(p0, p);
    Regrouped(Script(p), "", "");
    if ch != '\n' {
      ScriptSame(q, p);
      hide Script, Fenced, Joined;
    } else {
      LineKeepsLine(trim, p0, p.line);
      LineSays(trim, p0, p.line);
      hide LineDone, Joined, Fenced;
      ScriptSame(q, LineDone(trim, p0, p.line));
      hide Script;
    }
  }

  lemma {:induction false} TypingSays(trim: string -> string, p: Page, chunk: string)
    requires p.thinking == "" && !p.mode.Thinking?
    ensures var q := AllTyped(trim, p, chunk);
            && q.thinking == "" && !q.mode.Thinking? && q.line == LineAfter(p.line, chunk)
            && Script(q) == Script(p) + CompletedText(p.line, chunk)
    decreases |chunk|
  {
    hide Typed, Script, Fenced, Joined;
    if chunk != "" {
      TypingSays(trim, p, chunk[..|chunk| - 1]);
      TypedSays(trim, AllTyped(trim, p, chunk[..|chunk| - 1]), chunk[|chunk| - 1]);
    }
  }

  lemma OpenedSays(p: Page)
    requires Coherent(p)
    ensures Opened(p).thinking == "" && !Opened(p).mode.Thinking? && Opened(p).line == p.line
    ensures Script(Opened(p)) == Script(p)
  {
    var q := ThinkingFlushed(p);
    if p.mode.Thinking? {
      ThoughtSays(p);
    }
    ScriptSame(Opened(p), if p.mode.Thinking? then q else p);
    hide Script;
  }

  lemma ThoughtSays(p: Page)
    requires p.mode.Thinking?
    ensures ThinkingFlushed(p).thinking == "" && ThinkingFlushed(p).mode == Normal
    ensures Script(ThinkingFlushed(p)) == Script(p)
  {
    var q := ThinkingFlushed(p);
    var put := if p.thinking == "" then p.items else p.items + [Thought(p.thinking)];
    assert q == p.(items := put, thinking := "", mode := Normal);
    hide ThinkingFlushed;
    ThinkingScript(p);
    ThoughtPut(p.items, p.thinking);
    assert Block(q) == "" && q.thinking == "";
    ScriptEnds(q);
    hide Script, ItemsScript, Joined, Block;
  }

  lemma ThoughtPut(items: seq<Item>, text: string)
    ensures ItemsScript(if text == "" then items else items + [Thought(text)]) == ItemsScript(items) + Joined(text)
  {
    PutScript(items, Thought(text));
    assert Joined("") == "";
    Regrouped(ItemsScript(items), "", "");
    hide ItemsScript, Joined;
  }

  lemma ThinkingScript(p: Page)
    requires Block(p) == ""
    ensures Script(p) == ItemsScript(p.items) + Joined(p.thinking)
  {
    assert Joined("") == "";
    hide Joined, ItemsScript;
    Regrouped(ItemsScript(p.items), "", Joined(p.thinking));
  }

  /** Text comes to the page in the order it was said: each chunk adds its completed lines at the end. */
  lemma TextKeepsOrder(trim: string -> string, p: Page, chunk: string)
    requires Coherent(p)
    ensures var q := TextPushed(trim, p, chunk);
            && Coherent(q) && q.line == LineAfter(p.line, chunk)
            && Script(q) == Script(p) + CompletedText(p.line, chunk)
  {
    if chunk != "" {
      OpenedSays(p);
      TypingSays(trim, Opened(p), chunk);
    }
    hide Script, AllTyped, Opened;
    assert Script(p) + "" == Script(p);
  }

  /** So does thinking, behind the text if no block is open. */
  lemma ThinkingKeepsOrder(p: Page, chunk: string)
    requires Coherent(p) && Block(p) == ""
    ensures var q := ThinkingPushed(p, chunk);
            Coherent(q) && q.line == p.line && Script(q) == Script(p) + Joined(chunk)
  {
    assert Joined("") == "" && Block(ThinkingPushed(p, chunk)) == "";
    JoinedConcat(p.thinking, chunk);
    hide Joined, ItemsScript;
    Regrouped(ItemsScript(p.items) + "", Joined(p.thinking), Joined(chunk));
    Regrouped(Script(p), "", "");
  }

  /** The next text opens a response, or goes on after a tool. */
  predicate Due(p: Page) {
    !p.started || p.afterTool || p.marker
  }

  function Newlines(n: nat): string {
    seq(n, _ => '\n')
  }

  function Blanks(n: nat): seq<Item> {
    seq(n, _ => Blank)
  }

  lemma {:induction false} BlankLines(trim: string -> string, p: Page, n: nat)
    requires p.line == "" && p.mode == Normal
    ensures AllTyped(trim, p, Newlines(n)) == p.(items := p.items + Blanks(n))
    decreases n
  {
    if n == 0 {
      assert p.items + Blanks(0) == p.items;
    } else {
      BlankLines(trim, p, n - 1);
      assert Newlines(n) == Newlines(n - 1) + ['\n'];
      TypeOneMore(trim, p, Newlines(n - 1), '\n');
      assert Blanks(n) == Blanks(n - 1) + [Blank];
      assert p.items + Blanks(n) == p.items + Blanks(n - 1) + [Blank];
    }
  }

  lemma PlainWord(trim: string -> string, p: Page, word: string)
    requires p.line == "" && p.mode == Normal && word != "" && '\n' !in word && !Fenced(word) && !Row(word)
    ensures AllTyped(trim, p, word + "\n") == p.(items := p.items + [Text(word, p.marker)], marker := false)
  {
    LettersTyped(trim, p, word);
    TypeOneMore(trim, p, word, '\n');
    assert "" + word == word;
    hide AllTyped, Fenced, Row;
  }

  /**
   * The first line with anything on it carries the mark of a new response, however many blank ones
   * come first, and uses it up.
   */
  lemma FirstLineIsMarked(trim: string -> string, p: Page, n: nat, word: string)
    requires Due(p) && p.line == "" && p.mode == Normal
    requires word != "" && '\n' !in word && !Fenced(word) && !Row(word)
    ensures var q := TextPushed(trim, p, Newlines(n) + (word + "\n"));
            && q.items == p.items + Blanks(n) + [Text(word, true)] && !Due(q) && q.line == "" && q.mode == Normal
  {
    var o := Opened(p);
    assert o.marker && o.items == p.items && o.line == "" && o.mode == Normal && o.started && !o.afterTool;
    hide Opened, Fenced, Row;
    BlankLines(trim, o, n);
    PlainWord(trim, o.(items := p.items + Blanks(n)), word);
    TypedConcat(trim, o, Newlines(n), word + "\n");
    assert Newlines(n) + (word + "\n") != "";
    hide AllTyped;
  }

  /** No later line does, until a tool has ended or the next turn begins. */
  lemma OtherLinesAreNot(trim: string -> string, p: Page, word: string)
    requires !Due(p) && p.line == "" && p.mode == Normal
    requires word != "" && '\n' !in word && !Fenced(word) && !Row(word)
    ensures var q := TextPushed(trim, p, word + "\n");
            q.items == p.items + [Text(word, false)] && !Due(q) && q.line == "" && q.mode == Normal
    ensures Due(ToolDone(p)) && Due(Begun(p))
  {
    var o := Opened(p);
    assert !o.marker && o.items == p.items && o.line == "" && o.mode == Normal && o.started && !o.afterTool;
    hide Opened, Fenced, Row;
    PlainWord(trim, o, word);
    assert word + "\n" != "";
    hide AllTyped, LastRunning;
  }

  function Outputs(p: Page, outs: seq<(string, bool)>): Page {
    if outs == [] then p
    else ToolResulted(Outputs(p, outs[..|outs| - 1]), outs[|outs| - 1].0, outs[|outs| - 1].1)
  }

  function Results(outs: seq<(string, bool)>): seq<Item> {
    if outs == [] then []
    else Results(outs[..|outs| - 1]) + [Result(outs[|outs| - 1].0, outs[|outs| - 1].1), Blank]
  }

  predicate AnyFailed(outs: seq<(string, bool)>) {
    exists i :: 0 <= i < |outs| && outs[i].1
  }

  lemma {:induction false} OutputsShow(p: Page, outs: seq<(string, bool)>)
    ensures var q := Outputs(p, outs);
            q.items == p.items + Results(outs) && (q.toolFailed <==> p.toolFailed || AnyFailed(outs))
    ensures forall i :: 0 <= i < |Results(outs)| ==> Settled(Results(outs)[i])
    decreases |outs|
  {
    if outs == [] {
      assert p.items + [] == p.items;
    } else {
      var n := |outs| - 1;
      OutputsShow(p, outs[..n]);
      AnyFailedGrows(outs);
      hide AnyFailed;
      var q := Outputs(p, outs[..n]);
      assert q.items + [Result(outs[n].0, outs[n].1)] + [Blank] == p.items + Results(outs);
    }
  }

  lemma AnyFailedGrows(outs: seq<(string, bool)>)
    requires outs != []
    ensures AnyFailed(outs) <==> AnyFailed(outs[..|outs| - 1]) || outs[|outs| - 1].1
  {
    var n := |outs| - 1;
    if AnyFailed(outs[..n]) {
      var i :| 0 <= i < n && outs[..n][i].1;
      assert outs[i].1;
    }
    if i :| 0 <= i < |outs| && outs[i].1 {
      assert i < n ==> outs[..n][i].1;
    }
  }

  /**
   * A round of tools as it is shown: half a line first, then the tool, then every output in turn; and
   * the tool is marked failed at the end if and only if one of its own outputs failed.
   */
  lemma ToolRoundShows(p: Page, labels: seq<string>, outs: seq<(string, bool)>)
    ensures var begun := LineFlushed(ThinkingFlushed(p));
            var q := ToolDone(Outputs(ToolStarted(p, labels), outs));
            q.items == begun.items + [Blank, Tool(labels, if AnyFailed(outs) then Failure else Success)] + Results(outs)
  {
    var begun := LineFlushed(ThinkingFlushed(p));
    var started := ToolStarted(p, labels);
    assert started.items == begun.items + [Blank, Tool(labels, Running)] && !started.toolFailed;
    OutputsShow(started, outs);
    hide LineFlushed, ThinkingFlushed, ToolStarted, Outputs, Results, AnyFailed;
    ToolSettles(Outputs(started, outs), begun.items + [Blank], labels, Results(outs));
    var tool := Tool(labels, if AnyFailed(outs) then Failure else Success);
    assert begun.items + [Blank] + [tool] == begun.items + [Blank, tool];
  }

  lemma ToolSettles(p: Page, before: seq<Item>, labels: seq<string>, after: seq<Item>)
    requires p.items == before + [Tool(labels, Running)] + after
    requires forall i :: 0 <= i < |after| ==> Settled(after[i])
    ensures ToolDone(p).items == before + [Tool(labels, if p.toolFailed then Failure else Success)] + after
  {
    var at := |before|;
    assert p.items[at] == Tool(labels, Running);
    forall i | at < i < |p.items|
      ensures Settled(p.items[i])
    {
      assert p.items[i] == after[i - at - 1];
    }
    LastRunningIs(p.items, at);
    hide LastRunning;
  }

  /** The start of a code block and then thinking: its text is on the page no more. */
  lemma ThinkingForgetsCode(trim: string -> string)
    ensures var p := TextPushed(trim, NEW, "```\nab\n");
            var q := ThinkingPushed(p, "hm");
            && Runs(trim, NEW, [TextChunk("```\nab\n"), ThinkingChunk("hm")], q)
            && p.mode == InCode("ab\n") && Held(p, 'a') == 1
            && q.mode == Thinking && q.line == "" && Held(q, 'a') == 0
  {
    CodeStart(trim);
    var p := TextPushed(trim, NEW, "```\nab\n");
    assert Step(trim, NEW, TextChunk("```\nab\n")) == p;
    assert Count("ab\n", 'a') == 1 && Count("hm", 'a') == Count("", 'a') == 0;
    hide TextPushed, Step, Count;
    PutCount([], p.items[0], 'a');
    assert [] + [p.items[0]] == p.items;
    ThenThinking(trim, NEW, TextChunk("```\nab\n"), p);
  }

  lemma ThenThinking(trim: string -> string, p: Page, e: Event, q: Page)
    requires p.committed <= |p.items| && q == Step(trim, p, e) && q.committed <= |q.items|
    ensures Runs(trim, p, [e, ThinkingChunk("hm")], ThinkingPushed(q, "hm"))
    ensures var r := ThinkingPushed(q, "hm");
            r.mode == Thinking && r.line == q.line && r.items == q.items && r.thinking == q.thinking + "hm"
  {
    ThinkingStep(trim, q);
    hide Step, Runs;
    TwoEvents(trim, p, e, ThinkingChunk("hm"));
  }

  lemma ThinkingStep(trim: string -> string, q: Page)
    requires q.committed <= |q.items|
    ensures Step(trim, q, ThinkingChunk("hm")) == ThinkingPushed(q, "hm")
  {
  }

  lemma TwoEvents(trim: string -> string, p: Page, a: Event, b: Event)
    requires p.committed <= |p.items|
    requires Step(trim, p, a).committed <= |Step(trim, p, a).items|
    ensures Runs(trim, p, [a, b], Step(trim, Step(trim, p, a), b))
  {
    hide Step;
    assert [a, b][1..] == [b] && [b][1..] == [];
    var q := Step(trim, p, a);
    assert Runs(trim, Step(trim, q, b), [], Step(trim, q, b));
    assert Runs(trim, q, [b], Step(trim, q, b));
  }

  lemma TypeOneMore(trim: string -> string, p: Page, chunk: string, ch: char)
    ensures AllTyped(trim, p, chunk + [ch]) == Typed(trim, AllTyped(trim, p, chunk), ch)
  {
    var all := chunk + [ch];
    assert all[..|all| - 1] == chunk && all[|all| - 1] == ch;
  }

  lemma CodeStart(trim: string -> string)
    ensures var p := TextPushed(trim, NEW, "```\nab\n");
            && p.items == [Border(if trim("") == "" then "┌─" else "┌ " + trim("") + " ─")]
            && p.mode == InCode("ab\n") && p.line == "" && p.thinking == "" && p.committed == 0
  {
    var p := Opened(NEW);
    var inside := AllTyped(trim, p, "```\n");
    FenceOpens(trim, p);
    CodeLine(trim, inside);
    assert p.items == [] && p.thinking == "" && p.committed == 0;
    assert TextPushed(trim, NEW, "```\nab\n") == AllTyped(trim, p, "```\nab\n");
    hide Typed, AllTyped, Opened, TextPushed;
    TypedConcat(trim, p, "```\n", "ab\n");
    assert "```\n" + "ab\n" == "```\nab\n";
    var border := Border(if trim("") == "" then "┌─" else "┌ " + trim("") + " ─");
    assert [] + [border] == [border];
  }

  lemma FenceOpens(trim: string -> string, p: Page)
    requires p.line == "" && p.mode == Normal
    ensures AllTyped(trim, p, "```\n") == CodeOpened(p, trim("")).(marker := false)
  {
    var fence := "```";
    hide AllTyped, CodeOpened;
    LettersTyped(trim, p, fence);
    TypeOneMore(trim, p, fence, '\n');
    assert fence + ['\n'] == "```\n" && "" + fence == fence && fence[3..] == "";
    assert PlainLine(trim, p, fence) == CodeOpened(p, trim(""));
    assert p.(line := "") == p;
  }

  lemma CodeLine(trim: string -> string, p: Page)
    requires p.line == "" && p.mode == InCode("")
    ensures AllTyped(trim, p, "ab\n") == p.(mode := InCode("ab\n"), marker := false)
  {
    hide AllTyped;
    LettersTyped(trim, p, "ab");
    TypeOneMore(trim, p, "ab", '\n');
    assert "ab" + ['\n'] == "ab\n" && "" + "ab" + "\n" == "ab\n" && !Fenced("ab") && "" + "ab" == "ab";
  }

  /** Characters of one line only lengthen the line. */
  lemma {:induction false} LettersTyped(trim: string -> string, p: Page, word: string)
    requires '\n' !in word
    ensures AllTyped(trim, p, word) == p.(line := p.line + word)
    decreases |word|
  {
    if word == "" {
      assert p.line + word == p.line;
    } else {
      var front := word[..|word| - 1];
      LettersTyped(trim, p, front);
      assert word[|word| - 1] in word;
      assert p.line + word == p.line + front + [word[|word| - 1]];
    }
  }

  /** A response that ends with a table: its one row is never made an item. */
  lemma TableStaysHeld(trim: string -> string)
    ensures var q := Finished(TextPushed(trim, NEW, "|a|\n"));
            Runs(trim, NEW, [TextChunk("|a|\n"), TurnEnds], q) && q.items == [] && q.mode == InTable("|a|\n")
  {
    TableLine(trim, Opened(NEW));
    var p := TextPushed(trim, NEW, "|a|\n");
    assert p.items == [] && p.mode == InTable("|a|\n") && p.line == "" && p.thinking == "" && p.committed == 0;
    assert Step(trim, NEW, TextChunk("|a|\n")) == p;
    hide TextPushed, Step;
    TwoEvents(trim, NEW, TextChunk("|a|\n"), TurnEnds);
    FinishedTable(trim, p);
  }

  lemma FinishedTable(trim: string -> string, p: Page)
    requires p.items == [] && p.mode.InTable? && p.line == "" && p.thinking == "" && p.committed == 0
    ensures Step(trim, p, TurnEnds) == Finished(p) && Finished(p).items == [] && Finished(p).mode == p.mode
  {
  }

  lemma TableLine(trim: string -> string, p: Page)
    requires p.line == "" && p.mode == Normal
    ensures AllTyped(trim, p, "|a|\n") == p.(mode := InTable("|a|\n"), marker := false)
  {
    hide AllTyped;
    LettersTyped(trim, p, "|a|");
    TypeOneMore(trim, p, "|a|", '\n');
    assert "|a|" + ['\n'] == "|a|\n" && "" + "|a|" == "|a|" && "|a|" + "\n" == "|a|\n";
    assert !Fenced("|a|") && Row("|a|");
  }

  // ----- The transcript -----

  class Transcript {
    var items: seq<Item>
    var waiting: bool
    var committed: nat
    var line: string
    var mode: Mode
    var marker: bool
    var started: bool
    var afterTool: bool
    var thinking: string
    var toolFailed: bool

    /** How white space around a fence's language is trimmed, and which outputs count as failures. */
    const trim: string -> string
    const failed: string -> bool

    /** Everything handed out so far. */
    ghost var shown: seq<Item>

    function Now(): Page
      reads this
    {
      Page(items, waiting, committed, line, mode, marker, started, afterTool, thinking, toolFailed)
    }

    ghost predicate Valid()
      reads this
    {
      Sound(Now()) && shown == Shown(Now())
    }

    constructor (t: string -> string, f: string -> bool)
      ensures Valid() && Now() == NEW && trim == t && failed == f
    {
      items, waiting, committed, line, mode := [], false, 0, "", Normal;
      marker, started, afterTool, thinking, toolFailed := false, false, false, "", false;
      trim, failed, shown := t, f, [];
    }

    /** Hand out what has settled, up to the first item still in flight. */
    method SettledItems() returns (fresh': seq<Item>)
      requires Valid()
      modifies `committed, `shown
      ensures Valid() && Now() == old(Now()).(committed := Ready(items, old(committed)))
      ensures shown == old(shown) + fresh'
    {
      var from := committed;
      while committed < |items| && Settled(items[committed])
        invariant from <= committed <= |items| && shown == old(shown) && Ready(items, from) == Ready(items, committed)
        invariant forall i :: 0 <= i < committed ==> Settled(items[i])
      {
        committed := committed + 1;
      }
      fresh' := items[from..committed];
      Split(items, from, committed);
      shown := shown + fresh';
    }

    method PushText(chunk: string)
      requires Valid()
      modifies this
      ensures Valid() && shown == old(shown) && Now() == TextPushed(trim, old(Now()), chunk)
      ensures chunk != "" ==> !waiting && started && !afterTool
    {
      StepKeepsShown(trim, Now(), TextChunk(chunk));
      if chunk == "" {
        return;
      }
      OpenedReceives(Now());
      TypingReceives(trim, Opened(Now()), chunk);
      hide Sound, Shown, Typed, Opened;
      Open();
      for i := 0 to |chunk|
        invariant Now() == AllTyped(trim, Opened(old(Now())), chunk[..i]) && shown == old(shown)
      {
        assert chunk[..i + 1][..i] == chunk[..i];
        TypeOne(chunk[i]);
      }
      assert chunk[..|chunk|] == chunk;
    }

    method Open()
      modifies this
      ensures Now() == Opened(old(Now())) && shown == old(shown)
    {
      ghost var q := if mode.Thinking? then ThinkingFlushed(Now()) else Now();
      assert q.started == started && q.afterTool == afterTool;
      hide ThinkingFlushed;
      if mode.Thinking? {
        FlushThinking();
      }
      assert Now() == q;
      waiting := false;
      if !started {
        started, marker := true, true;
      }
      if afterTool {
        afterTool, marker := false, true;
      }
    }

    /** One character: hold it, or complete the line. */
    method TypeOne(ch: char)
      modifies this
      ensures Now() == Typed(trim, old(Now()), ch) && shown == old(shown)
    {
      if ch != '\n' {
        line := line + [ch];
        return;
      }
      var whole := line;
      line := "";
      Line(whole);
      if whole != "" {
        marker := false;
      }
    }

    method Line(whole: string)
      modifies this
      ensures Now() == LineDone(trim, old(Now()), whole) && shown == old(shown)
    {
      if mode.InCode? {
        if Fenced(whole) {
          items := items + [Code(mode.code)];
          mode := Normal;
        } else {
          mode := InCode(mode.code + whole + "\n");
        }
        return;
      }
      if mode.InTable? {
        if Row(whole) {
          mode := InTable(mode.rows + whole + "\n");
          return;
        }
        items := items + [Table(mode.rows)];
        mode := Normal;
      }
      if Fenced(whole) {
        OpenCode(trim(whole[3..]));
      } else if Row(whole) {
        mode := InTable(whole + "\n");
      } else if whole == "" {
        items := items + [Blank];
      } else {
        items := items + [Text(whole, marker)];
      }
    }

    /** The border goes up at once, the code only when the block closes. */
    method OpenCode(lang: string)
      modifies this
      ensures Now() == CodeOpened(old(Now()), lang) && shown == old(shown)
    {
      items := items + [Border(if lang == "" then "┌─" else "┌ " + lang + " ─")];
      marker := false;
      mode := InCode("");
    }

    method FlushThinking()
      modifies this
      ensures Now() == ThinkingFlushed(old(Now())) && shown == old(shown)
    {
      if thinking != "" {
        items := items + [Thought(thinking)];
        thinking := "";
      }
      if mode.Thinking? {
        mode := Normal;
      }
    }

    method FlushLine()
      modifies this
      ensures Now() == LineFlushed(old(Now())) && shown == old(shown)
    {
      if line == "" {
        return;
      }
      if mode.InCode? {
        items := items + [Code(mode.code + line)];
        mode := Normal;
      } else {
        items := items + [Text(line, marker)];
      }
      line := "";
      marker := false;
    }

    method PushThinking(chunk: string)
      requires Valid()
      modifies this
      ensures Valid() && shown == old(shown) && Now() == ThinkingPushed(old(Now()), chunk)
      ensures chunk != "" ==> !waiting && items == old(items) && thinking == old(thinking) + chunk && line == old(line)
    {
      if chunk == "" {
        return;
      }
      waiting, mode, thinking := false, Thinking, thinking + chunk;
    }

    method PushToolStart(labels: seq<string>)
      requires Valid()
      modifies this
      ensures Valid() && shown == old(shown) && Now() == ToolStarted(old(Now()), labels)
      ensures !waiting && line == "" && |items| >= 2 && items[|items| - 2..] == [Blank, Tool(labels, Running)]
    {
      StepKeepsShown(trim, Now(), ToolsBegin(labels));
      FlushesEmpty(Now());
      hide Sound, Shown, LineFlushed, ThinkingFlushed;
      FlushThinking();
      FlushLine();
      waiting, toolFailed := false, false;
      items := items + [Blank];
      items := items + [Tool(labels, Running)];
    }

    method PushToolResult(output: string)
      requires Valid()
      modifies this
      ensures Valid() && shown == old(shown) && Now() == ToolResulted(old(Now()), output, failed(output))
      ensures items == old(items) + [Result(output, failed(output)), Blank]
      ensures toolFailed <==> old(toolFailed) || failed(output)
    {
      StepKeepsShown(trim, Now(), ToolOutput(output, failed(output)));
      hide Sound, Shown;
      var bad := failed(output);
      toolFailed := toolFailed || bad;
      items := items + [Result(output, bad)];
      items := items + [Blank];
    }

    /** Settle the running tool, the last one if there are several. */
    method PushToolDone()
      requires Valid()
      modifies this
      ensures Valid() && shown == old(shown) && Now() == ToolDone(old(Now()))
    {
      StepKeepsShown(trim, Now(), ToolsEnd);
      hide Sound, Shown;
      var status := if toolFailed then Failure else Success;
      var at: nat := |items|;
      while at > 0
        invariant at <= |items| && items == old(items)
        invariant forall i :: at <= i < |items| ==> Settled(items[i])
        invariant Now() == old(Now()) && shown == old(shown)
      {
        at := at - 1;
        if items[at].Tool? && items[at].status == Running {
          LastRunningIs(items, at);
          items := items[at := items[at].(status := status)];
          afterTool := true;
          return;
        }
      }
      NoneRunning(items);
      afterTool := true;
    }

    /** A turn is over: the last running tool settles, thinking and half a line become items. */
    method Finish()
      requires Valid()
      modifies this
      ensures Valid() && shown == old(shown) && Now() == Finished(old(Now()))
      ensures !waiting && !afterTool && line == "" && thinking == ""
    {
      StepKeepsShown(trim, Now(), TurnEnds);
      FlushesEmpty(ToolDone(Now()));
      assert Step(trim, Now(), TurnEnds) == Finished(Now());
      hide Sound, Shown, LineFlushed, ThinkingFlushed, ToolDone, LastRunning, Step;
      PushToolDone();
      FlushThinking();
      FlushLine();
      waiting, afterTool := false, false;
    }

    /** An item the terminal itself adds. */
    method Push(item: Item)
      requires Valid()
      modifies `items
      ensures Valid() && Now() == Put(old(Now()), item)
    {
      items := items + [item];
    }

    method Start()
      requires Valid()
      modifies this
      ensures Valid() && shown == old(shown) && Now() == Begun(old(Now()))
      ensures waiting && items == old(items) && line == old(line) && mode == old(mode) && thinking == old(thinking)
    {
      waiting, started, marker, afterTool, toolFailed := true, false, false, false, false;
    }
  }

  lemma StepKeepsShown(trim: string -> string, p: Page, e: Event)
    requires Sound(p) && !e.Show?
    ensures Sound(Step(trim, p, e)) && Shown(Step(trim, p, e)) == Shown(p)
  {
    StepExtends(trim, p, e);
    hide Step;
    ExtendsSound(p, Step(trim, p, e));
  }

  lemma FlushesEmpty(p: Page)
    ensures LineFlushed(ThinkingFlushed(p)).line == "" && LineFlushed(ThinkingFlushed(p)).thinking == ""
  {
    LineFlushEmpty(ThinkingFlushed(p));
    hide LineFlushed, Put;
  }

  lemma LineFlushEmpty(p: Page)
    ensures LineFlushed(p).line == "" && LineFlushed(p).thinking == p.thinking
  {
  }

  lemma Split(items: seq<Item>, from: nat, to: nat)
    requires from <= to <= |items|
    ensures items[..to] == items[..from] + items[from..to]
  {
  }

  lemma LastRunningIs(items: seq<Item>, at: nat)
    requires at < |items| && !Settled(items[at]) && forall i :: at < i < |items| ==> Settled(items[i])
    ensures LastRunning(items) == at
  {
  }

  lemma NoneRunning(items: seq<Item>)
    requires forall i :: 0 <= i < |items| ==> Settled(items[i])
    ensures LastRunning(items) == |items|
  {
  }
}
