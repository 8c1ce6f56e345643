/** One entry of a session's history, and the pairing of tool calls with their results. */
module History {
  import opened Wrappers

  datatype Call = Call(id: string, name: string, args: string)

  datatype Role = User | Assistant | System

  /** Everything that is not an assistant or a system message has the user role, tool results too. */
  datatype Entry = Entry(
    role: Role,
    text: string,
    agent: string,
    sender: string,
    autoInjected: bool,
    calls: seq<Call>,
    result: Option<string>)

  function UserEntry(text: string, sender: string): Entry {
    Entry(User, text, "", sender, false, [], None)
  }

  function AssistantEntry(text: string, calls: seq<Call>): Entry {
    Entry(Assistant, text, "", "", false, calls, None)
  }

  function ToolEntry(text: string, call: Call): Entry {
    Entry(User, text, "", "", false, [], Some(call.id))
  }

  /** What of an entry is serialized: neither its sender nor the injected mark. */
  function AsStored(e: Entry): Entry {
    e.(sender := "", autoInjected := false)
  }

  /** The rest is: what was said, by whom, and which call it makes or answers. */
  lemma StoredKeeps(e: Entry)
    ensures var s := AsStored(e);
            && s.role == e.role && s.text == e.text && s.agent == e.agent && s.calls == e.calls && s.result == e.result
            && s.sender == "" && !s.autoInjected && AsStored(s) == s
  {
  }

  function AllStored(h: seq<Entry>): (r: seq<Entry>)
    ensures |r| == |h|
  {
    seq(|h|, i requires 0 <= i < |h| => AsStored(h[i]))
  }

  lemma StoredConcat(a: seq<Entry>, b: seq<Entry>)
    ensures AllStored(a + b) == AllStored(a) + AllStored(b)
  {
  }

  function JoinedNames(calls: seq<Call>): string {
    if calls == [] then []
    else if |calls| == 1 then calls[0].name
    else calls[0].name + " " + JoinedNames(calls[1..])
  }

  /**
   * The searchable part of an entry and its weight: the text of user and
   * assistant entries, or the names of the tools called; never results, arguments or framing.
   */
  function Indexable(e: Entry): Option<(string, real)> {
    if e.autoInjected || e.role == System || e.result.Some? then None
    else if e.text != "" then Some((e.text, if e.role == User then 1.5 else 1.0))
    else if e.calls == [] then None
    else Some((JoinedNames(e.calls), if e.role == User then 1.5 else 1.3))
  }

  /**
   * Nothing of a tool's output, of framing or of a system message is ever searched, and nothing of
   * the arguments of a call: two entries that differ in ids and arguments alone are indexed alike.
   */
  lemma SearchNeverSees(e: Entry, calls: seq<Call>)
    requires |calls| == |e.calls| && forall i :: 0 <= i < |calls| ==> calls[i].name == e.calls[i].name
    ensures e.result.Some? || e.autoInjected || e.role == System ==> Indexable(e) == None
    ensures Indexable(e.(calls := calls)) == Indexable(e)
  {
    SameNames(calls, e.calls);
  }

  lemma {:induction false} SameNames(a: seq<Call>, b: seq<Call>)
    requires |a| == |b| && forall i :: 0 <= i < |a| ==> a[i].name == b[i].name
    ensures JoinedNames(a) == JoinedNames(b)
    decreases |a|
  {
    if |a| > 1 {
      SameNames(a[1..], b[1..]);
    }
  }

  /** What a user or an assistant says is searched by its whole text, the user's words counting more. */
  lemma SearchSeesText(e: Entry)
    requires e.result.None? && !e.autoInjected && e.role != System && e.text != ""
    ensures Indexable(e).Some? && Indexable(e).value.0 == e.text
    ensures e.role == User ==> Indexable(e).value.1 > Indexable(e.(role := Assistant)).value.1
  {
  }

  /** `results` answers `calls` one for one, in call order. */
  predicate Answers(results: seq<Entry>, calls: seq<Call>) {
    && |results| == |calls|
    && forall i :: 0 <= i < |calls| ==> results[i].result == Some(calls[i].id) && results[i].calls == []
  }

  /**
   * Each entry carrying calls is followed at once by exactly one result per call, in call order,
   * and results appear nowhere else.
   */
  predicate WellPaired(h: seq<Entry>) {
    if h == [] then true
    else
      var n := |h[0].calls|;
      && h[0].result.None?
      && n < |h|
      && Answers(h[1..1 + n], h[0].calls)
      && WellPaired(h[1 + n..])
  }

  lemma {:induction false} WellPairedConcat(a: seq<Entry>, b: seq<Entry>)
    requires WellPaired(a) && WellPaired(b)
    ensures WellPaired(a + b)
    decreases |a|
  {
    if a == [] {
      assert a + b == b;
    } else {
      var n := |a[0].calls|;
      assert (a + b)[1..1 + n] == a[1..1 + n];
      assert (a + b)[1 + n..] == a[1 + n..] + b;
      WellPairedConcat(a[1 + n..], b);
      hide Answers;
    }
  }

  lemma WellPairedSingle(e: Entry)
    requires e.calls == [] && e.result.None?
    ensures WellPaired([e])
  {
    assert [e][1..1] == [] && [e][1..] == [];
  }
}
