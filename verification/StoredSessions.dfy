/** What the session stores are both meant to be: a list of messages per session. */
module StoredSessions {
  import opened Wrappers
  import opened Bytes
  import opened History

  /** A session's messages, and the rest of its metadata. */
  datatype Stored = Stored(messages: seq<Entry>, info: string)

  /** Sessions by handle, and the compaction marker of each handle that has one. */
  datatype State = State(sessions: map<Bytes, Stored>, archives: map<Bytes, Bytes>)

  const EMPTY: State := State(map[], map[])

  function Created(st: State, h: Bytes, info: string): State {
    st.(sessions := st.sessions[h := Stored([], info)])
  }

  function Extended(st: State, h: Bytes, entries: seq<Entry>, info: string): State
    requires h in st.sessions
  {
    st.(sessions := st.sessions[h := Stored(st.sessions[h].messages + entries, info)])
  }

  /** What is appended is what of the entries is serialized. */
  function Appended(st: State, h: Bytes, entries: seq<Entry>, info: string): State
    requires h in st.sessions
  {
    Extended(st, h, AllStored(entries), info)
  }

  function Kept(messages: seq<Entry>, keep: nat): (r: seq<Entry>)
    ensures |r| == if keep < |messages| then keep else |messages|
    ensures r <= messages
  {
    if keep < |messages| then messages[..keep] else messages
  }

  /** Nothing happens to a session that is not there. */
  function Truncated(st: State, h: Bytes, keep: nat): State {
    if h in st.sessions
    then st.(sessions := st.sessions[h := st.sessions[h].(messages := Kept(st.sessions[h].messages, keep))])
    else st
  }

  function Marked(st: State, h: Bytes, name: Bytes): State {
    st.(archives := st.archives[h := name])
  }

  function Removed(st: State, h: Bytes): State {
    State(st.sessions - {h}, st.archives - {h})
  }

  /** The state as it is stored, from the entries as they were handed in. */
  function Serialized(st: State): State {
    State(map h | h in st.sessions :: Stored(AllStored(st.sessions[h].messages), st.sessions[h].info), st.archives)
  }

  lemma SerializedExtended(st: State, h: Bytes, entries: seq<Entry>, info: string)
    requires h in st.sessions
    ensures Serialized(Extended(st, h, entries, info)) == Appended(Serialized(st), h, entries, info)
  {
    StoredConcat(st.sessions[h].messages, entries);
    hide AllStored;
  }

  lemma SerializedTruncated(st: State, h: Bytes, keep: nat)
    ensures Serialized(Truncated(st, h, keep)) == Truncated(Serialized(st), h, keep)
  {
    if h in st.sessions {
      var messages := st.sessions[h].messages;
      assert AllStored(Kept(messages, keep)) == Kept(AllStored(messages), keep);
    }
    hide AllStored, Kept;
  }

  lemma SerializedOtherwise(st: State, h: Bytes, info: string, name: Bytes)
    ensures Serialized(Created(st, h, info)) == Created(Serialized(st), h, info)
    ensures Serialized(Marked(st, h, name)) == Marked(Serialized(st), h, name)
    ensures Serialized(Removed(st, h)) == Removed(Serialized(st), h)
    ensures Serialized(EMPTY) == EMPTY
  {
  }

  datatype Snapshot = Snapshot(history: seq<Entry>, count: nat, info: string, archive: Option<Bytes>)

  function Loaded(st: State, h: Bytes): (r: Option<Snapshot>)
    ensures r.Some? ==> r.value.count == |r.value.history|
  {
    if h in st.sessions
    then Some(Snapshot(st.sessions[h].messages, |st.sessions[h].messages|, st.sessions[h].info,
                       if h in st.archives then Some(st.archives[h]) else None))
    else None
  }

  // ----- What each command does, seen from a reader -----

  /** Every other session and every other marker is as it was. */
  ghost predicate SameOthers(a: State, b: State, h: Bytes) {
    forall k :: k != h ==>
      (Loaded(a, k) == Loaded(b, k) && (k in a.archives <==> k in b.archives)
       && (k in a.archives ==> a.archives[k] == b.archives[k]))
  }

  /** A session made anew has no messages, whatever was there; a marker stays. */
  lemma CreateStarts(st: State, h: Bytes, info: string)
    ensures var r := Loaded(Created(st, h, info), h);
            && r.Some? && r.value.history == [] && r.value.info == info
            && r.value.archive == (if h in st.archives then Some(st.archives[h]) else None)
    ensures SameOthers(st, Created(st, h, info), h)
  {
  }

  /** Old messages stay where they are, the new ones follow one by one, and the marker stays. */
  lemma AppendFollows(st: State, h: Bytes, entries: seq<Entry>, info: string)
    requires h in st.sessions
    ensures var was := Loaded(st, h).value; var r := Loaded(Appended(st, h, entries, info), h);
            && r.Some? && r.value.info == info && r.value.archive == was.archive
            && r.value.count == was.count + |entries| == |r.value.history|
            && (forall i :: 0 <= i < was.count ==> r.value.history[i] == was.history[i])
            && (forall i :: 0 <= i < |entries| ==> r.value.history[was.count + i] == AsStored(entries[i]))
    ensures SameOthers(st, Appended(st, h, entries, info), h)
  {
    assert |AllStored(entries)| == |entries|;
  }

  /** A cut keeps the first messages and everything else of the session. */
  lemma TruncateKeeps(st: State, h: Bytes, keep: nat)
    requires h in st.sessions
    ensures var was := Loaded(st, h).value; var r := Loaded(Truncated(st, h, keep), h);
            && r.Some? && r.value.info == was.info && r.value.archive == was.archive
            && r.value.count == (if keep < was.count then keep else was.count) == |r.value.history|
            && (forall i :: 0 <= i < r.value.count ==> r.value.history[i] == was.history[i])
    ensures SameOthers(st, Truncated(st, h, keep), h)
  {
  }

  /** A compaction leaves the session without messages and under the new marker. */
  lemma CompactMarks(st: State, h: Bytes, name: Bytes)
    requires h in st.sessions
    ensures var r := Loaded(Marked(Truncated(st, h, 0), h, name), h);
            && r.Some? && r.value.history == [] && r.value.info == Loaded(st, h).value.info
            && r.value.archive == Some(name)
    ensures SameOthers(st, Marked(Truncated(st, h, 0), h, name), h)
  {
  }

  /** Nothing of a removed session is left, its marker included: a session made later starts without one. */
  lemma RemoveForgets(st: State, h: Bytes, info: string)
    ensures Loaded(Removed(st, h), h) == None && SameOthers(st, Removed(st, h), h)
    ensures Loaded(Created(Removed(st, h), h, info), h) == Some(Snapshot([], 0, info, None))
  {
  }

  /** A cut back to the old count undoes an append. */
  lemma TruncateUndoesAppend(st: State, h: Bytes, entries: seq<Entry>, info: string)
    requires h in st.sessions
    ensures Truncated(Appended(st, h, entries, info), h, |st.sessions[h].messages|)
         == st.(sessions := st.sessions[h := Stored(st.sessions[h].messages, info)])
  {
    var messages := st.sessions[h].messages;
    assert Kept(messages + AllStored(entries), |messages|) == messages;
  }

  datatype StoreError = NotFound | Io
}
