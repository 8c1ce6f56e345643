/** Sessions as directories of files, one JSON document a line. */
module FileSessions {
  import opened Wrappers
  import opened Bytes
  import opened History
  import opened StoredSessions
  import FileNames

  const NEWLINE: byte := 10

  /** How entries are serialized, and what reading the marker back trims. */
  datatype Codec = Codec(enc: Entry -> Bytes, dec: Bytes -> Option<Entry>, trim: Bytes -> Bytes)

  predicate NoNewline(s: Bytes) {
    forall i :: 0 <= i < |s| ==> s[i] != NEWLINE
  }

  /** One document is one non-empty line, and reads back as what of the entry is serialized. */
  ghost predicate Lawful(c: Codec) {
    forall e :: NoNewline(c.enc(e)) && c.enc(e) != [] && c.dec(c.enc(e)) == Some(AsStored(e))
  }

  // ----- Lines -----

  function Lines(c: Codec, entries: seq<Entry>): Bytes {
    if entries == [] then []
    else Lines(c, entries[..|entries| - 1]) + c.enc(entries[|entries| - 1]) + [NEWLINE]
  }

  /** The buffer that `append_json` and `write_lines` both build. */
  method Buffered(c: Codec, entries: seq<Entry>) returns (buf: Bytes)
    ensures buf == Lines(c, entries)
  {
    buf := [];
    for i := 0 to |entries|
      invariant buf == Lines(c, entries[..i])
    {
      assert entries[..i + 1][..i] == entries[..i];
      buf := buf + c.enc(entries[i]) + [NEWLINE];
    }
    assert entries[..|entries|] == entries;
  }

  function FirstNewline(s: Bytes): (n: nat)
    ensures n <= |s| && NoNewline(s[..n]) && (n < |s| ==> s[n] == NEWLINE)
  {
    if s == [] || s[0] == NEWLINE then 0
    else
      var n := FirstNewline(s[1..]);
      assert s[..n + 1] == [s[0]] + s[1..][..n];
      1 + n
  }

  function LineEntry(c: Codec, line: Bytes): seq<Entry> {
    if line == [] then [] else match c.dec(line) case Some(e) => [e] case None => []
  }

  /** Every line that can be read; a line that cannot is discarded. */
  function Read(c: Codec, s: Bytes): seq<Entry>
    decreases |s|
  {
    var n := FirstNewline(s);
    if n == |s| then LineEntry(c, s) else LineEntry(c, s[..n]) + Read(c, s[n + 1..])
  }

  lemma {:induction false} FirstNewlineAt(line: Bytes, rest: Bytes)
    requires NoNewline(line)
    ensures FirstNewline(line) == |line| && FirstNewline(line + [NEWLINE] + rest) == |line|
    decreases |line|
  {
    if line != [] {
      assert (line + [NEWLINE] + rest)[1..] == line[1..] + [NEWLINE] + rest;
      FirstNewlineAt(line[1..], rest);
    }
  }

  lemma ReadLine(c: Codec, line: Bytes, rest: Bytes)
    requires NoNewline(line)
    ensures Read(c, line + [NEWLINE] + rest) == LineEntry(c, line) + Read(c, rest)
    ensures Read(c, line) == LineEntry(c, line)
  {
    var s := line + [NEWLINE] + rest;
    FirstNewlineAt(line, rest);
    hide FirstNewline, LineEntry;
    assert s[..|line|] == line && s[|line| + 1..] == rest;
  }

  lemma Regroup(a: Bytes, b: Bytes, c: Bytes, d: Bytes)
    ensures a + b + c + d == a + (b + c + d)
  {
  }

  /** Whole lines are read back as the entries they were written from, whatever follows. */
  lemma {:induction false} ReadLines(c: Codec, entries: seq<Entry>, rest: Bytes)
    requires Lawful(c)
    ensures Read(c, Lines(c, entries) + rest) == AllStored(entries) + Read(c, rest)
    decreases |entries|
  {
    hide Read;
    if entries == [] {
      assert Lines(c, entries) + rest == rest;
    } else {
      var front, last := entries[..|entries| - 1], entries[|entries| - 1];
      var line := c.enc(last);
      assert NoNewline(line) && LineEntry(c, line) == [AsStored(last)];
      assert AllStored(entries) == AllStored(front) + [AsStored(last)];
      assert Lines(c, entries) == Lines(c, front) + line + [NEWLINE];
      hide *;
      Regroup(Lines(c, front), line, [NEWLINE], rest);
      ReadLines(c, front, line + [NEWLINE] + rest);
      ReadLine(c, line, rest);
    }
  }

  lemma ReadAll(c: Codec, entries: seq<Entry>)
    requires Lawful(c)
    ensures Read(c, Lines(c, entries)) == AllStored(entries)
  {
    ReadLines(c, entries, []);
    assert Read(c, []) == [];
    hide Read, Lines, AllStored;
    assert Lines(c, entries) + [] == Lines(c, entries);
  }

  lemma {:induction false} LinesConcat(c: Codec, a: seq<Entry>, b: seq<Entry>)
    ensures Lines(c, a + b) == Lines(c, a) + Lines(c, b)
    decreases |b|
  {
    if b == [] {
      assert a + b == a;
    } else {
      var n := |b| - 1;
      assert (a + b)[..|a + b| - 1] == a + b[..n];
      LinesConcat(c, a, b[..n]);
      assert Lines(c, a) + Lines(c, b[..n]) + c.enc(b[n]) + [NEWLINE] == Lines(c, a) + (Lines(c, b[..n]) + c.enc(b[n]) + [NEWLINE]);
    }
  }

  // ----- A torn append -----

  /** A crash inside an append leaves a fragment of a line, which is dropped unless it can be read. */
  lemma TornLineDropped(c: Codec, entries: seq<Entry>, fragment: Bytes)
    requires Lawful(c) && NoNewline(fragment)
    ensures Read(c, Lines(c, entries) + fragment) == AllStored(entries) + LineEntry(c, fragment)
  {
    ReadLines(c, entries, fragment);
    ReadLine(c, fragment, []);
  }

  /** The next append does not start a line of its own: it continues the fragment. */
  lemma AppendAfterTear(c: Codec, entries: seq<Entry>, fragment: Bytes, next: Entry, more: seq<Entry>)
    requires Lawful(c) && NoNewline(fragment)
    ensures Read(c, Lines(c, entries) + fragment + Lines(c, [next] + more))
         == AllStored(entries) + LineEntry(c, fragment + c.enc(next)) + AllStored(more)
  {
    var line := fragment + c.enc(next);
    assert NoNewline(line);
    assert Lines(c, [next]) == c.enc(next) + [NEWLINE] by {
      assert [next][..0] == [];
      assert [] + c.enc(next) == c.enc(next);
    }
    LinesConcat(c, [next], more);
    hide *;
    Tear(Lines(c, entries), fragment, c.enc(next), Lines(c, more));
    ReadLines(c, entries, line + [NEWLINE] + Lines(c, more));
    ReadLine(c, line, Lines(c, more));
    ReadAll(c, more);
    Concat(AllStored(entries), LineEntry(c, line), AllStored(more));
  }

  /**
   * So an append over a torn file adds what it was given to what could be read, and no more nor
   * less, if and only if the fragment alone reads as nothing and glued to the first line as that.
   */
  lemma AppendAfterTearIff(c: Codec, entries: seq<Entry>, fragment: Bytes, next: Entry, more: seq<Entry>)
    requires Lawful(c) && NoNewline(fragment)
    ensures Read(c, Lines(c, entries) + fragment + Lines(c, [next] + more))
         == Read(c, Lines(c, entries) + fragment) + AllStored([next] + more)
       <==> LineEntry(c, fragment) == [] && LineEntry(c, fragment + c.enc(next)) == [AsStored(next)]
  {
    hide Read, Lines;
    AppendAfterTear(c, entries, fragment, next, more);
    TornLineDropped(c, entries, fragment);
    StoredConcat([next], more);
    assert AllStored([next]) == [AsStored(next)];
    SameMiddle(AllStored(entries), LineEntry(c, fragment + c.enc(next)), LineEntry(c, fragment) + [AsStored(next)],
               AllStored(more));
    Regrouped(AllStored(entries), LineEntry(c, fragment), [AsStored(next)], AllStored(more));
    assert |LineEntry(c, fragment + c.enc(next))| <= 1;
  }

  lemma SameMiddle<T>(a: seq<T>, x: seq<T>, y: seq<T>, b: seq<T>)
    ensures a + x + b == a + y + b <==> x == y
  {
    if a + x + b == a + y + b {
      assert |x| == |y|;
      Middle(a, x, b);
      Middle(a, y, b);
    }
  }

  lemma Regrouped<T>(a: seq<T>, b: seq<T>, c: seq<T>, d: seq<T>)
    ensures a + b + (c + d) == a + (b + c) + d
  {
  }

  /**
   * A line torn just before its newline is read until something is appended, and then it is lost,
   * or the entry appended is: both, when two documents on one line do not parse.
   */
  lemma TornNewlineLoses(c: Codec, entries: seq<Entry>, last: Entry, next: Entry, more: seq<Entry>)
    requires Lawful(c)
    ensures Read(c, Lines(c, entries) + c.enc(last)) == AllStored(entries) + [AsStored(last)]
    ensures var after := Read(c, Lines(c, entries) + c.enc(last) + Lines(c, [next] + more));
            && after != AllStored(entries) + [AsStored(last)] + AllStored([next] + more)
            && (c.dec(c.enc(last) + c.enc(next)) == None ==> after == AllStored(entries) + AllStored(more))
  {
    hide Read, Lines, AllStored;
    assert NoNewline(c.enc(last)) && LineEntry(c, c.enc(last)) == [AsStored(last)];
    TornLineDropped(c, entries, c.enc(last));
    AppendAfterTearIff(c, entries, c.enc(last), next, more);
    AppendAfterTear(c, entries, c.enc(last), next, more);
    assert AllStored(entries) + [] == AllStored(entries);
  }

  lemma Tear(a: Bytes, fragment: Bytes, line: Bytes, rest: Bytes)
    ensures a + fragment + (line + [NEWLINE] + rest) == a + (fragment + line + [NEWLINE] + rest)
  {
  }

  // ----- The store -----

  /** A session's directory. */
  datatype Dir = Dir(count: nat, info: string, messages: Option<Bytes>, archive: Option<Bytes>)

  /** A messages file that holds these messages: whole lines, nothing torn. */
  ghost predicate FileIs(c: Codec, file: Option<Bytes>, messages: seq<Entry>) {
    match file
    case None => messages == []
    case Some(bytes) => exists entries :: bytes == Lines(c, entries) && messages == AllStored(entries)
  }

  /** A session's directory holds what is stored of it. */
  ghost predicate Fits(c: Codec, d: Dir, st: State, h: Bytes) {
    && h in st.sessions && d.info == st.sessions[h].info && d.count == |st.sessions[h].messages|
    && FileIs(c, d.messages, st.sessions[h].messages)
    && d.archive == if h in st.archives then Some(st.archives[h]) else None
  }

  /** A directory for each session, under its encoded handle, and a marker only with its session. */
  ghost predicate Agrees(c: Codec, dirs: map<Bytes, Dir>, st: State) {
    && Lawful(c)
    && (forall h :: h in st.sessions <==> FileNames.Encoded(h) in dirs)
    && (forall h :: h in st.sessions ==> Fits(c, dirs[FileNames.Encoded(h)], st, h))
    && forall h :: h in st.archives ==> h in st.sessions
  }

  lemma AgreesAt(c: Codec, dirs: map<Bytes, Dir>, st: State, h: Bytes)
    requires Agrees(c, dirs, st)
    ensures Lawful(c) && (h in st.sessions <==> FileNames.Encoded(h) in dirs)
    ensures h in st.sessions ==> Fits(c, dirs[FileNames.Encoded(h)], st, h)
    ensures h !in st.sessions ==> h !in st.archives
  {
    hide FileNames.Encoded, Lawful, Fits;
  }

  /** The two states agree about every other session. */
  ghost predicate SameElsewhere(a: State, b: State, h: Bytes) {
    forall k :: k != h ==>
      && (k in a.sessions <==> k in b.sessions) && (k in a.sessions ==> a.sessions[k] == b.sessions[k])
      && (k in a.archives <==> k in b.archives) && (k in a.archives ==> a.archives[k] == b.archives[k])
  }

  lemma EncodedApart(h: Bytes)
    ensures forall k :: k != h ==> FileNames.Encoded(k) != FileNames.Encoded(h)
  {
    hide FileNames.Encoded;
    forall k | k != h
      ensures FileNames.Encoded(k) != FileNames.Encoded(h)
    {
      if FileNames.Encoded(k) == FileNames.Encoded(h) {
        FileNames.EncodeInjective(k, h);
      }
    }
  }

  lemma FitsElsewhere(c: Codec, d: Dir, st: State, st': State, h: Bytes, k: Bytes)
    requires SameElsewhere(st, st', h) && k != h && Fits(c, d, st, k)
    ensures Fits(c, d, st', k)
  {
    hide FileIs;
  }

  lemma DirWritten(c: Codec, dirs: map<Bytes, Dir>, st: State, st': State, h: Bytes, d: Dir)
    requires Agrees(c, dirs, st) && SameElsewhere(st, st', h) && Fits(c, d, st', h)
    ensures Agrees(c, dirs[FileNames.Encoded(h) := d], st')
  {
    assert h in st'.sessions;
    hide *;
    AgreesAt(c, dirs, st, h);
    var after := dirs[FileNames.Encoded(h) := d];
    forall k
      ensures SessionAgrees(c, after, st', k)
    {
      WrittenAt(c, dirs, st, st', h, d, k);
    }
    AllAgree(c, after, st');
  }

  ghost predicate SessionAgrees(c: Codec, dirs: map<Bytes, Dir>, st: State, k: Bytes) {
    && (k in st.sessions <==> FileNames.Encoded(k) in dirs)
    && (k in st.sessions ==> Fits(c, dirs[FileNames.Encoded(k)], st, k))
    && (k in st.archives ==> k in st.sessions)
  }

  lemma AllAgree(c: Codec, dirs: map<Bytes, Dir>, st: State)
    requires Lawful(c) && forall k :: SessionAgrees(c, dirs, st, k)
    ensures Agrees(c, dirs, st)
  {
    hide FileNames.Encoded, Fits, Lawful;
    forall h
      ensures h in st.sessions <==> FileNames.Encoded(h) in dirs
      ensures h in st.sessions ==> Fits(c, dirs[FileNames.Encoded(h)], st, h)
      ensures h in st.archives ==> h in st.sessions
    {
      assert SessionAgrees(c, dirs, st, h);
    }
  }

  lemma WrittenAt(c: Codec, dirs: map<Bytes, Dir>, st: State, st': State, h: Bytes, d: Dir, k: Bytes)
    requires Agrees(c, dirs, st) && SameElsewhere(st, st', h) && Fits(c, d, st', h) && h in st'.sessions
    ensures SessionAgrees(c, dirs[FileNames.Encoded(h) := d], st', k)
  {
    hide FileNames.Encoded, Agrees, Fits, Lawful, SameElsewhere;
    if k != h {
      SameAt(st, st', h, k);
      AgreesAt(c, dirs, st, k);
      EncodedApart(h);
      if k in st.sessions {
        FitsElsewhere(c, dirs[FileNames.Encoded(k)], st, st', h, k);
      }
    }
  }

  lemma SameAt(a: State, b: State, h: Bytes, k: Bytes)
    requires SameElsewhere(a, b, h) && k != h
    ensures k in a.sessions <==> k in b.sessions
    ensures k in a.archives <==> k in b.archives
  {
  }

  lemma RemovedAt(c: Codec, dirs: map<Bytes, Dir>, st: State, h: Bytes, k: Bytes)
    requires Agrees(c, dirs, st)
    ensures SessionAgrees(c, dirs - {FileNames.Encoded(h)}, Removed(st, h), k)
  {
    hide FileNames.Encoded, Agrees, Fits, Lawful, SameElsewhere, Removed;
    AgreesAt(c, dirs, st, k);
    RemovedElsewhere(st, h, k);
    EncodedApart(h);
    if k != h && k in st.sessions {
      FitsElsewhere(c, dirs[FileNames.Encoded(k)], st, Removed(st, h), h, k);
    }
  }

  lemma RemovedElsewhere(st: State, h: Bytes, k: Bytes)
    ensures SameElsewhere(st, Removed(st, h), h)
    ensures k in Removed(st, h).sessions <==> k in st.sessions && k != h
    ensures k in Removed(st, h).archives <==> k in st.archives && k != h
  {
  }

  lemma DirRemoved(c: Codec, dirs: map<Bytes, Dir>, st: State, h: Bytes)
    requires Agrees(c, dirs, st)
    ensures Agrees(c, dirs - {FileNames.Encoded(h)}, Removed(st, h))
  {
    hide *;
    AgreesAt(c, dirs, st, h);
    forall k
      ensures SessionAgrees(c, dirs - {FileNames.Encoded(h)}, Removed(st, h), k)
    {
      RemovedAt(c, dirs, st, h, k);
    }
    AllAgree(c, dirs - {FileNames.Encoded(h)}, Removed(st, h));
  }

  lemma FileReads(c: Codec, file: Option<Bytes>, messages: seq<Entry>)
    requires Lawful(c) && FileIs(c, file, messages)
    ensures messages == match file case None => [] case Some(bytes) => Read(c, bytes)
  {
    if file.Some? {
      var entries :| file.value == Lines(c, entries) && messages == AllStored(entries);
      ReadAll(c, entries);
    }
  }

  lemma FileGrows(c: Codec, file: Option<Bytes>, messages: seq<Entry>, more: seq<Entry>)
    requires FileIs(c, file, messages)
    ensures FileIs(c, Some((if file.Some? then file.value else []) + Lines(c, more)), messages + AllStored(more))
  {
    if file.Some? {
      var entries :| file.value == Lines(c, entries) && messages == AllStored(entries);
      LinesConcat(c, entries, more);
      StoredConcat(entries, more);
    } else {
      hide Lines, AllStored;
      assert [] + Lines(c, more) == Lines(c, more) && [] + AllStored(more) == AllStored(more);
    }
  }

  /** What was stored stores as itself, so cutting a file and writing it back keeps what is left. */
  lemma FileRewritten(c: Codec, file: Option<Bytes>, messages: seq<Entry>, kept: seq<Entry>)
    requires FileIs(c, file, messages) && kept <= messages
    ensures FileIs(c, Some(Lines(c, kept)), kept)
  {
    if file.Some? {
      var entries :| file.value == Lines(c, entries) && messages == AllStored(entries);
      assert forall i :: 0 <= i < |kept| ==> kept[i] == messages[i] == AsStored(entries[i]);
    }
    assert AllStored(kept) == kept;
  }

  function Remade(dirs: map<Bytes, Dir>, name: Bytes, info: string): Dir {
    if name in dirs then dirs[name].(count := 0, info := info) else Dir(0, info, None, None)
  }

  lemma RemadeOver(c: Codec, d: Dir, st: State, h: Bytes, info: string)
    requires Lawful(c) && Fits(c, d, st, h)
    ensures Fits(c, d.(count := 0, info := info), Created(st, h, info), h) <==> st.sessions[h].messages == []
  {
    FileReads(c, d.messages, st.sessions[h].messages);
    if FileIs(c, d.messages, []) {
      FileReads(c, d.messages, []);
    }
    hide FileIs, Lawful, Read;
  }

  lemma MadeNew(c: Codec, st: State, h: Bytes, info: string)
    requires h !in st.archives
    ensures Fits(c, Dir(0, info, None, None), Created(st, h, info), h)
  {
    NoFile(c);
    hide FileIs;
  }

  lemma CreatedElsewhere(st: State, h: Bytes, info: string)
    ensures SameElsewhere(st, Created(st, h, info), h)
  {
  }

  /** A session is made over an old one in the way its list says only when that was empty. */
  lemma CreatedFitsIff(c: Codec, dirs: map<Bytes, Dir>, st: State, h: Bytes, info: string)
    requires Agrees(c, dirs, st)
    ensures Fits(c, Remade(dirs, FileNames.Encoded(h), info), Created(st, h, info), h)
       <==> (h in st.sessions ==> st.sessions[h].messages == [])
  {
    hide FileNames.Encoded, Agrees, Fits, Created, Lawful;
    AgreesAt(c, dirs, st, h);
    if h in st.sessions {
      RemadeOver(c, dirs[FileNames.Encoded(h)], st, h, info);
    } else {
      MadeNew(c, st, h, info);
    }
  }

  lemma NoFile(c: Codec)
    ensures FileIs(c, None, [])
  {
  }

  lemma CreatedAgreesIff(c: Codec, dirs: map<Bytes, Dir>, st: State, h: Bytes, info: string)
    requires Agrees(c, dirs, st)
    ensures Agrees(c, dirs[FileNames.Encoded(h) := Remade(dirs, FileNames.Encoded(h), info)], Created(st, h, info))
       <==> (h in st.sessions ==> st.sessions[h].messages == [])
  {
    assert h in Created(st, h, info).sessions;
    hide FileNames.Encoded, Agrees, Fits, SameElsewhere, Created, Remade;
    var name := FileNames.Encoded(h);
    var d := Remade(dirs, name, info);
    CreatedFitsIff(c, dirs, st, h, info);
    CreatedElsewhere(st, h, info);
    if Fits(c, d, Created(st, h, info), h) {
      DirWritten(c, dirs, st, Created(st, h, info), h, d);
    } else if Agrees(c, dirs[name := d], Created(st, h, info)) {
      AgreesAt(c, dirs[name := d], Created(st, h, info), h);
      assert false;
    }
  }

  /** A directory whose messages file was appended to, whatever it held. */
  function Grown(c: Codec, d: Dir, entries: seq<Entry>, info: string): Dir {
    var bytes := (if d.messages.Some? then d.messages.value else []) + Lines(c, entries);
    Dir(d.count + |entries|, info, Some(bytes), d.archive)
  }

  lemma AppendedFits(c: Codec, d: Dir, st: State, h: Bytes, entries: seq<Entry>, info: string)
    requires Fits(c, d, st, h)
    ensures Fits(c, Grown(c, d, entries, info), Appended(st, h, entries, info), h)
    ensures SameElsewhere(st, Appended(st, h, entries, info), h)
  {
    FileGrows(c, d.messages, st.sessions[h].messages, entries);
    hide FileIs, AllStored, Lines;
  }

  lemma TruncatedFits(c: Codec, d: Dir, st: State, h: Bytes, keep: nat)
    requires Fits(c, d, st, h)
    ensures var kept := Kept(st.sessions[h].messages, keep);
            Fits(c, d.(count := |kept|, messages := Some(Lines(c, kept))), Truncated(st, h, keep), h)
    ensures SameElsewhere(st, Truncated(st, h, keep), h)
  {
    FileRewritten(c, d.messages, st.sessions[h].messages, Kept(st.sessions[h].messages, keep));
    hide FileIs, Lines;
  }

  lemma MarkedFits(c: Codec, d: Dir, st: State, h: Bytes, name: Bytes)
    requires Fits(c, d, st, h)
    ensures Fits(c, d.(archive := Some(name)), Marked(st, h, name), h)
    ensures SameElsewhere(st, Marked(st, h, name), h)
  {
    hide FileIs;
  }

  class FileStore {
    var dirs: map<Bytes, Dir>
    const codec: Codec

    /** What is stored. */
    ghost var state: State

    ghost predicate Valid()
      reads this
    {
      Agrees(codec, dirs, state)
    }

    constructor (c: Codec)
      requires Lawful(c)
      ensures Valid() && state == EMPTY
    {
      dirs := map[];
      codec := c;
      state := EMPTY;
    }

    /** Where a session's files are. */
    method DirName(h: Bytes) returns (name: Bytes)
      ensures name == FileNames.Encoded(h)
    {
      name := FileNames.Encode(h);
    }

    /**
     * Write a new session's metadata. Over an existing session the messages file stays, so the
     * directory holds an empty session if and only if that one had no messages.
     */
    method Create(h: Bytes, info: string)
      modifies this
      ensures dirs == old(dirs)[FileNames.Encoded(h) := Remade(old(dirs), FileNames.Encoded(h), info)]
      ensures state == Created(old(state), h, info)
      ensures old(Valid()) ==>
                (Valid() <==> (h in old(state).sessions ==> old(state).sessions[h].messages == []))
    {
      ghost var before, was := dirs, state;
      var name := DirName(h);
      dirs := dirs[name := Remade(dirs, name, info)];
      state := Created(state, h, info);
      hide Agrees, FileNames.Encoded, Created, Remade;
      if Agrees(codec, before, was) {
        CreatedAgreesIff(codec, before, was, h, info);
      }
    }

    method ReadFile(file: Option<Bytes>) returns (messages: seq<Entry>)
      ensures messages == match file case None => [] case Some(bytes) => Read(codec, bytes)
    {
      messages := match file case None => [] case Some(bytes) => Read(codec, bytes);
    }

    /**
     * Append messages behind whatever the file holds; `info` is the metadata with its new timestamp.
     * A store that holds a list holds the longer one afterwards.
     */
    method Append(h: Bytes, entries: seq<Entry>, info: string) returns (r: Result<(), StoreError>)
      modifies this
      ensures r.Ok? <==> entries == [] || FileNames.Encoded(h) in old(dirs)
      ensures dirs == if entries == [] || r.Err? then old(dirs)
                      else var name := FileNames.Encoded(h);
                           old(dirs)[name := Grown(codec, old(dirs)[name], entries, info)]
      ensures old(Valid()) ==> Valid() && (h in old(state).sessions <==> FileNames.Encoded(h) in old(dirs))
      ensures old(Valid()) ==>
                state == if entries != [] && r.Ok? then Appended(old(state), h, entries, info) else old(state)
    {
      hide Agrees, Lawful, FileNames.Encoded, Lines, Fits, SameElsewhere, Appended;
      if Agrees(codec, dirs, state) {
        AgreesAt(codec, dirs, state, h);
      }
      if entries == [] {
        return Ok(());
      }
      var name := DirName(h);
      if name !in dirs {
        return Err(NotFound);
      }
      var d := dirs[name];
      var buf := Buffered(codec, entries);
      var bytes := (if d.messages.Some? then d.messages.value else []) + buf;
      var d' := Dir(d.count + |entries|, info, Some(bytes), d.archive);
      assert d' == Grown(codec, d, entries, info);
      ghost var whole := Agrees(codec, dirs, state);
      if whole {
        AppendedFits(codec, d, state, h, entries, info);
        DirWritten(codec, dirs, state, Appended(state, h, entries, info), h, d');
        state := Appended(state, h, entries, info);
      }
      dirs := dirs[name := d'];
      return Ok(());
    }

    /** Truncation is a read, a cut and a rewrite of the file, where there is such a session. */
    method Truncate(h: Bytes, keep: nat)
      requires Valid()
      modifies this
      ensures Valid() && state == Truncated(old(state), h, keep)
    {
      AgreesAt(codec, dirs, state, h);
      var name := DirName(h);
      if name !in dirs {
        return;
      }
      var d := dirs[name];
      FileReads(codec, d.messages, state.sessions[h].messages);
      hide Agrees, FileNames.Encoded, Lines, Fits, SameElsewhere, Truncated, Read, Lawful, FileIs;
      TruncatedFits(codec, d, state, h, keep);
      var history := ReadFile(d.messages);
      var kept := Kept(history, keep);
      var buf := Buffered(codec, kept);
      var d' := d.(count := |kept|, messages := Some(buf));
      DirWritten(codec, dirs, state, Truncated(state, h, keep), h, d');
      dirs := dirs[name := d'];
      state := Truncated(state, h, keep);
    }

    /** Empty the list and leave a marker, which without a session has no directory to go to. */
    method Compact(h: Bytes, name: Bytes) returns (r: Result<(), StoreError>)
      requires Valid()
      modifies this
      ensures Valid()
      ensures r.Ok? <==> h in old(state).sessions
      ensures state == if r.Ok? then Marked(Truncated(old(state), h, 0), h, name) else old(state)
    {
      Truncate(h, 0);
      AgreesAt(codec, dirs, state, h);
      var dir := DirName(h);
      if dir !in dirs {
        return Err(Io);
      }
      hide Agrees, Lawful, FileNames.Encoded, Fits, SameElsewhere, Truncated, Marked;
      MarkedFits(codec, dirs[dir], state, h, name);
      var d := dirs[dir].(archive := Some(name));
      DirWritten(codec, dirs, state, Marked(state, h, name), h, d);
      dirs := dirs[dir := d];
      state := Marked(state, h, name);
      return Ok(());
    }

    /** The lines in file order, the metadata, and the marker with its surrounding blanks trimmed. */
    method Load(h: Bytes) returns (r: Option<Snapshot>)
      requires Valid()
      ensures r == match Loaded(state, h)
                   case Some(snap) => Some(snap.(archive := if snap.archive.Some? then Some(codec.trim(snap.archive.value)) else None))
                   case None => None
    {
      AgreesAt(codec, dirs, state, h);
      var name := DirName(h);
      if name !in dirs {
        return None;
      }
      hide Agrees, FileNames.Encoded, Lines;
      var d := dirs[name];
      FileReads(codec, d.messages, state.sessions[h].messages);
      var history := ReadFile(d.messages);
      hide FileIs, Read, Lawful;
      r := Some(Snapshot(history, d.count, d.info, if d.archive.Some? then Some(codec.trim(d.archive.value)) else None));
    }

    /** The whole directory goes. Says whether it was there. */
    method Remove(h: Bytes) returns (existed: bool)
      requires Valid()
      modifies this
      ensures Valid() && state == Removed(old(state), h)
      ensures existed <==> h in old(state).sessions
    {
      AgreesAt(codec, dirs, state, h);
      var name := DirName(h);
      existed := name in dirs;
      hide Agrees, Lawful, FileNames.Encoded, FileIs;
      DirRemoved(codec, dirs, state, h);
      dirs := dirs - {name};
      state := Removed(state, h);
    }
  }
}
