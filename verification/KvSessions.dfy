/** Sessions over the key-value store, with their messages in the text index. */
module KvSessions {
  import opened Wrappers
  import opened Bytes
  import opened Order
  import opened Keyspace
  import opened Decimal
  import opened History
  import opened StoredSessions
  import Tokens
  import T = TextIndex

  // ----- Keys -----

  const SESSION: Bytes := [115, 101, 115, 115, 105, 111, 110]
  const META: Bytes := [109, 101, 116, 97]
  const ARCHIVE: Bytes := [97, 114, 99, 104, 105, 118, 101]
  const MSG: Bytes := [109, 115, 103]

  datatype SKey = MetaKey(h: Bytes) | ArchiveKey(h: Bytes) | MessageKey(h: Bytes, n: nat)

  /** Handles hold no separator. */
  predicate Proper(k: SKey) {
    NoSlash(k.h)
  }

  /** `local/session/`. */
  const HOME: Bytes := LOCAL + [SLASH] + SESSION + [SLASH]

  /** `local/session/{h}/`. */
  function Base(h: Bytes): Bytes {
    HOME + h + [SLASH]
  }

  /** `local/session/{h}/msg/`. */
  function MessageBase(h: Bytes): Bytes {
    Base(h) + MSG + [SLASH]
  }

  function Leaf(k: SKey): Bytes {
    match k
    case MetaKey(_) => META
    case ArchiveKey(_) => ARCHIVE
    case MessageKey(_, n) => MSG + [SLASH] + Padded(n)
  }

  function Spelled(k: SKey): Bytes {
    Base(k.h) + Leaf(k)
  }

  lemma MessageSpelled(h: Bytes, n: nat)
    ensures Spelled(MessageKey(h, n)) == MessageBase(h) + Padded(n)
  {
    hide Padded;
  }

  lemma LeafInjective(a: SKey, b: SKey)
    requires Leaf(a) == Leaf(b) && a.h == b.h
    ensures a == b
  {
    hide Padded;
    assert Leaf(a)[1] == Leaf(b)[1];
    if a.MessageKey? {
      assert Leaf(a)[|MSG| + 1..] == Padded(a.n) && Leaf(b)[|MSG| + 1..] == Padded(b.n);
      PaddedInjective(a.n, b.n);
    }
  }

  /** What follows two handles tells them apart. */
  lemma BaseSplit(h: Bytes, x: Bytes, h': Bytes, x': Bytes)
    requires NoSlash(h) && NoSlash(h') && Base(h) + x == Base(h') + x'
    ensures h == h' && x == x'
  {
    assert Base(h) + x == HOME + (h + [SLASH] + x);
    assert Base(h') + x' == HOME + (h' + [SLASH] + x');
    CommonPrefix(HOME, h + [SLASH] + x, h' + [SLASH] + x');
    PartsSplit(h, x, h', x');
  }

  lemma SpelledInjective(a: SKey, b: SKey)
    requires Proper(a) && Proper(b) && Spelled(a) == Spelled(b)
    ensures a == b
  {
    hide Base, Leaf;
    BaseSplit(a.h, Leaf(a), b.h, Leaf(b));
    LeafInjective(a, b);
  }

  /** Everything under a session's prefix is that session's. */
  lemma SessionScope(h: Bytes, k: SKey)
    requires NoSlash(h) && Proper(k)
    ensures IsPrefix(Base(h), Spelled(k)) <==> k.h == h
  {
    hide Base, Leaf;
    if IsPrefix(Base(h), Spelled(k)) {
      var rest := PrefixRest(Base(h), Spelled(k));
      BaseSplit(k.h, Leaf(k), h, rest);
    }
  }

  /** A scan of the message prefix meets that session's messages only. */
  lemma MessageScope(h: Bytes, k: SKey)
    requires NoSlash(h) && Proper(k)
    ensures IsPrefix(MessageBase(h), Spelled(k)) <==> k.MessageKey? && k.h == h
  {
    hide Padded;
    if IsPrefix(MessageBase(h), Spelled(k)) {
      var rest := PrefixRest(MessageBase(h), Spelled(k));
      assert MessageBase(h) + rest == Base(h) + (MSG + [SLASH] + rest);
      hide Base;
      BaseSplit(k.h, Leaf(k), h, MSG + [SLASH] + rest);
      assert Leaf(k)[1] == 115;
    } else if k.MessageKey? && k.h == h {
      MessageSpelled(h, k.n);
    }
  }

  /** Below 10^12 the message keys of a session list in message order. */
  lemma MessageOrder(h: Bytes, n: nat, m: nat)
    requires n < m < POSITIONS
    ensures Less(Spelled(MessageKey(h, n)), Spelled(MessageKey(h, m)))
  {
    MessageSpelled(h, n);
    MessageSpelled(h, m);
    PaddedOrder(n, m);
    LessBehindPrefix(MessageBase(h), Padded(n), Padded(m));
  }

  // ----- Reading a message key back -----

  /** `rsplit` on the separator, one step: what is left, if a separator was found, and the last part. */
  function LastPart(s: Bytes): (Option<Bytes>, Bytes) {
    if s == [] then (None, [])
    else
      var n := |s| - 1;
      if s[n] == SLASH then (Some(s[..n]), [])
      else
        var (left, part) := LastPart(s[..n]);
        (left, part + [s[n]])
  }

  lemma {:induction false} LastPartAt(a: Bytes, x: Bytes)
    requires NoSlash(x)
    ensures LastPart(a + [SLASH] + x) == (Some(a), x)
    decreases |x|
  {
    var s := a + [SLASH] + x;
    if x == [] {
      assert s[..|s| - 1] == a;
    } else {
      assert s[..|s| - 1] == a + [SLASH] + x[..|x| - 1];
      LastPartAt(a, x[..|x| - 1]);
      assert s[|s| - 1] == x[|x| - 1] && x == x[..|x| - 1] + [x[|x| - 1]];
    }
  }

  /** Which message of which session a key spells, if it spells one. */
  function ParseMessageKey(key: Bytes): Option<(Bytes, nat)> {
    var (left, last) := LastPart(key);
    match Parsed(last)
    case None => None
    case Some(n) =>
      if left.None? then None
      else
        var (left', kind) := LastPart(left.value);
        if kind != MSG || left'.None? then None else Some((LastPart(left'.value).1, n))
  }

  lemma ParsedParts(front: Bytes, h: Bytes, last: Bytes)
    requires NoSlash(h) && NoSlash(last)
    ensures ParseMessageKey(front + [SLASH] + h + [SLASH] + MSG + [SLASH] + last)
         == match Parsed(last) case None => None case Some(n) => Some((h, n))
  {
    LastPartAt(front + [SLASH] + h + [SLASH] + MSG, last);
    LastPartAt(front + [SLASH] + h, MSG);
    LastPartAt(front, h);
    hide LastPart, Parsed;
  }

  lemma ParsedNothing(front: Bytes, last: Bytes)
    requires NoSlash(last) && Parsed(last) == None
    ensures ParseMessageKey(front + [SLASH] + last) == None
  {
    LastPartAt(front, last);
    hide LastPart, Parsed;
  }

  /** A session's key names a message exactly when it is one, and then names that message. */
  lemma ParsedIsMessage(k: SKey)
    requires Proper(k) && (k.MessageKey? ==> k.n < U64_LIMIT)
    ensures ParseMessageKey(Spelled(k)) == if k.MessageKey? then Some((k.h, k.n)) else None
  {
    var front := LOCAL + [SLASH] + SESSION;
    assert Base(k.h) == front + [SLASH] + k.h + [SLASH];
    hide Base, ParseMessageKey, Parsed, Padded;
    if k.MessageKey? {
      PaddedNoSlash(k.n);
      ParsedPadded(k.n);
      ParsedParts(front, k.h, Padded(k.n));
      assert Spelled(k) == front + [SLASH] + k.h + [SLASH] + MSG + [SLASH] + Padded(k.n);
    } else {
      NotANumber(k);
      ParsedNothing(front + [SLASH] + k.h, Leaf(k));
    }
  }

  lemma NotANumber(k: SKey)
    requires !k.MessageKey?
    ensures NoSlash(Leaf(k)) && Parsed(Leaf(k)) == None
  {
    assert !(ZERO <= Leaf(k)[0] <= ZERO + 9);
  }

  // ----- Rows -----

  datatype Row = MetaRow(count: nat, info: string) | ArchiveRow(name: Bytes) | MessageRow(entry: Entry)

  type Rows = map<Bytes, Row>

  function Look(rows: Rows, k: SKey): Option<Row> {
    if Spelled(k) in rows then Some(rows[Spelled(k)]) else None
  }

  ghost predicate Tidy(rows: Rows) {
    forall b :: b in rows ==> exists k :: Proper(k) && Spelled(k) == b
  }

  /** What the row of a key is, for a given state. */
  function RowOf(st: State, k: SKey): Option<Row> {
    match k
    case MetaKey(h) =>
      if h in st.sessions then Some(MetaRow(|st.sessions[h].messages|, st.sessions[h].info)) else None
    case ArchiveKey(h) =>
      if h in st.archives then Some(ArchiveRow(st.archives[h])) else None
    case MessageKey(h, n) =>
      if h in st.sessions && n < |st.sessions[h].messages| then Some(MessageRow(st.sessions[h].messages[n])) else None
  }

  /** The rows are the state, row for row. */
  ghost predicate Holds(rows: Rows, st: State) {
    forall k :: Proper(k) ==> Look(rows, k) == RowOf(st, k)
  }

  // ----- The message index -----

  /** The document of a stored message, if it is indexable and has a token. */
  function DocOf(l: Tokens.Lang, entry: Entry): Option<T.Doc> {
    match Indexable(entry)
    case None => None
    case Some((body, weight)) =>
      var tokens := Tokens.Tokenize(l, body);
      if tokens == [] then None else Some(T.Doc(tokens, weight))
  }

  function MessageAt(st: State, h: Bytes, n: nat): Option<Entry> {
    if h in st.sessions && n < |st.sessions[h].messages| then Some(st.sessions[h].messages[n]) else None
  }

  function DocAt(l: Tokens.Lang, st: State, h: Bytes, n: nat): Option<T.Doc> {
    match MessageAt(st, h, n) case None => None case Some(entry) => DocOf(l, entry)
  }

  function Find(docs: T.Docs, key: Bytes): Option<T.Doc> {
    if key in docs then Some(docs[key]) else None
  }

  ghost predicate MessageKeyed(key: Bytes) {
    exists h, n: nat :: NoSlash(h) && key == Spelled(MessageKey(h, n))
  }

  /** The message index holds exactly the messages that were indexable as they were handed in. */
  ghost predicate Indexed(l: Tokens.Lang, docs: T.Docs, st: State) {
    && (forall key :: key in docs ==> MessageKeyed(key))
    && forall h, n: nat :: NoSlash(h) ==> Find(docs, Spelled(MessageKey(h, n))) == DocAt(l, st, h, n)
  }

  // ----- One row at a time -----

  /** `b` is `a` with one row written. */
  ghost predicate Written(a: Rows, b: Rows, k: SKey, row: Row) {
    forall o :: Proper(o) ==> Look(b, o) == if o == k then Some(row) else Look(a, o)
  }

  lemma WriteLooks(rows: Rows, k: SKey, row: Row)
    requires Proper(k)
    ensures Written(rows, rows[Spelled(k) := row], k, row)
    ensures Tidy(rows) ==> Tidy(rows[Spelled(k) := row])
  {
    hide Spelled;
    forall o | Proper(o)
      ensures Look(rows[Spelled(k) := row], o) == if o == k then Some(row) else Look(rows, o)
    {
      if Spelled(o) == Spelled(k) {
        SpelledInjective(o, k);
      }
    }
  }

  /** `b` is `a` without a session's messages from `lo` up to `hi`. */
  ghost predicate Erased(a: Rows, b: Rows, h: Bytes, lo: nat, hi: nat) {
    forall o :: Proper(o) ==> Look(b, o) == if o.MessageKey? && o.h == h && lo <= o.n < hi then None else Look(a, o)
  }

  lemma EraseOne(a: Rows, b: Rows, h: Bytes, lo: nat, hi: nat)
    requires Erased(a, b, h, lo, hi) && lo <= hi && NoSlash(h)
    ensures Erased(a, b - {Spelled(MessageKey(h, hi))}, h, lo, hi + 1)
    ensures Tidy(b) ==> Tidy(b - {Spelled(MessageKey(h, hi))})
  {
    hide Spelled;
    var k := MessageKey(h, hi);
    forall o | Proper(o)
      ensures Look(b - {Spelled(k)}, o) == if o == k then None else Look(b, o)
    {
      if Spelled(o) == Spelled(k) {
        SpelledInjective(o, k);
      }
    }
    hide Look;
  }

  /** `b` is `a` with a session's messages from `lo` on written. */
  ghost predicate Wrote(a: Rows, b: Rows, h: Bytes, lo: nat, entries: seq<Entry>) {
    forall o :: Proper(o) ==>
      Look(b, o) == if o.MessageKey? && o.h == h && lo <= o.n < lo + |entries|
                    then Some(MessageRow(entries[o.n - lo])) else Look(a, o)
  }

  lemma WriteOne(a: Rows, b: Rows, c: Rows, h: Bytes, lo: nat, entries: seq<Entry>, entry: Entry)
    requires Wrote(a, b, h, lo, entries) && Written(b, c, MessageKey(h, lo + |entries|), MessageRow(entry))
    ensures Wrote(a, c, h, lo, entries + [entry])
  {
    hide Look;
  }

  /** `b` is `a` without the documents of a session's messages from `lo` up to `hi`. */
  ghost predicate DocsErased(a: T.Docs, b: T.Docs, h: Bytes, lo: nat, hi: nat) {
    && (forall key :: key in b ==> key in a)
    && forall h', n: nat :: NoSlash(h') ==>
         Find(b, Spelled(MessageKey(h', n)))
         == if h' == h && lo <= n < hi then None else Find(a, Spelled(MessageKey(h', n)))
  }

  lemma EraseDoc(a: T.Docs, b: T.Docs, h: Bytes, lo: nat, hi: nat)
    requires DocsErased(a, b, h, lo, hi) && lo <= hi && NoSlash(h)
    ensures DocsErased(a, b - {Spelled(MessageKey(h, hi))}, h, lo, hi + 1)
  {
    hide Spelled;
    var key := Spelled(MessageKey(h, hi));
    forall h', n: nat | NoSlash(h')
      ensures Find(b - {key}, Spelled(MessageKey(h', n)))
           == if h' == h && n == hi then None else Find(b, Spelled(MessageKey(h', n)))
    {
      if Spelled(MessageKey(h', n)) == key {
        SpelledInjective(MessageKey(h', n), MessageKey(h, hi));
      }
    }
  }

  /** `b` is `a` with the documents of a session's messages from `lo` on. */
  ghost predicate DocsMore(l: Tokens.Lang, a: T.Docs, b: T.Docs, h: Bytes, lo: nat, entries: seq<Entry>) {
    && (forall key :: key in b ==> key in a || MessageKeyed(key))
    && forall h', n: nat :: NoSlash(h') ==>
         Find(b, Spelled(MessageKey(h', n)))
         == if h' == h && lo <= n < lo + |entries| then DocOf(l, entries[n - lo])
            else Find(a, Spelled(MessageKey(h', n)))
  }

  /** What indexing one entry does to the documents. */
  function Entered(l: Tokens.Lang, docs: T.Docs, key: Bytes, entry: Entry): T.Docs {
    match Indexable(entry)
    case None => docs
    case Some((body, weight)) => T.Filing(docs, key, T.Doc(Tokens.Tokenize(l, body), weight))
  }

  lemma EnteredFinds(l: Tokens.Lang, docs: T.Docs, key: Bytes, entry: Entry, other: Bytes)
    ensures Find(Entered(l, docs, key, entry), other)
         == if other == key && Indexable(entry).Some? then DocOf(l, entry) else Find(docs, other)
    ensures other in Entered(l, docs, key, entry) ==> other in docs || other == key
  {
  }

  lemma EnterOne(l: Tokens.Lang, a: T.Docs, b: T.Docs, h: Bytes, lo: nat, entries: seq<Entry>, entry: Entry)
    requires DocsMore(l, a, b, h, lo, entries) && NoSlash(h)
    requires Find(a, Spelled(MessageKey(h, lo + |entries|))) == None
    ensures DocsMore(l, a, Entered(l, b, Spelled(MessageKey(h, lo + |entries|)), entry), h, lo, entries + [entry])
  {
    hide Spelled, DocOf, Entered, Find;
    var key := Spelled(MessageKey(h, lo + |entries|));
    var c := Entered(l, b, key, entry);
    DocOfNone(l, entry);
    forall other
      ensures Find(c, other) == if other == key && Indexable(entry).Some? then DocOf(l, entry) else Find(b, other)
      ensures other in c ==> other in b || other == key
    {
      EnteredFinds(l, b, key, entry, other);
    }
    forall h', n: nat | NoSlash(h')
      ensures Find(c, Spelled(MessageKey(h', n)))
           == if h' == h && lo <= n < lo + |entries| + 1 then DocOf(l, (entries + [entry])[n - lo])
              else Find(a, Spelled(MessageKey(h', n)))
    {
      if Spelled(MessageKey(h', n)) == key {
        SpelledInjective(MessageKey(h', n), MessageKey(h, lo + |entries|));
      }
    }
    assert MessageKeyed(key);
  }

  lemma DocOfNone(l: Tokens.Lang, entry: Entry)
    ensures Indexable(entry).None? ==> DocOf(l, entry) == None
  {
  }

  // ----- What the operations amount to -----

  /** Metadata written over a session's say it is empty, and its rows agree only if it was. */
  lemma CreatedHoldsIff(a: Rows, b: Rows, st: State, h: Bytes, info: string)
    requires Holds(a, st) && NoSlash(h) && Written(a, b, MetaKey(h), MetaRow(0, info))
    ensures Holds(b, Created(st, h, info)) <==> (h in st.sessions ==> st.sessions[h].messages == [])
  {
    hide Look;
    var st' := Created(st, h, info);
    if h in st.sessions && st.sessions[h].messages != [] {
      var k := MessageKey(h, 0);
      assert Look(b, k) == Look(a, k) == RowOf(st, k) != RowOf(st', k);
    } else {
      assert forall k :: Proper(k) ==> RowOf(st', k) == if k == MetaKey(h) then Some(MetaRow(0, info)) else RowOf(st, k);
    }
  }

  lemma CreatedIndexed(l: Tokens.Lang, docs: T.Docs, st: State, h: Bytes, info: string)
    requires Indexed(l, docs, st) && (h in st.sessions ==> st.sessions[h].messages == [])
    ensures Indexed(l, docs, Created(st, h, info))
  {
    hide Spelled, Find, DocOf, MessageKeyed;
    assert forall h', n: nat :: DocAt(l, Created(st, h, info), h', n) == DocAt(l, st, h', n);
  }

  lemma CreatedAgreesIff(l: Tokens.Lang, a: Rows, b: Rows, docs: T.Docs, st: State, entered: State, h: Bytes, info: string)
    requires Agrees(l, a, docs, st, entered) && NoSlash(h)
    requires Written(a, b, MetaKey(h), MetaRow(0, info)) && Tidy(b)
    ensures Agrees(l, b, docs, Created(st, h, info), Created(entered, h, info))
       <==> (h in st.sessions ==> st.sessions[h].messages == [])
  {
    hide Holds, Indexed, Tidy, Written, AllStored;
    CreatedHoldsIff(a, b, st, h, info);
    SerializedOtherwise(entered, h, info, []);
    if h in st.sessions ==> st.sessions[h].messages == [] {
      CreatedIndexed(l, docs, entered, h, info);
    }
  }

  lemma AppendedHolds(a: Rows, b: Rows, c: Rows, st: State, h: Bytes, entries: seq<Entry>, info: string)
    requires Holds(a, st) && h in st.sessions && Wrote(a, b, h, |st.sessions[h].messages|, AllStored(entries))
    requires Written(b, c, MetaKey(h), MetaRow(|st.sessions[h].messages| + |entries|, info))
    ensures Holds(c, Appended(st, h, entries, info))
  {
    hide Look;
  }

  lemma ExtendedIndexed(l: Tokens.Lang, a: T.Docs, b: T.Docs, st: State, h: Bytes, entries: seq<Entry>, info: string)
    requires Indexed(l, a, st) && h in st.sessions
    requires DocsMore(l, a, b, h, |st.sessions[h].messages|, entries)
    ensures Indexed(l, b, Extended(st, h, entries, info))
  {
    hide Spelled, Find, DocOf, MessageKeyed;
    var st' := Extended(st, h, entries, info);
    var lo := |st.sessions[h].messages|;
    forall h', n: nat | NoSlash(h')
      ensures Find(b, Spelled(MessageKey(h', n))) == DocAt(l, st', h', n)
    {
      if h' == h && lo <= n < lo + |entries| {
        assert MessageAt(st', h', n) == Some(entries[n - lo]);
      } else {
        assert MessageAt(st', h', n) == MessageAt(st, h', n);
      }
    }
  }

  lemma TruncatedHolds(a: Rows, b: Rows, c: Rows, st: State, h: Bytes, keep: nat)
    requires Holds(a, st) && h in st.sessions
    requires Erased(a, b, h, |Kept(st.sessions[h].messages, keep)|, |st.sessions[h].messages|)
    requires Written(b, c, MetaKey(h), MetaRow(|Kept(st.sessions[h].messages, keep)|, st.sessions[h].info))
    ensures Holds(c, Truncated(st, h, keep))
  {
    hide Look;
  }

  lemma TruncatedIndexed(l: Tokens.Lang, a: T.Docs, b: T.Docs, st: State, h: Bytes, keep: nat)
    requires Indexed(l, a, st) && h in st.sessions
    requires DocsErased(a, b, h, |Kept(st.sessions[h].messages, keep)|, |st.sessions[h].messages|)
    ensures Indexed(l, b, Truncated(st, h, keep))
  {
    hide Spelled, Find, DocOf, MessageKeyed;
    var st' := Truncated(st, h, keep);
    var lo := |Kept(st.sessions[h].messages, keep)|;
    forall h', n: nat | NoSlash(h')
      ensures Find(b, Spelled(MessageKey(h', n))) == DocAt(l, st', h', n)
    {
      if h' == h && lo <= n {
        assert MessageAt(st', h', n) == None;
      } else {
        assert MessageAt(st', h', n) == MessageAt(st, h', n);
      }
    }
  }

  lemma MarkedHolds(a: Rows, b: Rows, st: State, h: Bytes, name: Bytes)
    requires Holds(a, st) && Written(a, b, ArchiveKey(h), ArchiveRow(name))
    ensures Holds(b, Marked(st, h, name))
  {
    hide Look;
  }

  lemma MarkedIndexed(l: Tokens.Lang, docs: T.Docs, st: State, h: Bytes, name: Bytes)
    requires Indexed(l, docs, st)
    ensures Indexed(l, docs, Marked(st, h, name))
  {
    hide Spelled, Find, DocOf, MessageKeyed;
    assert forall h', n: nat :: DocAt(l, Marked(st, h, name), h', n) == DocAt(l, st, h', n);
  }

  lemma RemovedHolds(a: Rows, b: Rows, st: State, h: Bytes)
    requires Holds(a, st) && NoSlash(h)
    requires b == map key | key in a && !IsPrefix(Base(h), key) :: a[key]
    ensures Holds(b, Removed(st, h))
  {
    hide Spelled, IsPrefix, Base;
    forall k | Proper(k)
      ensures Look(b, k) == RowOf(Removed(st, h), k)
    {
      SessionScope(h, k);
      assert Look(a, k) == RowOf(st, k);
    }
  }

  lemma RemovedIndexed(l: Tokens.Lang, a: T.Docs, b: T.Docs, st: State, h: Bytes)
    requires Indexed(l, a, st) && NoSlash(h)
    requires b == map key | key in a && !IsPrefix(Base(h), key) :: a[key]
    ensures Indexed(l, b, Removed(st, h))
  {
    hide Spelled, IsPrefix, Base, DocOf, MessageKeyed;
    forall h', n: nat | NoSlash(h')
      ensures Find(b, Spelled(MessageKey(h', n))) == DocAt(l, Removed(st, h), h', n)
    {
      SessionScope(h, MessageKey(h', n));
      assert Find(a, Spelled(MessageKey(h', n))) == DocAt(l, st, h', n);
    }
  }

  // ----- Listing -----

  /** The message keys of a session, in message order. */
  function MessageKeys(h: Bytes, n: nat): (keys: seq<Bytes>)
    ensures |keys| == n && forall i :: 0 <= i < n ==> keys[i] == Spelled(MessageKey(h, i))
  {
    seq(n, i requires 0 <= i < n => Spelled(MessageKey(h, i)))
  }

  ghost predicate Ascends(keys: seq<Bytes>) {
    forall i, j :: 0 <= i < j < |keys| ==> Less(keys[i], keys[j])
  }

  lemma OneAscent(a: seq<Bytes>, b: seq<Bytes>)
    requires Ascends(a) && Ascends(b) && forall k :: k in a <==> k in b
    ensures a == b
  {
    var x := seq(|a|, i requires 0 <= i < |a| => Key(0, a[i]));
    var y := seq(|b|, i requires 0 <= i < |b| => Key(0, b[i]));
    var s := set k | k in a :: Key(0, k);
    ListsKeys(a, s);
    ListsKeys(b, s);
    ListUnique(x, y, s);
    forall i | 0 <= i < |a|
      ensures a[i] == b[i]
    {
      assert x[i].name == a[i] && y[i].name == b[i];
    }
  }

  lemma ListsKeys(a: seq<Bytes>, s: set<Key>)
    requires Ascends(a) && forall k :: k in s <==> k.col == 0 && k.name in a
    ensures Lists(seq(|a|, i requires 0 <= i < |a| => Key(0, a[i])), s)
  {
    var x := seq(|a|, i requires 0 <= i < |a| => Key(0, a[i]));
    hide Less;
    forall k | k in s
      ensures k in x
    {
      var i :| 0 <= i < |a| && a[i] == k.name;
      assert x[i] == k;
    }
  }

  /** A scan of a session's messages lists their keys in message order. */
  lemma ScanIsMessages(rows: Rows, st: State, h: Bytes, found: seq<Bytes>)
    requires Tidy(rows) && Holds(rows, st) && NoSlash(h)
    requires h in st.sessions && |st.sessions[h].messages| <= POSITIONS
    requires Ascends(found) && forall b :: b in found <==> b in rows && IsPrefix(MessageBase(h), b)
    ensures found == MessageKeys(h, |st.sessions[h].messages|)
  {
    var n := |st.sessions[h].messages|;
    var keys := MessageKeys(h, n);
    hide Spelled, MessageBase, IsPrefix, Less;
    forall i, j | 0 <= i < j < n
      ensures Less(keys[i], keys[j])
    {
      MessageOrder(h, i, j);
    }
    forall b | b in found
      ensures b in keys
    {
      var k :| Proper(k) && Spelled(k) == b;
      MessageScope(h, k);
      assert Look(rows, k) == RowOf(st, k);
      assert keys[k.n] == b;
    }
    forall b | b in keys
      ensures b in found
    {
      var i :| 0 <= i < n && keys[i] == b;
      MessageScope(h, MessageKey(h, i));
      assert Look(rows, MessageKey(h, i)) == RowOf(st, MessageKey(h, i));
    }
    OneAscent(found, keys);
  }

  // ----- The store -----

  ghost predicate Bounded(st: State) {
    && (forall h :: h in st.sessions ==> NoSlash(h) && |st.sessions[h].messages| <= POSITIONS)
    && forall h :: h in st.archives ==> NoSlash(h)
  }

  /** The rows hold the stored state, and the message index the entries it was stored from. */
  ghost predicate Agrees(l: Tokens.Lang, rows: Rows, docs: T.Docs, st: State, entered: State) {
    Tidy(rows) && Holds(rows, st) && Indexed(l, docs, entered) && Bounded(st) && st == Serialized(entered)
  }

  lemma EmptyAgrees(l: Tokens.Lang)
    ensures Agrees(l, map[], map[], EMPTY, EMPTY)
  {
  }

  lemma SameShape(entered: State, h: Bytes)
    ensures h in entered.sessions <==> h in Serialized(entered).sessions
    ensures h in entered.sessions ==>
              |entered.sessions[h].messages| == |Serialized(entered).sessions[h].messages|
  {
  }

  class KvStore {
    var rows: Rows
    const text: T.TextStore
    const lang: Tokens.Lang

    /** What is stored. */
    ghost var state: State

    /** The same with the messages as they were handed in, marks and senders included. */
    ghost var entered: State

    /** The message documents of the text index. */
    ghost function Docs(): T.Docs
      reads text
    {
      if T.Messages in text.corpus then text.corpus[T.Messages] else map[]
    }

    /** The session documents of the text index. */
    ghost function MetaDocs(): T.Docs
      reads text
    {
      if T.SessionMeta in text.corpus then text.corpus[T.SessionMeta] else map[]
    }

    ghost predicate Fit()
      reads text
    {
      text.Valid() && T.Messages in text.corpus && T.SessionMeta in text.corpus && Tokens.Sane(lang)
    }

    ghost predicate Valid()
      reads this, text
    {
      Fit() && Agrees(lang, rows, Docs(), state, entered)
    }

    constructor (l: Tokens.Lang)
      requires Tokens.Sane(l)
      ensures Valid() && state == entered == EMPTY && fresh(text)
    {
      EmptyAgrees(l);
      rows := map[];
      lang := l;
      text := new T.TextStore();
      state := EMPTY;
      entered := EMPTY;
    }

    method Scan(prefix: Bytes) returns (found: seq<Bytes>)
      ensures Ascends(found) && forall b :: b in found <==> b in rows && IsPrefix(prefix, b)
    {
      found := T.Ordered(set b | b in rows && IsPrefix(prefix, b));
    }

    method Meta(h: Bytes) returns (meta: Option<(nat, string)>)
      requires Valid() && NoSlash(h)
      ensures meta == if h in state.sessions
                      then Some((|state.sessions[h].messages|, state.sessions[h].info)) else None
    {
      hide Spelled, Indexed;
      assert Look(rows, MetaKey(h)) == RowOf(state, MetaKey(h));
      match Look(rows, MetaKey(h))
      case Some(MetaRow(count, info)) => meta := Some((count, info));
      case _ => meta := None;
    }

    /**
     * Write a new session's metadata. Over an existing session the messages stay, so the store
     * holds an empty session if and only if that one had no messages.
     */
    method Create(h: Bytes, info: string)
      requires Valid() && NoSlash(h)
      modifies `rows, `state, `entered
      ensures rows == old(rows)[Spelled(MetaKey(h)) := MetaRow(0, info)]
      ensures state == Created(old(state), h, info) && entered == Created(old(entered), h, info)
      ensures Valid() <==> (h in old(state).sessions ==> old(state).sessions[h].messages == [])
    {
      hide Docs, Look, RowOf, Spelled, Agrees, Tidy, Written, Created;
      assert Tidy(rows) by {
        TidyRows(lang, rows, Docs(), state, entered);
      }
      WriteLooks(rows, MetaKey(h), MetaRow(0, info));
      CreatedAgreesIff(lang, rows, rows[Spelled(MetaKey(h)) := MetaRow(0, info)], Docs(), state, entered, h, info);
      rows := rows[Spelled(MetaKey(h)) := MetaRow(0, info)];
      state := Created(state, h, info);
      entered := Created(entered, h, info);
    }

    /** Append messages; `info` is the metadata with its new timestamp. */
    method Append(h: Bytes, entries: seq<Entry>, info: string) returns (r: Result<(), StoreError>)
      requires Valid() && NoSlash(h)
      requires h in state.sessions ==> |state.sessions[h].messages| + |entries| <= POSITIONS
      modifies this, text
      ensures Valid()
      ensures r.Ok? <==> entries == [] || h in old(state).sessions
      ensures state == if entries != [] && r.Ok? then Appended(old(state), h, entries, info) else old(state)
      ensures h in old(state).sessions ==> h in old(entered).sessions
      ensures entered == if entries != [] && r.Ok? then Extended(old(entered), h, entries, info) else old(entered)
    {
      SameShape(entered, h);
      if entries == [] {
        return Ok(());
      }
      var meta := Meta(h);
      if meta.None? {
        return Err(NotFound);
      }
      AppendTo(h, meta.value.0, entries, info);
      return Ok(());
    }

    method AppendTo(h: Bytes, from: nat, entries: seq<Entry>, info: string)
      requires Valid() && NoSlash(h) && h in state.sessions && from == |state.sessions[h].messages|
      requires from + |entries| <= POSITIONS
      modifies this, text
      ensures Valid() && state == Appended(old(state), h, entries, info)
      ensures h in old(entered).sessions && entered == Extended(old(entered), h, entries, info)
    {
      hide Fit, Docs, Look, RowOf, Spelled, Holds, Indexed, Tidy, Bounded, Wrote, Written, DocsMore, Appended, Find,
        Extended, Serialized;
      SameShape(entered, h);
      SerializedExtended(entered, h, entries, info);
      NothingBeyond(lang, Docs(), entered, h);
      AppendedBounded(state, h, entries, info);
      WriteEntries(h, from, entries);
      ghost var written := rows;
      WriteLooks(rows, MetaKey(h), MetaRow(from + |entries|, info));
      rows := rows[Spelled(MetaKey(h)) := MetaRow(from + |entries|, info)];
      AppendedHolds(old(rows), written, rows, state, h, entries, info);
      ExtendedIndexed(lang, old(Docs()), Docs(), entered, h, entries, info);
      state := Appended(state, h, entries, info);
      entered := Extended(entered, h, entries, info);
    }

    /** The row and the index entry of each message. */
    method WriteEntries(h: Bytes, from: nat, entries: seq<Entry>)
      requires Fit() && Tidy(rows) && NoSlash(h)
      requires forall n: nat :: n >= from ==> Find(Docs(), Spelled(MessageKey(h, n))) == None
      modifies `rows, text
      ensures Fit() && Tidy(rows)
      ensures Wrote(old(rows), rows, h, from, AllStored(entries))
      ensures DocsMore(lang, old(Docs()), Docs(), h, from, entries)
    {
      NothingWritten(lang, rows, Docs(), h, from);
      StoredPieces(entries);
      hide *;
      for i := 0 to |entries|
        invariant Fit() && Tidy(rows)
        invariant Wrote(old(rows), rows, h, from, AllStored(entries[..i]))
        invariant DocsMore(lang, old(Docs()), Docs(), h, from, entries[..i])
      {
        ghost var rows0, docs0, done := rows, Docs(), entries[..i];
        WriteEntry(h, from + i, entries[i]);
        WriteOne(old(rows), rows0, rows, h, from, AllStored(done), AsStored(entries[i]));
        EnterOne(lang, old(Docs()), docs0, h, from, done, entries[i]);
        assert entries[..i + 1] == done + [entries[i]];
      }
      assert entries[..|entries|] == entries;
    }

    method WriteEntry(h: Bytes, n: nat, entry: Entry)
      requires Fit() && Tidy(rows) && NoSlash(h)
      modifies `rows, text
      ensures Fit() && Tidy(rows)
      ensures Written(old(rows), rows, MessageKey(h, n), MessageRow(AsStored(entry)))
      ensures Docs() == Entered(lang, old(Docs()), Spelled(MessageKey(h, n)), entry)
    {
      WriteLooks(rows, MessageKey(h, n), MessageRow(AsStored(entry)));
      hide *;
      var key := Spelled(MessageKey(h, n));
      rows := rows[key := MessageRow(AsStored(entry))];
      IndexEntry(key, entry);
    }

    method IndexEntry(key: Bytes, entry: Entry)
      requires Fit()
      modifies text
      ensures Fit() && Docs() == Entered(lang, old(Docs()), key, entry)
    {
      hide T.AllIndexed, T.Tidy, T.Filing, Tokens.Sane, Indexable;
      match Indexable(entry) {
        case Some((body, weight)) => text.IndexText(lang, T.Messages, key, body, weight);
        case None =>
      }
    }

    /** Truncation keeps a session's first messages; without the session nothing happens. */
    method Truncate(h: Bytes, keep: nat)
      requires Valid() && NoSlash(h)
      modifies this, text
      ensures Valid() && state == Truncated(old(state), h, keep)
      ensures entered == Truncated(old(entered), h, keep)
    {
      SameShape(entered, h);
      var meta := Meta(h);
      if meta.None? {
        return;
      }
      var keys := Scan(MessageBase(h));
      TruncateTo(h, keep, keys, meta.value.1);
    }

    method TruncateTo(h: Bytes, keep: nat, keys: seq<Bytes>, info: string)
      requires Valid() && NoSlash(h) && h in state.sessions && info == state.sessions[h].info
      requires Ascends(keys) && forall b :: b in keys <==> b in rows && IsPrefix(MessageBase(h), b)
      modifies this, text
      ensures Valid() && state == Truncated(old(state), h, keep)
      ensures entered == Truncated(old(entered), h, keep)
    {
      hide Fit, Docs, Look, RowOf, Spelled, MessageBase, Holds, Indexed, Tidy, Bounded, Erased, Written, DocsErased,
        Truncated, IsPrefix, Ascends, Serialized;
      SameShape(entered, h);
      SerializedTruncated(entered, h, keep);
      SessionBound(state, h);
      ScanIsMessages(rows, state, h, keys);
      hide MessageKeys;
      TruncatedBounded(state, h, keep);
      var kept := if keep < |keys| then keep else |keys|;
      EraseMessages(h, kept, keys);
      ghost var erased := rows;
      WriteLooks(rows, MetaKey(h), MetaRow(kept, info));
      rows := rows[Spelled(MetaKey(h)) := MetaRow(kept, info)];
      TruncatedHolds(old(rows), erased, rows, state, h, keep);
      TruncatedIndexed(lang, old(Docs()), Docs(), entered, h, keep);
      state := Truncated(state, h, keep);
      entered := Truncated(entered, h, keep);
    }

    /** Drop the document and the row of each message from `lo` on. */
    method EraseMessages(h: Bytes, lo: nat, keys: seq<Bytes>)
      requires Fit() && Tidy(rows) && NoSlash(h)
      requires lo <= |keys| && keys == MessageKeys(h, |keys|)
      modifies `rows, text
      ensures Fit() && Tidy(rows)
      ensures Erased(old(rows), rows, h, lo, |keys|)
      ensures DocsErased(old(Docs()), Docs(), h, lo, |keys|)
    {
      NothingErased(rows, Docs(), h, lo);
      hide *;
      for i := lo to |keys|
        invariant Fit() && Tidy(rows)
        invariant Erased(old(rows), rows, h, lo, i)
        invariant DocsErased(old(Docs()), Docs(), h, lo, i)
      {
        EraseDoc(old(Docs()), Docs(), h, lo, i);
        DropDoc(keys[i]);
        EraseOne(old(rows), rows, h, lo, i);
        rows := rows - {keys[i]};
      }
    }

    method DropDoc(key: Bytes)
      requires Fit()
      modifies text
      ensures Fit() && Docs() == old(Docs()) - {key}
    {
      text.DropText(T.Messages, key);
    }

    /** Empty the list and leave a marker naming the archive its text went to. */
    method Compact(h: Bytes, name: Bytes)
      requires Valid() && NoSlash(h)
      modifies this, text
      ensures Valid() && state == Marked(Truncated(old(state), h, 0), h, name)
      ensures entered == Marked(Truncated(old(entered), h, 0), h, name)
    {
      hide Fit, Docs, Look, RowOf, Spelled, Holds, Indexed, Tidy, Bounded, Written, Truncated, Marked, Serialized;
      Truncate(h, 0);
      SerializedOtherwise(entered, h, "", name);
      MarkedBounded(state, h, name);
      WriteLooks(rows, ArchiveKey(h), ArchiveRow(name));
      MarkedHolds(rows, rows[Spelled(ArchiveKey(h)) := ArchiveRow(name)], state, h, name);
      MarkedIndexed(lang, Docs(), entered, h, name);
      rows := rows[Spelled(ArchiveKey(h)) := ArchiveRow(name)];
      state := Marked(state, h, name);
      entered := Marked(entered, h, name);
    }

    /** The messages in scan order, the metadata and the marker. */
    method Load(h: Bytes) returns (r: Option<Snapshot>)
      requires Valid() && NoSlash(h)
      ensures r == Loaded(state, h)
    {
      var meta := Meta(h);
      if meta.None? {
        return None;
      }
      hide Spelled, MessageBase, Indexed, Tidy, IsPrefix, Ascends;
      SessionBound(state, h);
      assert Look(rows, ArchiveKey(h)) == RowOf(state, ArchiveKey(h));
      var archive := match Look(rows, ArchiveKey(h)) case Some(ArchiveRow(name)) => Some(name) case _ => None;
      var keys := Scan(MessageBase(h));
      ScanIsMessages(rows, state, h, keys);
      var history := ReadMessages(h, keys);
      r := Some(Snapshot(history, meta.value.0, meta.value.1, archive));
    }

    method ReadMessages(h: Bytes, keys: seq<Bytes>) returns (history: seq<Entry>)
      requires Holds(rows, state) && NoSlash(h) && h in state.sessions
      requires |keys| == |state.sessions[h].messages| && keys == MessageKeys(h, |keys|)
      ensures history == state.sessions[h].messages
    {
      hide Spelled;
      history := [];
      for i := 0 to |keys|
        invariant history == state.sessions[h].messages[..i]
      {
        assert Look(rows, MessageKey(h, i)) == RowOf(state, MessageKey(h, i));
        if keys[i] in rows {
          match rows[keys[i]] {
            case MessageRow(entry) => history := history + [entry];
            case _ => assert false;
          }
        }
      }
    }

    /** Remove a session from both text indexes, then every row under its prefix; says whether any was. */
    method Remove(h: Bytes) returns (existed: bool)
      requires Valid() && NoSlash(h)
      modifies this, text
      ensures Valid() && state == Removed(old(state), h) && entered == Removed(old(entered), h)
      ensures MetaDocs() == map k | k in old(MetaDocs()) && !IsPrefix(Base(h), k) :: old(MetaDocs())[k]
      ensures existed <==> h in old(state).sessions || h in old(state).archives
    {
      hide Fit, Docs, MetaDocs, Look, RowOf, Spelled, Base, Holds, Indexed, Tidy, IsPrefix, Bounded, Removed, Serialized;
      SerializedOtherwise(entered, h, "", []);
      RemovedBounded(state, h);
      DropDocs(Base(h));
      existed := RemoveRows(h);
      RemovedHolds(old(rows), rows, state, h);
      RemovedIndexed(lang, old(Docs()), Docs(), entered, h);
      state := Removed(state, h);
      entered := Removed(entered, h);
    }

    /** Drop what either text index a session is in holds under a prefix. */
    method DropDocs(prefix: Bytes)
      requires Fit()
      modifies text
      ensures Fit() && Docs() == map k | k in old(Docs()) && !IsPrefix(prefix, k) :: old(Docs())[k]
      ensures MetaDocs() == map k | k in old(MetaDocs()) && !IsPrefix(prefix, k) :: old(MetaDocs())[k]
    {
      hide T.AllIndexed, T.Tidy, IsPrefix, Tokens.Sane;
      text.DropTextPrefix(T.Messages, prefix);
      text.DropTextPrefix(T.SessionMeta, prefix);
    }

    method RemoveRows(h: Bytes) returns (existed: bool)
      requires Tidy(rows) && Holds(rows, state) && NoSlash(h)
      modifies `rows
      ensures rows == map key | key in old(rows) && !IsPrefix(Base(h), key) :: old(rows)[key]
      ensures Tidy(rows)
      ensures existed <==> h in state.sessions || h in state.archives
    {
      var keys := Scan(Base(h));
      AnyUnder(rows, state, h, keys);
      AscendsApart(keys);
      hide Spelled, Base, Holds, IsPrefix, Ascends;
      existed := false;
      for i := 0 to |keys|
        invariant existed == (i > 0) && rows == Without(old(rows), keys[..i])
      {
        assert keys[i] in keys;
        var was := keys[i] in rows;
        WithoutOne(old(rows), keys, i);
        rows := rows - {keys[i]};
        existed := existed || was;
      }
      assert keys[..|keys|] == keys;
    }
  }

  ghost function Without(rows: Rows, keys: seq<Bytes>): Rows {
    map b | b in rows && b !in keys :: rows[b]
  }

  lemma WithoutOne(rows: Rows, keys: seq<Bytes>, i: nat)
    requires i < |keys| && keys[i] in rows && keys[i] !in keys[..i]
    ensures keys[i] in Without(rows, keys[..i])
    ensures Without(rows, keys[..i + 1]) == Without(rows, keys[..i]) - {keys[i]}
  {
    assert keys[..i + 1] == keys[..i] + [keys[i]];
  }

  lemma AscendsApart(keys: seq<Bytes>)
    requires Ascends(keys)
    ensures forall i :: 0 <= i < |keys| ==> keys[i] !in keys[..i]
  {
    forall i, j | 0 <= j < i < |keys|
      ensures keys[i] != keys[j]
    {
      LessIrreflexive(keys[i]);
    }
  }

  /** Something is under a session's prefix exactly when the session or its marker is there. */
  lemma AnyUnder(rows: Rows, st: State, h: Bytes, found: seq<Bytes>)
    requires Tidy(rows) && Holds(rows, st) && NoSlash(h)
    requires forall b :: b in found <==> b in rows && IsPrefix(Base(h), b)
    ensures found != [] <==> h in st.sessions || h in st.archives
  {
    hide Spelled, Base, IsPrefix;
    if found != [] {
      assert found[0] in found;
      var k :| Proper(k) && Spelled(k) == found[0];
      SessionScope(h, k);
      assert Look(rows, k) == RowOf(st, k);
    }
    SessionScope(h, MetaKey(h));
    SessionScope(h, ArchiveKey(h));
    assert Look(rows, MetaKey(h)) == RowOf(st, MetaKey(h));
    assert Look(rows, ArchiveKey(h)) == RowOf(st, ArchiveKey(h));
  }

  lemma TidyRows(l: Tokens.Lang, rows: Rows, docs: T.Docs, st: State, entered: State)
    requires Agrees(l, rows, docs, st, entered)
    ensures Tidy(rows)
  {
  }

  lemma NothingBeyond(l: Tokens.Lang, docs: T.Docs, st: State, h: Bytes)
    requires Indexed(l, docs, st) && NoSlash(h) && h in st.sessions
    ensures forall n: nat :: n >= |st.sessions[h].messages| ==> Find(docs, Spelled(MessageKey(h, n))) == None
  {
    hide Spelled, Find, MessageKeyed;
    forall n: nat | n >= |st.sessions[h].messages|
      ensures Find(docs, Spelled(MessageKey(h, n))) == None
    {
      assert Find(docs, Spelled(MessageKey(h, n))) == DocAt(l, st, h, n);
    }
  }

  lemma NothingWritten(l: Tokens.Lang, rows: Rows, docs: T.Docs, h: Bytes, from: nat)
    ensures Wrote(rows, rows, h, from, []) && DocsMore(l, docs, docs, h, from, [])
  {
  }

  lemma StoredPieces(entries: seq<Entry>)
    ensures AllStored(entries[..0]) == []
    ensures forall i :: 0 <= i < |entries| ==>
      AllStored(entries[..i + 1]) == AllStored(entries[..i]) + [AsStored(entries[i])]
  {
  }

  lemma NothingErased(rows: Rows, docs: T.Docs, h: Bytes, lo: nat)
    ensures Erased(rows, rows, h, lo, lo) && DocsErased(docs, docs, h, lo, lo)
  {
  }

  lemma SessionBound(st: State, h: Bytes)
    requires Bounded(st) && h in st.sessions
    ensures |st.sessions[h].messages| <= POSITIONS
  {
  }

  lemma AppendedBounded(st: State, h: Bytes, entries: seq<Entry>, info: string)
    requires Bounded(st) && h in st.sessions && |st.sessions[h].messages| + |entries| <= POSITIONS
    ensures Bounded(Appended(st, h, entries, info))
  {
  }

  lemma TruncatedBounded(st: State, h: Bytes, keep: nat)
    requires Bounded(st)
    ensures Bounded(Truncated(st, h, keep))
  {
  }

  lemma MarkedBounded(st: State, h: Bytes, name: Bytes)
    requires Bounded(st) && NoSlash(h)
    ensures Bounded(Marked(st, h, name))
  {
  }

  lemma RemovedBounded(st: State, h: Bytes)
    requires Bounded(st)
    ensures Bounded(Removed(st, h))
  {
  }
}
