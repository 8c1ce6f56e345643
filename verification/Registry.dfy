/**
 * The live sessions: two indexes over one set, recency by tick, and a byte bound kept by dropping
 * the least recently used session nothing else holds.
 */
module Registry {
  import opened Wrappers

  type Handle = string

  /** `bytes` is the history size when it was last readable. */
  datatype Live = Live(handle: Handle, cancel: bool, touched: nat, bytes: nat)

  /** What the registry cannot decide: who else holds a session, which are mid-run, how big each is. */
  datatype World = World(held: set<nat>, locked: set<nat>, sizes: nat -> nat)

  // ----- Resident bytes -----

  ghost function Resident(m: map<nat, Live>): nat {
    if m == map[] then 0 else var id :| id in m; Resident(m - {id}) + m[id].bytes
  }

  lemma {:induction false} ResidentRemove(m: map<nat, Live>, id: nat)
    requires id in m
    ensures Resident(m) == Resident(m - {id}) + m[id].bytes
    decreases |m|
  {
    var j :| j in m && Resident(m) == Resident(m - {j}) + m[j].bytes;
    if j != id {
      ResidentRemove(m - {j}, id);
      ResidentRemove(m - {id}, j);
      assert m - {j} - {id} == m - {id} - {j};
    }
  }

  method SumBytes(m: map<nat, Live>) returns (total: nat)
    ensures total == Resident(m)
  {
    total := 0;
    var rest := m;
    while rest != map[]
      invariant total + Resident(rest) == Resident(m)
      decreases |rest|
    {
      var id :| id in rest;
      ResidentRemove(rest, id);
      total := total + rest[id].bytes;
      rest := rest - {id};
    }
  }

  // ----- Eviction -----

  predicate Candidate(m: map<nat, Live>, held: set<nat>, id: nat) {
    id in m && !m[id].cancel && id !in held
  }

  /** Less recently touched; ties fall to the smaller id, the order the map is walked in. */
  predicate Older(m: map<nat, Live>, a: nat, b: nat)
    requires a in m && b in m
  {
    m[a].touched < m[b].touched || (m[a].touched == m[b].touched && a <= b)
  }

  ghost predicate IsVictim(m: map<nat, Live>, held: set<nat>, v: nat) {
    Candidate(m, held, v) && forall c :: Candidate(m, held, c) ==> Older(m, v, c)
  }

  /** The sessions left: drop victims while over the bound and there is one to drop. */
  ghost function Evicted(m: map<nat, Live>, held: set<nat>, max: nat): map<nat, Live>
    decreases |m|
  {
    if Resident(m) > max && exists v :: IsVictim(m, held, v) then
      var v :| IsVictim(m, held, v);
      Evicted(m - {v}, held, max)
    else m
  }

  function Refreshed(m: map<nat, Live>, w: World): map<nat, Live> {
    map id | id in m :: if id in w.locked then m[id] else m[id].(bytes := w.sizes(id))
  }

  method PickVictim(m: map<nat, Live>, held: set<nat>) returns (victim: Option<nat>)
    ensures victim.Some? ==> IsVictim(m, held, victim.value)
    ensures victim.None? ==> forall c :: !Candidate(m, held, c)
  {
    victim := None;
    var rest := m.Keys;
    while rest != {}
      invariant rest <= m.Keys
      invariant victim.Some? ==> Candidate(m, held, victim.value)
      invariant victim.None? ==> forall c :: c in m && c !in rest ==> !Candidate(m, held, c)
      invariant victim.Some? ==>
                  forall c :: c in m && c !in rest && Candidate(m, held, c) ==> Older(m, victim.value, c)
      decreases |rest|
    {
      var id :| id in rest;
      rest := rest - {id};
      if Candidate(m, held, id) && (victim.None? || Older(m, id, victim.value)) {
        victim := Some(id);
      }
    }
  }

  lemma VictimUnique(m: map<nat, Live>, held: set<nat>, a: nat, b: nat)
    requires IsVictim(m, held, a) && IsVictim(m, held, b)
    ensures a == b
  {
  }

  lemma EvictedStep(m: map<nat, Live>, held: set<nat>, max: nat, v: nat)
    requires Resident(m) > max && IsVictim(m, held, v)
    ensures Evicted(m, held, max) == Evicted(m - {v}, held, max)
  {
    var u :| IsVictim(m, held, u) && Evicted(m, held, max) == Evicted(m - {u}, held, max);
    VictimUnique(m, held, u, v);
  }

  lemma {:induction false} OldestExists(m: map<nat, Live>, ids: set<nat>) returns (v: nat)
    requires ids != {} && forall id :: id in ids ==> id in m
    ensures v in ids && forall c :: c in ids ==> Older(m, v, c)
    decreases |ids|
  {
    var x :| x in ids;
    if ids == {x} {
      return x;
    }
    var o := OldestExists(m, ids - {x});
    v := if Older(m, x, o) then x else o;
    forall c | c in ids
      ensures Older(m, v, c)
    {
      assert c == x || c in ids - {x};
    }
  }

  lemma VictimExists(m: map<nat, Live>, held: set<nat>, c: nat)
    requires Candidate(m, held, c)
    ensures exists v :: IsVictim(m, held, v)
  {
    var ids := set id | id in m && Candidate(m, held, id);
    assert c in ids;
    var v := OldestExists(m, ids);
    assert IsVictim(m, held, v);
  }

  /** What stays is a part of what was there, and every victim was a candidate. */
  lemma {:induction false} EvictedPart(m: map<nat, Live>, held: set<nat>, max: nat)
    ensures var kept := Evicted(m, held, max);
            && kept.Keys <= m.Keys && (forall id :: id in kept ==> kept[id] == m[id])
            && forall id :: id in m && id !in kept ==> Candidate(m, held, id)
    decreases |m|
  {
    if Resident(m) > max && exists v :: IsVictim(m, held, v) {
      var v :| IsVictim(m, held, v);
      EvictedStep(m, held, max, v);
      EvictedPart(m - {v}, held, max);
    }
  }

  /** Eviction ends within the bound, or with nothing left but sessions someone holds or runs. */
  lemma {:induction false} EvictedWithinBound(m: map<nat, Live>, held: set<nat>, max: nat)
    ensures var kept := Evicted(m, held, max);
            Resident(kept) <= max || forall c :: !Candidate(kept, held, c)
    decreases |m|
  {
    if Resident(m) > max {
      if c :| Candidate(m, held, c) {
        VictimExists(m, held, c);
        var v :| IsVictim(m, held, v);
        EvictedStep(m, held, max, v);
        EvictedWithinBound(m - {v}, held, max);
      }
    }
  }

  /** Every victim was used less recently than every candidate that stays. */
  lemma {:induction false} EvictedAreOldest(m: map<nat, Live>, held: set<nat>, max: nat, gone: nat, stays: nat)
    requires gone in m && gone !in Evicted(m, held, max)
    requires stays in Evicted(m, held, max) && Candidate(m, held, stays)
    ensures stays in m && Older(m, gone, stays)
    decreases |m|
  {
    EvictedPart(m, held, max);
    if Resident(m) > max && exists v :: IsVictim(m, held, v) {
      var v :| IsVictim(m, held, v);
      EvictedStep(m, held, max, v);
      if gone != v {
        EvictedPart(m - {v}, held, max);
        EvictedAreOldest(m - {v}, held, max, gone, stays);
      }
    }
  }

  /** Nothing goes once the bound is met: without its newest victim's removal it was not. */
  lemma {:induction false} EvictedOnlyWhileOver(m: map<nat, Live>, held: set<nat>, max: nat, newest: nat)
    requires newest in m && newest !in Evicted(m, held, max)
    requires forall id :: id in m && id !in Evicted(m, held, max) ==> Older(m, id, newest)
    ensures Resident(Evicted(m, held, max)) + m[newest].bytes > max
    decreases |m|
  {
    EvictedPart(m, held, max);
    var v :| IsVictim(m, held, v);
    EvictedStep(m, held, max, v);
    EvictedPart(m - {v}, held, max);
    if newest in m - {v} {
      EvictedOnlyWhileOver(m - {v}, held, max, newest);
    } else {
      forall id | id in m && id !in Evicted(m, held, max)
        ensures id == v
      {
        assert Older(m, id, newest) && Older(m, v, id);
      }
      assert Evicted(m, held, max) == m - {v};
      ResidentRemove(m, v);
    }
  }

  /** Each figure is the one just read, or the last one of a session that could not be read. */
  ghost predicate Fresh(before: map<nat, Live>, after: map<nat, Live>, w: World) {
    forall id :: id in after && id in before ==>
      after[id] == before[id].(bytes := if id in w.locked then before[id].bytes else w.sizes(id))
  }

  lemma EvictedFresh(before: map<nat, Live>, w: World, max: nat)
    ensures Fresh(before, Evicted(Refreshed(before, w), w.held, max), w)
    ensures Evicted(Refreshed(before, w), w.held, max).Keys <= before.Keys
  {
    EvictedPart(Refreshed(before, w), w.held, max);
    hide Evicted;
  }

  /** What a caller of `evict` may rely on. */
  ghost predicate Settled(before: map<nat, Live>, after: map<nat, Live>, w: World, max: nat) {
    && after.Keys <= before.Keys
    && (forall id :: id in after ==> after[id].handle == before[id].handle)
    && (forall id :: id in before && id !in after ==> !before[id].cancel && id !in w.held)
    && (Resident(after) <= max || forall c :: !Candidate(after, w.held, c))
  }

  lemma EvictSettles(before: map<nat, Live>, w: World, max: nat)
    ensures Settled(before, Evicted(Refreshed(before, w), w.held, max), w, max)
  {
    EvictedPart(Refreshed(before, w), w.held, max);
    EvictedWithinBound(Refreshed(before, w), w.held, max);
    hide Evicted, Resident;
  }

  // ----- The two indexes -----

  ghost predicate Inverse(byId: map<nat, Live>, byHandle: map<Handle, nat>) {
    && (forall id :: id in byId ==> byId[id].handle in byHandle && byHandle[byId[id].handle] == id)
    && (forall h :: h in byHandle ==> byHandle[h] in byId && byId[byHandle[h]].handle == h)
  }

  /** The indexes agree, ids and ticks are behind their counters, and no two touches share a tick. */
  ghost predicate Consistent(byId: map<nat, Live>, byHandle: map<Handle, nat>, nextId: nat, tick: nat) {
    && Inverse(byId, byHandle)
    && (forall id :: id in byId ==> id < nextId && byId[id].touched < tick)
    && (forall i, j :: i in byId && j in byId && i != j ==> byId[i].touched != byId[j].touched)
  }

  lemma RefreshStaysConsistent(byId: map<nat, Live>, byHandle: map<Handle, nat>, nextId: nat, tick: nat, w: World)
    requires Consistent(byId, byHandle, nextId, tick)
    ensures Consistent(Refreshed(byId, w), byHandle, nextId, tick)
  {
  }

  lemma HandleNames(byId: map<nat, Live>, byHandle: map<Handle, nat>, nextId: nat, tick: nat, id: nat)
    requires Consistent(byId, byHandle, nextId, tick) && id in byId
    ensures byId[id].handle in byHandle && byHandle[byId[id].handle] == id
  {
  }

  /** The sessions once a new one is in: another under its handle is displaced. */
  function Registered(m: map<nat, Live>, byHandle: map<Handle, nat>, id: nat, live: Live): map<nat, Live> {
    (if live.handle in byHandle then m - {byHandle[live.handle]} else m)[id := live]
  }

  /** The full sweep runs only when the cached figures are over the bound. */
  ghost function Enforced(m: map<nat, Live>, w: World, max: Option<nat>): map<nat, Live> {
    if max.Some? && Resident(m) > max.value then Evicted(Refreshed(m, w), w.held, max.value) else m
  }

  class Sessions {
    var byId: map<nat, Live>
    var byHandle: map<Handle, nat>
    var nextId: nat
    var tick: nat
    const max: Option<nat>

    ghost predicate Valid()
      reads this
    {
      Consistent(byId, byHandle, nextId, tick)
    }

    constructor (max: Option<nat>)
      ensures Valid() && byId == map[] && this.max == max
    {
      byId, byHandle, nextId, tick, this.max := map[], map[], 1, 0, max;
    }

    method Touch(id: nat)
      requires Valid() && id in byId
      modifies `byId, `tick
      ensures Valid() && byId == old(byId)[id := old(byId)[id].(touched := old(tick))] && tick == old(tick) + 1
    {
      byId := byId[id := byId[id].(touched := tick)];
      tick := tick + 1;
    }

    method FindByHandle(h: Handle) returns (id: Option<nat>)
      requires Valid()
      modifies `byId, `tick
      ensures Valid() && (id.Some? <==> h in byHandle)
      ensures id.None? ==> byId == old(byId)
      ensures id.Some? ==> id.value == byHandle[h]
      ensures id.Some? ==> byId == old(byId)[id.value := old(byId)[id.value].(touched := old(tick))]
    {
      if h !in byHandle || byHandle[h] !in byId {
        return None;
      }
      id := Some(byHandle[h]);
      Touch(byHandle[h]);
    }

    /** `Registry::remove`: both indexes at once. */
    method Remove(id: nat) returns (was: bool)
      requires Valid()
      modifies `byId, `byHandle
      ensures Valid() && was == (id in old(byId)) && byId == old(byId) - {id}
      ensures byHandle == if was then old(byHandle) - {old(byId)[id].handle} else old(byHandle)
    {
      was := id in byId;
      if was {
        var h := byId[id].handle;
        byId := byId - {id};
        byHandle := byHandle - {h};
      } else {
        assert byId - {id} == byId;
      }
    }

    /** `Registry::insert`: a live session under the same handle is displaced, not shadowed. */
    method Register(id: nat, live: Live)
      requires Valid() && id !in byId && id < nextId && live.touched < tick
      requires forall i :: i in byId ==> byId[i].touched != live.touched
      modifies `byId, `byHandle
      ensures Valid() && byHandle == old(byHandle)[live.handle := id]
      ensures byId == (if live.handle in old(byHandle) then old(byId) - {old(byHandle)[live.handle]} else old(byId))[id := live]
    {
      var displaced := if live.handle in byHandle then Some(byHandle[live.handle]) else None;
      byHandle := byHandle[live.handle := id];
      if displaced.Some? {
        byId := byId - {displaced.value};
      }
      byId := byId[id := live];
    }

    /** Take new figures of the sessions that are not locked, then sweep: oldest candidate first, down to the bound. */
    method Evict(w: World)
      requires Valid()
      modifies `byId, `byHandle
      ensures Valid()
      ensures max.None? ==> byId == old(byId)
      ensures max.Some? ==> byId == Evicted(Refreshed(old(byId), w), w.held, max.value)
      ensures max.Some? ==> Settled(old(byId), byId, w, max.value) && Fresh(old(byId), byId, w)
    {
      if max.None? {
        return;
      }
      EvictSettles(byId, w, max.value);
      EvictedFresh(byId, w, max.value);
      RefreshStaysConsistent(byId, byHandle, nextId, tick, w);
      hide *;
      byId := Refreshed(byId, w);
      ghost var start := byId;
      var more := true;
      while more
        invariant Valid()
        invariant Evicted(start, w.held, max.value) == Evicted(byId, w.held, max.value)
        invariant !more ==> byId == Evicted(byId, w.held, max.value)
        decreases if more then 1 else 0, |byId|
      {
        more := EvictOne(w, max.value);
      }
    }

    /** One turn of the eviction loop: false when the bound holds or nobody can go. */
    method EvictOne(w: World, bound: nat) returns (more: bool)
      requires Valid()
      modifies `byId, `byHandle
      ensures Valid()
      ensures Evicted(old(byId), w.held, bound) == Evicted(byId, w.held, bound)
      ensures if more then |byId| < |old(byId)| else byId == old(byId) == Evicted(byId, w.held, bound)
    {
      var resident := SumBytes(byId);
      if resident <= bound {
        return false;
      }
      var victim := PickVictim(byId, w.held);
      if victim.None? {
        return false;
      }
      EvictedStep(byId, w.held, bound, victim.value);
      hide Inverse, Evicted, IsVictim;
      var _ := Remove(victim.value);
      assert |byId.Keys| < |old(byId).Keys|;
      more := true;
    }

    /** The caller keeps the new session's handle, so `w.held` has its id. */
    method Insert(h: Handle, w: World) returns (id: nat)
      requires Valid() && nextId in w.held
      modifies this
      ensures Valid() && id == old(nextId) && id in byId && byId[id].handle == h
      ensures h in byHandle && byHandle[h] == id
      ensures var joined := Registered(old(byId), old(byHandle), id, Live(h, false, old(tick), w.sizes(id)));
              byId == if max.None? then joined else Evicted(Refreshed(joined, w), w.held, max.value)
      ensures forall i :: i in byId && i != id ==> i in old(byId)
      ensures max.Some? ==> Resident(byId) <= max.value || forall c :: !Candidate(byId, w.held, c)
      ensures forall i :: i in old(byId) && i !in byId ==> old(byId)[i].handle == h || (max.Some? && i !in w.held && !old(byId)[i].cancel)
    {
      id := RegisterNew(h, w);
      hide Consistent, Evicted, Resident;
      Evict(w);
      HandleNames(byId, byHandle, nextId, tick, id);
    }

    method RegisterNew(h: Handle, w: World) returns (id: nat)
      requires Valid()
      modifies this
      ensures Valid() && id == old(nextId) && id in byId && byId[id].handle == h
      ensures byId == Registered(old(byId), old(byHandle), id, Live(h, false, old(tick), w.sizes(id)))
      ensures forall i :: i in byId && i != id ==> i in old(byId) && byId[i] == old(byId)[i]
      ensures forall i :: i in old(byId) && i !in byId ==> old(byId)[i].handle == h
    {
      id := nextId;
      nextId := nextId + 1;
      var live := Live(h, false, tick, w.sizes(id));
      tick := tick + 1;
      Register(id, live);
    }

    /** Re-measure one session when it is idle, and enforce the bound if the sum is now over it. */
    method Reprice(id: nat, w: World)
      requires Valid()
      modifies `byId, `byHandle
      ensures Valid()
      ensures id in w.held && id in old(byId) ==> id in byId
      ensures id !in old(byId) || id in w.locked ==> byId == old(byId)
      ensures id in old(byId) && id !in w.locked ==>
                byId == Enforced(old(byId)[id := old(byId)[id].(bytes := w.sizes(id))], w, max)
      ensures id in old(byId) && id !in w.locked ==>
                var priced := old(byId)[id := old(byId)[id].(bytes := w.sizes(id))];
                if max.None? || Resident(priced) <= max.value then byId == priced
                else Settled(priced, byId, w, max.value) && Fresh(priced, byId, w)
    {
      hide Evicted, Resident;
      if id !in byId || id in w.locked {
        return;
      }
      byId := byId[id := byId[id].(bytes := w.sizes(id))];
      var resident := SumBytes(byId);
      if max.None? || resident <= max.value {
        return;
      }
      Evict(w);
    }

    method Close(id: nat) returns (was: bool)
      requires Valid()
      modifies `byId, `byHandle
      ensures Valid() && was == (id in old(byId)) && byId == old(byId) - {id}
    {
      was := Remove(id);
    }

    method BeginCancel(id: nat) returns (ok: bool)
      requires Valid()
      modifies `byId
      ensures Valid() && ok == (id in old(byId))
      ensures byId == if ok then old(byId)[id := old(byId)[id].(cancel := true)] else old(byId)
    {
      ok := id in byId;
      if ok {
        byId := byId[id := byId[id].(cancel := true)];
      }
    }

    /** Safe for an id already gone: a closed session took its token with it. */
    method EndCancel(id: nat)
      requires Valid()
      modifies `byId
      ensures Valid()
      ensures byId == if id in old(byId) then old(byId)[id := old(byId)[id].(cancel := false)] else old(byId)
    {
      if id in byId {
        byId := byId[id := byId[id].(cancel := false)];
      }
    }
  }
}
