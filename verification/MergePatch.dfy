/** Merging a JSON patch into a stored value, measured against section 2 of RFC 7386. */
module MergePatch {

  datatype Json = Null | Scalar(text: string) | Arr(items: seq<Json>) | Obj(fields: map<string, Json>)

  function At(fields: map<string, Json>, key: string): Json {
    if key in fields then fields[key] else Null
  }

  /** The algorithm of RFC 7386, section 2: a target that is not an object is merged as an empty one. */
  function Patched(target: Json, patch: Json): Json
    decreases patch
  {
    if !patch.Obj? then patch
    else
      var t := if target.Obj? then target.fields else map[];
      Obj(map key | key in t.Keys + patch.fields.Keys && !(key in patch.fields && patch.fields[key].Null?) ::
            if key in patch.fields then Patched(At(t, key), patch.fields[key]) else t[key])
  }

  /** What the code does: it merges only an object into an object, and otherwise replaces. */
  function Merged(base: Json, patch: Json): Json
    decreases patch
  {
    if !base.Obj? || !patch.Obj? then patch
    else
      Obj(map key | key in base.fields.Keys + patch.fields.Keys && !(key in patch.fields && patch.fields[key].Null?) ::
            if key in patch.fields then Merged(At(base.fields, key), patch.fields[key]) else base.fields[key])
  }

  /** Key by key, in whatever order the patch's map gives them. */
  method Merge(base: Json, patch: Json) returns (r: Json)
    ensures r == Merged(base, patch)
    decreases patch
  {
    if !base.Obj? || !patch.Obj? {
      return patch;
    }
    MergedFieldsAre(base, patch);
    MergedIs(base, patch);
    hide Merged, MergedFields;
    var fields := base.fields;
    var rest := patch.fields.Keys;
    while rest != {}
      invariant rest <= patch.fields.Keys
      invariant forall key :: key in rest || key !in patch.fields ==>
                  (key in fields <==> key in base.fields) && (key in fields ==> fields[key] == base.fields[key])
      invariant forall key :: key in patch.fields && key !in rest ==>
                  && (key in fields <==> !patch.fields[key].Null?)
                  && (key in fields ==> fields[key] == Merged(At(base.fields, key), patch.fields[key]))
      decreases |rest|
    {
      var key :| key in rest;
      rest := rest - {key};
      if patch.fields[key].Null? {
        fields := fields - {key};
      } else {
        var value := Merge(At(fields, key), patch.fields[key]);
        fields := fields[key := value];
      }
    }
    assert fields == MergedFields(base, patch);
    r := Obj(fields);
  }

  function MergedFields(base: Json, patch: Json): map<string, Json>
    requires base.Obj? && patch.Obj?
  {
    Merged(base, patch).fields
  }

  lemma MergedIs(base: Json, patch: Json)
    requires base.Obj? && patch.Obj?
    ensures Merged(base, patch) == Obj(MergedFields(base, patch))
  {
  }

  /** The fields of a merge of two objects, key by key. */
  lemma MergedFieldsAre(base: Json, patch: Json)
    requires base.Obj? && patch.Obj?
    ensures forall key :: key in MergedFields(base, patch) <==>
              if key in patch.fields then !patch.fields[key].Null? else key in base.fields
    ensures forall key :: key in MergedFields(base, patch) ==>
              MergedFields(base, patch)[key]
              == if key in patch.fields then Merged(At(base.fields, key), patch.fields[key]) else base.fields[key]
  {
  }

  lemma PatchedFieldsAre(target: Json, patch: Json)
    requires patch.Obj?
    ensures Patched(target, patch).Obj?
    ensures var t := if target.Obj? then target.fields else map[];
            && (forall key :: key in Patched(target, patch).fields <==>
                  if key in patch.fields then !patch.fields[key].Null? else key in t)
            && forall key :: key in Patched(target, patch).fields ==>
                 Patched(target, patch).fields[key]
                 == if key in patch.fields then Patched(At(t, key), patch.fields[key]) else t[key]
  {
  }

  // ----- When the two agree -----

  /** No object member, at any object depth, is null. */
  predicate NullFree(patch: Json)
    decreases patch
  {
    patch.Obj? ==> forall key :: key in patch.fields ==> !patch.fields[key].Null? && NullFree(patch.fields[key])
  }

  /** No patch object that lands on a missing or non-object value holds a null. */
  predicate Lands(base: Json, patch: Json)
    decreases patch
  {
    patch.Obj? ==>
      if base.Obj?
      then forall key :: key in patch.fields ==> patch.fields[key].Null? || Lands(At(base.fields, key), patch.fields[key])
      else NullFree(patch)
  }

  /** On a value that is not an object, the RFC strips nulls and the code keeps them. */
  lemma {:induction false} PatchedOntoNothing(target: Json, patch: Json)
    requires !target.Obj?
    ensures Patched(target, patch) == patch <==> NullFree(patch)
    decreases patch
  {
    if patch.Obj? {
      PatchedFieldsAre(target, patch);
      forall key | key in patch.fields
        ensures Patched(Null, patch.fields[key]) == patch.fields[key] <==> NullFree(patch.fields[key])
      {
        PatchedOntoNothing(Null, patch.fields[key]);
      }
      var r := Patched(target, patch);
      hide Patched;
      if NullFree(patch) {
        assert r.fields == patch.fields;
      }
    }
  }

  /** The code is the RFC's algorithm exactly on the bases and patches that land this way. */
  lemma {:induction false} MergedIsPatchedIff(base: Json, patch: Json)
    ensures Merged(base, patch) == Patched(base, patch) <==> Lands(base, patch)
    decreases patch
  {
    if patch.Obj? && !base.Obj? {
      PatchedOntoNothing(base, patch);
    } else if patch.Obj? {
      MergedIs(base, patch);
      MergedFieldsAre(base, patch);
      PatchedFieldsAre(base, patch);
      forall key | key in patch.fields
        ensures Merged(At(base.fields, key), patch.fields[key]) == Patched(At(base.fields, key), patch.fields[key])
           <==> Lands(At(base.fields, key), patch.fields[key])
      {
        MergedIsPatchedIff(At(base.fields, key), patch.fields[key]);
      }
      FieldsAgreeIff(base, patch, Merged(base, patch).fields, Patched(base, patch).fields);
    }
  }

  lemma FieldsAgreeIff(base: Json, patch: Json, m: map<string, Json>, p: map<string, Json>)
    requires base.Obj? && patch.Obj?
    requires forall key :: key in m <==> if key in patch.fields then !patch.fields[key].Null? else key in base.fields
    requires m.Keys == p.Keys
    requires forall key :: key in m ==> if key in patch.fields then m[key] == Merged(At(base.fields, key), patch.fields[key])
                                        else m[key] == base.fields[key]
    requires forall key :: key in p ==> if key in patch.fields then p[key] == Patched(At(base.fields, key), patch.fields[key])
                                        else p[key] == base.fields[key]
    requires forall key :: key in patch.fields ==>
      (Merged(At(base.fields, key), patch.fields[key]) == Patched(At(base.fields, key), patch.fields[key])
       <==> Lands(At(base.fields, key), patch.fields[key]))
    ensures m == p <==> Lands(base, patch)
  {
    hide Merged, Patched;
    if m == p {
      forall key | key in patch.fields && !patch.fields[key].Null?
        ensures Lands(At(base.fields, key), patch.fields[key])
      {
        assert m[key] == p[key];
      }
    }
  }

  /** An explicit null for a field inside an object the store does not have yet is stored as null. */
  lemma NullSurvives(key: string, inner: string)
    ensures var patch := Obj(map[key := Obj(map[inner := Null])]);
            && Merged(Obj(map[]), patch) == patch
            && Patched(Obj(map[]), patch) == Obj(map[key := Obj(map[])])
  {
    var patch := Obj(map[key := Obj(map[inner := Null])]);
    var nested := patch.fields[key];
    assert Patched(Null, nested).fields == map[] by {
      PatchedFieldsAre(Null, nested);
    }
    PatchedFieldsAre(Obj(map[]), patch);
    MergedFieldsAre(Obj(map[]), patch);
    MergedIs(Obj(map[]), patch);
    assert Merged(Null, nested) == nested;
    hide Merged, Patched;
    assert MergedFields(Obj(map[]), patch) == patch.fields;
    assert Patched(Obj(map[]), patch).fields == map[key := Obj(map[])];
  }

  // ----- Applying a patch twice -----

  /** The RFC's algorithm applied twice is the algorithm applied once. */
  lemma {:induction false} PatchedTwice(target: Json, patch: Json)
    ensures Patched(Patched(target, patch), patch) == Patched(target, patch)
    decreases patch
  {
    if patch.Obj? {
      var once := Patched(target, patch);
      var t := if target.Obj? then target.fields else map[];
      PatchedFieldsAre(target, patch);
      PatchedFieldsAre(once, patch);
      forall key | key in patch.fields && !patch.fields[key].Null?
        ensures Patched(once.fields[key], patch.fields[key]) == once.fields[key]
      {
        PatchedTwice(At(t, key), patch.fields[key]);
      }
      hide Patched;
      assert Patched(once, patch).fields == once.fields;
    }
  }

  /** The code applied twice is the code applied once exactly where it agrees with the RFC. */
  lemma {:induction false} MergedTwiceIff(base: Json, patch: Json)
    ensures Merged(Merged(base, patch), patch) == Merged(base, patch) <==> Lands(base, patch)
    decreases patch
  {
    if patch.Obj? && !base.Obj? {
      MergedOntoItself(patch);
    } else if patch.Obj? {
      var once := Merged(base, patch);
      MergedIs(base, patch);
      MergedFieldsAre(base, patch);
      MergedIs(once, patch);
      MergedFieldsAre(once, patch);
      forall key | key in patch.fields && !patch.fields[key].Null?
        ensures Merged(once.fields[key], patch.fields[key]) == once.fields[key]
           <==> Lands(At(base.fields, key), patch.fields[key])
      {
        MergedTwiceIff(At(base.fields, key), patch.fields[key]);
      }
      hide Merged;
      var twice := Merged(once, patch);
      assert twice.fields.Keys == once.fields.Keys;
      if twice == once {
        forall key | key in patch.fields && !patch.fields[key].Null?
          ensures Lands(At(base.fields, key), patch.fields[key])
        {
          assert twice.fields[key] == once.fields[key];
        }
      }
      if Lands(base, patch) {
        assert twice.fields == once.fields;
      }
    }
  }

  lemma {:induction false} MergedOntoItself(patch: Json)
    ensures Merged(patch, patch) == patch <==> NullFree(patch)
    decreases patch
  {
    if patch.Obj? {
      MergedIs(patch, patch);
      MergedFieldsAre(patch, patch);
      forall key | key in patch.fields
        ensures Merged(patch.fields[key], patch.fields[key]) == patch.fields[key] <==> NullFree(patch.fields[key])
      {
        MergedOntoItself(patch.fields[key]);
      }
      hide Merged;
      var r := Merged(patch, patch);
      if NullFree(patch) {
        assert r.fields == patch.fields;
      }
    }
  }
}
