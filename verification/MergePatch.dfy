/**
 JSON merge patch, RFC 7396 section 2, the way the API server applies the patch
 that ReplaceInfrastructureSpec sends (pkg/framework/infrastructure.go).
 */
module MergePatch {

  datatype Json =
    | Null
    | Bool(b: bool)
    | Num(n: int)
    | Str(s: string)
    | Arr(elems: seq<Json>)
    | Obj(fields: map<string, Json>)

  function Fields(j: Json): map<string, Json> {
    if j.Obj? then j.fields else map[]
  }

  /** MergePatch(Target, Patch) of the RFC: null deletes, objects merge, anything else replaces. */
  function Merge(target: Json, patch: Json): Json
    decreases patch
  {
    if !patch.Obj? then patch else
    var was := Fields(target);
    Obj(map k | k in was.Keys + patch.fields.Keys && !(k in patch.fields && patch.fields[k].Null?)
          :: if k in patch.fields then Merge(if k in was then was[k] else Null, patch.fields[k]) else was[k])
  }

  /** Examples of Appendix A of the RFC: null deletes, and arrays are replaced. */
  lemma FlatExamples()
    ensures Merge(Obj(map["a" := Str("b"), "b" := Str("c")]), Obj(map["a" := Null])) == Obj(map["b" := Str("c")])
    ensures Merge(Arr([Str("a"), Str("b")]), Arr([Str("c"), Str("d")])) == Arr([Str("c"), Str("d")])
    ensures Merge(Arr([Num(1), Num(2)]), Obj(map["a" := Str("b"), "c" := Null])) == Obj(map["a" := Str("b")])
  {
    assert Merge(Obj(map["a" := Str("b"), "b" := Str("c")]), Obj(map["a" := Null])).fields == map["b" := Str("c")];
    assert Merge(Arr([Num(1), Num(2)]), Obj(map["a" := Str("b"), "c" := Null])).fields == map["a" := Str("b")];
  }

  lemma MergeOneMember(target: Json, patch: Json, k: string)
    requires !Merge(target, patch).Null? && !patch.Null?
    ensures Merge(Obj(map[k := target]), Obj(map[k := patch])) == Obj(map[k := Merge(target, patch)])
  {
    assert Merge(Obj(map[k := target]), Obj(map[k := patch])).fields == map[k := Merge(target, patch)];
  }

  /** Another one: objects merge member by member. */
  lemma NestedExample()
    ensures
      var document := Obj(map["a" := Obj(map["b" := Str("c")])]);
      var patch := Obj(map["a" := Obj(map["b" := Str("d"), "c" := Null])]);
      Merge(document, patch) == Obj(map["a" := Obj(map["b" := Str("d")])])
  {
    var target, patch := Obj(map["b" := Str("c")]), Obj(map["b" := Str("d"), "c" := Null]);
    assert Merge(target, patch).fields == map["b" := Str("d")];
    MergeOneMember(target, patch, "a");
  }

  /** The members after a merge of two objects. */
  function MergedFields(was: map<string, Json>, patch: map<string, Json>): map<string, Json> {
    map k | k in was.Keys + patch.Keys && !(k in patch && patch[k].Null?)
      :: if k in patch then Merge(if k in was then was[k] else Null, patch[k]) else was[k]
  }

  lemma MergeStep(was: map<string, Json>, patch: map<string, Json>)
    ensures Merge(Obj(was), Obj(patch)) == Obj(MergedFields(was, patch))
  {
  }

  /** No object member is null; arrays are replaced whole, so their elements do not matter. */
  predicate NullFree(j: Json) {
    j.Obj? ==> forall k :: k in j.fields ==> !j.fields[k].Null? && NullFree(j.fields[k])
  }

  /** Wherever the patch has an object and the target has one too, the target has no other keys. */
  predicate Covered(target: Json, patch: Json)
    decreases patch
  {
    patch.Obj? && target.Obj? ==>
      && target.fields.Keys <= patch.fields.Keys
      && forall k :: k in target.fields && k in patch.fields ==> Covered(target.fields[k], patch.fields[k])
  }

  lemma {:induction false} MergeIntoNothing(target: Json, patch: Json)
    requires NullFree(patch) && !target.Obj?
    ensures Merge(target, patch) == patch
    decreases patch
  {
    if patch.Obj? {
      forall k | k in patch.fields
        ensures Merge(Null, patch.fields[k]) == patch.fields[k]
      {
        MergeIntoNothing(Null, patch.fields[k]);
      }
      assert Merge(target, patch).fields == patch.fields;
    }
  }

  /** A null-free patch replaces the target exactly when it covers it; otherwise old members survive. */
  lemma {:induction false} ReplacesIff(target: Json, patch: Json)
    requires NullFree(patch)
    ensures Merge(target, patch) == patch <==> Covered(target, patch)
    decreases patch
  {
    if !patch.Obj? {
    } else if !target.Obj? {
      MergeIntoNothing(target, patch);
    } else {
      var r := Merge(target, patch).fields;
      forall k | k in patch.fields
        ensures k in r
        ensures k in target.fields ==> (r[k] == patch.fields[k] <==> Covered(target.fields[k], patch.fields[k]))
        ensures k !in target.fields ==> r[k] == patch.fields[k]
      {
        if k in target.fields {
          ReplacesIff(target.fields[k], patch.fields[k]);
        } else {
          MergeIntoNothing(Null, patch.fields[k]);
        }
      }
      assert r.Keys == target.fields.Keys + patch.fields.Keys;
      if Covered(target, patch) {
        assert r == patch.fields;
      } else if target.fields.Keys <= patch.fields.Keys {
        var k :| k in target.fields && k in patch.fields && !Covered(target.fields[k], patch.fields[k]);
        assert r[k] != patch.fields[k];
      }
    }
  }

  lemma {:induction false} CoveredSelf(j: Json)
    ensures Covered(j, j)
    decreases j
  {
    if j.Obj? {
      forall k | k in j.fields
        ensures Covered(j.fields[k], j.fields[k])
      {
        CoveredSelf(j.fields[k]);
      }
    }
  }

  /** Applying a null-free patch twice is applying it once. */
  lemma {:induction false} MergeIdempotent(target: Json, patch: Json)
    requires NullFree(patch)
    ensures Merge(Merge(target, patch), patch) == Merge(target, patch)
    decreases patch
  {
    if patch.Obj? {
      var m := Merge(target, patch);
      forall k | k in patch.fields
        ensures k in m.fields && Merge(m.fields[k], patch.fields[k]) == m.fields[k]
      {
        MergeIdempotent(if k in Fields(target) then Fields(target)[k] else Null, patch.fields[k]);
      }
      assert Merge(m, patch).fields == m.fields;
    }
  }
}
