/** JSON trees, the configuration store's merge patch with its secret mask, and its recursive diff.
    A JSON number is an exact real; member order and text are not represented. */
module JsonPatch {
  import opened Wrappers

  datatype Json =
    | Null
    | Bool(b: bool)
    | Num(n: real)
    | Str(s: string)
    | Arr(items: seq<Json>)
    | Obj(fields: map<string, Json>)

  type Fields = map<string, Json>

  /** GET /v1/config shows this in place of a password; sent back, it means "do not change". */
  const MASK := "***"

  predicate IsPasswordField(key: string) {
    key == "password"
  }

  predicate IsMask(key: string, v: Json) {
    v == Str(MASK) && IsPasswordField(key)
  }

  function Get(m: Fields, k: string): Option<Json> {
    if k in m then Some(m[k]) else None
  }

  function FieldsOf(v: Option<Json>): Fields {
    if v.Some? && v.value.Obj? then v.value.fields else map[]
  }

  // ---------- what the store computes ----------

  /** The member `k` ends up with when patch member `v` meets the target's `was`; None deletes it. */
  function MergeMember(was: Option<Json>, k: string, v: Json): Option<Json>
    decreases v, 2
  {
    if v.Null? then None
    else if v.Obj? then Some(Obj(MergeFields(FieldsOf(was), v)))
    else if IsMask(k, v) then was
    else Some(v)
  }

  function MergeAt(target: Fields, patch: Json, k: string): Option<Json>
    requires patch.Obj?
    decreases patch, 0
  {
    if k in patch.fields then MergeMember(Get(target, k), k, patch.fields[k]) else Get(target, k)
  }

  function MergeFields(target: Fields, patch: Json): (out: Fields)
    requires patch.Obj?
    decreases patch, 1
  {
    map k | k in target.Keys + patch.fields.Keys && MergeAt(target, patch, k).Some? :: MergeAt(target, patch, k).value
  }

  /** The two loops of the store's mergePatch. Go visits map members in an unspecified order, so does `:|`. */
  method MergePatch(target: Fields, patch: Json) returns (out: Fields)
    requires patch.Obj?
    ensures out == MergeFields(target, patch)
    decreases patch
  {
    out := target;
    var rest := patch.fields.Keys;
    while rest != {}
      invariant rest <= patch.fields.Keys
      invariant forall k :: Get(out, k) == if k in rest then Get(target, k) else MergeAt(target, patch, k)
      decreases rest
    {
      var k :| k in rest;
      rest := rest - {k};
      var v := patch.fields[k];
      assert Get(out, k) == Get(target, k);
      if v.Null? {
        out := out - {k};
      } else if v.Obj? {
        var tm := FieldsOf(Get(out, k));
        var merged := MergePatch(tm, v);
        out := out[k := Obj(merged)];
      } else if !IsMask(k, v) {
        out := out[k := v];
      }
    }
    assert forall k :: Get(out, k) == MergeAt(target, patch, k);
    SameMembers(out, MergeFields(target, patch));
  }

  lemma SameMembers(a: Fields, b: Fields)
    requires forall k :: Get(a, k) == Get(b, k)
    ensures a == b
  {
    forall k | k in a ensures k in b && a[k] == b[k] { assert Get(a, k) == Get(b, k); }
    forall k | k in b ensures k in a { assert Get(a, k) == Get(b, k); }
  }

  // ---------- the standard it claims to implement ----------

  /** MergePatch(Target, Patch) as section 2 of RFC 7386 writes it; an undefined Target is Null. */
  function Rfc7386(target: Json, patch: Json): Json
    decreases patch
  {
    if !patch.Obj? then patch
    else
      var base := if target.Obj? then target.fields else map[];
      Obj(map k | k in base.Keys + patch.fields.Keys && !(k in patch.fields && patch.fields[k].Null?) ::
            if k in patch.fields
            then Rfc7386(if k in base then base[k] else Null, patch.fields[k])
            else base[k])
  }

  /** What the standard leaves at member `k` of an object target. */
  ghost function RfcAt(base: Fields, patch: Fields, k: string): Option<Json> {
    if k !in patch then Get(base, k)
    else if patch[k].Null? then None
    else Some(Rfc7386(if k in base then base[k] else Null, patch[k]))
  }

  /** The patch without its masked passwords, at any depth. */
  function StripMask(patch: Json): (r: Json)
    ensures patch.Obj? <==> r.Obj?
    ensures !patch.Obj? ==> r == patch
    decreases patch
  {
    if !patch.Obj? then patch
    else Obj(map k | k in patch.fields && !IsMask(k, patch.fields[k]) :: StripMask(patch.fields[k]))
  }

  /** What is taken out is the string `***` under `password`, and nothing else. */
  lemma StripsOnlyMaskedPasswords(k: string, v: Json)
    requires !v.Obj?
    ensures StripMask(Obj(map[k := v])) == if k == "password" && v == Str("***") then Obj(map[]) else Obj(map[k := v])
  {
    var stripped := StripMask(Obj(map[k := v])).fields;
    assert k == "password" && v == Str("***") ==> stripped == map[];
    assert !(k == "password" && v == Str("***")) ==> stripped == map[k := v];
  }

  ghost predicate MaskFree(patch: Json)
    decreases patch
  {
    patch.Obj? ==> forall k | k in patch.fields :: !IsMask(k, patch.fields[k]) && MaskFree(patch.fields[k])
  }

  /** Merging is exactly the standard's MergePatch of the patch with its masked leaves taken out. */
  lemma {:induction false} MergeIsRfcOfStripped(target: Fields, patch: Json)
    requires patch.Obj?
    ensures Obj(MergeFields(target, patch)) == Rfc7386(Obj(target), StripMask(patch))
    decreases patch
  {
    var stripped := StripMask(patch);
    var rfc := Rfc7386(Obj(target), stripped).fields;
    forall k ensures Get(MergeFields(target, patch), k) == Get(rfc, k) {
      assert Get(MergeFields(target, patch), k) == MergeAt(target, patch, k);
      assert k in stripped.fields ==> k in patch.fields && stripped.fields[k] == StripMask(patch.fields[k]);
      assert Get(rfc, k) == RfcAt(target, stripped.fields, k);
      if k in patch.fields && patch.fields[k].Obj? {
        var sub := patch.fields[k];
        MergeIsRfcOfStripped(FieldsOf(Get(target, k)), sub);
        RfcIgnoresNonObjects(if k in target then target[k] else Null, StripMask(sub));
      } else if k in patch.fields && !IsMask(k, patch.fields[k]) {
        assert k in stripped.fields;
      }
      assert MergeAt(target, patch, k) == RfcAt(target, stripped.fields, k);
    }
    SameMembers(MergeFields(target, patch), rfc);
  }

  lemma RfcIgnoresNonObjects(target: Json, patch: Json)
    requires patch.Obj?
    ensures Rfc7386(target, patch) == Rfc7386(Obj(if target.Obj? then target.fields else map[]), patch)
  {
  }

  lemma {:induction false} StripOfMaskFree(patch: Json)
    requires MaskFree(patch)
    ensures StripMask(patch) == patch
    decreases patch
  {
    if patch.Obj? {
      forall k | k in patch.fields ensures StripMask(patch.fields[k]) == patch.fields[k] {
        StripOfMaskFree(patch.fields[k]);
      }
      assert StripMask(patch).fields == patch.fields;
    }
  }

  /** With no mask in it, a patch is merged exactly as RFC 7386 says. */
  lemma MergeIsRfc(target: Fields, patch: Json)
    requires patch.Obj? && MaskFree(patch)
    ensures Obj(MergeFields(target, patch)) == Rfc7386(Obj(target), patch)
  {
    MergeIsRfcOfStripped(target, patch);
    StripOfMaskFree(patch);
  }

  lemma MergeAtObject(target: Fields, patch: Json, k: string)
    requires patch.Obj? && k in patch.fields && patch.fields[k].Obj?
    ensures MergeAt(target, patch, k) == Some(Obj(MergeFields(FieldsOf(Get(target, k)), patch.fields[k])))
  {
  }

  lemma MergedMember(target: Fields, patch: Json, k: string)
    requires patch.Obj?
    ensures Get(MergeFields(target, patch), k) == MergeAt(target, patch, k)
    ensures k !in patch.fields ==> MergeAt(target, patch, k) == Get(target, k)
    ensures k in patch.fields && !patch.fields[k].Obj? ==>
              MergeAt(target, patch, k) == if patch.fields[k].Null? then None
                                           else if IsMask(k, patch.fields[k]) then Get(target, k) else Some(patch.fields[k])
  {
  }

  lemma {:induction false} MergeIsIdempotent(target: Fields, patch: Json)
    requires patch.Obj?
    ensures MergeFields(MergeFields(target, patch), patch) == MergeFields(target, patch)
    decreases patch
  {
    hide MergeFields, MergeAt;
    var once := MergeFields(target, patch);
    var twice := MergeFields(once, patch);
    forall k ensures Get(twice, k) == Get(once, k) {
      MergedMember(target, patch, k);
      MergedMember(once, patch, k);
      if k in patch.fields && patch.fields[k].Obj? {
        MergeAtObject(target, patch, k);
        MergeAtObject(once, patch, k);
        MergeIsIdempotent(FieldsOf(Get(target, k)), patch.fields[k]);
      }
    }
    SameMembers(twice, once);
  }

  // ---------- the diff ----------

  /** A key path; the store prints one as its keys joined by dots. */
  type Path = seq<string>

  /** The paths below a pair of objects at which they differ, looking only under `keys`. */
  ghost function DiffUnder(a: Json, b: Json, keys: set<string>): (paths: set<Path>)
    requires a.Obj? && b.Obj?
    decreases a, 1
  {
    set k, p | k in keys && p in DiffMember(a, b, k) :: p
  }

  /** diffKeys as a set of paths below a pair of objects. */
  ghost function Diff(a: Json, b: Json): (paths: set<Path>)
    requires a.Obj? && b.Obj?
    decreases a, 2
  {
    DiffUnder(a, b, a.fields.Keys + b.fields.Keys)
  }

  ghost function DiffMember(a: Json, b: Json, k: string): (paths: set<Path>)
    requires a.Obj? && b.Obj?
    decreases a, 0
  {
    if k in a.fields && k in b.fields && a.fields[k].Obj? && b.fields[k].Obj?
    then set p | p in Diff(a.fields[k], b.fields[k]) :: [k] + p
    else if Get(a.fields, k) != Get(b.fields, k) then {[k]}
    else {}
  }

  ghost function Prefixed(prefix: Path, paths: set<Path>): (r: set<Path>) {
    set p | p in paths :: prefix + p
  }

  ghost predicate Lists(out: seq<Path>, paths: set<Path>) {
    && (forall p :: p in out <==> p in paths)
    && (forall i, j | 0 <= i < j < |out| :: out[i] != out[j])
  }

  lemma PrefixedDiffKeys(prefix: Path, a: Json, b: Json, keys: set<string>, p: Path)
    requires a.Obj? && b.Obj?
    requires p in Prefixed(prefix, DiffUnder(a, b, keys))
    ensures |p| > |prefix| && p[|prefix|] in keys
  {
    var q :| q in DiffUnder(a, b, keys) && p == prefix + q;
    var k :| k in keys && q in DiffMember(a, b, k);
  }

  /** The recursive loop of diffKeys, over the union of the keys in whatever order: each path once. */
  method DiffKeys(prefix: Path, a: Json, b: Json) returns (out: seq<Path>)
    requires a.Obj? && b.Obj?
    ensures Lists(out, Prefixed(prefix, Diff(a, b)))
    decreases a, 1
  {
    out := [];
    var keys := a.fields.Keys + b.fields.Keys;
    ghost var seen := {};
    while keys != {}
      invariant keys + seen == a.fields.Keys + b.fields.Keys && keys !! seen
      invariant Lists(out, Prefixed(prefix, DiffUnder(a, b, seen)))
      decreases keys
    {
      var k :| k in keys;
      var found := DiffKey(prefix, a, b, k);
      forall p | p in out ensures p !in found {
        PrefixedDiffKeys(prefix, a, b, seen, p);
        if p in found { SingleKeyDiff(prefix, a, b, k, p); }
      }
      SplitPrefixed(prefix, a, b, seen, k);
      ListsAppend(out, found, Prefixed(prefix, DiffUnder(a, b, seen)), Prefixed(prefix, DiffMember(a, b, k)));
      seen, keys := seen + {k}, keys - {k};
      out := out + found;
    }
    assert seen == a.fields.Keys + b.fields.Keys;
  }

  lemma ListsAppend(out: seq<Path>, found: seq<Path>, ps: set<Path>, qs: set<Path>)
    requires Lists(out, ps) && Lists(found, qs) && forall p | p in out :: p !in found
    ensures Lists(out + found, ps + qs)
  {
    forall i, j | 0 <= i < j < |out + found| ensures (out + found)[i] != (out + found)[j] {
      if i < |out| <= j { assert out[i] in out && found[j - |out|] in found; }
    }
  }

  lemma SingleKeyDiff(prefix: Path, a: Json, b: Json, k: string, p: Path)
    requires a.Obj? && b.Obj? && p in Prefixed(prefix, DiffMember(a, b, k))
    ensures |p| > |prefix| && p[|prefix|] == k
  {
  }

  lemma SplitPrefixed(prefix: Path, a: Json, b: Json, keys: set<string>, k: string)
    requires a.Obj? && b.Obj?
    ensures Prefixed(prefix, DiffUnder(a, b, keys + {k})) ==
            Prefixed(prefix, DiffUnder(a, b, keys)) + Prefixed(prefix, DiffMember(a, b, k))
  {
    assert DiffUnder(a, b, keys + {k}) == DiffUnder(a, b, keys) + DiffMember(a, b, k);
  }

  method DiffKey(prefix: Path, a: Json, b: Json, k: string) returns (found: seq<Path>)
    requires a.Obj? && b.Obj?
    ensures Lists(found, Prefixed(prefix, DiffMember(a, b, k)))
    decreases a, 0
  {
    if k in a.fields && k in b.fields && a.fields[k].Obj? && b.fields[k].Obj? {
      found := DiffKeys(prefix + [k], a.fields[k], b.fields[k]);
      ghost var below := Diff(a.fields[k], b.fields[k]);
      assert forall q :: (prefix + [k]) + q == prefix + ([k] + q);
      assert Prefixed(prefix + [k], below) == Prefixed(prefix, DiffMember(a, b, k)) by {
        forall q | q in below ensures (prefix + [k]) + q in Prefixed(prefix, DiffMember(a, b, k)) {
          assert [k] + q in DiffMember(a, b, k);
        }
      }
    } else if Get(a.fields, k) != Get(b.fields, k) {
      found := [prefix + [k]];
    } else {
      found := [];
    }
  }

  /** What `v` holds at the end of a key path; None when the path leaves the objects. */
  ghost function At(v: Option<Json>, p: Path): Option<Json>
    decreases |p|
  {
    if p == [] then v else At(Get(FieldsOf(v), p[0]), p[1..])
  }

  ghost predicate BothObjects(a: Option<Json>, b: Option<Json>) {
    a.Some? && a.value.Obj? && b.Some? && b.value.Obj?
  }

  /** `p` is where two trees part: objects on both sides on the way, a difference that is not two objects at its end. */
  ghost predicate PartsAt(a: Option<Json>, b: Option<Json>, p: Path) {
    && (forall i | 0 <= i < |p| :: BothObjects(At(a, p[..i]), At(b, p[..i])))
    && At(a, p) != At(b, p)
    && !BothObjects(At(a, p), At(b, p))
  }

  lemma PartsBelow(a: Option<Json>, b: Option<Json>, p: Path)
    requires BothObjects(a, b) && |p| > 0
    ensures PartsAt(a, b, p) <==> PartsAt(Get(FieldsOf(a), p[0]), Get(FieldsOf(b), p[0]), p[1..])
  {
    var a', b', tail := Get(FieldsOf(a), p[0]), Get(FieldsOf(b), p[0]), p[1..];
    forall i | 0 < i <= |p| ensures At(a, p[..i]) == At(a', tail[..i-1]) && At(b, p[..i]) == At(b', tail[..i-1]) {
      assert p[..i][0] == p[0] && p[..i][1..] == tail[..i-1];
    }
    assert p[..0] == [] && p[..|p|] == p && tail[..|tail|] == tail;
    if PartsAt(a', b', tail) {
      forall i | 0 <= i < |p| ensures BothObjects(At(a, p[..i]), At(b, p[..i])) {
        if i > 0 { assert BothObjects(At(a', tail[..i-1]), At(b', tail[..i-1])); }
      }
    }
    if PartsAt(a, b, p) {
      forall i | 0 <= i < |tail| ensures BothObjects(At(a', tail[..i]), At(b', tail[..i])) {
        assert BothObjects(At(a, p[..i+1]), At(b, p[..i+1]));
      }
    }
  }

  lemma InDiff(a: Json, b: Json, p: Path)
    requires a.Obj? && b.Obj?
    ensures p in Diff(a, b) <==> p != [] && p[0] in a.fields.Keys + b.fields.Keys && p in DiffMember(a, b, p[0])
  {
    assert Diff(a, b) == DiffUnder(a, b, a.fields.Keys + b.fields.Keys);
    if p in Diff(a, b) {
      var k :| k in a.fields.Keys + b.fields.Keys && p in DiffMember(a, b, k);
      assert p != [] && p[0] == k;
    }
  }

  /** The diff reports exactly the minimal differing paths. */
  lemma {:induction false} DiffIsMinimal(a: Json, b: Json, p: Path)
    requires a.Obj? && b.Obj?
    ensures p in Diff(a, b) <==> PartsAt(Some(a), Some(b), p)
    decreases |p|
  {
    InDiff(a, b, p);
    if p != [] {
      var k := p[0];
      PartsBelow(Some(a), Some(b), p);
      assert p == [k] + p[1..];
      if BothObjects(Get(a.fields, k), Get(b.fields, k)) {
        DiffIsMinimal(a.fields[k], b.fields[k], p[1..]);
        assert p in DiffMember(a, b, k) <==> p[1..] in Diff(a.fields[k], b.fields[k]) by {
          forall q | [k] + q == p ensures q == p[1..] {}
        }
      } else if p[1..] == [] {
        assert p == [k];
      } else {
        assert p[1..][..0] == [];
        assert !BothObjects(At(Get(a.fields, k), []), At(Get(b.fields, k), []));
      }
    }
  }

  lemma {:induction false} DiffEmptyIffEqual(a: Json, b: Json)
    requires a.Obj? && b.Obj?
    ensures Diff(a, b) == {} <==> a == b
    decreases a
  {
    forall k | k in a.fields.Keys + b.fields.Keys
      ensures DiffMember(a, b, k) == {} <==> Get(a.fields, k) == Get(b.fields, k)
    {
      if BothObjects(Get(a.fields, k), Get(b.fields, k)) {
        DiffEmptyIffEqual(a.fields[k], b.fields[k]);
        if p :| p in Diff(a.fields[k], b.fields[k]) { assert [k] + p in DiffMember(a, b, k); }
      }
    }
    if Diff(a, b) == {} {
      forall k ensures Get(a.fields, k) == Get(b.fields, k) {
        if k in a.fields.Keys + b.fields.Keys { assert DiffMember(a, b, k) <= Diff(a, b); }
      }
      SameMembers(a.fields, b.fields);
    }
  }
}
