/** Moving traffic weights to the recommended ones and reading them back (controllers/weights.go). */
module Weights {
  import opened Prelude
  import opened FieldPaths
  import opened Experiments

  // ---- The cluster fields that weight references address ----

  datatype Loc = Loc(obj: ObjKey, tokens: seq<string>)

  /** Integer fields of cluster objects; `clusterWide` are the kinds that live in no namespace. */
  datatype Cluster = Cluster(fields: map<Loc, int>, clusterWide: set<(string, string)>)

  /** The object a reference means: its namespace defaults to the experiment's. */
  function Resolve(c: Cluster, obj: ObjKey, namespace: string): ObjKey {
    if (obj.apiVersion, obj.kind) in c.clusterWide then obj.(namespace := "")
    else if obj.namespace == "" then obj.(namespace := namespace)
    else obj
  }

  function LocOf(c: Cluster, namespace: string, ref: ObjRef): Loc {
    Loc(Resolve(c, ref.obj, namespace), Tokens(ref.path))
  }

  /** observeWeight: a missing object or field, an empty path or a value beyond int32 is an error. */
  function ObserveWeight(c: Cluster, namespace: string, ref: ObjRef): (r: Option<int>)
    ensures r.Some? ==> FitsInt32(r.value)
  {
    if ref.path == [] then None
    else
      var l := LocOf(c, namespace, ref);
      if l in c.fields && FitsInt32(c.fields[l]) then Some(c.fields[l]) else None
  }

  /** The object's kind lives in a namespace. */
  predicate Namespaced(c: Cluster, obj: ObjKey) {
    (obj.apiVersion, obj.kind) !in c.clusterWide
  }

  /** The object a reference means, and with it the field that is read and patched: one that is in a namespace but
      names none is in the experiment's own, one that names its own stays there whatever the experiment's, and
      for a kind that is in none the namespace makes no difference. */
  lemma FieldMeant(c: Cluster, namespace: string, ref: ObjRef, other: string)
    ensures var l := LocOf(c, namespace, ref);
            && l.obj.apiVersion == ref.obj.apiVersion && l.obj.kind == ref.obj.kind && l.obj.name == ref.obj.name
            && l.tokens == Tokens(ref.path)
    ensures var there := ref.(obj := ref.obj.(namespace := other));
            if !Namespaced(c, ref.obj) then
              LocOf(c, namespace, ref) == LocOf(c, other, ref) == LocOf(c, namespace, there)
            else if ref.obj.namespace == "" then
              && LocOf(c, namespace, ref).obj.namespace == namespace
              && (other != "" ==> LocOf(c, other, ref) == LocOf(c, namespace, there))
            else
              && LocOf(c, namespace, ref).obj.namespace == ref.obj.namespace
              && LocOf(c, namespace, ref) == LocOf(c, other, ref)
  {
  }

  /** The same of what is observed: a reference without a namespace, read from one, gives what the reference with
      that namespace gives from anywhere. */
  lemma ObservedWhereMeant(c: Cluster, namespace: string, ref: ObjRef, other: string)
    ensures if !Namespaced(c, ref.obj) then
              ObserveWeight(c, namespace, ref) == ObserveWeight(c, other, ref)
                == ObserveWeight(c, namespace, ref.(obj := ref.obj.(namespace := other)))
            else if ref.obj.namespace == "" then
              namespace != "" ==>
                ObserveWeight(c, namespace, ref) == ObserveWeight(c, other, ref.(obj := ref.obj.(namespace := namespace)))
            else
              ObserveWeight(c, namespace, ref) == ObserveWeight(c, other, ref)
    ensures ref.path != [] && Namespaced(c, ref.obj) ==>
      var n := if ref.obj.namespace == "" then namespace else ref.obj.namespace;
      var l := Loc(ObjKey(ref.obj.apiVersion, ref.obj.kind, n, ref.obj.name), Tokens(ref.path));
      ObserveWeight(c, namespace, ref) == if l in c.fields && FitsInt32(c.fields[l]) then Some(c.fields[l]) else None
  {
  }

  // ---- Patches ----

  datatype Patch = Patch(path: string, value: int)
  type PatchMap = map<ObjKey, seq<Patch>>

  predicate ShouldRedistribute(sp: Spec) {
    sp.testingPattern != Conformance && GetDeploymentPattern(sp) != FixedSplit
  }

  /** The first weight recorded for the version. */
  function Lookup(version: string, weights: seq<WeightData>): Option<int> {
    if weights == [] then None
    else if weights[0].name == version then Some(weights[0].value)
    else Lookup(version, weights[1..])
  }

  lemma {:induction false} LookupFirst(version: string, weights: seq<WeightData>, i: nat)
    requires i <= |weights| && forall j :: 0 <= j < i ==> weights[j].name != version
    ensures i == |weights| ==> Lookup(version, weights).None?
    ensures i < |weights| && weights[i].name == version ==> Lookup(version, weights) == Some(weights[i].value)
  {
    if i > 0 {
      LookupFirst(version, weights[1..], i - 1);
    }
  }

  function Recommendation(st: Status, version: string): Option<int> {
    if st.analysis.None? then None else Lookup(version, st.analysis.value.weights)
  }

  function CurrentWeight(st: Status, version: string): int {
    match Lookup(version, st.weights)
    case None => 0
    case Some(w) => w
  }

  /** A version whose weight can be set: it has a reference with a field path. */
  predicate Settable(v: Version) {
    v.ref.Some? && v.ref.value.path != []
  }

  /** Patches are grouped by the object without its field path. */
  function Append(p: PatchMap, key: ObjKey, q: Patch): PatchMap {
    p[key := (if key in p then p[key] else []) + [q]]
  }

  /** addPatch: None is the error that ends the redistribution. */
  function AddPatch(st: Status, v: Version, patches: PatchMap): Option<PatchMap> {
    if !Settable(v) then Some(patches)
    else match Recommendation(st, v.name)
      case None => None
      case Some(w) =>
        if w == CurrentWeight(st, v.name) then Some(patches)
        else
          Some(Append(patches, v.ref.value.obj, Patch(Translate(Print(v.ref.value.path)), w)))
  }

  function AddPatches(st: Status, vs: seq<Version>): Option<PatchMap> {
    if vs == [] then Some(map[])
    else match AddPatches(st, vs[..|vs| - 1])
      case None => None
      case Some(p) => AddPatch(st, vs[|vs| - 1], p)
  }

  /** A JSON patch of "add" operations on one obj. */
  function PatchObject(fields: map<Loc, int>, obj: ObjKey, ps: seq<Patch>): map<Loc, int> {
    if ps == [] then fields
    else
      var before := PatchObject(fields, obj, ps[..|ps| - 1]);
      match ParsePointer(ps[|ps| - 1].path)
      case None => before
      case Some(tokens) => before[Loc(obj, tokens) := ps[|ps| - 1].value]
  }

  /** Patching the objects in the given order; an object whose patch fails stays as it is. */
  function PatchAll(c: Cluster, namespace: string, patches: PatchMap, order: seq<ObjKey>,
                    failing: set<ObjKey>): (r: Cluster)
    ensures r.clusterWide == c.clusterWide
  {
    if order == [] then c
    else
      var before := PatchAll(c, namespace, patches, order[..|order| - 1], failing);
      var key := order[|order| - 1];
      if key !in patches || key in failing then before
      else before.(fields := PatchObject(before.fields, Resolve(c, key, namespace), patches[key]))
  }

  /** redistributeWeight: None when it returns an error, and then nothing was patched. */
  function Redistribute(c: Cluster, namespace: string, sp: Spec, st: Status, order: seq<ObjKey>,
                        failing: set<ObjKey>): Option<Cluster> {
    if !ShouldRedistribute(sp) then Some(c)
    else if sp.versionInfo.None? then None
    else match AddPatches(st, sp.versionInfo.value.All())
      case None => None
      case Some(p) => Some(PatchAll(c, namespace, p, order, failing))
  }

  // ---- What the patches write ----

  /** The version's weight is to change. */
  predicate Changes(st: Status, v: Version) {
    Settable(v) && Recommendation(st, v.name).Some? && Recommendation(st, v.name).value != CurrentWeight(st, v.name)
  }

  /** References whose patches reach the field they name, no two the same field. */
  ghost predicate ReferencesSound(c: Cluster, namespace: string, vs: seq<Version>) {
    && (forall i :: 0 <= i < |vs| && Settable(vs[i]) ==>
          PlainNames(vs[i].ref.value.path) && IndexThenField(vs[i].ref.value.path))
    && (forall i, j :: 0 <= i < j < |vs| && Settable(vs[i]) && Settable(vs[j]) ==>
          LocOf(c, namespace, vs[i].ref.value) != LocOf(c, namespace, vs[j].ref.value))
  }

  /** The fields that are to change, with their new values. */
  ghost function Target(c: Cluster, namespace: string, st: Status, vs: seq<Version>): map<Loc, int> {
    if vs == [] then map[]
    else
      var v := vs[|vs| - 1];
      var before := Target(c, namespace, st, vs[..|vs| - 1]);
      if Changes(st, v) then before[LocOf(c, namespace, v.ref.value) := Recommendation(st, v.name).value] else before
  }

  ghost predicate PatchFits(c: Cluster, namespace: string, key: ObjKey, q: Patch, target: map<Loc, int>) {
    && ParsePointer(q.path).Some?
    && var l := Loc(Resolve(c, key, namespace), ParsePointer(q.path).value);
       l in target && target[l] == q.value
  }

  ghost predicate AllFit(c: Cluster, namespace: string, patches: PatchMap, target: map<Loc, int>) {
    forall key, i :: key in patches && 0 <= i < |patches[key]| ==> PatchFits(c, namespace, key, patches[key][i], target)
  }

  ghost predicate Writes(c: Cluster, namespace: string, key: ObjKey, ps: seq<Patch>, l: Loc) {
    exists i :: 0 <= i < |ps| && ParsePointer(ps[i].path) == Some(l.tokens) && l.obj == Resolve(c, key, namespace)
  }

  ghost predicate Covered(c: Cluster, namespace: string, patches: PatchMap, target: map<Loc, int>) {
    forall l :: l in target ==> exists key :: key in patches && Writes(c, namespace, key, patches[key], l)
  }

  lemma {:induction false} TargetAt(c: Cluster, namespace: string, st: Status, vs: seq<Version>, i: nat)
    requires ReferencesSound(c, namespace, vs) && i < |vs| && Settable(vs[i])
    ensures var l := LocOf(c, namespace, vs[i].ref.value);
            var t := Target(c, namespace, st, vs);
            if Changes(st, vs[i]) then l in t && t[l] == Recommendation(st, vs[i].name).value else l !in t
  {
    var n := |vs| - 1;
    var init := vs[..n];
    assert forall j :: 0 <= j < n ==> init[j] == vs[j];
    if i < n {
      TargetAt(c, namespace, st, init, i);
    } else {
      NotTargeted(c, namespace, st, init, LocOf(c, namespace, vs[i].ref.value));
    }
  }

  /** A field no version references is not to change. */
  lemma {:induction false} NotTargeted(c: Cluster, namespace: string, st: Status, vs: seq<Version>, l: Loc)
    requires forall j :: 0 <= j < |vs| && Settable(vs[j]) ==> LocOf(c, namespace, vs[j].ref.value) != l
    ensures l !in Target(c, namespace, st, vs)
  {
    if vs != [] {
      var n := |vs| - 1;
      assert forall j :: 0 <= j < n ==> vs[..n][j] == vs[j];
      NotTargeted(c, namespace, st, vs[..n], l);
      assert vs[n] in vs;
    }
  }

  lemma AddPatchFits(c: Cluster, namespace: string, st: Status, v: Version, p: PatchMap, target: map<Loc, int>)
    requires Settable(v) ==> PlainNames(v.ref.value.path) && IndexThenField(v.ref.value.path)
    requires Settable(v) ==> LocOf(c, namespace, v.ref.value) !in target
    requires AllFit(c, namespace, p, target) && Covered(c, namespace, p, target)
    requires AddPatch(st, v, p).Some?
    ensures var p', target' := AddPatch(st, v, p).value,
              if Changes(st, v) then target[LocOf(c, namespace, v.ref.value) := Recommendation(st, v.name).value] else target;
            AllFit(c, namespace, p', target') && Covered(c, namespace, p', target')
  {
    if Changes(st, v) {
      TranslationIsPointer(v.ref.value.path);
      var q := Patch(Translate(Print(v.ref.value.path)), Recommendation(st, v.name).value);
      hide Translate, Print, ParsePointer, Tokens, Recommendation, CurrentWeight;
      AppendFits(c, namespace, v.ref.value.obj, q, LocOf(c, namespace, v.ref.value), p, target);
    }
  }

  lemma AppendFits(c: Cluster, namespace: string, key: ObjKey, q: Patch, l: Loc, p: PatchMap, target: map<Loc, int>)
    requires ParsePointer(q.path) == Some(l.tokens) && l.obj == Resolve(c, key, namespace) && l !in target
    requires AllFit(c, namespace, p, target) && Covered(c, namespace, p, target)
    ensures AllFit(c, namespace, Append(p, key, q), target[l := q.value])
    ensures Covered(c, namespace, Append(p, key, q), target[l := q.value])
  {
    hide ParsePointer;
    var p', target' := Append(p, key, q), target[l := q.value];
    assert p'[key][|p'[key]| - 1] == q;
    assert Writes(c, namespace, key, p'[key], l);
    forall m: Loc | m in target' ensures exists k :: k in p' && Writes(c, namespace, k, p'[k], m) {
      if m != l {
        var k: ObjKey :| k in p && Writes(c, namespace, k, p[k], m);
        WritesMore(c, namespace, k, p[k], p'[k], m);
      }
    }
    forall k, i | k in p' && 0 <= i < |p'[k]| ensures PatchFits(c, namespace, k, p'[k][i], target') {
      if p'[k][i] != q || k != key {
        assert p'[k][i] == p[k][i];
        assert PatchFits(c, namespace, k, p[k][i], target);
      }
    }
  }

  lemma WritesMore(c: Cluster, namespace: string, key: ObjKey, ps: seq<Patch>, qs: seq<Patch>, l: Loc)
    requires ps <= qs && Writes(c, namespace, key, ps, l)
    ensures Writes(c, namespace, key, qs, l)
  {
  }

  lemma {:induction false} AddPatchesFit(c: Cluster, namespace: string, st: Status, vs: seq<Version>)
    requires ReferencesSound(c, namespace, vs) && AddPatches(st, vs).Some?
    ensures var t := Target(c, namespace, st, vs);
            AllFit(c, namespace, AddPatches(st, vs).value, t) && Covered(c, namespace, AddPatches(st, vs).value, t)
  {
    if vs != [] {
      var n := |vs| - 1;
      var init := vs[..n];
      assert forall j :: 0 <= j < n ==> init[j] == vs[j];
      AddPatchesFit(c, namespace, st, init);
      if Settable(vs[n]) {
        NotTargeted(c, namespace, st, init, LocOf(c, namespace, vs[n].ref.value));
      }
      AddPatchFits(c, namespace, st, vs[n], AddPatches(st, init).value, Target(c, namespace, st, init));
    }
  }

  /** From one state of the fields to a later one, only fields that are to change did, to the value intended. */
  ghost predicate Moved(before: map<Loc, int>, after: map<Loc, int>, target: map<Loc, int>) {
    && before.Keys <= after.Keys
    && forall l :: l in after ==> (l in before && after[l] == before[l]) || (l in target && after[l] == target[l])
  }

  lemma {:induction false} PatchObjectMoves(c: Cluster, namespace: string, fields: map<Loc, int>, key: ObjKey,
                                            ps: seq<Patch>, target: map<Loc, int>)
    requires forall i :: 0 <= i < |ps| ==> PatchFits(c, namespace, key, ps[i], target)
    ensures var after := PatchObject(fields, Resolve(c, key, namespace), ps);
            && Moved(fields, after, target)
            && forall l :: Writes(c, namespace, key, ps, l) ==> l in target && l in after && after[l] == target[l]
  {
    hide ParsePointer;
    if ps != [] {
      var n := |ps| - 1;
      assert forall i :: 0 <= i < n ==> ps[..n][i] == ps[i];
      PatchObjectMoves(c, namespace, fields, key, ps[..n], target);
      var obj := Resolve(c, key, namespace);
      var mid, after := PatchObject(fields, obj, ps[..n]), PatchObject(fields, obj, ps);
      assert PatchFits(c, namespace, key, ps[n], target);
      forall l | Writes(c, namespace, key, ps, l) ensures l in target && l in after && after[l] == target[l] {
        if l.tokens != ParsePointer(ps[n].path).value {
          var i :| 0 <= i < |ps| && ParsePointer(ps[i].path) == Some(l.tokens) && l.obj == obj;
          assert ps[..n][i] == ps[i];
          assert Writes(c, namespace, key, ps[..n], l);
        }
      }
    }
  }

  lemma {:induction false} PatchAllMoves(c: Cluster, namespace: string, patches: PatchMap, order: seq<ObjKey>,
                                         target: map<Loc, int>)
    requires AllFit(c, namespace, patches, target)
    ensures var after := PatchAll(c, namespace, patches, order, {}).fields;
            && Moved(c.fields, after, target)
            && forall key, l :: key in patches && key in order && Writes(c, namespace, key, patches[key], l) ==>
                 l in target && l in after && after[l] == target[l]
  {
    if order != [] {
      var n := |order| - 1;
      var last := order[n];
      PatchAllMoves(c, namespace, patches, order[..n], target);
      var mid := PatchAll(c, namespace, patches, order[..n], {}).fields;
      var after := PatchAll(c, namespace, patches, order, {}).fields;
      assert order == order[..n] + [last];
      if last in patches {
        PatchObjectMoves(c, namespace, mid, last, patches[last], target);
      }
      forall key, l | key in patches && key in order && Writes(c, namespace, key, patches[key], l)
        ensures l in target && l in after && after[l] == target[l]
      {
        if key != last {
          assert key in order[..n];
        }
      }
    }
  }

  /** The versions without the references to objects whose patch fails. */
  function Unfailing(vs: seq<Version>, failing: set<ObjKey>): (r: seq<Version>)
    ensures |r| == |vs|
    ensures forall i :: 0 <= i < |vs| ==>
      r[i] == if Settable(vs[i]) && vs[i].ref.value.obj in failing then vs[i].(ref := None) else vs[i]
  {
    seq(|vs|, i requires 0 <= i < |vs| =>
      if Settable(vs[i]) && vs[i].ref.value.obj in failing then vs[i].(ref := None) else vs[i])
  }

  lemma AddOneUnfailing(st: Status, v: Version, p: PatchMap, failing: set<ObjKey>)
    requires AddPatch(st, v, p).Some?
    ensures var u := if Settable(v) && v.ref.value.obj in failing then v.(ref := None) else v;
            AddPatch(st, u, p - failing) == Some(AddPatch(st, v, p).value - failing)
    ensures forall key :: key in AddPatch(st, v, p).value ==> key in p || (Settable(v) && v.ref.value.obj == key)
  {
    hide Recommendation, CurrentWeight, Translate, Print;
    if Settable(v) {
      var q := Patch(Translate(Print(v.ref.value.path)), Recommendation(st, v.name).value);
      if v.ref.value.obj in failing {
        assert Append(p, v.ref.value.obj, q) - failing == p - failing;
      } else {
        assert Append(p, v.ref.value.obj, q) - failing == Append(p - failing, v.ref.value.obj, q);
      }
    }
  }

  lemma PatchesStep(st: Status, vs: seq<Version>) returns (p: PatchMap, q: PatchMap)
    requires vs != [] && AddPatches(st, vs).Some?
    ensures AddPatches(st, vs[..|vs| - 1]) == Some(p) && AddPatches(st, vs) == Some(q)
    ensures AddPatch(st, vs[|vs| - 1], p) == Some(q)
  {
    p, q := AddPatches(st, vs[..|vs| - 1]).value, AddPatches(st, vs).value;
  }

  lemma UnfailingStep(st: Status, vs: seq<Version>, failing: set<ObjKey>, p: PatchMap, q: PatchMap)
    requires vs != [] && AddPatches(st, Unfailing(vs[..|vs| - 1], failing)) == Some(p)
    requires AddPatch(st, Unfailing(vs, failing)[|vs| - 1], p) == Some(q)
    ensures AddPatches(st, Unfailing(vs, failing)) == Some(q)
  {
    hide AddPatch, Settable;
    assert Unfailing(vs, failing)[..|vs| - 1] == Unfailing(vs[..|vs| - 1], failing);
  }

  /** What is patched when some patches fail is what is patched when those versions have no references. */
  lemma {:induction false} AddUnfailing(st: Status, vs: seq<Version>, failing: set<ObjKey>)
    requires AddPatches(st, vs).Some?
    ensures AddPatches(st, Unfailing(vs, failing)) == Some(AddPatches(st, vs).value - failing)
    ensures forall key :: key in AddPatches(st, vs).value ==>
      exists i :: 0 <= i < |vs| && Settable(vs[i]) && vs[i].ref.value.obj == key
  {
    if vs == [] {
      var none: PatchMap := map[];
      assert none - failing == none && Unfailing(vs, failing) == [];
    } else {
      var n := |vs| - 1;
      var init := vs[..n];
      var p, q := PatchesStep(st, vs);
      hide AddPatch, AddPatches, Settable;
      AddUnfailing(st, init, failing);
      AddOneUnfailing(st, vs[n], p, failing);
      UnfailingStep(st, vs, failing, p - failing, q - failing);
      forall key | key in q ensures exists i :: 0 <= i < |vs| && Settable(vs[i]) && vs[i].ref.value.obj == key {
        if key in p {
          var i :| 0 <= i < |init| && Settable(init[i]) && init[i].ref.value.obj == key;
          assert vs[i] == init[i];
        } else {
          assert Settable(vs[n]) && vs[n].ref.value.obj == key;
        }
      }
    }
  }

  lemma {:induction false} PatchUnfailing(c: Cluster, namespace: string, patches: PatchMap, order: seq<ObjKey>,
                                          failing: set<ObjKey>)
    ensures PatchAll(c, namespace, patches, order, failing) == PatchAll(c, namespace, patches - failing, order, {})
  {
    if order != [] {
      PatchUnfailing(c, namespace, patches, order[..|order| - 1], failing);
    }
  }

  /** The objects of all versions whose weight can be set are patched, in some order. */
  predicate Complete(vs: seq<Version>, order: seq<ObjKey>) {
    forall i :: 0 <= i < |vs| && Settable(vs[i]) ==> vs[i].ref.value.obj in order
  }

  /** There is a recommendation for every version whose weight can be set. */
  predicate AllRecommended(st: Status, vs: seq<Version>) {
    forall i :: 0 <= i < |vs| && Settable(vs[i]) ==> Recommendation(st, vs[i].name).Some?
  }

  lemma {:induction false} PatchesNeedRecommendations(st: Status, vs: seq<Version>)
    ensures AddPatches(st, vs).Some? <==> AllRecommended(st, vs)
  {
    hide Recommendation, CurrentWeight, Translate, Print;
    if vs != [] {
      var n := |vs| - 1;
      assert forall i :: 0 <= i < n ==> vs[..n][i] == vs[i];
      PatchesNeedRecommendations(st, vs[..n]);
      assert AllRecommended(st, vs) <==>
        AllRecommended(st, vs[..n]) && (Settable(vs[n]) ==> Recommendation(st, vs[n].name).Some?);
    }
  }

  /** The patches that succeed write exactly the fields that are to change. */
  lemma PatchesReach(c: Cluster, namespace: string, vs: seq<Version>, st: Status, order: seq<ObjKey>)
    requires ReferencesSound(c, namespace, vs) && AddPatches(st, vs).Some?
    requires forall key :: key in AddPatches(st, vs).value ==> key in order
    ensures var after := PatchAll(c, namespace, AddPatches(st, vs).value, order, {}).fields;
            && (forall i :: 0 <= i < |vs| && Settable(vs[i]) ==>
                  var l := LocOf(c, namespace, vs[i].ref.value);
                  if Changes(st, vs[i]) then l in after && after[l] == Recommendation(st, vs[i].name).value
                  else (l in after <==> l in c.fields) && (l in after ==> after[l] == c.fields[l]))
            && (forall l :: (forall i :: 0 <= i < |vs| && Settable(vs[i]) ==> LocOf(c, namespace, vs[i].ref.value) != l) ==>
                  (l in after <==> l in c.fields) && (l in c.fields ==> after[l] == c.fields[l]))
  {
    var p, target := AddPatches(st, vs).value, Target(c, namespace, st, vs);
    AddPatchesFit(c, namespace, st, vs);
    PatchAllMoves(c, namespace, p, order, target);
    var after := PatchAll(c, namespace, p, order, {}).fields;
    forall i | 0 <= i < |vs| && Settable(vs[i])
      ensures var l := LocOf(c, namespace, vs[i].ref.value);
              if Changes(st, vs[i]) then l in after && after[l] == Recommendation(st, vs[i].name).value
              else (l in after <==> l in c.fields) && (l in after ==> after[l] == c.fields[l])
    {
      TargetAt(c, namespace, st, vs, i);
      var l := LocOf(c, namespace, vs[i].ref.value);
      if l in target {
        var key :| key in p && Writes(c, namespace, key, p[key], l);
      }
    }
    forall l | forall i :: 0 <= i < |vs| && Settable(vs[i]) ==> LocOf(c, namespace, vs[i].ref.value) != l
      ensures (l in after <==> l in c.fields) && (l in c.fields ==> after[l] == c.fields[l])
    {
      NotTargeted(c, namespace, st, vs, l);
    }
  }

  /** The version's weight is to change and its object can be patched. */
  predicate Succeeds(st: Status, v: Version, failing: set<ObjKey>) {
    Changes(st, v) && v.ref.value.obj !in failing
  }

  /** Redistribution, in whatever order the objects are patched and whichever patches fail: the field of a
      referenced version ends at its recommendation if and only if the weight was to change and the patch
      succeeds, or the field already held the recommendation, and no other field moves. */
  lemma RedistributionReachesRecommendation(c: Cluster, namespace: string, sp: Spec, st: Status,
                                            order: seq<ObjKey>, failing: set<ObjKey>)
    requires ShouldRedistribute(sp) && sp.versionInfo.Some?
    requires var vs := sp.versionInfo.value.All();
             ReferencesSound(c, namespace, vs) && AllRecommended(st, vs) && Complete(vs, order)
    ensures var vs, r := sp.versionInfo.value.All(), Redistribute(c, namespace, sp, st, order, failing);
            && r.Some? && r.value.clusterWide == c.clusterWide
            && (forall i :: 0 <= i < |vs| && Settable(vs[i]) ==>
                  var l, w := LocOf(c, namespace, vs[i].ref.value), Recommendation(st, vs[i].name).value;
                  (l in r.value.fields && r.value.fields[l] == w) <==>
                  (w != CurrentWeight(st, vs[i].name) && vs[i].ref.value.obj !in failing) || (l in c.fields && c.fields[l] == w))
            && (forall l :: (forall i :: 0 <= i < |vs| && Settable(vs[i]) ==> LocOf(c, namespace, vs[i].ref.value) != l) ==>
                  (l in r.value.fields <==> l in c.fields) && (l in c.fields ==> r.value.fields[l] == c.fields[l]))
  {
    hide Recommendation, CurrentWeight, Resolve, Tokens, PlainNames, IndexThenField, PatchAll, AddPatches;
    var vs := sp.versionInfo.value.All();
    var us := Unfailing(vs, failing);
    PatchesNeedRecommendations(st, vs);
    AddUnfailing(st, vs, failing);
    PatchUnfailing(c, namespace, AddPatches(st, vs).value, order, failing);
    PatchesReach(c, namespace, us, st, order);
    var after := Redistribute(c, namespace, sp, st, order, failing).value.fields;
    forall i | 0 <= i < |vs| && Settable(vs[i]) && vs[i].ref.value.obj in failing
      ensures var l := LocOf(c, namespace, vs[i].ref.value);
              (l in after <==> l in c.fields) && (l in after ==> after[l] == c.fields[l])
    {
      var l := LocOf(c, namespace, vs[i].ref.value);
      forall j | 0 <= j < |us| && Settable(us[j]) ensures LocOf(c, namespace, us[j].ref.value) != l {
        assert us[j] == vs[j] && j != i;
      }
    }
  }

  // ---- Observing weights ----

  datatype Scan = Scan(observed: seq<WeightData>, missing: seq<string>, total: int)

  /** Reading the referenced weights of the versions in order, with int32 addition; None on a read error. */
  function ScanVersions(c: Cluster, namespace: string, vs: seq<Version>): Option<Scan> {
    if vs == [] then Some(Scan([], [], 0))
    else
      var v := vs[|vs| - 1];
      match ScanVersions(c, namespace, vs[..|vs| - 1])
      case None => None
      case Some(s) =>
        if v.ref.None? then Some(s.(missing := s.missing + [v.name]))
        else match ObserveWeight(c, namespace, v.ref.value)
          case None => None
          case Some(w) => Some(s.(observed := s.observed + [WeightData(v.name, w)], total := Wrap32(s.total + w)))
  }

  /** The weights observed, an error, or the dereference of an absent deployment pattern. */
  datatype Observation = Observed(weights: seq<WeightData>) | Unreadable | NilDereference

  function Observe(c: Cluster, namespace: string, sp: Spec, current: seq<WeightData>): Observation {
    if sp.versionInfo.None? then Observed(current)
    else match ScanVersions(c, namespace, sp.versionInfo.value.All())
      case None => Unreadable
      case Some(s) =>
        if |s.missing| == 1 then Observed(s.observed + [WeightData(s.missing[0], Wrap32(100 - s.total))])
        else if |s.missing| > 1 && sp.deploymentPattern.None? then NilDereference
        else if |s.missing| > 1 && sp.deploymentPattern.value != FixedSplit then Unreadable
        else Observed(s.observed)
  }

  function Missing(vs: seq<Version>): nat {
    if vs == [] then 0 else Missing(vs[..|vs| - 1]) + (if vs[|vs| - 1].ref.None? then 1 else 0)
  }

  /** The sum of the observed weights, not reduced to int32. */
  function Sum(ws: seq<WeightData>): int {
    if ws == [] then 0 else Sum(ws[..|ws| - 1]) + ws[|ws| - 1].value
  }

  function WeightNames(ws: seq<WeightData>): (r: seq<string>)
    ensures |r| == |ws|
  {
    seq(|ws|, i requires 0 <= i < |ws| => ws[i].name)
  }

  predicate AllReadable(c: Cluster, namespace: string, vs: seq<Version>) {
    forall i :: 0 <= i < |vs| && vs[i].ref.Some? ==> ObserveWeight(c, namespace, vs[i].ref.value).Some?
  }

  lemma {:induction false} ScanReadable(c: Cluster, namespace: string, vs: seq<Version>)
    ensures ScanVersions(c, namespace, vs).Some? <==> AllReadable(c, namespace, vs)
  {
    hide ObserveWeight;
    if vs != [] {
      var n := |vs| - 1;
      var init := vs[..n];
      assert forall i :: 0 <= i < n ==> init[i] == vs[i];
      ScanReadable(c, namespace, init);
      assert AllReadable(c, namespace, vs) <==>
        AllReadable(c, namespace, init) && (vs[n].ref.Some? ==> ObserveWeight(c, namespace, vs[n].ref.value).Some?);
    }
  }

  lemma {:induction false} ScanTotals(c: Cluster, namespace: string, vs: seq<Version>)
    requires ScanVersions(c, namespace, vs).Some?
    ensures var s := ScanVersions(c, namespace, vs).value;
            && |s.missing| == Missing(vs) && |s.observed| + Missing(vs) == |vs|
            && s.total == Wrap32(Sum(s.observed))
  {
    if vs != [] {
      var v := vs[|vs| - 1];
      ScanTotals(c, namespace, vs[..|vs| - 1]);
      var s, r := ScanStep(c, namespace, vs);
      assert Missing(vs) == Missing(vs[..|vs| - 1]) + if v.ref.None? then 1 else 0;
      hide *;
      if v.ref.Some? {
        var w := r.observed[|s.observed|];
        SumAppend(s.observed, w);
        WrapAdd(Sum(s.observed), w.value);
      }
    }
  }

  lemma ScanExact(c: Cluster, namespace: string, vs: seq<Version>)
    ensures ScanVersions(c, namespace, vs).Some? <==> AllReadable(c, namespace, vs)
    ensures var r := ScanVersions(c, namespace, vs);
            r.Some? ==>
              && |r.value.missing| == Missing(vs) && |r.value.observed| + Missing(vs) == |vs|
              && r.value.total == Wrap32(Sum(r.value.observed))
  {
    ScanReadable(c, namespace, vs);
    if ScanVersions(c, namespace, vs).Some? {
      ScanTotals(c, namespace, vs);
    }
  }

  lemma SumAppend(ws: seq<WeightData>, w: WeightData)
    ensures Sum(ws + [w]) == Sum(ws) + w.value
    ensures WeightNames(ws + [w]) == WeightNames(ws) + [w.name]
  {
  }

  /** Every version is named once, either by an observed weight or as missing. */
  lemma {:induction false} ScanCovers(c: Cluster, namespace: string, vs: seq<Version>)
    requires ScanVersions(c, namespace, vs).Some?
    ensures var s := ScanVersions(c, namespace, vs).value;
            multiset(WeightNames(s.observed)) + multiset(s.missing) == multiset(Names(vs))
  {
    if vs != [] {
      var init, v := vs[..|vs| - 1], vs[|vs| - 1];
      var s, r := ScanStep(c, namespace, vs);
      ScanCovers(c, namespace, init);
      CountOne(WeightNames(s.observed), s.missing, Names(init), v.name);
      NamesAppend(vs);
      hide *;
      if v.ref.Some? {
        SumAppend(s.observed, r.observed[|s.observed|]);
      }
    }
  }

  lemma {:induction false} ScanInOrder(c: Cluster, namespace: string, vs: seq<Version>)
    requires ScanVersions(c, namespace, vs).Some? && Missing(vs) == 0
    ensures WeightNames(ScanVersions(c, namespace, vs).value.observed) == Names(vs)
  {
    if vs != [] {
      var init, v := vs[..|vs| - 1], vs[|vs| - 1];
      var s, r := ScanStep(c, namespace, vs);
      ScanInOrder(c, namespace, init);
      NamesAppend(vs);
      SumAppend(s.observed, r.observed[|s.observed|]);
    }
  }

  lemma NamesAppend(vs: seq<Version>)
    requires vs != []
    ensures Names(vs) == Names(vs[..|vs| - 1]) + [vs[|vs| - 1].name]
  {
  }

  lemma CountOne(a: seq<string>, b: seq<string>, all: seq<string>, name: string)
    requires multiset(a) + multiset(b) == multiset(all)
    ensures multiset(a + [name]) + multiset(b) == multiset(all + [name])
    ensures multiset(a) + multiset(b + [name]) == multiset(all + [name])
  {
  }

  lemma ScanStep(c: Cluster, namespace: string, vs: seq<Version>) returns (s: Scan, r: Scan)
    requires vs != [] && ScanVersions(c, namespace, vs).Some?
    ensures ScanVersions(c, namespace, vs[..|vs| - 1]) == Some(s) && ScanVersions(c, namespace, vs) == Some(r)
    ensures var v := vs[|vs| - 1];
            if v.ref.None? then r.observed == s.observed && r.total == s.total && r.missing == s.missing + [v.name]
            else r.missing == s.missing && |r.observed| == |s.observed| + 1 && r.observed[|s.observed|].name == v.name
                 && r.observed == s.observed + [r.observed[|s.observed|]]
                 && r.total == Wrap32(s.total + r.observed[|s.observed|].value)
  {
    s, r := ScanVersions(c, namespace, vs[..|vs| - 1]).value, ScanVersions(c, namespace, vs).value;
  }

  /** With exactly one version lacking a reference, its weight completes the others to 100. */
  lemma OneMissing(c: Cluster, namespace: string, sp: Spec, current: seq<WeightData>) returns (s: Scan, w: WeightData)
    requires sp.versionInfo.Some? && Missing(sp.versionInfo.value.All()) == 1
    requires AllReadable(c, namespace, sp.versionInfo.value.All())
    ensures ScanVersions(c, namespace, sp.versionInfo.value.All()) == Some(s)
    ensures s.missing == [w.name] && w.value == Wrap32(100 - Sum(s.observed))
    ensures |s.observed| + 1 == |sp.versionInfo.value.All()|
    ensures Observe(c, namespace, sp, current) == Observed(s.observed + [w])
  {
    var vs := sp.versionInfo.value.All();
    ScanExact(c, namespace, vs);
    s := ScanVersions(c, namespace, vs).value;
    w := WeightData(s.missing[0], Wrap32(100 - s.total));
    WrapSubtract(100, Sum(s.observed));
  }

  /** With exactly one version lacking a reference the observed weights name every version once, and
      they sum to 100 if and only if the missing weight fits in an int32. */
  lemma {:induction false} ObservedWeightsSum(c: Cluster, namespace: string, sp: Spec, current: seq<WeightData>)
    requires sp.versionInfo.Some? && Missing(sp.versionInfo.value.All()) == 1
    requires AllReadable(c, namespace, sp.versionInfo.value.All())
    ensures var vs, r := sp.versionInfo.value.All(), Observe(c, namespace, sp, current);
            && r.Observed? && |r.weights| == |vs|
            && multiset(WeightNames(r.weights)) == multiset(Names(vs))
            && (Sum(r.weights) == 100 <==> FitsInt32(100 - Sum(r.weights[..|vs| - 1])))
  {
    hide *;
    var vs := sp.versionInfo.value.All();
    var s, w := OneMissing(c, namespace, sp, current);
    ScanCovers(c, namespace, vs);
    SumAppend(s.observed, w);
    assert (s.observed + [w])[..|s.observed|] == s.observed;
  }

  /** With every version referenced the observed weights list the versions in order. */
  lemma {:induction false} ObservedInOrder(c: Cluster, namespace: string, sp: Spec, current: seq<WeightData>)
    requires sp.versionInfo.Some? && Missing(sp.versionInfo.value.All()) == 0
    ensures var vs, r := sp.versionInfo.value.All(), Observe(c, namespace, sp, current);
            && (r.Observed? <==> AllReadable(c, namespace, vs)) && !r.NilDereference?
            && (r.Observed? ==> WeightNames(r.weights) == Names(vs))
  {
    ScanExact(c, namespace, sp.versionInfo.value.All());
    if AllReadable(c, namespace, sp.versionInfo.value.All()) {
      ScanInOrder(c, namespace, sp.versionInfo.value.All());
    }
  }

  /** Exactly when the observation dereferences an absent deployment pattern. */
  lemma NilDereferenceExactly(c: Cluster, namespace: string, sp: Spec, current: seq<WeightData>)
    ensures Observe(c, namespace, sp, current).NilDereference? <==>
      (sp.versionInfo.Some? && AllReadable(c, namespace, sp.versionInfo.value.All())
       && Missing(sp.versionInfo.value.All()) > 1 && sp.deploymentPattern.None?)
  {
    if sp.versionInfo.Some? {
      ScanExact(c, namespace, sp.versionInfo.value.All());
    }
  }

  /** A successful observation of known versions: at most one lacks a reference, or the split is fixed. */
  predicate ObservableShape(sp: Spec) {
    sp.versionInfo.Some? && (Missing(sp.versionInfo.value.All()) <= 1 || sp.deploymentPattern == Some(FixedSplit))
  }

  lemma ObservedHasShape(c: Cluster, namespace: string, sp: Spec, current: seq<WeightData>)
    requires sp.versionInfo.Some?
    ensures Observe(c, namespace, sp, current).Observed? <==>
      AllReadable(c, namespace, sp.versionInfo.value.All()) && ObservableShape(sp)
  {
    ScanExact(c, namespace, sp.versionInfo.value.All());
  }

  lemma {:induction false} ScanNames(c: Cluster, namespace: string, vs: seq<Version>, i: nat)
    requires Distinct(Names(vs)) && i < |vs| && vs[i].ref.Some? && ScanVersions(c, namespace, vs).Some?
    ensures Lookup(vs[i].name, ScanVersions(c, namespace, vs).value.observed) == ObserveWeight(c, namespace, vs[i].ref.value)
    decreases |vs|
  {
    var n := |vs| - 1;
    var init, v := vs[..n], vs[n];
    var s, r := ScanVersions(c, namespace, init).value, ScanVersions(c, namespace, vs).value;
    assert forall j :: 0 <= j < n ==> Names(init)[j] == Names(vs)[j];
    if i < n {
      ScanNames(c, namespace, init, i);
      if v.ref.Some? {
        LookupAppend(vs[i].name, s.observed, r.observed[|s.observed|]);
      }
    } else {
      ScanForeign(c, namespace, init, v.name);
      LookupAppend(v.name, s.observed, r.observed[|s.observed|]);
    }
  }

  lemma {:induction false} ScanForeign(c: Cluster, namespace: string, vs: seq<Version>, name: string)
    requires ScanVersions(c, namespace, vs).Some? && forall j :: 0 <= j < |vs| ==> vs[j].name != name
    ensures Lookup(name, ScanVersions(c, namespace, vs).value.observed).None?
  {
    if vs != [] {
      var n := |vs| - 1;
      ScanForeign(c, namespace, vs[..n], name);
      var s, r := ScanVersions(c, namespace, vs[..n]).value, ScanVersions(c, namespace, vs).value;
      assert vs[n].name != name;
      if vs[n].ref.Some? {
        LookupAppend(name, s.observed, r.observed[|s.observed|]);
      }
    }
  }

  lemma {:induction false} LookupAppend(name: string, ws: seq<WeightData>, w: WeightData)
    ensures Lookup(name, ws + [w]) ==
      if Lookup(name, ws).Some? then Lookup(name, ws) else if w.name == name then Some(w.value) else None
  {
    if ws == [] {
      assert ws + [w] == [w];
    } else {
      assert (ws + [w])[1..] == ws[1..] + [w];
      LookupAppend(name, ws[1..], w);
    }
  }

  /** Redistribution followed by observation: when every patch succeeds and no skipped version has
      drifted from its recorded weight, the cluster and the new current weights hold the recommendation
      of every referenced version. */
  lemma RedistributeThenObserve(c: Cluster, namespace: string, sp: Spec, st: Status, order: seq<ObjKey>)
    requires ShouldRedistribute(sp) && sp.versionInfo.Some? && Distinct(Names(sp.versionInfo.value.All()))
    requires var vs := sp.versionInfo.value.All();
             && ReferencesSound(c, namespace, vs) && Complete(vs, order)
             && (forall i :: 0 <= i < |vs| && vs[i].ref.Some? ==>
                   Settable(vs[i]) && Recommendation(st, vs[i].name).Some? && FitsInt32(Recommendation(st, vs[i].name).value))
    requires var vs := sp.versionInfo.value.All();
             forall i :: 0 <= i < |vs| && vs[i].ref.Some? ==>
               ObserveWeight(c, namespace, vs[i].ref.value) == Some(CurrentWeight(st, vs[i].name))
    requires ObservableShape(sp)
    ensures var vs, r := sp.versionInfo.value.All(), Redistribute(c, namespace, sp, st, order, {});
            && r.Some?
            && var o := Observe(r.value, namespace, sp, st.weights);
               o.Observed? && forall i :: 0 <= i < |vs| && vs[i].ref.Some? ==>
                 && ObserveWeight(r.value, namespace, vs[i].ref.value) == Recommendation(st, vs[i].name)
                 && Lookup(vs[i].name, o.weights) == Recommendation(st, vs[i].name)
  {
    hide Redistribute, AddPatches, Recommendation, CurrentWeight;
    var vs := sp.versionInfo.value.All();
    RedistributionReachesRecommendation(c, namespace, sp, st, order, {});
    var c' := Redistribute(c, namespace, sp, st, order, {}).value;
    forall i | 0 <= i < |vs| && vs[i].ref.Some?
      ensures ObserveWeight(c', namespace, vs[i].ref.value) == Recommendation(st, vs[i].name)
    {
      assert LocOf(c', namespace, vs[i].ref.value) == LocOf(c, namespace, vs[i].ref.value);
    }
    ObservedHasShape(c', namespace, sp, st.weights);
    forall i | 0 <= i < |vs| && vs[i].ref.Some?
      ensures Lookup(vs[i].name, Observe(c', namespace, sp, st.weights).weights) == Recommendation(st, vs[i].name)
    {
      ObservedUnderName(c', namespace, sp, st.weights, i);
    }
  }

  /** What is observed at a version's reference is recorded under its name. */
  lemma ObservedUnderName(c: Cluster, namespace: string, sp: Spec, current: seq<WeightData>, i: nat)
    requires sp.versionInfo.Some? && Distinct(Names(sp.versionInfo.value.All()))
    requires i < |sp.versionInfo.value.All()| && sp.versionInfo.value.All()[i].ref.Some?
    requires Observe(c, namespace, sp, current).Observed?
    ensures var v := sp.versionInfo.value.All()[i];
            Lookup(v.name, Observe(c, namespace, sp, current).weights) == ObserveWeight(c, namespace, v.ref.value)
  {
    var vs := sp.versionInfo.value.All();
    ScanExact(c, namespace, vs);
    ScanNames(c, namespace, vs, i);
    var s := ScanVersions(c, namespace, vs).value;
    if |s.missing| == 1 {
      LookupAppend(vs[i].name, s.observed, WeightData(s.missing[0], Wrap32(100 - s.total)));
    }
  }

  // ---- The methods ----

  class PatchTable {
    var patches: PatchMap
    constructor ()
      ensures patches == map[]
    {
      patches := map[];
    }
  }

  /** addPatch, with the table of patches it updates in place. */
  method AddPatchTo(instance: Instance, version: Version, table: PatchTable) returns (ok: bool)
    modifies table
    ensures var r := AddPatch(instance.status, version, old(table.patches));
            ok == r.Some? && table.patches == if ok then r.value else old(table.patches)
  {
    if version.ref.None? || version.ref.value.path == [] {
      return true;
    }
    var weight := Recommendation(instance.status, version.name);
    if weight.None? {
      return false;
    }
    if weight.value == CurrentWeight(instance.status, version.name) {
      return true;
    }
    var patch := Patch(Translate(Print(version.ref.value.path)), weight.value);
    var key := version.ref.value.obj;
    if key !in table.patches {
      table.patches := table.patches[key := [patch]];
      assert [] + [patch] == [patch];
    } else {
      table.patches := table.patches[key := table.patches[key] + [patch]];
    }
    return true;
  }

  /** redistributeWeight: collects the patches, then applies them object by object; a failing patch is
      only logged. */
  method RedistributeWeight(instance: Instance, c: Cluster, order: seq<ObjKey>, failing: set<ObjKey>)
      returns (ok: bool, after: Cluster)
    ensures var r := Redistribute(c, instance.id.namespace, instance.spec, instance.status, order, failing);
            ok == r.Some? && after == if ok then r.value else c
  {
    after := c;
    if !ShouldRedistribute(instance.spec) {
      return true, c;
    }
    if instance.spec.versionInfo.None? {
      return false, c;
    }
    var vs := instance.spec.versionInfo.value.All();
    var table := new PatchTable();
    for i := 0 to |vs|
      invariant AddPatches(instance.status, vs[..i]) == Some(table.patches)
    {
      assert vs[..i + 1][..i] == vs[..i];
      ok := AddPatchTo(instance, vs[i], table);
      if !ok {
        AddPatchesStops(instance.status, vs, i + 1);
        return;
      }
    }
    assert vs[..|vs|] == vs;
    for i := 0 to |order|
      invariant after == PatchAll(c, instance.id.namespace, table.patches, order[..i], failing)
    {
      assert order[..i + 1][..i] == order[..i];
      var key := order[i];
      if key in table.patches && key !in failing {
        after := after.(fields := PatchObject(after.fields, Resolve(c, key, instance.id.namespace), table.patches[key]));
      }
    }
    assert order[..|order|] == order;
    return true, after;
  }

  lemma {:induction false} AddPatchesStops(st: Status, vs: seq<Version>, i: nat)
    requires i <= |vs| && AddPatches(st, vs[..i]).None?
    ensures AddPatches(st, vs).None?
    decreases |vs|
  {
    if i == |vs| {
      assert vs[..i] == vs;
    } else {
      assert vs[..|vs| - 1][..i] == vs[..i];
      AddPatchesStops(st, vs[..|vs| - 1], i);
    }
  }

  lemma {:induction false} ScanStops(c: Cluster, namespace: string, vs: seq<Version>, i: nat)
    requires i <= |vs| && ScanVersions(c, namespace, vs[..i]).None?
    ensures ScanVersions(c, namespace, vs).None?
    decreases |vs|
  {
    if i == |vs| {
      assert vs[..i] == vs;
    } else {
      assert vs[..|vs| - 1][..i] == vs[..i];
      ScanStops(c, namespace, vs[..|vs| - 1], i);
    }
  }

  /** updateObservedWeights: records the weights in the instance's status, or leaves it as it is. */
  method UpdateObservedWeights(instance: Instance, c: Cluster) returns (r: Observation)
    modifies instance
    ensures r == Observe(c, instance.id.namespace, instance.spec, old(instance.status.weights))
    ensures instance.spec == old(instance.spec)
    ensures instance.status == if r.Observed? then old(instance.status).(weights := r.weights) else old(instance.status)
  {
    hide ObserveWeight, Wrap32;
    if instance.spec.versionInfo.None? {
      return Observed(instance.status.weights);
    }
    var namespace := instance.id.namespace;
    var vs := instance.spec.versionInfo.value.All();
    var observedWeights: seq<WeightData>, missing: seq<string>, total := [], [], 0;
    for i := 0 to |vs|
      invariant ScanVersions(c, namespace, vs[..i]) == Some(Scan(observedWeights, missing, total))
    {
      assert vs[..i + 1][..i] == vs[..i];
      var v := vs[i];
      if v.ref.Some? {
        var w := ObserveWeight(c, namespace, v.ref.value);
        if w.None? {
          ScanStops(c, namespace, vs, i + 1);
          return Unreadable;
        }
        observedWeights := observedWeights + [WeightData(v.name, w.value)];
        total := Wrap32(total + w.value);
      } else {
        missing := missing + [v.name];
      }
    }
    assert vs[..|vs|] == vs;
    if |missing| == 1 {
      observedWeights := observedWeights + [WeightData(missing[0], Wrap32(100 - total))];
    } else if |missing| > 1 {
      if instance.spec.deploymentPattern.None? {
        return NilDereference;
      }
      if instance.spec.deploymentPattern.value != FixedSplit {
        return Unreadable;
      }
    }
    instance.status := instance.status.(weights := observedWeights);
    return Observed(observedWeights);
  }
}
