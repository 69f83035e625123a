// The patch of an allowed VirtualMachine: it applies, and the patched tree is what the webhook promises.
module VmPatches {
  import opened Names
  import opened Json
  import opened VmMutator

  const SPEC: Path := ["spec"]
  const POD: Path := ["spec", "template", "spec"]
  const DOMAIN: Path := ["spec", "template", "spec", "domain"]

  // d1 is d with nothing changed but what lies on the way to p or below it.
  ghost predicate OnlyAt(p: Path, d: Json, d1: Json) { forall q :: Apart(p, q) ==> Field(d1, q) == Field(d, q) }

  lemma PathShapes()
    ensures RUN_STRATEGY[..1] == SPEC && VOLUMES[..1] == SPEC && TOLERATIONS[..1] == SPEC && LIMITS[..1] == SPEC
    ensures VOLUMES[..3] == TOLERATIONS[..3] == LIMITS[..3] == RESOURCES[..3] == POD
    ensures MEMORY[..4] == RESOURCES[..4] == DOMAIN && LIMITS[..5] == RESOURCES
    ensures LIMITS == RESOURCES + ["limits"] && REQUESTS == RESOURCES + ["requests"]
  {}

  lemma PathsApart()
    ensures Apart(RUN_STRATEGY, VOLUMES) && Apart(RUN_STRATEGY, TOLERATIONS) && Apart(RUN_STRATEGY, LIMITS)
    ensures Apart(RUN_STRATEGY, RESOURCES) && Apart(RUN_STRATEGY, REQUESTS) && Apart(RUN_STRATEGY, MEMORY)
    ensures Apart(RUN_STRATEGY, POD)
  {
    var t := "template";
    assert RUN_STRATEGY[1] != t;
    assert VOLUMES[1] == TOLERATIONS[1] == LIMITS[1] == RESOURCES[1] == REQUESTS[1] == MEMORY[1] == POD[1] == t;
  }

  lemma PodPathsApart()
    ensures Apart(LIMITS, VOLUMES) && Apart(LIMITS, TOLERATIONS) && Apart(LIMITS, RUN_STRATEGY)
    ensures Apart(LIMITS, REQUESTS) && Apart(LIMITS, MEMORY)
    ensures Apart(TOLERATIONS, VOLUMES) && Apart(TOLERATIONS, RUN_STRATEGY) && Apart(VOLUMES, RUN_STRATEGY)
  {
    assert LIMITS[1] != RUN_STRATEGY[1] && TOLERATIONS[1] != RUN_STRATEGY[1] && VOLUMES[1] != RUN_STRATEGY[1];
    assert LIMITS[3] != VOLUMES[3] && LIMITS[3] != TOLERATIONS[3] && TOLERATIONS[3] != VOLUMES[3];
    assert LIMITS[5] != REQUESTS[5] && LIMITS[4] != MEMORY[4];
  }

  lemma DeepPathsApart()
    ensures Apart(TOLERATIONS, LIMITS) && Apart(TOLERATIONS, RESOURCES) && Apart(TOLERATIONS, REQUESTS)
    ensures Apart(TOLERATIONS, MEMORY)
    ensures Apart(VOLUMES, LIMITS) && Apart(VOLUMES, RESOURCES) && Apart(VOLUMES, REQUESTS) && Apart(VOLUMES, MEMORY)
    ensures Apart(VOLUMES, TOLERATIONS)
  {
    assert LIMITS[3] == RESOURCES[3] == REQUESTS[3] == MEMORY[3];
    assert TOLERATIONS[3] != LIMITS[3] && VOLUMES[3] != LIMITS[3] && VOLUMES[3] != TOLERATIONS[3];
  }

  // ---- One operation below an object ----

  lemma OneOp(d: Json, op: Op)
    requires op.path != [] && HasObject(d, op.path[..|op.path| - 1])
    requires op.Add? || Field(d, op.path).Here?
    ensures Apply(d, [op]).Some?
    ensures var d1 := Apply(d, [op]).value;
      && OnlyAt(op.path, d, d1)
      && (forall rest :: Field(d1, op.path + rest) == Field(op.value, rest))
      && Field(d1, op.path) == Here(op.value)
      && (forall n :: 0 <= n < |op.path| && HasObject(d, op.path[..n]) ==> HasObject(d1, op.path[..n]))
  {
    PutBelow(d, op, op.path, []);
    assert op.path + [] == op.path;
    var d1 := At(d, op, op.path).value;
    assert [op][1..] == [];
    forall rest ensures Field(d1, op.path + rest) == Field(op.value, rest) { PutBelow(d, op, op.path, rest); }
    forall q | Apart(op.path, q) ensures Field(d1, q) == Field(d, q) { ElsewhereStays(d, op, op.path, q); }
    forall n | 0 <= n < |op.path| && HasObject(d, op.path[..n]) ensures HasObject(d1, op.path[..n]) {
      AboveStaysObject(d, op, op.path, n);
    }
  }

  // ---- The run strategy ----

  // What the patched tree holds: Manual, unless the field was there with something that is not a string.
  lemma RunStrategyStage(d: Json)
    requires HasObject(d, SPEC)
    ensures Apply(d, RunStrategy(d)).Some?
    ensures var d1 := Apply(d, RunStrategy(d)).value;
      && OnlyAt(RUN_STRATEGY, d, d1)
      && (!NestedString(d, RUN_STRATEGY).Bad? ==> Field(d1, RUN_STRATEGY) == Here(MANUAL))
      && (NestedString(d, RUN_STRATEGY).Bad? ==> d1 == d)
      && RunStrategy(d1) == []
      && HasObject(d1, SPEC)
  {
    PathShapes();
    if RunStrategy(d) != [] { OneOp(d, Add(RUN_STRATEGY, MANUAL)); }
  }

  // ---- The limits ----

  lemma {:induction false} NothingBelowAbsent(d: Json, p: Path, rest: Path)
    requires Field(d, p).Absent?
    ensures Field(d, p + rest).Absent?
  {
    if p != [] && d.Obj? && p[0] in d.fields {
      assert (p + rest)[0] == p[0] && (p + rest)[1..] == p[1..] + rest;
      NothingBelowAbsent(d.fields[p[0]], p[1..], rest);
    } else {
      assert p != [] ==> (p + rest)[0] == p[0];
    }
  }

  // Filling in limits a second time changes nothing.
  lemma FillingIsIdempotent(limits: map<string, string>, requests: map<string, string>, memory: map<string, string>,
                            names: seq<string>)
    ensures var filled := FromMemory(FromRequests(limits, requests, names), memory);
      FromMemory(FromRequests(filled, requests, names), memory) == filled
  {
    var filled := FromMemory(FromRequests(limits, requests, names), memory);
    assert FromRequests(filled, requests, names) == filled;
  }

  // Existing non-empty limits stay; every requested resource of the list has one.
  lemma FillingFacts(limits: map<string, string>, requests: map<string, string>, memory: map<string, string>,
                     names: seq<string>)
    ensures var filled := FromMemory(FromRequests(limits, requests, names), memory);
      && (forall k :: k in limits && limits[k] != "" ==> k in filled && filled[k] == limits[k])
      && (forall k :: k in limits && k != "memory" ==> k in filled && filled[k] == limits[k])
      && (forall r :: r in names && r in requests ==> r in filled)
      && (forall r :: r in names && r in requests && r !in limits && requests[r] != "" ==> filled[r] == requests[r])
      && (TextAt(FromRequests(limits, requests, names), "memory") == "" && TextAt(memory, "maxGuest") != "" ==>
          TextAt(filled, "memory") == memory["maxGuest"])
      && (TextAt(FromRequests(limits, requests, names), "memory") == "" && TextAt(memory, "maxGuest") == "" ==>
          TextAt(filled, "memory") == TextAt(memory, "guest"))
      && (forall k :: k in filled ==> k in limits || k in names || k == "memory")
  {}

  lemma SameLookup(d: Json, d1: Json, p: Path)
    requires Field(d1, p) == Field(d, p)
    ensures NestedMap(d1, p) == NestedMap(d, p) && NestedStringMap(d1, p) == NestedStringMap(d, p)
  {}

  // Where the limits end up in the tree.
  lemma LimitsStage(d: Json)
    requires HasObject(d, POD)
    ensures Apply(d, Limits(d)).Some?
    ensures var d1 := Apply(d, Limits(d)).value;
      && OnlyAt(LIMITS, d, d1)
      && (!Readable(SourcesOf(d)) ==> d1 == d)
      && (Readable(SourcesOf(d)) && Wanted(SourcesOf(d)) != OrNone(NestedStringMap(d, LIMITS)) ==>
          NestedStringMap(d1, LIMITS) == Here(Wanted(SourcesOf(d))))
      && (Readable(SourcesOf(d)) && Wanted(SourcesOf(d)) == OrNone(NestedStringMap(d, LIMITS)) ==> d1 == d)
      && Limits(d1) == []
      && HasObject(d1, POD)
  {
    var x := SourcesOf(d);
    if Limits(d) != [] {
      if x.resources.Here? { LimitsInResources(d); } else { LimitsWithResources(d); }
      LimitsAgain(d, Apply(d, Limits(d)).value);
    }
  }

  lemma LimitsAgain(d: Json, d1: Json)
    requires Readable(SourcesOf(d)) && OnlyAt(LIMITS, d, d1) && NestedMap(d1, RESOURCES).Here?
    requires NestedStringMap(d1, LIMITS) == Here(Wanted(SourcesOf(d)))
    ensures Limits(d1) == []
  {
    PodPathsApart();
    SameLookup(d, d1, REQUESTS);
    SameLookup(d, d1, MEMORY);
    var x, x1 := SourcesOf(d), SourcesOf(d1);
    assert x1.requests == x.requests && x1.memory == x.memory && x1.limits == Here(Wanted(x)) && x1.resources.Here?;
    FillingIsIdempotent(OrNone(x.limits), OrNone(x.requests), OrNone(x.memory), LIMITED);
  }

  lemma LimitsInResources(d: Json)
    requires HasObject(d, POD) && Limits(d) != [] && SourcesOf(d).resources.Here?
    ensures Apply(d, Limits(d)).Some?
    ensures var d1 := Apply(d, Limits(d)).value;
      && OnlyAt(LIMITS, d, d1) && NestedMap(d1, RESOURCES).Here? && HasObject(d1, POD)
      && NestedStringMap(d1, LIMITS) == Here(Wanted(SourcesOf(d)))
  {
    var op := Add(LIMITS, FromTexts(Wanted(SourcesOf(d))));
    PathShapes();
    OneOp(d, op);
    TextsRoundTrip(Wanted(SourcesOf(d)));
    var d1 := Apply(d, [op]).value;
    assert HasObject(d1, LIMITS[..5]) && HasObject(d1, LIMITS[..3]);
  }

  lemma LimitsWithResources(d: Json)
    requires HasObject(d, POD) && Limits(d) != [] && SourcesOf(d).resources.Absent?
    ensures Apply(d, Limits(d)).Some?
    ensures var d1 := Apply(d, Limits(d)).value;
      && OnlyAt(LIMITS, d, d1) && NestedMap(d1, RESOURCES).Here? && HasObject(d1, POD)
      && NestedStringMap(d1, LIMITS) == Here(Wanted(SourcesOf(d)))
  {
    var x := SourcesOf(d);
    var limits := FromTexts(Wanted(x));
    var v := Obj(map["limits" := limits]);
    var op := Add(RESOURCES, v);
    PathShapes();
    NothingBelowAbsent(d, RESOURCES, ["requests"]);
    assert x.memory.Here? && Field(d, MEMORY).Here?;
    PrefixIsObject(d, MEMORY, 4);
    OneOp(d, op);
    var d1 := Apply(d, [op]).value;
    assert Field(d1, RESOURCES + ["limits"]) == Field(v, ["limits"]) == Here(limits) by {
      assert ["limits"][1..] == [];
    }
    TextsRoundTrip(Wanted(x));
    assert HasObject(d1, RESOURCES[..3]);
    forall q | Apart(LIMITS, q) ensures Field(d1, q) == Field(d, q) { BesideLimits(d, d1, v, q); }
  }

  // Adding resources with nothing but limits in them changes nothing beside the limits.
  lemma BesideLimits(d: Json, d1: Json, v: Json, q: Path)
    requires Field(d, RESOURCES).Absent? && v.Obj? && v.fields.Keys == {"limits"}
    requires OnlyAt(RESOURCES, d, d1) && forall rest :: Field(d1, RESOURCES + rest) == Field(v, rest)
    requires Apart(LIMITS, q)
    ensures Field(d1, q) == Field(d, q)
  {
    PathShapes();
    var i :| 0 <= i < |LIMITS| && i < |q| && LIMITS[i] != q[i];
    if Apart(RESOURCES, q) {
    } else {
      assert forall j :: 0 <= j < 5 && j < |q| ==> RESOURCES[j] == q[j];
      assert forall j :: 0 <= j < 5 ==> RESOURCES[j] == LIMITS[j];
      assert i == 5;
      var rest := q[5..];
      assert q == RESOURCES + rest && rest[0] != "limits";
      NothingBelowAbsent(d, RESOURCES, rest);
      assert Field(v, rest).Absent?;
    }
  }

  // ---- The tolerations ----

  lemma TolerationsStage(d: Json)
    requires HasObject(d, POD)
    ensures Apply(d, Tolerations(d)).Some?
    ensures var was, d1 := NestedSlice(d, TOLERATIONS), Apply(d, Tolerations(d)).value;
      && OnlyAt(TOLERATIONS, d, d1)
      && (was.Bad? ==> d1 == d)
      && (!was.Bad? ==> var now := NestedSlice(d1, TOLERATIONS);
          && now.Here? && Tolerates(now.value)
          && now.value == ItemsOf(was) + if Tolerates(ItemsOf(was)) then [] else [SANDBOX_TOLERATION])
      && Tolerations(d1) == []
      && HasObject(d1, POD)
  {
    PathShapes();
    var was := NestedSlice(d, TOLERATIONS);
    if Tolerations(d) != [] {
      var ts := ItemsOf(was) + [SANDBOX_TOLERATION];
      OneOp(d, Add(TOLERATIONS, Arr(ts)));
      var d1 := Apply(d, Tolerations(d)).value;
      assert HasObject(d1, TOLERATIONS[..3]);
      assert IsSandboxToleration(ts[|ts| - 1]);
    }
  }

  // ---- The volumes ----

  // An edited volume list: one element, a cloud-init volume, has new user data in one of its two configs.
  predicate OneUserData(was: seq<Json>, now: seq<Json>, i: nat, kind: string) {
    && i < |was| == |now| && now == was[i := now[i]]
    && was[i].Obj? && IsCloudInit(was[i].fields) && kind in CLOUD_INIT_KINDS
    && kind in was[i].fields && was[i].fields[kind].Obj?
    && now[i].Obj? && kind in now[i].fields && now[i].fields == was[i].fields[kind := now[i].fields[kind]]
    && now[i].fields[kind].Obj?
    && (var config := now[i].fields[kind].fields;
        "userData" in config && config["userData"].Str?
        && config == was[i].fields[kind].fields["userData" := config["userData"]])
  }

  lemma {:induction false} EditedVolumes(c: Config, volumes: seq<Json>, i: nat, found: bool)
    returns (k: nat, kind: string)
    requires i <= |volumes| && EditVolumes(c, volumes, i, found).Edited?
    ensures OneUserData(volumes, EditVolumes(c, volumes, i, found).value, k, kind)
    decreases |volumes| - i
  {
    if !IsCloudInit(volumes[i].fields) {
      k, kind := EditedVolumes(c, volumes, i + 1, found);
    } else if EditVolume(c, volumes[i].fields, CLOUD_INIT_KINDS).Same? {
      k, kind := EditedVolumes(c, volumes, i + 1, true);
    } else {
      kind := EditedVolume(c, volumes[i].fields, CLOUD_INIT_KINDS);
      k := i;
    }
  }

  lemma {:induction false} EditedVolume(c: Config, volume: map<string, Json>, kinds: seq<string>) returns (kind: string)
    requires EditVolume(c, volume, kinds).Edited?
    ensures kind in kinds && kind in volume && volume[kind].Obj?
    ensures var now := EditVolume(c, volume, kinds).value;
      && now.Obj? && kind in now.fields && now.fields == volume[kind := now.fields[kind]] && now.fields[kind].Obj?
      && var config := now.fields[kind].fields;
        "userData" in config && config["userData"].Str?
        && config == volume[kind].fields["userData" := config["userData"]]
  {
    if kinds[0] in volume && volume[kinds[0]].Obj? {
      kind := kinds[0];
    } else {
      kind := EditedVolume(c, volume, kinds[1..]);
    }
  }

  predicate HasConfig(volume: map<string, Json>, kinds: seq<string>) {
    exists kind :: kind in kinds && kind in volume && volume[kind].Obj?
  }

  lemma {:induction false} SameIffNoConfig(c: Config, volume: map<string, Json>, kinds: seq<string>)
    ensures EditVolume(c, volume, kinds).Same? <==> !HasConfig(volume, kinds)
  {
    if kinds != [] {
      SameIffNoConfig(c, volume, kinds[1..]);
      assert kinds == [kinds[0]] + kinds[1..];
      assert kinds[0] in volume && volume[kinds[0]].Obj? ==> HasConfig(volume, kinds);
    }
  }

  predicate Unset(volume: Json) {
    volume.Obj? && (IsCloudInit(volume.fields) ==> !HasConfig(volume.fields, CLOUD_INIT_KINDS))
  }

  lemma {:induction false} SameIffUnset(c: Config, volumes: seq<Json>, i: nat, found: bool)
    requires i <= |volumes|
    ensures EditVolumes(c, volumes, i, found).Same? <==>
      && (found || exists j :: i <= j < |volumes| && volumes[j].Obj? && IsCloudInit(volumes[j].fields))
      && forall j :: i <= j < |volumes| ==> Unset(volumes[j])
    decreases |volumes| - i
  {
    if i < |volumes| && volumes[i].Obj? {
      SameIffNoConfig(c, volumes[i].fields, CLOUD_INIT_KINDS);
      SameIffUnset(c, volumes, i + 1, found || IsCloudInit(volumes[i].fields));
    }
  }

  // There are cloud-init volumes, but none that the keys could be added to.
  predicate NoPlaceForKeys(volumes: seq<Json>) {
    && (exists j :: 0 <= j < |volumes| && volumes[j].Obj? && IsCloudInit(volumes[j].fields))
    && forall j :: 0 <= j < |volumes| ==> Unset(volumes[j])
  }

  predicate Untouched(patch: seq<Op>, path: Path) { forall op :: op in patch ==> op.path != path }

  lemma FirstStepsElsewhere(vm: Json)
    ensures Untouched(RunStrategy(vm), VOLUMES) && Untouched(Limits(vm), VOLUMES) && Untouched(Tolerations(vm), VOLUMES)
  {
    assert RUN_STRATEGY[1] != VOLUMES[1];
    assert RESOURCES[3] == LIMITS[3] != VOLUMES[3];
    assert TOLERATIONS[3] != VOLUMES[3];
  }

  lemma UntouchedIff(c: Config, vm: Json)
    ensures Mutate(c, vm).Allowed? && Untouched(Mutate(c, vm).patch, VOLUMES) <==> vm.Obj? && Volumes(c, vm).Same?
  {
    FirstStepsElsewhere(vm);
    var first := RunStrategy(vm) + Limits(vm) + Tolerations(vm);
    if vm.Obj? && Volumes(c, vm).Edited? {
      var patch := Mutate(c, vm).patch;
      assert patch[|first|] in patch && patch[|first|].path == VOLUMES;
    }
  }

  // A machine is let through without SSH keys exactly when it has cloud-init volumes but none with a known config.
  lemma LetThroughWithoutKeys(c: Config, vm: Json)
    ensures var r, volumes := Mutate(c, vm), NestedSlice(vm, VOLUMES);
      r.Allowed? && Untouched(r.patch, VOLUMES) <==>
        vm.Obj? && c.keysValid && volumes.Here? && NoPlaceForKeys(volumes.value)
  {
    UntouchedIff(c, vm);
    var volumes := NestedSlice(vm, VOLUMES);
    if volumes.Here? { SameIffUnset(c, volumes.value, 0, false); }
  }

  // A machine whose only volume has its user data under a name that is not known.
  function Volume(kind: string, userData: string): Json {
    Obj(map["name" := Str("cloudinitdisk"), kind := Obj(map["userData" := Str(userData)])])
  }

  function Machine(kind: string, userData: string): Json {
    Obj(map["kind" := Str("VirtualMachine"), "spec" := Obj(map["template" := Obj(map["spec" := Pod(kind, userData)])])])
  }

  function Pod(kind: string, userData: string): Json { Obj(map["volumes" := Arr([Volume(kind, userData)])]) }

  lemma InPod(kind: string, userData: string, path: Path)
    requires |path| >= 4 && path[..3] == POD && (path[3] == VOLUMES[3] ==> |path| == 4)
    ensures Field(Machine(kind, userData), path)
      == if path == VOLUMES then Here(Arr([Volume(kind, userData)])) else Absent
  {
    assert path[0] == POD[0] && path[1] == POD[1] && path[2] == POD[2];
    assert path[1..][1..] == path[2..] && path[2..][1..] == path[3..];
    var vm := Machine(kind, userData);
    assert Field(vm, path) == Field(vm.fields["spec"], path[1..]);
    assert Field(vm.fields["spec"], path[1..]) == Field(vm.fields["spec"].fields["template"], path[2..]);
    assert Field(vm, path) == Field(Pod(kind, userData), path[3..]);
    assert path[3..][0] == path[3];
    if path[3] == VOLUMES[3] {
      assert path == path[..3] + [path[3]] == POD + [VOLUMES[3]] == VOLUMES;
      assert path[3..][1..] == [];
      var volumes := Arr([Volume(kind, userData)]);
      assert Field(volumes, []) == Here(volumes);
      assert Field(Pod(kind, userData), path[3..]) == Field(volumes, path[3..][1..]);
    } else {
      assert path != VOLUMES;
    }
  }

  lemma MachineFields(kind: string, userData: string)
    ensures var vm := Machine(kind, userData);
      && NestedSlice(vm, VOLUMES) == Here([Volume(kind, userData)])
      && Field(vm, RUN_STRATEGY).Absent? && Field(vm, TOLERATIONS).Absent?
      && Field(vm, MEMORY).Absent? && Field(vm, REQUESTS).Absent?
  {
    InPod(kind, userData, VOLUMES);
    InPod(kind, userData, TOLERATIONS);
    InPod(kind, userData, MEMORY);
    InPod(kind, userData, REQUESTS);
    assert VOLUMES[3] != TOLERATIONS[3] && VOLUMES[3] != MEMORY[3] && VOLUMES[3] != REQUESTS[3];
    assert Field(Machine(kind, userData), RUN_STRATEGY)
        == Field(Machine(kind, userData).fields["spec"], RUN_STRATEGY[1..]);
  }

  // It is allowed with the run strategy and the toleration set, its user data as they are.
  lemma MachineWithoutKeys(c: Config, kind: string, userData: string)
    requires c.keysValid && kind != "name" && kind !in CLOUD_INIT_KINDS
    ensures Mutate(c, Machine(kind, userData))
      == Allowed([Add(RUN_STRATEGY, MANUAL), Add(TOLERATIONS, Arr([SANDBOX_TOLERATION]))])
  {
    var vm, volume := Machine(kind, userData), Volume(kind, userData);
    MachineFields(kind, userData);
    SameIffUnset(c, [volume], 0, false);
    assert IsCloudInit(volume.fields);
    forall known | known in CLOUD_INIT_KINDS ensures known !in volume.fields {
      assert |known| != |"name"|;
    }
    assert Unset(volume) && [volume][0] == volume;
    assert Volumes(c, vm).Same?;
    assert RunStrategy(vm) == [Add(RUN_STRATEGY, MANUAL)];
    assert Limits(vm) == [];
    assert ItemsOf(NestedSlice(vm, TOLERATIONS)) + [SANDBOX_TOLERATION] == [SANDBOX_TOLERATION];
    assert Tolerations(vm) == [Add(TOLERATIONS, Arr([SANDBOX_TOLERATION]))];
  }

  function VolumePatch(e: Edit<seq<Json>>): seq<Op> {
    if e.Edited? then [Replace(VOLUMES, Arr(e.value))] else []
  }

  lemma VolumesStage(c: Config, d: Json)
    requires HasObject(d, POD) && NestedSlice(d, VOLUMES).Here?
    ensures Apply(d, VolumePatch(Volumes(c, d))).Some?
    ensures var d1 := Apply(d, VolumePatch(Volumes(c, d))).value;
      && OnlyAt(VOLUMES, d, d1)
      && (Volumes(c, d).Edited? ==> NestedSlice(d1, VOLUMES) == Here(Volumes(c, d).value))
      && (!Volumes(c, d).Edited? ==> d1 == d)
  {
    PathShapes();
    var e := Volumes(c, d);
    if e.Edited? { OneOp(d, Replace(VOLUMES, Arr(e.value))); }
  }

  // ---- The whole patch ----

  lemma SameSources(d: Json, d1: Json)
    requires Field(d1, RESOURCES) == Field(d, RESOURCES) && Field(d1, REQUESTS) == Field(d, REQUESTS)
    requires Field(d1, MEMORY) == Field(d, MEMORY) && Field(d1, LIMITS) == Field(d, LIMITS)
    ensures SourcesOf(d1) == SourcesOf(d)
  {
    SameLookup(d, d1, RESOURCES);
    SameLookup(d, d1, REQUESTS);
    SameLookup(d, d1, MEMORY);
    SameLookup(d, d1, LIMITS);
  }

  // Each step leaves what the others look at.
  lemma AfterManual(d: Json, d1: Json)
    requires OnlyAt(RUN_STRATEGY, d, d1)
    ensures SourcesOf(d1) == SourcesOf(d) && Field(d1, POD) == Field(d, POD)
    ensures Field(d1, TOLERATIONS) == Field(d, TOLERATIONS) && Field(d1, VOLUMES) == Field(d, VOLUMES)
    ensures Field(d1, LIMITS) == Field(d, LIMITS)
  {
    PathsApart();
    SameSources(d, d1);
  }

  lemma AfterLimits(d: Json, d1: Json)
    requires OnlyAt(LIMITS, d, d1)
    ensures Field(d1, RUN_STRATEGY) == Field(d, RUN_STRATEGY)
    ensures Field(d1, TOLERATIONS) == Field(d, TOLERATIONS) && Field(d1, VOLUMES) == Field(d, VOLUMES)
  {
    PodPathsApart();
  }

  lemma AfterTolerations(d: Json, d1: Json)
    requires OnlyAt(TOLERATIONS, d, d1)
    ensures SourcesOf(d1) == SourcesOf(d) && Field(d1, LIMITS) == Field(d, LIMITS)
    ensures Field(d1, RUN_STRATEGY) == Field(d, RUN_STRATEGY) && Field(d1, VOLUMES) == Field(d, VOLUMES)
  {
    PodPathsApart();
    DeepPathsApart();
    SameSources(d, d1);
  }

  lemma AfterVolumes(d: Json, d1: Json)
    requires OnlyAt(VOLUMES, d, d1)
    ensures SourcesOf(d1) == SourcesOf(d) && Field(d1, LIMITS) == Field(d, LIMITS)
    ensures Field(d1, RUN_STRATEGY) == Field(d, RUN_STRATEGY) && Field(d1, TOLERATIONS) == Field(d, TOLERATIONS)
  {
    PodPathsApart();
    DeepPathsApart();
    SameSources(d, d1);
  }

  // The trees between the four steps.
  datatype Stages = Stages(manual: Json, limited: Json, tolerating: Json, final: Json)

  // They are the trees the four steps produce, each looking at the tree the one before has left.
  ghost predicate AreStages(c: Config, vm: Json, x: Stages) {
    && HasObject(vm, SPEC) && Apply(vm, RunStrategy(vm)) == Some(x.manual)
    && HasObject(x.manual, POD) && Apply(x.manual, Limits(x.manual)) == Some(x.limited)
    && HasObject(x.limited, POD) && Apply(x.limited, Tolerations(x.limited)) == Some(x.tolerating)
    && HasObject(x.tolerating, POD) && NestedSlice(x.tolerating, VOLUMES).Here?
    && Apply(x.tolerating, VolumePatch(Volumes(c, x.tolerating))) == Some(x.final)
  }

  lemma SpecIsObject(vm: Json)
    requires NestedSlice(vm, VOLUMES).Here?
    ensures HasObject(vm, SPEC) && HasObject(vm, POD)
  {
    PathShapes();
    PrefixIsObject(vm, VOLUMES, 1);
    PrefixIsObject(vm, VOLUMES, 3);
  }

  lemma FirstStages(vm: Json) returns (manual: Json, limited: Json)
    requires HasObject(vm, SPEC) && HasObject(vm, POD)
    ensures Apply(vm, RunStrategy(vm)) == Some(manual) && Apply(manual, Limits(manual)) == Some(limited)
    ensures HasObject(manual, POD) && HasObject(limited, POD) && Limits(manual) == Limits(vm)
    ensures Field(limited, TOLERATIONS) == Field(vm, TOLERATIONS) && Field(limited, VOLUMES) == Field(vm, VOLUMES)
  {
    RunStrategyStage(vm);
    manual := Apply(vm, RunStrategy(vm)).value;
    AfterManual(vm, manual);
    LimitsStage(manual);
    limited := Apply(manual, Limits(manual)).value;
    AfterLimits(manual, limited);
  }

  lemma LastStages(c: Config, d: Json) returns (tolerating: Json, final: Json)
    requires HasObject(d, POD) && NestedSlice(d, VOLUMES).Here?
    ensures Apply(d, Tolerations(d)) == Some(tolerating) && HasObject(tolerating, POD)
    ensures NestedSlice(tolerating, VOLUMES) == NestedSlice(d, VOLUMES)
    ensures Apply(tolerating, VolumePatch(Volumes(c, tolerating))) == Some(final)
  {
    TolerationsStage(d);
    tolerating := Apply(d, Tolerations(d)).value;
    AfterTolerations(d, tolerating);
    VolumesStage(c, tolerating);
    final := Apply(tolerating, VolumePatch(Volumes(c, tolerating))).value;
  }

  lemma AllStages(c: Config, vm: Json) returns (x: Stages)
    requires NestedSlice(vm, VOLUMES).Here?
    ensures AreStages(c, vm, x)
    ensures Limits(x.manual) == Limits(vm) && Tolerations(x.limited) == Tolerations(vm)
    ensures NestedSlice(x.tolerating, VOLUMES) == NestedSlice(vm, VOLUMES)
  {
    SpecIsObject(vm);
    var manual, limited := FirstStages(vm);
    var tolerating, final := LastStages(c, limited);
    x := Stages(manual, limited, tolerating, final);
  }

  // The patch computed from the first tree does the same as the steps one after the other.
  lemma PatchIsStages(c: Config, vm: Json) returns (x: Stages)
    requires Mutate(c, vm).Allowed?
    ensures AreStages(c, vm, x) && Apply(vm, Mutate(c, vm).patch) == Some(x.final)
    ensures NestedSlice(x.tolerating, VOLUMES) == NestedSlice(vm, VOLUMES)
  {
    assert NestedSlice(vm, VOLUMES).Here?;
    x := AllStages(c, vm);
    var a, b, t, v := RunStrategy(vm), Limits(x.manual), Tolerations(x.limited), VolumePatch(Volumes(c, x.tolerating));
    assert Volumes(c, x.tolerating) == Volumes(c, vm);
    Chain(vm, a, b, t, v);
    assert Mutate(c, vm).patch == a + b + t + v;
  }

  lemma Chain(d: Json, a: seq<Op>, b: seq<Op>, c: seq<Op>, e: seq<Op>)
    requires Apply(d, a).Some? && Apply(Apply(d, a).value, b).Some?
    requires Apply(Apply(Apply(d, a).value, b).value, c).Some?
    requires Apply(Apply(Apply(Apply(d, a).value, b).value, c).value, e).Some?
    ensures Apply(d, a + b + c + e) == Apply(Apply(Apply(Apply(d, a).value, b).value, c).value, e)
  {
    ApplyAppend(d, a, b);
    ApplyAppend(d, a + b, c);
    ApplyAppend(d, a + b + c, e);
  }

  // ---- What the webhook promises about the patched tree, given the tree before ----

  ghost predicate RunsManually(vm: Json, out: Json) {
    if NestedString(vm, RUN_STRATEGY).Bad? then Field(out, RUN_STRATEGY) == Field(vm, RUN_STRATEGY)
    else Field(out, RUN_STRATEGY) == Here(MANUAL)
  }

  ghost predicate HasLimits(vm: Json, out: Json) {
    if Readable(SourcesOf(vm)) then OrNone(NestedStringMap(out, LIMITS)) == Wanted(SourcesOf(vm))
    else Field(out, LIMITS) == Field(vm, LIMITS)
  }

  // The old tolerations first, and one for the metal node if they had none.
  ghost predicate HasToleration(vm: Json, out: Json) {
    var was, now := NestedSlice(vm, TOLERATIONS), NestedSlice(out, TOLERATIONS);
    if was.Bad? then now == was
    else now == Here(ItemsOf(was) + if Tolerates(ItemsOf(was)) then [] else [SANDBOX_TOLERATION])
  }

  ghost predicate KeepsVolumes(vm: Json, out: Json) {
    var was, now := NestedSlice(vm, VOLUMES), NestedSlice(out, VOLUMES);
    was.Here? && now.Here? && (now == was || exists i: nat, kind :: OneUserData(was.value, now.value, i, kind))
  }

  ghost predicate KeepsRest(vm: Json, out: Json) {
    forall q :: Apart(RUN_STRATEGY, q) && Apart(LIMITS, q) && Apart(TOLERATIONS, q) && Apart(VOLUMES, q) ==>
      Field(out, q) == Field(vm, q)
  }

  // For every tree and configuration the webhook allows, the patch applies and keeps the promise; running the first
  // three steps on the result would change nothing more.
  lemma PatchIsCorrect(c: Config, vm: Json)
    requires Mutate(c, vm).Allowed?
    ensures Apply(vm, Mutate(c, vm).patch).Some?
    ensures var out := Apply(vm, Mutate(c, vm).patch).value;
      && RunsManually(vm, out) && HasLimits(vm, out) && HasToleration(vm, out) && KeepsVolumes(vm, out)
      && KeepsRest(vm, out)
      && RunStrategy(out) == [] && Limits(out) == [] && Tolerations(out) == []
  {
    var x := PatchIsStages(c, vm);
    ManualKept(c, vm, x);
    LimitsKept(c, vm, x);
    TolerationsKept(c, vm, x);
    VolumesKept(c, vm, x);
    RestKept(c, vm, x);
  }

  lemma ManualKept(c: Config, vm: Json, x: Stages)
    requires AreStages(c, vm, x)
    ensures RunsManually(vm, x.final) && RunStrategy(x.final) == []
  {
    RunStrategyStage(vm);
    LimitsStage(x.manual);
    AfterLimits(x.manual, x.limited);
    TolerationsStage(x.limited);
    AfterTolerations(x.limited, x.tolerating);
    VolumesStage(c, x.tolerating);
    AfterVolumes(x.tolerating, x.final);
    SameRunStrategy(x.manual, x.final);
  }

  lemma SameRunStrategy(d: Json, d1: Json)
    requires Field(d1, RUN_STRATEGY) == Field(d, RUN_STRATEGY)
    ensures RunStrategy(d1) == RunStrategy(d)
  {}

  lemma LimitsKept(c: Config, vm: Json, x: Stages)
    requires AreStages(c, vm, x)
    ensures HasLimits(vm, x.final) && Limits(x.final) == []
  {
    RunStrategyStage(vm);
    AfterManual(vm, x.manual);
    LimitsStage(x.manual);
    LimitsPlaced(vm, x.manual, x.limited);
    TolerationsStage(x.limited);
    AfterTolerations(x.limited, x.tolerating);
    VolumesStage(c, x.tolerating);
    AfterVolumes(x.tolerating, x.final);
    SameLookup(x.limited, x.final, LIMITS);
  }

  lemma LimitsPlaced(vm: Json, d: Json, d1: Json)
    requires HasObject(d, POD) && Apply(d, Limits(d)) == Some(d1)
    requires SourcesOf(d) == SourcesOf(vm) && Field(d, LIMITS) == Field(vm, LIMITS)
    ensures HasLimits(vm, d1)
  {
    LimitsStage(d);
    SameLookup(vm, d, LIMITS);
  }

  lemma TolerationsBefore(c: Config, vm: Json, x: Stages)
    requires AreStages(c, vm, x)
    ensures NestedSlice(x.limited, TOLERATIONS) == NestedSlice(vm, TOLERATIONS)
  {
    RunStrategyStage(vm);
    AfterManual(vm, x.manual);
    LimitsStage(x.manual);
    AfterLimits(x.manual, x.limited);
  }

  lemma TolerationsAfter(c: Config, vm: Json, x: Stages)
    requires AreStages(c, vm, x)
    ensures NestedSlice(x.final, TOLERATIONS) == NestedSlice(x.tolerating, TOLERATIONS)
  {
    VolumesStage(c, x.tolerating);
    AfterVolumes(x.tolerating, x.final);
  }

  lemma TolerationsKept(c: Config, vm: Json, x: Stages)
    requires AreStages(c, vm, x)
    ensures HasToleration(vm, x.final) && Tolerations(x.final) == []
  {
    TolerationsBefore(c, vm, x);
    TolerationsAfter(c, vm, x);
    TolerationsStage(x.limited);
  }

  lemma VolumesKept(c: Config, vm: Json, x: Stages)
    requires AreStages(c, vm, x)
    requires NestedSlice(x.tolerating, VOLUMES) == NestedSlice(vm, VOLUMES)
    ensures KeepsVolumes(vm, x.final)
  {
    VolumesStage(c, x.tolerating);
    var was := NestedSlice(vm, VOLUMES).value;
    if Volumes(c, x.tolerating).Edited? {
      var i, kind := EditedVolumes(c, was, 0, false);
      assert OneUserData(was, NestedSlice(x.final, VOLUMES).value, i, kind);
    }
  }

  lemma RestKept(c: Config, vm: Json, x: Stages)
    requires AreStages(c, vm, x)
    ensures KeepsRest(vm, x.final)
  {
    RunStrategyStage(vm);
    LimitsStage(x.manual);
    TolerationsStage(x.limited);
    VolumesStage(c, x.tolerating);
  }
}
