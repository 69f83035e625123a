// The VirtualMachine mutating webhook: a JSON tree in, a JSON Patch out.
module VmMutator {
  import opened Json

  const RUN_STRATEGY: Path := ["spec", "runStrategy"]
  const TOLERATIONS: Path := ["spec", "template", "spec", "tolerations"]
  const VOLUMES: Path := ["spec", "template", "spec", "volumes"]
  const MEMORY: Path := ["spec", "template", "spec", "domain", "memory"]
  const RESOURCES: Path := ["spec", "template", "spec", "domain", "resources"]
  const REQUESTS: Path := ["spec", "template", "spec", "domain", "resources", "requests"]
  const LIMITS: Path := ["spec", "template", "spec", "domain", "resources", "limits"]

  const MANUAL := Str("Manual")
  const SANDBOX_TOLERATION :=
    Obj(map["effect" := Str("NoSchedule"), "key" := Str("sandbox-cnv"), "operator" := Str("Exists")])

  // Adding the SSH keys to cloud-init user data, which parses YAML: it may fail, or panic on odd authorized keys.
  datatype UserData = UserData(text: string) | Malformed | Crashed

  // `keysValid`: at least one SSH key is configured. `byDefault`: the user data of a config that has none.
  datatype Config = Config(keysValid: bool, addKeys: string -> UserData, byDefault: string)

  datatype Response = Allowed(patch: seq<Op>) | Denied | Panics

  // ---- ensureManualRunStrategy ----

  function RunStrategy(vm: Json): seq<Op> {
    match NestedString(vm, RUN_STRATEGY)
    case Bad => []
    case Here(text) => if Str(text) == MANUAL then [] else [Add(RUN_STRATEGY, MANUAL)]
    case Absent => [Add(RUN_STRATEGY, MANUAL)]
  }

  // ---- ensureLimits ----

  function OrNone(m: Lookup<map<string, string>>): map<string, string> { if m.Here? then m.value else map[] }

  function TextAt(m: map<string, string>, k: string): string { if k in m then m[k] else "" }

  const LIMITED: seq<string> := ["memory", "cpu"]

  // A limit for each requested resource of the list that has none.
  function FromRequests(limits: map<string, string>, requests: map<string, string>, names: seq<string>)
    : map<string, string>
  {
    (map r | r in requests && r in names :: requests[r]) + limits
  }

  // A memory limit still missing or empty falls back to maxGuest, then to guest.
  function FromMemory(limits: map<string, string>, memory: map<string, string>): map<string, string> {
    if TextAt(limits, "memory") != "" then limits
    else if TextAt(memory, "maxGuest") != "" then limits["memory" := memory["maxGuest"]]
    else if TextAt(memory, "guest") != "" then limits["memory" := memory["guest"]]
    else limits
  }

  // What the limits are derived from; `resources` only matters for where to put them.
  datatype Sources = Sources(resources: Lookup<map<string, Json>>, requests: Lookup<map<string, string>>,
                             memory: Lookup<map<string, string>>, limits: Lookup<map<string, string>>)

  function SourcesOf(vm: Json): Sources {
    Sources(NestedMap(vm, RESOURCES), NestedStringMap(vm, REQUESTS), NestedStringMap(vm, MEMORY),
            NestedStringMap(vm, LIMITS))
  }

  predicate Readable(x: Sources) {
    && !x.resources.Bad? && !x.requests.Bad? && !x.memory.Bad? && !x.limits.Bad?
    && (x.requests.Here? || x.memory.Here?)
  }

  function Wanted(x: Sources): map<string, string> {
    FromMemory(FromRequests(OrNone(x.limits), OrNone(x.requests), LIMITED), OrNone(x.memory))
  }

  function LimitsFrom(x: Sources): seq<Op> {
    if !Readable(x) || Wanted(x) == OrNone(x.limits) then []
    else if x.resources.Here? then [Add(LIMITS, FromTexts(Wanted(x)))]
    else [Add(RESOURCES, Obj(map["limits" := FromTexts(Wanted(x))]))]
  }

  function Limits(vm: Json): seq<Op> { LimitsFrom(SourcesOf(vm)) }

  // ---- ensureTolerations ----

  predicate IsSandboxToleration(t: Json) {
    t.Obj? && "key" in t.fields && t.fields["key"] == Str("sandbox-cnv")
  }

  predicate Tolerates(ts: seq<Json>) { exists i :: 0 <= i < |ts| && IsSandboxToleration(ts[i]) }

  function ItemsOf(l: Lookup<seq<Json>>): seq<Json> { if l.Here? then l.value else [] }

  function TolerationsFrom(l: Lookup<seq<Json>>): seq<Op> {
    if l.Bad? || Tolerates(ItemsOf(l)) then [] else [Add(TOLERATIONS, Arr(ItemsOf(l) + [SANDBOX_TOLERATION]))]
  }

  function Tolerations(vm: Json): seq<Op> { TolerationsFrom(NestedSlice(vm, TOLERATIONS)) }

  // ---- ensureVolumeConfig ----

  const CLOUD_INIT_KINDS: seq<string> := ["cloudInitNoCloud", "cloudInitConfigDrive"]

  // A volume or a volume list: left as it is, changed, refused, or the handler panics.
  datatype Edit<+T> = Same | Edited(value: T) | Refused | Crash

  // The user data of a cloud-init config.
  function EditConfig(c: Config, config: map<string, Json>): Edit<map<string, Json>> {
    if "userData" !in config then Edited(config["userData" := Str(c.byDefault)])
    else if !config["userData"].Str? then Crash
    else match c.addKeys(config["userData"].text)
      case UserData(text) => Edited(config["userData" := Str(text)])
      case Malformed => Refused
      case Crashed => Crash
  }

  function InVolume(volume: map<string, Json>, kind: string, e: Edit<map<string, Json>>): Edit<Json> {
    match e
    case Same => Same
    case Edited(config) => Edited(Obj(volume[kind := Obj(config)]))
    case Refused => Refused
    case Crash => Crash
  }

  // Only the first supported kind that the volume has is edited.
  function EditVolume(c: Config, volume: map<string, Json>, kinds: seq<string>): Edit<Json> {
    if kinds == [] then Same
    else if kinds[0] in volume && volume[kinds[0]].Obj?
    then InVolume(volume, kinds[0], EditConfig(c, volume[kinds[0]].fields))
    else EditVolume(c, volume, kinds[1..])
  }

  predicate IsCloudInit(volume: map<string, Json>) { "name" in volume && volume["name"] == Str("cloudinitdisk") }

  // From volume i on; `found` says whether a cloud-init volume came before.
  function EditVolumes(c: Config, volumes: seq<Json>, i: nat, found: bool): Edit<seq<Json>>
    requires i <= |volumes|
    decreases |volumes| - i
  {
    if i == |volumes| then if found then Same else Refused
    else if !volumes[i].Obj? then Crash
    else if !IsCloudInit(volumes[i].fields) then EditVolumes(c, volumes, i + 1, found)
    else match EditVolume(c, volumes[i].fields, CLOUD_INIT_KINDS)
      case Same => EditVolumes(c, volumes, i + 1, true)
      case Edited(volume) => Edited(volumes[i := volume])
      case Refused => Refused
      case Crash => Crash
  }

  function Volumes(c: Config, vm: Json): Edit<seq<Json>> {
    match NestedSlice(vm, VOLUMES)
    case Here(volumes) => if c.keysValid then EditVolumes(c, volumes, 0, false) else Refused
    case _ => Refused
  }

  // ---- vmMutator ----

  function Mutate(c: Config, vm: Json): Response {
    if !vm.Obj? then Denied
    else
      var patch := RunStrategy(vm) + Limits(vm) + Tolerations(vm);
      match Volumes(c, vm)
      case Same => Allowed(patch)
      case Edited(volumes) => Allowed(patch + [Replace(VOLUMES, Arr(volumes))])
      case Refused => Denied
      case Crash => Panics
  }

  // ---- The same as the program does it ----

  method EnsureManualRunStrategy(vm: Json, patchItems: seq<Op>) returns (items: seq<Op>)
    ensures items == patchItems + RunStrategy(vm)
  {
    items := patchItems;
    var runStrategy := NestedString(vm, RUN_STRATEGY);
    if runStrategy.Bad? { return; }
    var text := if runStrategy.Here? then runStrategy.value else "";
    if text != "Manual" { items := items + [Add(RUN_STRATEGY, MANUAL)]; }
  }

  method EnsureLimits(vm: Json, patchItems: seq<Op>) returns (items: seq<Op>)
    ensures items == patchItems + Limits(vm)
  {
    items := patchItems;
    var resources := NestedMap(vm, RESOURCES);
    if resources.Bad? { return; }
    var requests := NestedStringMap(vm, REQUESTS);
    if requests.Bad? { return; }
    var memory := NestedStringMap(vm, MEMORY);
    if memory.Bad? { return; }
    if !requests.Here? && !memory.Here? { return; }
    var found := NestedStringMap(vm, LIMITS);
    if found.Bad? { return; }
    var limits, anyChanges := FillLimits(OrNone(found), OrNone(requests), memory);
    if !anyChanges { return; }
    if resources.Here? { items := items + [Add(LIMITS, FromTexts(limits))]; }
    else { items := items + [Add(RESOURCES, Obj(map["limits" := FromTexts(limits)]))]; }
  }

  // The limits map as it is filled; it differs afterwards iff anything was assigned.
  method FillLimits(limits: map<string, string>, requests: map<string, string>, memory: Lookup<map<string, string>>)
    returns (filled: map<string, string>, anyChanges: bool)
    ensures filled == FromMemory(FromRequests(limits, requests, LIMITED), OrNone(memory))
    ensures anyChanges <==> filled != limits
  {
    filled, anyChanges := FillFromRequests(limits, requests, LIMITED);
    ghost var before := filled;
    if memory.Here? && TextAt(filled, "memory") == "" {
      if TextAt(memory.value, "maxGuest") != "" {
        filled, anyChanges := filled["memory" := memory.value["maxGuest"]], true;
      } else if TextAt(memory.value, "guest") != "" {
        filled, anyChanges := filled["memory" := memory.value["guest"]], true;
      }
      assert TextAt(limits, "memory") == "";
      assert filled != before ==> TextAt(filled, "memory") != "";
    }
  }

  method FillFromRequests(limits: map<string, string>, requests: map<string, string>, names: seq<string>)
    returns (filled: map<string, string>, anyChanges: bool)
    ensures filled == FromRequests(limits, requests, names)
    ensures anyChanges <==> filled != limits
    ensures forall k :: k in limits ==> k in filled && filled[k] == limits[k]
  {
    filled, anyChanges := limits, false;
    for i := 0 to |names|
      invariant filled == FromRequests(limits, requests, names[..i])
      invariant anyChanges <==> filled != limits
    {
      assert names[..i + 1] == names[..i] + [names[i]];
      OneMoreName(limits, requests, names[..i], names[i]);
      if names[i] !in filled && names[i] in requests {
        filled, anyChanges := filled[names[i] := requests[names[i]]], true;
        assert names[i] in filled && names[i] !in limits;
      }
    }
    assert names[..|names|] == names;
  }

  lemma OneMoreName(limits: map<string, string>, requests: map<string, string>, names: seq<string>, n: string)
    ensures var m := FromRequests(limits, requests, names);
      FromRequests(limits, requests, names + [n]) == (if n !in m && n in requests then m[n := requests[n]] else m)
  {
    var m, m1 := FromRequests(limits, requests, names), FromRequests(limits, requests, names + [n]);
    assert forall k :: k in m1 <==> k in m || (k == n && n in requests);
    assert forall k :: k in m ==> m1[k] == m[k];
  }

  method EnsureTolerations(vm: Json, patchItems: seq<Op>) returns (items: seq<Op>)
    ensures items == patchItems + Tolerations(vm)
  {
    items := patchItems;
    var found := NestedSlice(vm, TOLERATIONS);
    if found.Bad? { return; }
    var ts := ItemsOf(found);
    for i := 0 to |ts|
      invariant forall j :: 0 <= j < i ==> !IsSandboxToleration(ts[j])
    {
      if IsSandboxToleration(ts[i]) { return; }
    }
    items := items + [Add(TOLERATIONS, Arr(ts + [SANDBOX_TOLERATION]))];
  }

  method EnsureVolumeConfig(c: Config, vm: Json) returns (e: Edit<seq<Json>>)
    ensures e == Volumes(c, vm)
  {
    var found := NestedSlice(vm, VOLUMES);
    if !found.Here? || !c.keysValid { return Refused; }
    var volumes := found.value;
    var cloudInitFound := false;
    for i := 0 to |volumes|
      invariant EditVolumes(c, volumes, 0, false) == EditVolumes(c, volumes, i, cloudInitFound)
    {
      if !volumes[i].Obj? { return Crash; }
      var volume := volumes[i].fields;
      if IsCloudInit(volume) {
        cloudInitFound := true;
        var edit := FirstConfig(c, volume);
        match edit
        case Same =>
        case Edited(changed) => return Edited(volumes[i := changed]);
        case Refused => return Refused;
        case Crash => return Crash;
      }
    }
    e := if cloudInitFound then Same else Refused;
  }

  method FirstConfig(c: Config, volume: map<string, Json>) returns (e: Edit<Json>)
    ensures e == EditVolume(c, volume, CLOUD_INIT_KINDS)
  {
    var kinds := CLOUD_INIT_KINDS;
    for i := 0 to |kinds|
      invariant EditVolume(c, volume, kinds) == EditVolume(c, volume, kinds[i..])
    {
      assert kinds[i..][1..] == kinds[i + 1..] && kinds[i..][0] == kinds[i];
      if kinds[i] in volume && volume[kinds[i]].Obj? {
        var config := volume[kinds[i]].fields;
        if "userData" in config {
          if !config["userData"].Str? { return Crash; }
          var updated := c.addKeys(config["userData"].text);
          match updated
          case Malformed => return Refused;
          case Crashed => return Crash;
          case UserData(text) => config := config["userData" := Str(text)];
        } else {
          config := config["userData" := Str(c.byDefault)];
        }
        return Edited(Obj(volume[kinds[i] := Obj(config)]));
      }
    }
    e := Same;
  }

  method HandleVm(c: Config, vm: Json) returns (r: Response)
    ensures r == Mutate(c, vm)
  {
    if !vm.Obj? { return Denied; }
    var items := EnsureManualRunStrategy(vm, []);
    items := EnsureLimits(vm, items);
    items := EnsureTolerations(vm, items);
    assert items == RunStrategy(vm) + Limits(vm) + Tolerations(vm);
    var e := EnsureVolumeConfig(c, vm);
    match e
    case Same => r := Allowed(items);
    case Edited(volumes) => r := Allowed(items + [Replace(VOLUMES, Arr(volumes))]);
    case Refused => r := Denied;
    case Crash => r := Panics;
  }
}
