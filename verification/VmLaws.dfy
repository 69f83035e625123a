// The webhook's answer and the patched machine, told by the fields of the machine.
module VmLaws {
  import opened Json
  import opened VmMutator
  import opened VmPatches

  function VolumesOf(vm: Json): Lookup<seq<Json>> { NestedSlice(vm, ["spec", "template", "spec", "volumes"]) }

  predicate CloudInitDisk(v: Json) { v.Obj? && "name" in v.fields && v.fields["name"] == Str("cloudinitdisk") }

  predicate HasObj(v: Json, kind: string) { v.Obj? && kind in v.fields && v.fields[kind].Obj? }

  // The config of a cloud-init volume that counts, if it has one: NoCloud goes before ConfigDrive.
  predicate Configured(v: Json, kind: string) {
    && CloudInitDisk(v) && HasObj(v, kind)
    && (kind == "cloudInitNoCloud" || (kind == "cloudInitConfigDrive" && !HasObj(v, "cloudInitNoCloud")))
  }

  // Volumes that are passed over.
  predicate PassedOver(v: Json) {
    v.Obj? && (CloudInitDisk(v) ==> !HasObj(v, "cloudInitNoCloud") && !HasObj(v, "cloudInitConfigDrive"))
  }

  // The volume that decides.
  predicate Decides(volumes: seq<Json>, i: nat) {
    i < |volumes| && !PassedOver(volumes[i]) && forall j :: 0 <= j < i ==> PassedOver(volumes[j])
  }

  // What is done to the user data of a config.
  function NewUserData(c: Config, config: map<string, Json>): UserData {
    if "userData" !in config then UserData(c.byDefault)
    else if config["userData"].Str? then c.addKeys(config["userData"].text) else Crashed
  }

  // ---- One volume ----

  lemma VolumeMeans(c: Config, v: Json)
    requires v.Obj?
    ensures var e := EditVolume(c, v.fields, CLOUD_INIT_KINDS);
      && (CloudInitDisk(v) && PassedOver(v) ==> e.Same?)
      && forall kind :: Configured(v, kind) ==>
           match NewUserData(c, v.fields[kind].fields)
           case UserData(text) =>
             e == Edited(Obj(v.fields[kind := Obj(v.fields[kind].fields["userData" := Str(text)])]))
           case Malformed => e.Refused?
           case Crashed => e.Crash?
  {
    var kinds := CLOUD_INIT_KINDS;
    assert kinds[1..][1..] == [] && kinds[0] == "cloudInitNoCloud" && kinds[1..][0] == "cloudInitConfigDrive";
    assert EditVolume(c, v.fields, []) == Same;
  }

  lemma KindOf(v: Json) returns (kind: string)
    requires v.Obj? && !PassedOver(v)
    ensures Configured(v, kind)
  {
    kind := if HasObj(v, "cloudInitNoCloud") then "cloudInitNoCloud" else "cloudInitConfigDrive";
  }

  // ---- The list ----

  lemma {:induction false} AllPassedOver(c: Config, volumes: seq<Json>, i: nat, found: bool)
    requires i <= |volumes| && forall j :: i <= j < |volumes| ==> PassedOver(volumes[j])
    ensures EditVolumes(c, volumes, i, found)
      == if found || exists j :: i <= j < |volumes| && CloudInitDisk(volumes[j]) then Same else Refused
    decreases |volumes| - i
  {
    if i < |volumes| {
      VolumeMeans(c, volumes[i]);
      AllPassedOver(c, volumes, i + 1, found || CloudInitDisk(volumes[i]));
    }
  }

  lemma {:induction false} UpToDecision(c: Config, volumes: seq<Json>, i: nat, d: nat, found: bool)
    requires i <= d && Decides(volumes, d)
    ensures EditVolumes(c, volumes, i, found)
      == EditVolumes(c, volumes, d, found || exists j :: i <= j < d && CloudInitDisk(volumes[j]))
    decreases d - i
  {
    if i < d {
      VolumeMeans(c, volumes[i]);
      UpToDecision(c, volumes, i + 1, d, found || CloudInitDisk(volumes[i]));
    }
  }

  lemma {:induction false} FirstDecision(volumes: seq<Json>, i: nat) returns (d: nat)
    requires i <= |volumes| && forall j :: 0 <= j < i ==> PassedOver(volumes[j])
    requires exists j :: i <= j < |volumes| && !PassedOver(volumes[j])
    ensures Decides(volumes, d)
    decreases |volumes| - i
  {
    if PassedOver(volumes[i]) { d := FirstDecision(volumes, i + 1); } else { d := i; }
  }

  // What becomes of the list, by the volume that decides and its config.
  lemma DecisionMeans(c: Config, volumes: seq<Json>, d: nat)
    requires Decides(volumes, d)
    ensures var v, e := volumes[d], EditVolumes(c, volumes, 0, false);
      && (!v.Obj? ==> e.Crash?)
      && forall kind :: Configured(v, kind) ==>
           match NewUserData(c, v.fields[kind].fields)
           case UserData(text) =>
             e == Edited(volumes[d := Obj(v.fields[kind := Obj(v.fields[kind].fields["userData" := Str(text)])])])
           case Malformed => e.Refused?
           case Crashed => e.Crash?
  {
    UpToDecision(c, volumes, 0, d, false);
    if volumes[d].Obj? { VolumeMeans(c, volumes[d]); }
  }

  // ---- The answer ----

  // What the deciding volume, if there is one, comes to.
  datatype Outcome = NoDisk | Left | Set | Unparsable | Breaks

  ghost predicate ComesTo(c: Config, volumes: seq<Json>, o: Outcome) {
    match o
    case NoDisk => forall v :: v in volumes ==> v.Obj? && !CloudInitDisk(v)
    case Left => (forall v :: v in volumes ==> PassedOver(v)) && exists v :: v in volumes && CloudInitDisk(v)
    case Set => exists d: nat, kind :: Decides(volumes, d) && Configured(volumes[d], kind)
                  && NewUserData(c, volumes[d].fields[kind].fields).UserData?
    case Unparsable => exists d: nat, kind :: Decides(volumes, d) && Configured(volumes[d], kind)
                         && NewUserData(c, volumes[d].fields[kind].fields).Malformed?
    case Breaks => exists d: nat :: Decides(volumes, d)
                     && (!volumes[d].Obj? || exists kind :: Configured(volumes[d], kind)
                                               && NewUserData(c, volumes[d].fields[kind].fields).Crashed?)
  }

  lemma OutcomeOf(c: Config, volumes: seq<Json>) returns (o: Outcome)
    ensures ComesTo(c, volumes, o)
    ensures match EditVolumes(c, volumes, 0, false)
      case Same => o.Left?
      case Edited(_) => o.Set?
      case Refused => o.NoDisk? || o.Unparsable?
      case Crash => o.Breaks?
  {
    if forall j :: 0 <= j < |volumes| ==> PassedOver(volumes[j]) {
      AllPassedOver(c, volumes, 0, false);
      o := if exists j :: 0 <= j < |volumes| && CloudInitDisk(volumes[j]) then Left else NoDisk;
    } else {
      var d := FirstDecision(volumes, 0);
      DecisionMeans(c, volumes, d);
      var v := volumes[d];
      if !v.Obj? {
        o := Breaks;
      } else {
        var kind := KindOf(v);
        o := match NewUserData(c, v.fields[kind].fields) case UserData(_) => Set case Malformed => Unparsable
             case Crashed => Breaks;
      }
    }
  }

  lemma OneDecision(volumes: seq<Json>, d: nat, d': nat)
    requires Decides(volumes, d) && Decides(volumes, d')
    ensures d == d'
  {
    assert !(d < d') && !(d' < d);
  }

  lemma OneOutcome(c: Config, volumes: seq<Json>, o: Outcome, o': Outcome)
    requires ComesTo(c, volumes, o) && ComesTo(c, volumes, o')
    ensures o == o'
  {
    forall d: nat, d': nat | Decides(volumes, d) && Decides(volumes, d') ensures d == d' {
      OneDecision(volumes, d, d');
    }
    forall d: nat | Decides(volumes, d) ensures volumes[d] in volumes && !PassedOver(volumes[d]) {}
  }

  // Exactly when a request is allowed, when it is refused, and when the handler panics.
  lemma AnswerIff(c: Config, vm: Json)
    ensures var r, volumes := Mutate(c, vm), VolumesOf(vm);
      if !c.keysValid || !volumes.Here? then r.Denied?
      else
        && (r.Allowed? <==> ComesTo(c, volumes.value, Left) || ComesTo(c, volumes.value, Set))
        && (r.Denied? <==> ComesTo(c, volumes.value, NoDisk) || ComesTo(c, volumes.value, Unparsable))
        && (r.Panics? <==> ComesTo(c, volumes.value, Breaks))
  {
    var volumes := VolumesOf(vm);
    assert volumes.Here? ==> vm.Obj?;
    if volumes.Here? {
      var o := OutcomeOf(c, volumes.value);
      forall o' | ComesTo(c, volumes.value, o') ensures o' == o { OneOutcome(c, volumes.value, o, o'); }
    }
  }

  // ---- The patched machine ----

  // With keys configured, the first config of the first cloud-init volume that has one gets them: the request is
  // allowed, the patch applies, and of the volumes exactly that user data is new.
  lemma KeysArrive(c: Config, vm: Json, d: nat, kind: string, text: string)
    requires c.keysValid && VolumesOf(vm).Here?
    requires Decides(VolumesOf(vm).value, d) && Configured(VolumesOf(vm).value[d], kind)
    requires NewUserData(c, VolumesOf(vm).value[d].fields[kind].fields) == UserData(text)
    ensures Mutate(c, vm).Allowed? && Apply(vm, Mutate(c, vm).patch).Some?
    ensures var volumes, out := VolumesOf(vm).value, Apply(vm, Mutate(c, vm).patch).value;
      var config := volumes[d].fields[kind].fields["userData" := Str(text)];
      VolumesOf(out) == Here(volumes[d := Obj(volumes[d].fields[kind := Obj(config)])])
  {
    var volumes := VolumesOf(vm).value;
    DecisionMeans(c, volumes, d);
    assert Volumes(c, vm) == EditVolumes(c, volumes, 0, false);
    assert vm.Obj?;
    PatchIsCorrect(c, vm);
    var x := PatchIsStages(c, vm);
    StagesKeepVolumes(c, vm, x);
  }

  // The volumes come through the first three steps as they are.
  lemma StagesKeepVolumes(c: Config, vm: Json, x: Stages)
    requires AreStages(c, vm, x) && Volumes(c, vm).Edited?
    ensures NestedSlice(x.final, VOLUMES) == Here(Volumes(c, vm).value)
  {
    RunStrategyStage(vm);
    AfterManual(vm, x.manual);
    LimitsStage(x.manual);
    AfterLimits(x.manual, x.limited);
    TolerationsStage(x.limited);
    AfterTolerations(x.limited, x.tolerating);
    VolumesStage(c, x.tolerating);
  }

  // ---- The other three fields ----

  function Entries(l: Lookup<map<string, string>>): map<string, string> { if l.Here? then l.value else map[] }

  function Entry(m: map<string, string>, k: string): string { if k in m then m[k] else "" }

  // What cannot be read is left alone.
  predicate Fillable(vm: Json) {
    var resources := ["spec", "template", "spec", "domain", "resources"];
    var requests := NestedStringMap(vm, resources + ["requests"]);
    var memory := NestedStringMap(vm, ["spec", "template", "spec", "domain", "memory"]);
    && !NestedMap(vm, resources).Bad? && !requests.Bad? && !memory.Bad?
    && !NestedStringMap(vm, resources + ["limits"]).Bad? && (requests.Here? || memory.Here?)
  }

  // Limits that are there stay; cpu and memory take the request; a memory limit still empty takes maxGuest, else
  // guest.
  ghost predicate Filled(was: map<string, string>, requests: map<string, string>, memory: map<string, string>,
                         now: map<string, string>) {
    && (forall k :: k != "memory" && k != "cpu" ==> (k in now <==> k in was) && (k in was ==> now[k] == was[k]))
    && ("cpu" in now <==> "cpu" in was || "cpu" in requests)
    && ("cpu" in now ==> now["cpu"] == if "cpu" in was then was["cpu"] else requests["cpu"])
    && var asked := if "memory" in was then was["memory"] else Entry(requests, "memory");
       Entry(now, "memory") == if asked != "" then asked
                               else if Entry(memory, "maxGuest") != "" then memory["maxGuest"]
                               else Entry(memory, "guest")
  }

  lemma FilledMeans(was: map<string, string>, requests: map<string, string>, memory: map<string, string>)
    ensures Filled(was, requests, memory, FromMemory(FromRequests(was, requests, LIMITED), memory))
  {
    assert LIMITED == ["memory", "cpu"];
    var limits := FromRequests(was, requests, LIMITED);
    assert "cpu" in limits <==> "cpu" in was || "cpu" in requests;
    assert "memory" in limits <==> "memory" in was || "memory" in requests;
  }

  predicate ForMetalNode(t: Json) { t.Obj? && "key" in t.fields && t.fields["key"] == Str("sandbox-cnv") }

  lemma ToleratesMeans(ts: seq<Json>)
    ensures Tolerates(ts) <==> exists t :: t in ts && ForMetalNode(t)
  {
    if i :| 0 <= i < |ts| && IsSandboxToleration(ts[i]) { assert ts[i] in ts && ForMetalNode(ts[i]); }
    if t :| t in ts && ForMetalNode(t) { var i :| 0 <= i < |ts| && ts[i] == t; }
  }

  // The run strategy is Manual, unless it is no string.
  ghost predicate StartsByHand(vm: Json, out: Json) {
    var path := ["spec", "runStrategy"];
    var was := Field(vm, path);
    if was.Bad? || (was.Here? && !was.value.Str?) then Field(out, path) == was
    else Field(out, path) == Here(Str("Manual"))
  }

  ghost predicate LimitsFilled(vm: Json, out: Json) {
    var resources := ["spec", "template", "spec", "domain", "resources"];
    var limits := resources + ["limits"];
    if Fillable(vm) then Filled(Entries(NestedStringMap(vm, limits)),
                                Entries(NestedStringMap(vm, resources + ["requests"])),
                                Entries(NestedStringMap(vm, ["spec", "template", "spec", "domain", "memory"])),
                                Entries(NestedStringMap(out, limits)))
    else Field(out, limits) == Field(vm, limits)
  }

  // A toleration for the metal node goes to the end of the list, unless there is one or the list is none.
  ghost predicate ToleratesMetal(vm: Json, out: Json) {
    var path := ["spec", "template", "spec", "tolerations"];
    var was, now := NestedSlice(vm, path), NestedSlice(out, path);
    var ts := if was.Here? then was.value else [];
    if was.Bad? then now == was
    else if exists t :: t in ts && ForMetalNode(t) then now == Here(ts)
    else now == Here(ts + [Obj(map["effect" := Str("NoSchedule"), "key" := Str("sandbox-cnv"),
                                   "operator" := Str("Exists")])])
  }

  lemma PathsAre()
    ensures RUN_STRATEGY == ["spec", "runStrategy"] && VOLUMES == ["spec", "template", "spec", "volumes"]
    ensures TOLERATIONS == ["spec", "template", "spec", "tolerations"]
    ensures MEMORY == ["spec", "template", "spec", "domain", "memory"]
    ensures RESOURCES == ["spec", "template", "spec", "domain", "resources"]
    ensures REQUESTS == ["spec", "template", "spec", "domain", "resources"] + ["requests"]
    ensures LIMITS == ["spec", "template", "spec", "domain", "resources"] + ["limits"]
  {}

  // Whenever a request is allowed, the patch applies, and these three hold of the patched machine.
  lemma PatchedFields(c: Config, vm: Json)
    requires Mutate(c, vm).Allowed?
    ensures Apply(vm, Mutate(c, vm).patch).Some?
    ensures var out := Apply(vm, Mutate(c, vm).patch).value;
      StartsByHand(vm, out) && LimitsFilled(vm, out) && ToleratesMetal(vm, out)
  {
    PatchIsCorrect(c, vm);
    var out := Apply(vm, Mutate(c, vm).patch).value;
    PathsAre();
    ByHand(vm, out);
    LimitsMean(vm, out);
    MetalMeans(vm, out);
  }

  lemma ByHand(vm: Json, out: Json)
    requires RunsManually(vm, out)
    ensures StartsByHand(vm, out)
  {
    PathsAre();
  }

  lemma LimitsMean(vm: Json, out: Json)
    requires HasLimits(vm, out)
    ensures LimitsFilled(vm, out)
  {
    PathsAre();
    var x := SourcesOf(vm);
    assert Fillable(vm) <==> Readable(x);
    FilledMeans(OrNone(x.limits), OrNone(x.requests), OrNone(x.memory));
  }

  lemma MetalMeans(vm: Json, out: Json)
    requires HasToleration(vm, out)
    ensures ToleratesMetal(vm, out)
  {
    PathsAre();
    var ts := ItemsOf(NestedSlice(vm, TOLERATIONS));
    ToleratesMeans(ts);
    assert ts + [] == ts;
  }
}
