// Cluster-scoped resources: all applied in one pass, then the leftovers of the old template deleted.
module ClusterResources {
  import opened Names
  import opened Cluster
  import opened Applying
  import opened Statuses

  // ---- features.go ----

  predicate ShouldCreate(m: Manifest, t: NSTemplateSet) {
    if FeatureToggle !in m.notes then true
    else t.features.Some? && m.notes[FeatureToggle].Text? && m.notes[FeatureToggle].text in t.features.value
  }

  function Enabled(ms: seq<Manifest>, t: NSTemplateSet): (r: seq<Manifest>)
    ensures forall m :: m in r <==> m in ms && ShouldCreate(m, t)
  {
    if ms == [] then []
    else (if ShouldCreate(ms[0], t) then [ms[0]] else []) + Enabled(ms[1..], t)
  }

  // ---- objectApplier ----

  // `rest`: current objects no new object has claimed yet. `flagged`: the status was already set.
  datatype Applier = Applier(s: State, rest: seq<Manifest>, flagged: bool)

  function DropFirst(rest: seq<Manifest>, m: Manifest): seq<Manifest> {
    if rest == [] then []
    else if SameGvkAndName(rest[0], m) then rest[1..]
    else [rest[0]] + DropFirst(rest[1..], m)
  }

  function DropAll(rest: seq<Manifest>, ms: seq<Manifest>): seq<Manifest>
    decreases |ms|
  {
    if ms == [] then rest else DropAll(DropFirst(rest, ms[0]), ms[1..])
  }

  predicate FirstDeployment(t: NSTemplateSet) { RefOf(t.status.cluster) == "" }

  function ApplyFailure(t: NSTemplateSet): Reason {
    if FirstDeployment(t) then UnableToProvisionClusterResources else UpdateFailed
  }

  function Flag(e: Env, a: Applier): (Applier, bool) {
    if a.flagged then (a, true)
    else
      var (s1, ok) := if FirstDeployment(a.s.cur) then SetProvisioningIfNotUpdating(e, a.s)
                      else SetUpdatingIfNotProvisioning(e, a.s);
      (a.(s := s1, flagged := ok), ok)
  }

  function ClusterLabels(space: string, tier: Tier): Labels {
    map[Space := space, Type := CLUSTER_RESOURCES, TemplateRef := tier.templateRef,
        TierName := tier.tierName, Provider := PROVIDER]
  }

  function ApplyNew(e: Env, a: Applier, m: Manifest, labels: Labels): (Applier, bool) {
    if !ShouldCreate(m, a.s.cur) then (a, true)
    else
      var (a1, flagged) := Flag(e, a.(rest := DropFirst(a.rest, m)));
      if !flagged then (a1, false)
      else
        var (s2, ok) := ApplyOne(e, a1.s, m, labels);
        (a1.(s := if ok then s2 else SetFailed(e, s2, ApplyFailure(s2.cur))), ok)
  }

  function ApplyNews(e: Env, a: Applier, ms: seq<Manifest>, labels: Labels): (Applier, bool)
    decreases |ms|
  {
    if ms == [] then (a, true)
    else
      var (a1, ok) := ApplyNew(e, a, ms[0], labels);
      if !ok then (a1, false) else ApplyNews(e, a1, ms[1..], labels)
  }

  function Cleanup(e: Env, a: Applier): (State, bool) {
    var (a1, flagged) := if a.rest != [] then Flag(e, a) else (a, true);
    if !flagged then (a1.s, false)
    else
      var (s2, ok) := DeleteObsolete(e, a1.s, a.rest, []);
      (if ok then s2 else SetFailed(e, s2, ApplyFailure(s2.cur)), ok)
  }

  // ---- ensure ----

  // The tier and the objects of a reference; nothing for a missing or empty one.
  function ProcessRef(e: Env, s: State, c: Option<string>): (State, Option<(Option<Tier>, seq<Manifest>)>) {
    if RefOf(c) == "" then (s, Some((None, [])))
    else
      var (s1, t) := GetTier(e, s, c.value);
      if t.None? then (s1, None)
      else
        var objs := t.value.process(Params(s.cur.name, "", ""));
        (s1, if objs.None? then None else Some((Some(t.value), objs.value)))
  }

  function TierLabels(space: string, t: Option<Tier>): Labels {
    if t.Some? then ClusterLabels(space, t.value) else map[]
  }

  // The new objects applied, then what is left of the old ones deleted.
  function Exchange(e: Env, s: State, olds: seq<Manifest>, news: seq<Manifest>, labels: Labels): (State, bool) {
    var (a, ok) := ApplyNews(e, Applier(s, olds, false), news, labels);
    if !ok then (a.s, false) else Cleanup(e, a)
  }

  function Ensure(e: Env, s: State): (State, bool) {
    if !ClusterChanged(s.cur) then (s, true)
    else
      var (s1, new_) := ProcessRef(e, s, s.cur.cluster);
      if new_.None? then (SetClusterFailed(e, s1), false)
      else
        var (s2, old_) := ProcessRef(e, s1, s.cur.status.cluster);
        if old_.None? then (SetClusterFailed(e, s2), false)
        else
          Exchange(e, s2, old_.value.1, new_.value.1, TierLabels(s.cur.name, new_.value.0))
  }

  // ---- delete ----

  function DeleteAll(e: Env, s: State, ms: seq<Manifest>): (State, bool)
    decreases |ms|
  {
    if ms == [] then (s, true)
    else
      var (s1, ok) := Read(e, s);
      if !ok then (SetFailed(e, s1, TerminatingFailed), false)
      else
        var o := At(s1.objs, ms[0].key);
        if o.None? || o.value.terminating then DeleteAll(e, s1, ms[1..])
        else
          var (s2, r) := Delete(e, s1, ms[0].key);
          if r.DeleteFailed? then (SetFailed(e, s2, TerminatingFailed), false) else DeleteAll(e, s2, ms[1..])
  }

  function DeleteResources(e: Env, s: State): (State, bool) {
    if s.cur.status.cluster.None? then (s, true)
    else
      var (s1, old_) := ProcessRef(e, s, s.cur.status.cluster);
      if old_.None? then (SetClusterFailed(e, s1), false) else DeleteAll(e, s1, old_.value.1)
  }
}
