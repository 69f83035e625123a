// Status conditions and the status fields that record what was applied.
module Statuses {
  import opened Names
  import opened Cluster

  function PutStatus(e: Env, s: State): (State, bool) {
    (Tick(s).(saved := if e.fate(s.calls).Refused? then s.saved else s.saved.(status := s.cur.status)),
     e.fate(s.calls).Done?)
  }

  function WithReady(s: State, r: Reason): State { s.(cur := s.cur.(status := s.cur.status.(ready := Some(r)))) }

  // A condition without a message: no call when it is already there.
  function SetReady(e: Env, s: State, r: Reason): (State, bool) {
    if s.cur.status.ready == Some(r) then (s, true) else PutStatus(e, WithReady(s, r))
  }

  // A failure condition; whether its own update works is only logged.
  function SetFailed(e: Env, s: State, r: Reason): State { PutStatus(e, WithReady(s, r)).0 }

  function SetProvisioningIfNotUpdating(e: Env, s: State): (State, bool) {
    if s.cur.status.ready == Some(Updating) then (s, true) else SetReady(e, s, Provisioning)
  }

  function SetUpdatingIfNotProvisioning(e: Env, s: State): (State, bool) {
    if s.cur.status.ready == Some(Provisioning) then (s, true) else SetReady(e, s, Updating)
  }

  function FailureReason(s: State, otherwise: Reason): Reason {
    if s.cur.status.ready == Some(Updating) || s.cur.status.ready == Some(UpdateFailed) then UpdateFailed else otherwise
  }

  function SetClusterFailed(e: Env, s: State): State {
    SetFailed(e, s, FailureReason(s, UnableToProvisionClusterResources))
  }

  function SetRolesFailed(e: Env, s: State): State {
    SetFailed(e, s, FailureReason(s, UnableToProvisionSpaceRoles))
  }

  // ---- Features ----

  function FeatureList(t: NSTemplateSet): seq<string> { if t.features.Some? then t.features.value else [] }

  // Sorted and compacted.
  function CleanFeatures(t: NSTemplateSet): seq<string> { Compact(SortedList(FeatureList(t))) }

  predicate FeaturesNeedUpdate(t: NSTemplateSet) {
    || (exists f :: f in CleanFeatures(t) && f !in t.status.features)
    || (exists f :: f in t.status.features && f !in CleanFeatures(t))
  }

  // ---- Cluster resources ----

  function RefOf(c: Option<string>): string { if c.Some? then c.value else "" }

  predicate ClusterChanged(t: NSTemplateSet) {
    RefOf(t.status.cluster) != RefOf(t.cluster) || FeaturesNeedUpdate(t)
  }

  predicate ClusterNeedsUpdate(t: NSTemplateSet) {
    if t.status.cluster.Some? then t.cluster.None? || t.cluster != t.status.cluster
    else t.cluster.Some?
  }

  function CaughtUp(t: NSTemplateSet): NSTemplateSet {
    t.(status := t.status.(features := CleanFeatures(t), cluster := t.cluster))
  }

  function UpdateClusterRevision(e: Env, s: State): (State, bool) {
    if FeaturesNeedUpdate(s.cur) || ClusterNeedsUpdate(s.cur)
    then PutStatus(e, s.(cur := CaughtUp(s.cur)))
    else (s, true)
  }

  // Sorting and compacting lists the features of the annotation once each, in order; "changed", found by two
  // scans, is inequality of the two feature sets, duplicates in the status included; a changed cluster template
  // always triggers the status update; and once updated neither test reports a change again.
  lemma FeatureDrift(t: NSTemplateSet)
    ensures FeaturesNeedUpdate(t) <==> Elements(FeatureList(t)) != Elements(t.status.features)
    ensures CleanFeatures(t) == SortedNames(Elements(FeatureList(t)))
    ensures ClusterChanged(t) ==> FeaturesNeedUpdate(t) || ClusterNeedsUpdate(t)
    ensures !FeaturesNeedUpdate(CaughtUp(t)) && !ClusterNeedsUpdate(CaughtUp(t)) && !ClusterChanged(CaughtUp(t))
  {
    CompactIsSortedNames(FeatureList(t));
    var a, b := Elements(FeatureList(t)), Elements(t.status.features);
    assert forall f :: f in CleanFeatures(t) <==> f in a;
    if a == b {
      assert forall f :: f in a <==> f in b;
    } else {
      assert !(a <= b) || !(b <= a);
    }
    assert CleanFeatures(CaughtUp(t)) == CleanFeatures(t);
  }

  // A nil reference and an empty one differ for the status, not for the objects.
  lemma StatusUpdateWithoutObjectChange(t: NSTemplateSet)
    requires !FeaturesNeedUpdate(t)
    ensures ClusterNeedsUpdate(t) && !ClusterChanged(t)
      <==> (t.cluster == None && t.status.cluster == Some("")) || (t.cluster == Some("") && t.status.cluster == None)
  {}
}
