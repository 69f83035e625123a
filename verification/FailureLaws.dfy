// Which failure condition an NSTemplateSet gets, told by what went wrong.
module FailureLaws {
  import opened Names
  import opened Cluster
  import opened Applying
  import opened Statuses
  import opened Passes
  import opened ClusterPasses
  import opened NamespacePasses
  import opened RolePasses
  import opened Reconciler
  import opened NamespaceLaws
  import CR = ClusterResources
  import NS = Namespaces
  import SR = SpaceRoles

  // ---- Cluster resources ----

  // Nothing was deployed before, and nothing has been updated since.
  predicate NeverDeployed(t: NSTemplateSet) {
    t.status.cluster in {None, Some("")} && t.status.ready !in {Some(Updating), Some(UpdateFailed)}
  }

  predicate UnderUpdate(t: NSTemplateSet) {
    t.status.cluster !in {None, Some("")} && t.status.ready in {Some(Updating), Some(UpdateFailed)}
  }

  predicate StillSo(t: NSTemplateSet, t': NSTemplateSet) {
    (NeverDeployed(t) ==> NeverDeployed(t')) && (UnderUpdate(t) ==> UnderUpdate(t'))
  }

  // What the condition is to be after a failure; work begun is all that shows when the condition could not be written.
  predicate Shown(t: NSTemplateSet, t': NSTemplateSet) {
    && (NeverDeployed(t) ==> t'.status.ready in {Some(UnableToProvisionClusterResources), Some(Provisioning)})
    && (UnderUpdate(t) ==> t'.status.ready in {Some(UpdateFailed), Some(Updating)})
  }

  predicate Goes(t: NSTemplateSet, t': NSTemplateSet, ok: bool) { if ok then StillSo(t, t') else Shown(t, t') }

  lemma FlagGoes(e: Env, a: CR.Applier)
    ensures var (a1, ok) := CR.Flag(e, a); Goes(a.s.cur, a1.s.cur, ok)
  {}

  lemma ClusterFailure(e: Env, s: State)
    ensures Shown(s.cur, SetClusterFailed(e, s).cur)
    ensures Shown(s.cur, SetFailed(e, s, CR.ApplyFailure(s.cur)).cur)
  {}

  lemma ShownLater(t: NSTemplateSet, t': NSTemplateSet, t'': NSTemplateSet, ok: bool)
    requires StillSo(t, t') && Goes(t', t'', ok)
    ensures Goes(t, t'', ok)
  {}

  lemma ApplyNewGoes(e: Env, a: CR.Applier, m: Manifest, labels: Labels)
    ensures var (a1, ok) := CR.ApplyNew(e, a, m, labels); Goes(a.s.cur, a1.s.cur, ok)
  {
    if CR.ShouldCreate(m, a.s.cur) {
      var a0 := a.(rest := CR.DropFirst(a.rest, m));
      FlagGoes(e, a0);
      var (a1, flagged) := CR.Flag(e, a0);
      if flagged {
        var (s2, ok) := ApplyOne(e, a1.s, m, labels);
        ApplyOneEffect(e, a1.s, m, labels);
        ClusterFailure(e, s2);
        ShownLater(a.s.cur, a1.s.cur, CR.ApplyNew(e, a, m, labels).0.s.cur, ok);
      }
    }
  }

  lemma {:induction false} ApplyNewsGo(e: Env, a: CR.Applier, ms: seq<Manifest>, labels: Labels)
    ensures var (a1, ok) := CR.ApplyNews(e, a, ms, labels); Goes(a.s.cur, a1.s.cur, ok)
    decreases |ms|
  {
    if ms != [] {
      ApplyNewGoes(e, a, ms[0], labels);
      var (a1, ok) := CR.ApplyNew(e, a, ms[0], labels);
      if ok {
        ApplyNewsGo(e, a1, ms[1..], labels);
        var (a2, ok2) := CR.ApplyNews(e, a1, ms[1..], labels);
        ShownLater(a.s.cur, a1.s.cur, a2.s.cur, ok2);
      }
    }
  }

  lemma CleanupGoes(e: Env, a: CR.Applier)
    ensures var (s1, ok) := CR.Cleanup(e, a); Goes(a.s.cur, s1.cur, ok)
  {
    FlagGoes(e, a);
    var (a1, flagged) := if a.rest != [] then CR.Flag(e, a) else (a, true);
    if flagged {
      var j := DeleteObsoleteCut(e, a1.s, a.rest, []);
      var (s2, ok) := DeleteObsolete(e, a1.s, a.rest, []);
      ClusterFailure(e, s2);
      ShownLater(a.s.cur, a1.s.cur, CR.Cleanup(e, a).0.cur, ok);
    }
  }

  lemma ExchangeGoes(e: Env, s: State, olds: seq<Manifest>, news: seq<Manifest>, labels: Labels)
    ensures var (s1, ok) := CR.Exchange(e, s, olds, news, labels); Goes(s.cur, s1.cur, ok)
  {
    var a := CR.Applier(s, olds, false);
    ApplyNewsGo(e, a, news, labels);
    var (a1, ok) := CR.ApplyNews(e, a, news, labels);
    if ok {
      CleanupGoes(e, a1);
      ShownLater(s.cur, a1.s.cur, CR.Cleanup(e, a1).0.cur, CR.Cleanup(e, a1).1);
    }
  }

  // A failing pass over the cluster resources: a first deployment is unable to provision them, an update has failed.
  lemma ClusterFailureIsShown(e: Env, s: State)
    requires !CR.Ensure(e, s).1
    ensures var t, now := s.cur, CR.Ensure(e, s).0.cur.status.ready;
      && (t.status.cluster in {None, Some("")} && t.status.ready !in {Some(Updating), Some(UpdateFailed)} ==>
            now in {Some(UnableToProvisionClusterResources), Some(Provisioning)})
      && (t.status.cluster !in {None, Some("")} && t.status.ready in {Some(Updating), Some(UpdateFailed)} ==>
            now in {Some(UpdateFailed), Some(Updating)})
  {
    ProcessRefSame(e, s, s.cur.cluster);
    var (s1, new_) := CR.ProcessRef(e, s, s.cur.cluster);
    ClusterFailure(e, s1);
    if new_.Some? {
      ProcessRefSame(e, s1, s.cur.status.cluster);
      var (s2, old_) := CR.ProcessRef(e, s1, s.cur.status.cluster);
      ClusterFailure(e, s2);
      if old_.Some? { ExchangeGoes(e, s2, old_.value.1, new_.value.1, CR.TierLabels(s.cur.name, new_.value.0)); }
    }
  }

  // ---- Namespaces ----

  lemma {:induction false} SomeUnknown(e: Env, refs: seq<string>)
    requires !AllKnown(e, refs)
    ensures TiersOf(e, refs).None?
  {
    if refs != [] && Known(e, refs[0]) {
      assert forall ref :: ref in refs ==> ref == refs[0] || ref in refs[1..];
      SomeUnknown(e, refs[1..]);
    }
  }

  // The namespaces cannot be listed, or a template of the spec is not there.
  lemma NamespaceFailureIsShown(e: Env, s: State)
    ensures !e.fate(s.calls).Done? ==>
      NS.Ensure(e, s).1.Failed? && NS.Ensure(e, s).0.cur.status.ready == Some(UnableToProvision)
    ensures e.fate(s.calls).Done? && !AllKnown(e, s.cur.namespaces) ==>
      NS.Ensure(e, s).1.Failed? && NS.Ensure(e, s).0.cur.status.ready == Some(UnableToProvisionNamespace)
  {
    var s1 := Tick(s);
    GetTiersSame(e, s1, s.cur.namespaces);
    if !AllKnown(e, s.cur.namespaces) { SomeUnknown(e, s.cur.namespaces); }
  }

  // ---- Space roles ----

  lemma {:induction false} UnknownRole(e: Env, n: string, roles: seq<SpaceRole>, r: SpaceRole)
    requires r in roles && !Known(e, r.templateRef)
    ensures RoleManifests(e, n, roles).None?
  {
    if roles[0] != r { UnknownRole(e, n, roles[1..], r); }
  }

  // New roles of which one has no template, all calls working: the update has failed, or the roles of a space that is
  // still being provisioned cannot be.
  lemma RoleFailureIsShown(e: Env, s: State, n: Ns, r: SpaceRole)
    requires NoFaults(e) && s.saved == s.cur
    requires SR.LastApplied(n.obj).Some? && SR.LastApplied(n.obj).value != s.cur.roles
    requires s.cur.roles.Some? && r in s.cur.roles.value && !Known(e, r.templateRef)
    ensures var (s1, p) := SR.EnsureIn(e, s, n);
      && p.Failed? && s1.objs == s.objs && s1.saved.status.ready == s1.cur.status.ready
      && s1.cur.status.ready
           == if s.cur.status.ready == Some(Provisioning) then Some(UnableToProvisionSpaceRoles) else Some(UpdateFailed)
  {
    UnknownRole(e, n.name, s.cur.roles.value, r);
    var last := SR.Items(SR.LastApplied(n.obj).value);
    var s1 := SetUpdatingIfNotProvisioning(e, s).0;
    RoleObjectsSame(e, s1, n.name, last);
    var s2 := SR.RoleObjects(e, s1, n.name, last).0;
    RoleObjectsSame(e, s2, n.name, SR.Items(s.cur.roles));
  }

  // ---- Deletion ----

  lemma {:induction false} DeleteAllFails(e: Env, s: State, ms: seq<Manifest>)
    ensures !CR.DeleteAll(e, s, ms).1 ==> CR.DeleteAll(e, s, ms).0.cur.status.ready == Some(TerminatingFailed)
    decreases |ms|
  {
    if ms != [] {
      var s1 := Tick(s);
      DeleteAllFails(e, s1, ms[1..]);
      DeleteAllFails(e, Delete(e, s1, ms[0].key).0, ms[1..]);
    }
  }

  // A deletion that fails says so, unless it cannot read the template whose objects are to go.
  lemma DeletionFailureIsShown(e: Env, s: State)
    requires s.saved.deleting && e.fate(0).Done? && Reconcile(e, s).1.Error?
    ensures var now := Reconcile(e, s).0.cur.status.ready;
      now == Some(TerminatingFailed)
      || (now == Some(UnableToProvisionClusterResources) && s.saved.status.cluster !in {None, Some("")})
  {
    var s0 := Tick(Fetched(s));
    var (s1, ok) := SetReady(e, s0, Terminating);
    if ok { ResourcesFail(e, s1); }
  }

  lemma ResourcesFail(e: Env, s: State)
    requires s.cur.status.ready == Some(Terminating) && ThenDeleteResources(e, s).1.Error?
    ensures var now := ThenDeleteResources(e, s).0.cur.status.ready;
      now == Some(TerminatingFailed)
      || (now == Some(UnableToProvisionClusterResources) && s.cur.status.cluster !in {None, Some("")})
  {
    if s.cur.status.cluster.Some? {
      ProcessRefSame(e, s, s.cur.status.cluster);
      var (s1, olds) := CR.ProcessRef(e, s, s.cur.status.cluster);
      if olds.Some? { DeleteAllFails(e, s1, olds.value.1); }
    }
    var (s2, ok2) := CR.DeleteResources(e, s);
    var (s3, ok3) := ClearCluster(e, s2);
    assert ok2 && !ok3 ==> s3.cur.status.ready == Some(TerminatingFailed);
    NamespacesFail(e, s3);
  }

  lemma NamespacesFail(e: Env, s: State)
    ensures ThenDeleteNamespaces(e, s).1.Error? ==>
      ThenDeleteNamespaces(e, s).0.cur.status.ready == Some(TerminatingFailed)
  {}
}
