// A reconcile reports Ready only with the Provisioned condition stored, whatever fails.
module ReadyReports {
  import opened Names
  import opened Cluster
  import opened Statuses
  import opened Passes
  import opened ClusterPasses
  import opened NamespacePasses
  import opened RolePasses
  import opened ProvisionedSoundness
  import opened Reconciler
  import CR = ClusterResources
  import NS = Namespaces
  import SR = SpaceRoles

  // The copy the reconcile works on has the condition that is stored.
  predicate Told(s: State) { s.cur.status.ready == s.saved.status.ready }

  lemma SetReadyTold(e: Env, s: State, r: Reason)
    requires Told(s)
    ensures SetReady(e, s, r).1 ==> Told(SetReady(e, s, r).0)
    ensures SetReady(e, s, r).1 ==> SetReady(e, s, r).0.cur.status.ready == Some(r)
    ensures SetProvisioningIfNotUpdating(e, s).1 ==> Told(SetProvisioningIfNotUpdating(e, s).0)
    ensures SetUpdatingIfNotProvisioning(e, s).1 ==> Told(SetUpdatingIfNotProvisioning(e, s).0)
  {}

  // ---- Cluster resources ----

  lemma FlagTold(e: Env, a: CR.Applier)
    requires Told(a.s)
    ensures CR.Flag(e, a).1 ==> Told(CR.Flag(e, a).0.s)
  {
    SetReadyTold(e, a.s, Provisioned);
  }

  lemma {:induction false} ApplyNewsTold(e: Env, a: CR.Applier, ms: seq<Manifest>, labels: Labels)
    requires Told(a.s)
    ensures CR.ApplyNews(e, a, ms, labels).1 ==> Told(CR.ApplyNews(e, a, ms, labels).0.s)
    decreases |ms|
  {
    if ms != [] {
      var m := ms[0];
      var (a1, ok) := CR.ApplyNew(e, a, m, labels);
      if ok {
        if CR.ShouldCreate(m, a.s.cur) {
          var flagging := a.(rest := CR.DropFirst(a.rest, m));
          FlagTold(e, flagging);
          ApplyOneEffect(e, CR.Flag(e, flagging).0.s, m, labels);
        }
        ApplyNewsTold(e, a1, ms[1..], labels);
      }
    }
  }

  lemma ExchangeTold(e: Env, s: State, olds: seq<Manifest>, news: seq<Manifest>, labels: Labels)
    requires Told(s)
    ensures CR.Exchange(e, s, olds, news, labels).1 ==> Told(CR.Exchange(e, s, olds, news, labels).0)
  {
    var start := CR.Applier(s, olds, false);
    ApplyNewsTold(e, start, news, labels);
    var (a, ok) := CR.ApplyNews(e, start, news, labels);
    if ok {
      FlagTold(e, a);
      var s1 := if a.rest != [] then CR.Flag(e, a).0.s else a.s;
      var i := DeleteObsoleteCut(e, s1, a.rest, []);
    }
  }

  lemma ClusterPhaseTold(e: Env, s: State)
    requires Told(s)
    ensures ClusterPhase(e, s).1 ==> Told(ClusterPhase(e, s).0)
  {
    ProcessRefSame(e, s, s.cur.cluster);
    var (s1, new_) := CR.ProcessRef(e, s, s.cur.cluster);
    ProcessRefSame(e, s1, s.cur.status.cluster);
    var (s2, old_) := CR.ProcessRef(e, s1, s.cur.status.cluster);
    if new_.Some? && old_.Some? {
      ExchangeTold(e, s2, old_.value.1, new_.value.1, CR.TierLabels(s.cur.name, new_.value.0));
    }
  }

  // ---- The later phases ----

  lemma NamespacePhaseTold(e: Env, s: State)
    requires Synced(s) && Told(s)
    ensures NamespacePhase(e, s).1.Unchanged? ==> Told(NamespacePhase(e, s).0)
  {
    var f := EnsureEffect(e, s);
    RecordNamespacesTold(e, NS.Ensure(e, s).0);
  }

  lemma RecordNamespacesTold(e: Env, s: State)
    ensures Told(s) && RecordNamespaces(e, s).1.Unchanged? ==> Told(RecordNamespaces(e, s).0)
  {}

  lemma RecordRolesTold(e: Env, s: State, spec: SR.Roles, status: SR.Roles, same: bool)
    requires Told(s)
    ensures SR.RecordRoles(e, s, spec, status, same).1 ==> Told(SR.RecordRoles(e, s, spec, status, same).0)
  {}

  lemma RolePhaseTold(e: Env, s: State)
    requires Synced(s) && Told(s)
    ensures RolePhase(e, s).1.Unchanged? ==> Told(RolePhase(e, s).0)
  {
    var (s1, p) := SR.Ensure(e, s);
    if p.Unchanged? {
      EnsureEachSame(e, Tick(s), Owned(s.objs, s.cur.name));
      RecordRolesTold(e, s1, SR.SortedRoles(s1.cur.roles), SR.SortedRoles(s1.cur.status.roles),
                      SR.Alike(e, s1.cur.roles, s1.cur.status.roles));
    }
  }

  // ---- The reconcile ----

  lemma ThenRolesReport(e: Env, s: State)
    requires Synced(s) && Told(s)
    ensures var (s', r) := ThenRoles(e, s);
      r.Ready? ==> RolePhase(e, s).1.Unchanged? && s'.saved.status.ready == Some(Provisioned)
  {
    RolePhaseTold(e, s);
    var (s1, p) := RolePhase(e, s);
    if p.Unchanged? { SetReadyTold(e, s1, Provisioned); }
  }

  // From any state, whatever fails: Ready is reported only with Provisioned stored.
  lemma ReadyIsStored(e: Env, s: State)
    ensures var (s', r) := Reconcile(e, s); r.Ready? ==> Through(e, s) && s'.saved.status.ready == Some(Provisioned)
  {
    var (s0, ok0) := Read(e, Fetched(s));
    var (s1, ok1) := AddFinalizer(e, s0);
    AddFinalizerEffect(e, s0);
    if ok0 && !s0.cur.deleting && ok1 {
      ClusterPhaseTold(e, s1);
      ClusterPhaseEffect(e, s1);
      var (s2, ok2) := ClusterPhase(e, s1);
      if ok2 {
        NamespacePhaseTold(e, s2);
        NamespacePhaseEffect(e, s2);
        var (s3, p3) := NamespacePhase(e, s2);
        if p3.Unchanged? { ThenRolesReport(e, s3); }
      }
    }
  }
}
