// What a reconcile shows in the Ready condition, and when it may touch the cluster at all.
module ReconcileLaws {
  import opened Names
  import opened Cluster
  import opened Applying
  import opened Statuses
  import opened Passes
  import opened ClusterPasses
  import opened NamespacePasses
  import opened RolePasses
  import opened ProvisionedSoundness
  import opened DeletionRuns
  import opened Reconciler
  import opened ClusterRecovery
  import opened ClusterRuns
  import opened Plain
  import opened Fixpoint
  import opened ClusterLaws
  import opened NamespaceLaws
  import CR = ClusterResources
  import NS = Namespaces
  import SR = SpaceRoles

  predicate UnderWay(r: Option<Reason>) { r == Some(Provisioning) || r == Some(Updating) }

  // What work makes of the condition: what is under way stays, else it is a first deployment or an update.
  function Told(first: bool, r: Option<Reason>): Option<Reason> {
    if UnderWay(r) then r else Some(if first then Provisioning else Updating)
  }

  function WithCondition(t: NSTemplateSet, r: Option<Reason>): NSTemplateSet { t.(status := t.status.(ready := r)) }

  // The stored NSTemplateSet is as before but for the condition, which is as before or tells of work.
  predicate Tells(s: State, s': State, first: bool) {
    InStep(s') && (s'.cur == s.cur || s'.cur == WithCondition(s.cur, Told(first, s.cur.status.ready)))
  }

  predicate Shows(s: State, s': State, first: bool) {
    InStep(s') && s'.cur == WithCondition(s.cur, Told(first, s.cur.status.ready))
  }

  // ---- The cluster phase ----

  lemma TellWorks(e: Env, s: State)
    requires InStep(s)
    ensures var (s1, ok) := SetUpdatingIfNotProvisioning(e, s); ok ==> Shows(s, s1, false) && s1.objs == s.objs
    ensures var (s1, ok) := SetProvisioningIfNotUpdating(e, s); ok ==> Shows(s, s1, true) && s1.objs == s.objs
  {}

  predicate IsFirst(t: NSTemplateSet) { OrEmpty(t.status.cluster) == "" }

  lemma FlagTells(e: Env, a: CR.Applier)
    requires InStep(a.s) && (a.flagged ==> UnderWay(a.s.cur.status.ready))
    ensures var (a1, ok) := CR.Flag(e, a);
      ok ==> Shows(a.s, a1.s, IsFirst(a.s.cur)) && a1.s.objs == a.s.objs && a1.flagged && a1.rest == a.rest
  {
    TellWorks(e, a.s);
    if a.flagged { assert WithCondition(a.s.cur, a.s.cur.status.ready) == a.s.cur; }
  }

  lemma ApplyOneKeeps(e: Env, s: State, m: Manifest, labels: Labels)
    ensures var s1 := ApplyOne(e, s, m, labels).0; s1.cur == s.cur && s1.saved == s.saved
  {}

  ghost predicate Applied(a: CR.Applier, a1: CR.Applier) {
    && (if a1.flagged then UnderWay(a1.s.cur.status.ready) && Tells(a.s, a1.s, IsFirst(a.s.cur))
        else InStep(a1.s) && a1.s.cur == a.s.cur && a1.s.objs == a.s.objs)
    && (a.flagged ==> a1.flagged)
  }

  lemma ApplyNewTells(e: Env, a: CR.Applier, m: Manifest, labels: Labels)
    requires InStep(a.s) && (a.flagged ==> UnderWay(a.s.cur.status.ready))
    ensures var (a1, ok) := CR.ApplyNew(e, a, m, labels); ok ==> Applied(a, a1)
  {
    if CR.ShouldCreate(m, a.s.cur) {
      FlagTells(e, a.(rest := CR.DropFirst(a.rest, m)));
      var (a1, flagged) := CR.Flag(e, a.(rest := CR.DropFirst(a.rest, m)));
      ApplyOneKeeps(e, a1.s, m, labels);
    }
  }

  lemma AppliedTransitive(a: CR.Applier, b: CR.Applier, c: CR.Applier)
    requires Applied(a, b) && Applied(b, c)
    ensures Applied(a, c)
  {}

  lemma {:induction false} ApplyNewsTells(e: Env, a: CR.Applier, ms: seq<Manifest>, labels: Labels)
    requires InStep(a.s) && (a.flagged ==> UnderWay(a.s.cur.status.ready))
    ensures var (a1, ok) := CR.ApplyNews(e, a, ms, labels); ok ==> Applied(a, a1)
    decreases |ms|
  {
    if ms != [] {
      ApplyNewTells(e, a, ms[0], labels);
      var (a1, ok) := CR.ApplyNew(e, a, ms[0], labels);
      if ok {
        ApplyNewsTells(e, a1, ms[1..], labels);
        var (a2, ok2) := CR.ApplyNews(e, a1, ms[1..], labels);
        if ok2 { AppliedTransitive(a, a1, a2); }
      }
    }
  }

  lemma CleanupTells(e: Env, a: CR.Applier)
    requires InStep(a.s) && (a.flagged ==> UnderWay(a.s.cur.status.ready))
    ensures var (s1, ok) := CR.Cleanup(e, a);
      ok ==> Tells(a.s, s1, IsFirst(a.s.cur)) && (s1.objs != a.s.objs ==> UnderWay(s1.cur.status.ready))
  {
    FlagTells(e, a);
    var (a1, flagged) := if a.rest != [] then CR.Flag(e, a) else (a, true);
    var j := DeleteObsoleteCut(e, a1.s, a.rest, []);
    assert a.rest == [] ==> CR.Cleanup(e, a) == (a.s, true);
  }

  lemma ExchangeTells(e: Env, s: State, olds: seq<Manifest>, news: seq<Manifest>, labels: Labels)
    requires InStep(s)
    ensures var (s1, ok) := CR.Exchange(e, s, olds, news, labels);
      ok ==> Tells(s, s1, IsFirst(s.cur)) && (s1.objs != s.objs ==> UnderWay(s1.cur.status.ready))
  {
    var a := CR.Applier(s, olds, false);
    ApplyNewsTells(e, a, news, labels);
    var (a1, ok) := CR.ApplyNews(e, a, news, labels);
    if ok { CleanupTells(e, a1); }
  }

  lemma EnsureTells(e: Env, s: State)
    requires InStep(s)
    ensures var (s1, ok) := CR.Ensure(e, s);
      ok ==> Tells(s, s1, IsFirst(s.cur)) && (s1.objs != s.objs ==> UnderWay(s1.cur.status.ready))
  {
    if ClusterChanged(s.cur) {
      ProcessRefSame(e, s, s.cur.cluster);
      var (s1, new_) := CR.ProcessRef(e, s, s.cur.cluster);
      ProcessRefSame(e, s1, s.cur.status.cluster);
      var (s2, old_) := CR.ProcessRef(e, s1, s.cur.status.cluster);
      if new_.Some? && old_.Some? {
        ExchangeTells(e, s2, old_.value.1, new_.value.1, CR.TierLabels(s.cur.name, new_.value.0));
      }
    }
  }

  // The condition after a phase: as before, or telling of work.
  predicate Moves(r: Option<Reason>, r': Option<Reason>, first: bool) { r' == r || r' == Told(first, r) }

  lemma ClusterPhaseTells(e: Env, s: State)
    requires InStep(s)
    ensures var (s1, ok) := ClusterPhase(e, s);
      ok ==> InStep(s1) && s1.cur.name == s.cur.name
             && Moves(s.cur.status.ready, s1.cur.status.ready, IsFirst(s.cur))
             && (s1.objs != s.objs ==> UnderWay(s1.cur.status.ready))
  {
    EnsureTells(e, s);
  }

  // ---- The namespace phase ----

  lemma DropOldTells(e: Env, s: State, n: Ns, t: Tier, news: seq<Manifest>)
    requires InStep(s) && UnderWay(s.cur.status.ready)
    ensures var (s1, ok) := NS.DropOld(e, s, n, t, news); ok ==> s1.cur == s.cur && s1.saved == s.saved
  {
    var was := LabelOf(n.obj.labels, TemplateRef);
    if was != "" && was != t.templateRef {
      TellWorks(e, s);
      var (s1, ok) := SetUpdatingIfNotProvisioning(e, s);
      if ok { DropFromTells(e, s1, was, news); }
    }
  }

  lemma DropFromTells(e: Env, s: State, ref: string, news: seq<Manifest>)
    ensures var (s1, ok) := NS.DropFrom(e, s, ref, news); ok ==> s1.cur == s.cur && s1.saved == s.saved
  {
    var (s1, tier) := GetTier(e, s, ref);
    if tier.Some? && tier.value.process(Params(s.cur.name, "", "")).Some? {
      var content := NS.AllButNamespaces(tier.value.process(Params(s.cur.name, "", "")).value);
      var i := DeleteObsoleteCut(e, s1, content, news);
    }
  }

  lemma FillTells(e: Env, s: State, t: Tier, n: Ns)
    requires InStep(s) && UnderWay(s.cur.status.ready)
    ensures var (s1, p) := NS.EnsureInner(e, s, t, n); p.Changed? ==> s1.cur == s.cur && s1.saved == s.saved
  {
    var ms := t.process(Params(s.cur.name, "", ""));
    if ms.Some? {
      var news := NS.AllButNamespaces(ms.value);
      DropOldTells(e, s, n, t, news);
      var (s1, swept) := NS.DropOld(e, s, n, t, news);
      if swept { var i := ApplyAllCut(e, s1, news, NS.InnerLabels(s.cur.name)); }
    }
  }

  lemma StampTells(e: Env, s: State, t: Tier)
    ensures var (s1, p) := NS.EnsureNsResource(e, s, t); p.Changed? ==> s1.cur == s.cur && s1.saved == s.saved
  {
    var ms := t.process(Params(s.cur.name, "", ""));
    if ms.Some? {
      var i := ApplyAllCut(e, s, NS.NamespacesOnly(ms.value), NS.NsLabels(s.cur.name, t));
    }
  }

  lemma ProvisionTells(e: Env, s: State, t: Tier, n: Option<Ns>, nss: seq<Ns>)
    requires InStep(s)
    ensures var (s1, p) := NS.Provision(e, s, t, n, nss); p.Changed? ==> Shows(s, s1, nss == [])
  {
    TellWorks(e, s);
    var (s1, ok) := if nss != [] then SetUpdatingIfNotProvisioning(e, s) else SetProvisioningIfNotUpdating(e, s);
    if ok {
      StampTells(e, s1, t);
      if n.Some? { FillTells(e, s1, t, n.value); }
    }
  }

  lemma ActTells(e: Env, s: State, tiers: seq<Tier>, nss: seq<Ns>)
    requires InStep(s)
    ensures var (s1, p) := NS.Act(e, s, tiers, nss); p.Changed? ==> Shows(s, s1, nss == [])
  {
    var gone := NS.NextToDeprovision(tiers, nss);
    if gone.Some? {
      TellWorks(e, s);
    } else {
      NextSame(e, s, tiers, nss);
      var (s1, next) := NS.NextToProvision(e, s, tiers, nss);
      if next.Todo? { ProvisionTells(e, s1, next.tier, next.ns, nss); }
    }
  }

  lemma NamespacesTell(e: Env, s: State)
    requires InStep(s)
    ensures var (s1, p) := NS.Ensure(e, s);
      && (p.Changed? ==> Shows(s, s1, Owned(s.objs, s.cur.name) == []))
      && (p.Unchanged? ==> s1.cur == s.cur && s1.saved == s.saved && s1.objs == s.objs)
  {
    var f := EnsureEffect(e, s);
    var (s1, ok) := Read(e, s);
    if ok {
      GetTiersSame(e, s1, s.cur.namespaces);
      var (s2, tiers) := NS.GetTiers(e, s1, s.cur.namespaces);
      if tiers.Some? { ActTells(e, s2, tiers.value, Owned(s.objs, s.cur.name)); }
    }
  }

  // A status update that keeps the condition, whether it works or not.
  lemma PutTells(e: Env, s: State, status: Status)
    requires status.ready == s.cur.status.ready
    ensures var (s1, ok) := PutStatus(e, s.(cur := s.cur.(status := status)));
      && s1.objs == s.objs && s1.saved.finalizer == s.saved.finalizer
      && (ok && InStep(s) ==> Quietly(s, s1))
  {}

  predicate Quietly(s: State, s': State) {
    InStep(s') && s'.objs == s.objs && s'.cur.name == s.cur.name && s'.cur.status.ready == s.cur.status.ready
  }

  lemma RevisionTells(e: Env, s: State)
    ensures var (s1, ok) := NS.UpdateRevision(e, s);
      && s1.objs == s.objs && s1.saved.finalizer == s.saved.finalizer && (ok && InStep(s) ==> Quietly(s, s1))
  {
    PutTells(e, s, s.cur.status.(namespaces := s.cur.namespaces));
  }

  lemma NamesTell(e: Env, s: State)
    ensures var (s1, ok) := NS.UpdateProvisioned(e, s);
      && s1.objs == s.objs && s1.saved.finalizer == s.saved.finalizer && (ok && InStep(s) ==> Quietly(s, s1))
  {
    var s1, names := Tick(s), NS.NamesOf(Owned(s.objs, s.cur.name));
    PutTells(e, s1, s.cur.status.(provisioned := names));
  }

  lemma RecordTells(e: Env, s: State)
    ensures var (s1, p) := RecordNamespaces(e, s);
      && !p.Changed? && s1.saved.finalizer == s.saved.finalizer && (p.Unchanged? && InStep(s) ==> Quietly(s, s1))
  {
    RevisionTells(e, s);
    NamesTell(e, NS.UpdateRevision(e, s).0);
  }

  lemma NamespacePhaseTells(e: Env, s: State)
    requires InStep(s)
    ensures var (s1, p) := NamespacePhase(e, s);
      && (p.Changed? ==> Shows(s, s1, Owned(s.objs, s.cur.name) == []))
      && (p.Unchanged? ==> Quietly(s, s1))
  {
    NamespacesTell(e, s);
    var (s1, p) := NS.Ensure(e, s);
    if p.Unchanged? { RecordTells(e, s1); }
  }

  // ---- The role phase ----

  lemma SwitchTells(e: Env, s: State, n: Ns, last: SR.Roles, olds: seq<Manifest>, news: seq<Manifest>)
    ensures var (s1, p) := SR.Switch(e, s, n, last, olds, news); p.Changed? ==> s1.cur == s.cur && s1.saved == s.saved
    ensures SR.Switch(e, s, n, last, olds, news).1.Changed? ==> s.cur.roles != last
  {
    var i := ApplyAllCut(e, s, news, NS.InnerLabels(s.cur.name));
    var s1 := ApplyAll(e, s, news, NS.InnerLabels(s.cur.name)).0;
    var j := DeleteObsoleteCut(e, s1, olds, news);
  }

  lemma InTells(e: Env, s: State, n: Ns)
    requires InStep(s)
    ensures var (s1, p) := SR.EnsureIn(e, s, n); p.Changed? ==> Shows(s, s1, false)
  {
    var last := SR.LastApplied(n.obj);
    if last.Some? {
      TellWorks(e, s);
      var (s1, ok) := if s.cur.roles != last.value then SetUpdatingIfNotProvisioning(e, s) else (s, true);
      if ok {
        RoleObjectsSame(e, s1, n.name, SR.Items(last.value));
        var (s2, olds) := SR.RoleObjects(e, s1, n.name, SR.Items(last.value));
        RoleObjectsSame(e, s2, n.name, SR.Items(s.cur.roles));
        var (s3, news) := SR.RoleObjects(e, s2, n.name, SR.Items(s.cur.roles));
        if olds.Some? && news.Some? { SwitchTells(e, s3, n, last.value, olds.value, news.value); }
      }
    }
  }

  lemma {:induction false} EachTells(e: Env, s: State, nss: seq<Ns>)
    requires InStep(s)
    ensures var (s1, p) := SR.EnsureEach(e, s, nss); p.Changed? ==> nss != [] && Shows(s, s1, false)
    decreases |nss|
  {
    if nss != [] {
      InTells(e, s, nss[0]);
      var (s1, p) := SR.EnsureIn(e, s, nss[0]);
      if p.Unchanged? {
        EnsureInSame(e, s, nss[0]);
        EachTells(e, s1, nss[1..]);
      }
    }
  }

  lemma RolePhaseTells(e: Env, s: State)
    requires InStep(s)
    ensures var (s1, p) := RolePhase(e, s);
      p.Changed? ==> Owned(s.objs, s.cur.name) != [] && Shows(s, s1, false)
  {
    EachTells(e, Tick(s), Owned(s.objs, s.cur.name));
  }

  // ---- The laws ----

  lemma LaterTells(e: Env, s: State)
    requires InStep(s) && ThenNamespaces(e, s).1.Acted?
    ensures var s1 := ThenNamespaces(e, s).0;
      s1.saved.status.ready == Told(Owned(s.objs, s.cur.name) == [], s.cur.status.ready)
  {
    NamespacePhaseTells(e, s);
    var (s1, p) := NamespacePhase(e, s);
    if p.Unchanged? { RolePhaseTells(e, s1); }
  }

  lemma NoneOwned(objs: Objects, space: string)
    ensures Owned(objs, space) == [] <==> forall x :: !InSpace(objs, space, x)
  {
    OwnedEmpty(objs, space);
    forall x ensures InSpace(objs, space, x) <==> Owns(objs, space, x) { InSpaceIff(objs, space, x); }
  }

  // A reconcile that did some work and waits for the next one shows it: what was under way stays under way; work on
  // a space that has neither cluster resources nor namespaces is provisioning, on one that has both it is updating.
  lemma WorkIsShown(e: Env, s: State)
    requires !s.saved.deleting && Reconcile(e, s).1.Acted?
    ensures var was, now := s.saved.status.ready, Reconcile(e, s).0.saved.status.ready;
      var hasNamespace := exists x :: InSpace(s.objs, s.saved.name, x);
      && now in {Some(Provisioning), Some(Updating)}
      && (was in {Some(Provisioning), Some(Updating)} ==> now == was)
      && (was !in {Some(Provisioning), Some(Updating)} ==>
            && (s.saved.status.cluster in {None, Some("")} && !hasNamespace ==> now == Some(Provisioning))
            && (s.saved.status.cluster !in {None, Some("")} && hasNamespace ==> now == Some(Updating)))
  {
    var (s0, ok) := Read(e, Fetched(s));
    var (s1, ok1) := AddFinalizer(e, s0);
    ClusterPhaseTells(e, s1);
    var (s2, ok2) := ClusterPhase(e, s1);
    LaterTells(e, s2);
    NoneOwned(s.objs, s.saved.name);
  }

  lemma ClusterKeepsFinalizer(e: Env, s: State)
    requires Synced(s)
    ensures var (s1, ok) := ClusterPhase(e, s); s1.saved.finalizer == s.saved.finalizer && (ok ==> Synced(s1))
  {
    ClusterPhaseEffect(e, s);
    if ClusterChanged(s.cur) { var c := EnsureCut(e, s); }
    var s1 := CR.Ensure(e, s).0;
    assert Core(s1.saved).finalizer == Core(s.saved).finalizer;
  }

  lemma NamespacesKeepFinalizer(e: Env, s: State)
    requires Synced(s)
    ensures NamespacePhase(e, s).0.saved.finalizer == s.saved.finalizer
  {
    var f := EnsureEffect(e, s);
    var s1 := NS.Ensure(e, s).0;
    assert Core(s1.saved).finalizer == Core(s.saved).finalizer;
    RecordTells(e, s1);
  }

  lemma RoleStatusKeepsFinalizer(e: Env, s: State)
    ensures SR.UpdateRevision(e, s).0.saved.finalizer == s.saved.finalizer
  {}

  lemma RolesKeepFinalizer(e: Env, s: State)
    requires Synced(s)
    ensures RolePhase(e, s).0.saved.finalizer == s.saved.finalizer
  {
    RolesEnsured(e, s);
    var (s1, p) := SR.Ensure(e, s);
    if p.Unchanged? { RoleStatusKeepsFinalizer(e, s1); }
  }

  lemma RolesEnsured(e: Env, s: State)
    requires Synced(s)
    ensures SR.Ensure(e, s).0.saved.finalizer == s.saved.finalizer
  {
    var s1 := Tick(s);
    SetFailedSteady(e, s1, UnableToProvision);
    var d, part := EnsureEachEffect(e, s1, Owned(s.objs, s.cur.name));
    var s2 := SR.Ensure(e, s).0;
    assert Core(s2.saved).finalizer == Core(s.saved).finalizer;
  }

  lemma ReadyKeepsFinalizer(e: Env, s: State, r: Reason)
    ensures SetReady(e, s, r).0.saved.finalizer == s.saved.finalizer
  {}

  // Whatever fails: no reconcile changes an object before the finalizer is stored, or after it is gone.
  lemma FinalizerGuardsChanges(e: Env, s: State)
    requires Reconcile(e, s).0.objs != s.objs
    ensures if s.saved.deleting then s.saved.finalizer else Reconcile(e, s).0.saved.finalizer
  {
    if !s.saved.deleting {
      var (s0, ok) := Read(e, Fetched(s));
      AddFinalizerEffect(e, s0);
      var (s1, ok1) := AddFinalizer(e, s0);
      if ok1 {
        ClusterKeepsFinalizer(e, s1);
        var (s2, ok2) := ClusterPhase(e, s1);
        if ok2 { LaterKeepsFinalizer(e, s2); }
      }
    }
  }

  lemma LaterKeepsFinalizer(e: Env, s: State)
    requires Synced(s)
    ensures ThenNamespaces(e, s).0.saved.finalizer == s.saved.finalizer
  {
    NamespacesKeepFinalizer(e, s);
    NamespacePhaseEffect(e, s);
    var (s1, p) := NamespacePhase(e, s);
    if p.Unchanged? { ThenRolesKeepFinalizer(e, s1); }
  }

  lemma ThenRolesKeepFinalizer(e: Env, s: State)
    requires Synced(s)
    ensures ThenRoles(e, s).0.saved.finalizer == s.saved.finalizer
  {
    RolesKeepFinalizer(e, s);
    ReadyKeepsFinalizer(e, RolePhase(e, s).0, Provisioned);
  }

  // A deletion that goes on is shown as such.
  lemma DeletionIsShown(e: Env, s: State)
    requires s.saved.deleting && Reconcile(e, s).1.Waiting?
    ensures Reconcile(e, s).0.saved.status.ready == Some(Terminating)
  {
    var s0 := Read(e, Fetched(s)).0;
    var s1 := SetReady(e, s0, Terminating).0;
    assert s1.saved.status.ready == Some(Terminating) && s1.cur.status.ready == Some(Terminating);
    ResourcesTell(e, s1);
    var s2 := CR.DeleteResources(e, s1).0;
    ClearTells(e, s2);
    NamespacesGoTells(e, ClearCluster(e, s2).0);
  }

  lemma ClearTells(e: Env, s: State)
    requires s.saved.status.ready == s.cur.status.ready
    ensures var (s1, ok) := ClearCluster(e, s); ok ==> s1.saved.status.ready == s.saved.status.ready
  {
    PutTells(e, s, s.cur.status.(cluster := None));
  }

  lemma NamespacesGoTells(e: Env, s: State)
    ensures ThenDeleteNamespaces(e, s).1.Waiting? ==> ThenDeleteNamespaces(e, s).0.saved == s.saved
  {
    FirstGoesTells(e, Tick(s), Owned(s.objs, s.cur.name));
  }

  lemma FirstGoesTells(e: Env, s: State, nss: seq<Ns>)
    ensures var (s1, all) := NS.DeleteFirst(e, s, nss); all == Some(false) ==> s1.saved == s.saved
  {}

  lemma ResourcesTell(e: Env, s: State)
    ensures var (s1, ok) := CR.DeleteResources(e, s); ok ==> s1.cur == s.cur && s1.saved == s.saved
  {
    if s.cur.status.cluster.Some? {
      ProcessRefSame(e, s, s.cur.status.cluster);
      var (s1, olds) := CR.ProcessRef(e, s, s.cur.status.cluster);
      if olds.Some? { DeleteAllTells(e, s1, olds.value.1); }
    }
  }

  lemma {:induction false} DeleteAllTells(e: Env, s: State, ms: seq<Manifest>)
    ensures var (s1, ok) := CR.DeleteAll(e, s, ms); ok ==> s1.cur == s.cur && s1.saved == s.saved
    decreases |ms|
  {
    if ms != [] {
      var s1 := Tick(s);
      DeleteAllTells(e, s1, ms[1..]);
      DeleteAllTells(e, Delete(e, s1, ms[0].key).0, ms[1..]);
    }
  }

  // ---- What Provisioned means ----

  // The annotation of a namespace says which roles it has; none or an empty one stands for no list.
  predicate Notes(o: Object, roles: Option<seq<SpaceRole>>) {
    if LastAppliedSpaceRoles in o.notes && o.notes[LastAppliedSpaceRoles] != Text("")
    then o.notes[LastAppliedSpaceRoles] == RolesJson(roles)
    else roles == None
  }

  // Every namespace of the space is of a type of the spec and notes its roles; nothing of the spec needs work.
  ghost predicate AsSpecified(e: Env, objs: Objects, t: NSTemplateSet) {
    && AllKnown(e, t.namespaces)
    && (forall x :: InSpace(objs, t.name, x) ==> !Foreign(e, objs, t, x) && Notes(objs[Where(x)], t.roles))
    && (forall ref :: ref in t.namespaces ==> !NeedsWork(e, objs, t.name, ref))
  }

  lemma TierInPlaceRests(e: Env, objs: Objects, space: string, ref: string)
    requires Known(e, ref) && TierInPlace(objs, space, Owned(objs, space), TierOf(e, ref))
    ensures !NeedsWork(e, objs, space, ref)
  {
    var t := TierOf(e, ref);
    var n := NS.FindNamespace(Owned(objs, space), t.typeName);
    FoundListed(objs, space, t.typeName);
    assert n.value.obj.active ==> Fine(objs, n.value, t) == Some(true);
    WorkIff(e, objs, space, ref);
  }

  lemma InPlaceNamespace(e: Env, objs: Objects, t: NSTemplateSet, x: string)
    requires InPlace(e, objs, t) && InSpace(objs, t.name, x)
    ensures !Foreign(e, objs, t, x) && Notes(objs[Where(x)], t.roles)
  {
    var n := Ns(x, objs[Where(x)]);
    InSpaceListed(objs, t.name, x);
    ForeignIff(e, objs, t, x);
    assert n in Owned(objs, t.name);
    NotesMean(n.obj, t.roles);
  }

  lemma NotesMean(o: Object, roles: Option<seq<SpaceRole>>)
    requires SR.LastApplied(o) == Some(roles)
    ensures Notes(o, roles)
  {}

  lemma InPlaceReference(e: Env, objs: Objects, t: NSTemplateSet, ref: string)
    requires InPlace(e, objs, t) && ref in t.namespaces
    ensures Known(e, ref) && !NeedsWork(e, objs, t.name, ref)
  {
    var tiers := TiersOf(e, t.namespaces).value;
    TiersMean(e, t.namespaces);
    var i :| 0 <= i < |t.namespaces| && t.namespaces[i] == ref;
    assert TierInPlace(objs, t.name, Owned(objs, t.name), tiers[i]);
    TierInPlaceRests(e, objs, t.name, ref);
  }

  lemma InPlaceMeans(e: Env, objs: Objects, t: NSTemplateSet)
    requires InPlace(e, objs, t)
    ensures AsSpecified(e, objs, t)
  {
    forall ref | ref in t.namespaces ensures Known(e, ref) && !NeedsWork(e, objs, t.name, ref) {
      InPlaceReference(e, objs, t, ref);
    }
    forall x | InSpace(objs, t.name, x) ensures !Foreign(e, objs, t, x) && Notes(objs[Where(x)], t.roles) {
      InPlaceNamespace(e, objs, t, x);
    }
  }

  // Whatever fails on the way: a reconcile that gets to set Provisioned leaves the space as specified, and the status
  // records the template, the features and the namespaces of the spec.
  lemma ProvisionedMeans(e: Env, s: State)
    requires Through(e, s) && NoNamespaces(e, s.saved.roles)
    ensures var s' := Reconcile(e, s).0;
      && AsSpecified(e, s'.objs, s.saved) && s'.saved.status.cluster == s.saved.cluster
      && Elements(s'.saved.status.features) == Features(s.saved)
      && multiset(s'.saved.status.namespaces) == multiset(s.saved.namespaces)
  {
    ProvisionedIsSound(e, s);
    InPlaceMeans(e, Reconcile(e, s).0.objs, s.saved);
    assert Features(s.saved) == Elements(FeatureList(s.saved));
  }

  // The namespaces of the space are listed in name order, each once.
  ghost predicate Lists(names: seq<string>, objs: Objects, space: string) {
    && (forall x :: x in names <==> InSpace(objs, space, x))
    && (forall i, j :: 0 <= i < j < |names| ==> Leq(names[i], names[j]) && names[i] != names[j])
  }

  lemma NamesList(objs: Objects, space: string)
    ensures Lists(NS.NamesOf(Owned(objs, space)), objs, space)
  {
    NamesOfListing(objs, SortedNames(OwnedNames(objs, space)));
    forall x ensures InSpace(objs, space, x) <==> Owns(objs, space, x) { InSpaceIff(objs, space, x); }
  }

  lemma PhaseLists(e: Env, s: State)
    requires InStep(s) && NamespacePhase(e, s).1.Unchanged? && Owned(s.objs, s.cur.name) != []
    ensures var s1 := NamespacePhase(e, s).0; s1.saved.status.provisioned == NS.NamesOf(Owned(s.objs, s.cur.name))
  {
    NamespacesTell(e, s);
    var s1 := NS.Ensure(e, s).0;
    RevisionTells(e, s1);
    var s2 := NS.UpdateRevision(e, s1).0;
    NamesRecorded(e, s2);
  }

  lemma NamesRecorded(e: Env, s: State)
    requires NS.UpdateProvisioned(e, s).1 && Owned(s.objs, s.cur.name) != []
    ensures NS.UpdateProvisioned(e, s).0.saved.status.provisioned == NS.NamesOf(Owned(s.objs, s.cur.name))
  {}

  lemma RolesKeepList(e: Env, s: State)
    requires InStep(s) && RolePhase(e, s).1.Unchanged?
    ensures var s1 := SetReady(e, RolePhase(e, s).0, Provisioned).0;
      s1.saved.status.provisioned == s.saved.status.provisioned
  {
    EnsureEachSame(e, Tick(s), Owned(s.objs, s.cur.name));
    RecordKeepsList(e, SR.Ensure(e, s).0);
  }

  lemma RecordKeepsList(e: Env, s: State)
    requires InStep(s)
    ensures var s1 := SR.UpdateRevision(e, s).0;
      s1.saved.status.provisioned == s.saved.status.provisioned == s1.cur.status.provisioned
      && SetReady(e, s1, Provisioned).0.saved.status.provisioned == s.saved.status.provisioned
  {
    RecordsKeepList(e, s, SR.SortedRoles(s.cur.roles), SR.SortedRoles(s.cur.status.roles),
                    SR.Alike(e, s.cur.roles, s.cur.status.roles));
  }

  lemma RecordsKeepList(e: Env, s: State, spec: SR.Roles, status: SR.Roles, same: bool)
    requires InStep(s)
    ensures var s1 := SR.RecordRoles(e, s, spec, status, same).0;
      s1.saved.status.provisioned == s.saved.status.provisioned == s1.cur.status.provisioned
      && SetReady(e, s1, Provisioned).0.saved.status.provisioned == s.saved.status.provisioned
  {}

  // And it lists the namespaces of the space, the first one being the default, unless there is none.
  lemma ProvisionedLists(e: Env, s: State)
    requires Through(e, s) && NoNamespaces(e, s.saved.roles)
    ensures var s' := Reconcile(e, s).0;
      (exists x :: InSpace(s'.objs, s.saved.name, x)) ==> Lists(s'.saved.status.provisioned, s'.objs, s.saved.name)
  {
    var s0 := Read(e, Fetched(s)).0;
    var s1 := AddFinalizer(e, s0).0;
    ClusterPhaseTells(e, s1);
    ClusterPhaseEffect(e, s1);
    var s2 := ClusterPhase(e, s1).0;
    LaterLists(e, s2);
  }

  lemma LaterLists(e: Env, s: State)
    requires InStep(s) && LaterThrough(e, s) && NoNamespaces(e, s.cur.roles)
    ensures var s' := ThenNamespaces(e, s).0;
      (exists x :: InSpace(s'.objs, s.cur.name, x)) ==> Lists(s'.saved.status.provisioned, s'.objs, s.cur.name)
  {
    NamespacePhaseTells(e, s);
    NamespacePhaseEffect(e, s);
    var s1 := NamespacePhase(e, s).0;
    var nss := Owned(s.objs, s.cur.name);
    RolesKeepList(e, s1);
    RolePhaseEffect(e, s1);
    SetReadyKeeps(e, RolePhase(e, s1).0);
    var objs' := ThenNamespaces(e, s).0.objs;
    OwnedAreNamed(s1.objs, s.cur.name);
    ReappliedKeeps(e, s1.objs, s.cur.name, nss, s1.cur.roles);
    OwnedSame(s1.objs, objs', s.cur.name);
    NamesList(objs', s.cur.name);
    NoneOwned(objs', s.cur.name);
    if nss != [] { PhaseLists(e, s); }
  }

  // ---- What a finished deletion means ----

  // In every run of the deletion, failures included: once the finalizer is off, no namespace of the space is left, and
  // every object of the cluster template that was recorded at the start is gone or on its way out.
  lemma NothingIsLeft(e: Env, s: State, evs: seq<Event>)
    requires s.saved.deleting && s.saved.finalizer
    requires var ref := s.saved.status.cluster;
      ref in {None, Some("")}
      || (e.tiers(ref.value).Some? && e.tiers(ref.value).value.process(Params(s.saved.name, "", "")).Some?)
    requires Dying(e, s, evs, ByRef(e, s.saved.status.cluster, Params(s.saved.name, "", "")))
    ensures var s' := Run(e, s, evs);
      !s'.saved.finalizer ==>
        && (forall x :: !InSpace(s'.objs, s'.saved.name, x))
        && (forall m :: m in ByRef(e, s.saved.status.cluster, Params(s.saved.name, "", "")) ==> !Alive(s'.objs, m.key))
  {
    var ms, s' := ByRef(e, s.saved.status.cluster, Params(s.saved.name, "", "")), Run(e, s, evs);
    assert RefManifests(e, s.saved.name, s.saved.status.cluster) == Some(ms);
    FinalizerGoesLast(e, s, evs, s.saved.status.cluster, ms);
    NoneOwned(s'.objs, s'.saved.name);
    assert forall k :: Alive(s'.objs, k) <==> Live(s'.objs, k);
  }
}
