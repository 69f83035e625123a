// The Provisioned condition is sound: what holds of the cluster whenever a reconcile gets to set it.
module ProvisionedSoundness {
  import opened Names
  import opened Cluster
  import opened Applying
  import opened Statuses
  import opened Passes
  import opened ClusterPasses
  import opened Namespaces
  import opened NamespacePasses
  import SR = SpaceRoles
  import opened RolePasses
  import opened Reconciler
  import CR = ClusterResources
  import opened DeletionPasses

  // ---- The phases, failures included ----

  predicate SameStatus(t: NSTemplateSet, t': NSTemplateSet) {
    t'.status.cluster == t.status.cluster && t'.status.features == t.status.features
    && t'.status.namespaces == t.status.namespaces
  }

  // The spec stays, and Provisioned does not appear.
  predicate Mild(s: State, s': State) {
    SameSpec(s.saved, s'.saved) && (Shining(s') ==> Shining(s))
  }

  lemma SteadyMild(s: State, s': State)
    requires Steady(s, s')
    ensures Mild(s, s') && SameSpec(s.cur, s'.cur) && SameStatus(s.cur, s'.cur) && SameStatus(s.saved, s'.saved)
  {
    var a, b := Core(s.cur), Core(s'.cur);
    assert a.status == b.status;
    var c, d := Core(s.saved), Core(s'.saved);
    assert c.status == d.status;
  }

  lemma SyncedStatus(s: State)
    requires Synced(s)
    ensures SameSpec(s.saved, s.cur) && SameStatus(s.saved, s.cur)
  {
    var a, b := Core(s.cur), Core(s.saved);
    assert a.status == b.status;
  }

  lemma ClusterPhaseEffect(e: Env, s: State)
    requires Synced(s)
    ensures var r := ClusterPhase(e, s);
      && Mild(s, r.0)
      && (r.1 ==>
          && Synced(r.0) && SameSpec(s.cur, r.0.cur)
          && r.0.cur.status.cluster == r.0.cur.cluster && !FeaturesNeedUpdate(r.0.cur))
  {
    if ClusterChanged(s.cur) { var c := EnsureCut(e, s); }
    var (s1, ok) := CR.Ensure(e, s);
    SteadyMild(s, s1);
    if ok {
      ClusterRevisionEffect(e, s1);
    }
  }

  lemma ClusterRevisionEffect(e: Env, s: State)
    requires Synced(s)
    ensures var r := UpdateClusterRevision(e, s);
      && r.0.objs == s.objs && Mild(s, r.0)
      && (r.1 ==>
          && Synced(r.0) && SameSpec(s.cur, r.0.cur)
          && r.0.cur.status.cluster == r.0.cur.cluster && !FeaturesNeedUpdate(r.0.cur))
  {
    FeatureDrift(s.cur);
  }

  lemma NsRevisionEffect(e: Env, s: State)
    requires Synced(s)
    ensures var r := UpdateRevision(e, s); var t, t' := s.cur.status, r.0.cur.status;
      && r.0.objs == s.objs && Mild(s, r.0)
      && (r.1 ==> && Synced(r.0) && SameSpec(s.cur, r.0.cur) && t'.cluster == t.cluster && t'.features == t.features
                  && multiset(t'.namespaces) == multiset(s.cur.namespaces))
  {}

  lemma ProvisionedListEffect(e: Env, s: State)
    requires Synced(s)
    ensures var r := UpdateProvisioned(e, s);
      && r.0.objs == s.objs && Mild(s, r.0)
      && (r.1 ==> Synced(r.0) && SameSpec(s.cur, r.0.cur) && SameStatus(s.cur, r.0.cur))
  {
    RecordNamesEffect(e, Tick(s), Owned(s.objs, s.cur.name));
  }

  lemma RecordNamesEffect(e: Env, s: State, nss: seq<Ns>)
    requires Synced(s)
    ensures var r := RecordNames(e, s, nss);
      && r.0.objs == s.objs && Mild(s, r.0)
      && (r.1 ==> Synced(r.0) && SameSpec(s.cur, r.0.cur) && SameStatus(s.cur, r.0.cur))
  {}

  lemma NamespacePhaseEffect(e: Env, s: State)
    requires Synced(s)
    ensures var r := NamespacePhase(e, s);
      && Mild(s, r.0)
      && (r.1.Unchanged? ==>
            && Synced(r.0) && r.0.objs == s.objs && Decide(e, s.objs, s.cur.name, s.cur.namespaces).Idle?
            && SameSpec(s.cur, r.0.cur)
            && r.0.cur.status.cluster == s.cur.status.cluster && r.0.cur.status.features == s.cur.status.features
            && multiset(r.0.cur.status.namespaces) == multiset(r.0.cur.namespaces))
  {
    var f := EnsureEffect(e, s);
    var (s1, p) := Ensure(e, s);
    SteadyMild(s, s1);
    if p.Unchanged? {
      NsRevisionEffect(e, s1);
      var (s2, ok2) := UpdateRevision(e, s1);
      if ok2 {
        ProvisionedListEffect(e, s2);
      }
    }
  }

  lemma RoleRevisionEffect(e: Env, s: State)
    requires Synced(s)
    ensures var r := SR.UpdateRevision(e, s);
      && r.0.objs == s.objs && Mild(s, r.0) && SameStatus(s.saved, r.0.saved) && SameStatus(r.0.saved, r.0.cur)
  {
    RecordRolesEffect(e, s, SR.SortedRoles(s.cur.roles), SR.SortedRoles(s.cur.status.roles),
                      SR.Alike(e, s.cur.roles, s.cur.status.roles));
  }

  lemma RecordRolesEffect(e: Env, s: State, spec: SR.Roles, status: SR.Roles, same: bool)
    requires Synced(s)
    ensures var r := SR.RecordRoles(e, s, spec, status, same);
      && r.0.objs == s.objs && Mild(s, r.0) && SameStatus(s.saved, r.0.saved) && SameStatus(r.0.saved, r.0.cur)
  {
    SyncedStatus(s);
  }

  lemma RolePhaseEffect(e: Env, s: State)
    requires Synced(s)
    ensures var r := RolePhase(e, s); var nss := Owned(s.objs, s.cur.name);
      && Mild(s, r.0) && SameStatus(s.saved, r.0.saved)
      && (r.1.Unchanged? ==>
            && SameStatus(r.0.saved, r.0.cur)
            && (forall n :: n in nss ==> SR.LastApplied(n.obj) == Some(s.cur.roles))
            && r.0.objs == Reapplied(e, s.objs, s.cur.name, nss, s.cur.roles))
  {
    var nss := Owned(s.objs, s.cur.name);
    var (s1, ok) := Read(e, s);
    SetFailedSteady(e, s1, UnableToProvision);
    var (s2, p) := SR.Ensure(e, s);
    if ok {
      var d, part := EnsureEachEffect(e, s1, nss);
      assert nss[..|nss|] == nss;
    }
    SteadyMild(s, s2);
    if p.Unchanged? {
      RoleRevisionEffect(e, s2);
    }
  }

  // ---- What an idle decision and reapplied roles say ----

  predicate NsInPlace(objs: Objects, space: string, n: Ns, t: Tier) {
    n.obj.active ==>
      && MarkedFor(n, t)
      && t.process(Params(space, space, "")).Some?
      && RolesPresent(objs, n.name, AllButNamespaces(t.process(Params(space, space, "")).value), space)
  }

  predicate TierInPlace(objs: Objects, space: string, nss: seq<Ns>, t: Tier) {
    var n := FindNamespace(nss, t.typeName);
    n.Some? && NsInPlace(objs, space, n.value, t)
  }

  lemma {:induction false} PickedNothing(objs: Objects, space: string, tiers: seq<Tier>, nss: seq<Ns>)
    requires Pick(objs, tiers, nss).Nothing?
    requires forall n :: n in nss ==> LabelOf(n.obj.labels, Space) == space
    ensures forall i :: 0 <= i < |tiers| ==> TierInPlace(objs, space, nss, tiers[i])
    decreases |tiers|
  {
    if tiers != [] {
      PickedNothing(objs, space, tiers[1..], nss);
      assert TierInPlace(objs, space, nss, tiers[0]);
      forall i | 0 <= i < |tiers| ensures TierInPlace(objs, space, nss, tiers[i]) {
        if i > 0 { assert tiers[i] == tiers[1..][i - 1]; }
      }
    }
  }

  lemma {:induction false} ListingSame(objs: Objects, objs': Objects, names: seq<string>)
    requires forall x :: x in names ==> NsKey(x) in objs && At(objs', NsKey(x)) == At(objs, NsKey(x))
    ensures forall x :: x in names ==> NsKey(x) in objs'
    ensures Listing(objs, names) == Listing(objs', names)
  {
    forall x | x in names ensures NsKey(x) in objs' { assert At(objs', NsKey(x)) == At(objs, NsKey(x)); }
    if names != [] {
      assert NsKey(names[0]) in objs;
      ListingSame(objs, objs', names[1..]);
    }
  }

  lemma OwnedSame(objs: Objects, objs': Objects, space: string)
    requires forall x :: At(objs', NsKey(x)) == At(objs, NsKey(x))
    ensures Owned(objs', space) == Owned(objs, space)
  {
    forall x ensures Owns(objs, space, x) <==> Owns(objs', space, x) {
      assert At(objs', NsKey(x)) == At(objs, NsKey(x));
    }
    assert OwnedNames(objs, space) == OwnedNames(objs', space);
    ListingSame(objs, objs', SortedNames(OwnedNames(objs, space)));
  }

  // The roles generate no namespaces, in whichever namespace.
  ghost predicate NoNamespaces(e: Env, want: SR.Roles) {
    forall n: Ns, m :: n.name != "" && m in News(e, n, want) ==> !m.key.gvk.kind.Namespace?
  }

  predicate Named(nss: seq<Ns>) { forall n :: n in nss ==> n.name != "" }

  lemma OwnedAreNamed(objs: Objects, space: string)
    ensures Named(Owned(objs, space))
  {
    OwnedMembers(objs, space);
  }

  lemma {:induction false} ReappliedKeeps(e: Env, objs: Objects, space: string, nss: seq<Ns>, want: SR.Roles)
    requires NoNamespaces(e, want) && Named(nss)
    ensures var r := Reapplied(e, objs, space, nss, want);
      && (forall x :: At(r, NsKey(x)) == At(objs, NsKey(x)))
      && (forall k: Key :: !k.gvk.kind.ServiceAccount? && Labelled(objs, k, Space, space) ==>
          Labelled(r, k, Space, space))
    decreases |nss|
  {
    if nss != [] {
      var ms, labels := News(e, nss[0], want), InnerLabels(space);
      var next := StampAll(e, objs, ms, labels);
      ReappliedKeeps(e, next, space, nss[1..], want);
      forall x ensures At(next, NsKey(x)) == At(objs, NsKey(x)) {
        StampAllElsewhere(e, objs, ms, labels, NsKey(x));
      }
      forall k: Key | !k.gvk.kind.ServiceAccount? && Labelled(objs, k, Space, space)
        ensures Labelled(next, k, Space, space)
      {
        StampAllKeepsLabel(e, objs, ms, labels, k, Space);
      }
    }
  }

  // ---- The theorem ----

  // The cluster is as the spec asks: every owned namespace is of a type of the tier; the first namespace of
  // each type exists and, when active, is marked with the tier and reference and holds the template's Roles
  // and RoleBindings; and every owned namespace records the roles of the spec.
  predicate InPlace(e: Env, objs: Objects, t: NSTemplateSet) {
    && TiersOf(e, t.namespaces).Some?
    && var tiers := TiersOf(e, t.namespaces).value;
    && (forall n :: n in Owned(objs, t.name) ==> HasType(tiers, LabelOf(n.obj.labels, Type)))
    && (forall i :: 0 <= i < |tiers| ==> TierInPlace(objs, t.name, Owned(objs, t.name), tiers[i]))
    && (forall n :: n in Owned(objs, t.name) ==> SR.LastApplied(n.obj) == Some(t.roles))
  }

  predicate StatusMatches(t: NSTemplateSet) {
    && t.status.cluster == t.cluster
    && Elements(t.status.features) == Elements(FeatureList(t))
    && multiset(t.status.namespaces) == multiset(t.namespaces)
  }

  lemma InPlaceAfterRoles(e: Env, objs: Objects, t: NSTemplateSet)
    requires NoNamespaces(e, t.roles) && Decide(e, objs, t.name, t.namespaces).Idle?
    requires forall n :: n in Owned(objs, t.name) ==> SR.LastApplied(n.obj) == Some(t.roles)
    ensures InPlace(e, Reapplied(e, objs, t.name, Owned(objs, t.name), t.roles), t)
  {
    var tiers, nss := TiersOf(e, t.namespaces).value, Owned(objs, t.name);
    var objs' := Reapplied(e, objs, t.name, nss, t.roles);
    OwnedAreNamed(objs, t.name);
    ReappliedKeeps(e, objs, t.name, nss, t.roles);
    OwnedSame(objs, objs', t.name);
    OwnedMembers(objs, t.name);
    PickedNothing(objs, t.name, tiers, nss);
    forall i | 0 <= i < |tiers| ensures TierInPlace(objs', t.name, nss, tiers[i]) {
      assert TierInPlace(objs, t.name, nss, tiers[i]);
      var n := FindNamespace(nss, tiers[i].typeName);
      if n.value.obj.active {
        RolesStay(objs, objs', n.value.name, AllButNamespaces(tiers[i].process(Params(t.name, t.name, "")).value),
                  t.name);
      }
    }
  }

  lemma RolesStay(objs: Objects, objs': Objects, n: string, ms: seq<Manifest>, space: string)
    requires forall k: Key :: !k.gvk.kind.ServiceAccount? && Labelled(objs, k, Space, space) ==>
      Labelled(objs', k, Space, space)
    requires RolesPresent(objs, n, ms, space)
    ensures RolesPresent(objs', n, ms, space)
  {
    forall m | m in ms && (m.key.gvk.kind.Role? || m.key.gvk.kind.RoleBinding?)
      ensures Contains(objs', ListedKey(n, m), space)
    {
      assert Labelled(objs, ListedKey(n, m), Space, space);
    }
  }

  // The part of a reconcile after the finalizer is in place.
  lemma PhasesAreSound(e: Env, s1: State)
    requires NoNamespaces(e, s1.cur.roles) && Synced(s1)
    ensures var (s2, ok2) := ClusterPhase(e, s1); var (s3, p3) := NamespacePhase(e, s2);
      var (s4, p4) := RolePhase(e, s3);
      && Mild(s1, s2)
      && (ok2 ==> Mild(s1, s3))
      && (ok2 && p3.Unchanged? ==> Mild(s1, s4))
      && (ok2 && p3.Unchanged? && p4.Unchanged? ==>
          InPlace(e, s4.objs, s1.cur) && StatusMatches(s4.saved) && SameStatus(s4.saved, s4.cur))
  {
    ClusterPhaseEffect(e, s1);
    var (s2, ok2) := ClusterPhase(e, s1);
    if ok2 {
      NamespacePhaseEffect(e, s2);
      var (s3, p3) := NamespacePhase(e, s2);
      if p3.Unchanged? {
        RolePhaseEffect(e, s3);
        var (s4, p4) := RolePhase(e, s3);
        if p4.Unchanged? {
          InPlaceAfterRoles(e, s3.objs, s3.cur);
          InPlaceSame(e, s4.objs, s3.cur, s1.cur);
          SyncedStatus(s3);
          StatusMatchesHere(s2.cur, s3.cur, s4.saved);
        }
      }
    }
  }

  lemma InPlaceSame(e: Env, objs: Objects, t: NSTemplateSet, t': NSTemplateSet)
    requires SameSpec(t, t') && InPlace(e, objs, t)
    ensures InPlace(e, objs, t')
  {}

  lemma StatusMatchesHere(t2: NSTemplateSet, t3: NSTemplateSet, t4: NSTemplateSet)
    requires SameSpec(t2, t3) && SameSpec(t3, t4)
    requires t2.status.cluster == t2.cluster && !FeaturesNeedUpdate(t2)
    requires t3.status.cluster == t2.status.cluster && t3.status.features == t2.status.features
    requires multiset(t3.status.namespaces) == multiset(t3.namespaces) && SameStatus(t3, t4)
    ensures StatusMatches(t4)
  {
    FeatureDrift(t2);
  }

  lemma AddFinalizerEffect(e: Env, s: State)
    requires s.saved == s.cur
    ensures var r := AddFinalizer(e, s);
      && r.0.objs == s.objs && Mild(s, r.0)
      && (r.1 ==> Synced(r.0) && SameSpec(s.cur, r.0.cur) && SameStatus(s.saved, r.0.saved))
  {}

  lemma SetReadyKeeps(e: Env, s: State)
    ensures var s' := SetReady(e, s, Provisioned).0; s'.objs == s.objs && SameSpec(s.saved, s'.saved)
    ensures StatusMatches(s.saved) && SameStatus(s.saved, s.cur) ==> StatusMatches(SetReady(e, s, Provisioned).0.saved)
  {}

  // In every reconcile from every state, under any API failures: if it gets as far as setting Provisioned,
  // the cluster and the status are as the spec asks, whether that last update works or not; if it does not get
  // there, it does not leave Provisioned behind where it was not before.
  lemma ProvisionedIsSound(e: Env, s: State)
    requires NoNamespaces(e, s.saved.roles)
    ensures var s' := Reconcile(e, s).0;
      if Through(e, s) then InPlace(e, s'.objs, s.saved) && StatusMatches(s'.saved) && SameSpec(s.saved, s'.saved)
      else s'.saved.status.ready == Some(Provisioned) ==> s.saved.status.ready == Some(Provisioned)
  {
    var (s0, ok) := Read(e, Fetched(s));
    if ok && s0.cur.deleting {
      if s0.cur.finalizer { var mid := TearEffect(e, s0); }
    } else if ok {
      AddFinalizerEffect(e, s0);
      var (s1, ok1) := AddFinalizer(e, s0);
      if ok1 {
        PhasesAreSound(e, s1);
        var (s2, ok2) := ClusterPhase(e, s1);
        var (s3, p3) := NamespacePhase(e, s2);
        var (s4, p4) := RolePhase(e, s3);
        if ok2 && p3.Unchanged? && p4.Unchanged? {
          SetReadyKeeps(e, s4);
          InPlaceSame(e, s4.objs, s1.cur, s.saved);
        }
      }
    }
  }
}
