// Cluster-scoped objects such as quotas are in place before the first namespace of the space exists.
module QuotaRuns {
  import opened Names
  import opened Cluster
  import opened Applying
  import opened Statuses
  import opened Passes
  import opened ClusterPasses
  import opened ClusterRecovery
  import opened ProvisionedSoundness
  import opened CommitMarker
  import opened ClusterRuns
  import opened Reconciler
  import CR = ClusterResources

  // Every enabled and available object of the cluster template is alive and labelled.
  ghost predicate QuotaSet(e: Env, objs: Objects, t: NSTemplateSet) {
    forall m :: m in NewOf(e, t) && Available(e, m) ==> Live(objs, m.key) && InStore(objs, m, t.name)
  }

  ghost predicate NoneDying(e: Env, objs: Objects, t: NSTemplateSet) {
    forall m :: m in NewOf(e, t) && m.key in objs ==> Live(objs, m.key)
  }

  predicate HasNamespace(objs: Objects, space: string) { OwnedNames(objs, space) != {} }

  lemma {:induction false} StampAllNoneDying(e: Env, objs: Objects, ms: seq<Manifest>, labels: Labels, k: Key)
    requires k in objs ==> Live(objs, k)
    ensures k in StampAll(e, objs, ms, labels) ==> Live(StampAll(e, objs, ms, labels), k)
    decreases |ms|
  {
    if ms != [] {
      StampAllNoneDying(e, if Available(e, ms[0]) then StampIn(e, objs, ms[0], labels) else objs, ms[1..], labels, k);
    }
  }

  // A cut pass without deletions keeps what is set, and a whole one sets it.
  lemma StampedQuota(e: Env, objs: Objects, t: NSTemplateSet, labels: Labels, i: nat)
    requires i <= |NewOf(e, t)| && NoneDying(e, objs, t) && Space in labels && labels[Space] == t.name
    ensures var r := StampAll(e, objs, NewOf(e, t)[..i], labels);
      && NoneDying(e, r, t) && (QuotaSet(e, objs, t) || i == |NewOf(e, t)| ==> QuotaSet(e, r, t))
  {
    var news := NewOf(e, t);
    var r := StampAll(e, objs, news[..i], labels);
    forall m | m in news && m.key in r ensures Live(r, m.key) { StampAllNoneDying(e, objs, news[..i], labels, m.key); }
    if QuotaSet(e, objs, t) || i == |news| {
      forall m | m in news && Available(e, m) ensures Live(r, m.key) && InStore(r, m, t.name) {
        if QuotaSet(e, objs, t) {
          StampAllKeeps(e, objs, news[..i], labels, m.key);
          if !m.key.gvk.kind.ServiceAccount? { StampAllKeepsLabel(e, objs, news[..i], labels, m.key, Space); }
        } else {
          assert news[..i] == news;
          StampAllStores(e, objs, news, labels, m);
          if !m.key.gvk.kind.ServiceAccount? { StampAllLabels(e, objs, news, labels, m, Space); }
        }
      }
    }
  }

  lemma QuotaSameSpec(e: Env, objs: Objects, t: NSTemplateSet, t': NSTemplateSet)
    requires SameSpec(t, t')
    ensures NewOf(e, t) == NewOf(e, t')
    ensures QuotaSet(e, objs, t) == QuotaSet(e, objs, t') && NoneDying(e, objs, t) == NoneDying(e, objs, t')
  {
    if RefManifests(e, t.name, t.cluster).Some? { EnabledSameSpec(RefManifests(e, t.name, t.cluster).value, t, t'); }
  }

  lemma {:induction false} EnabledSameSpec(ms: seq<Manifest>, t: NSTemplateSet, t': NSTemplateSet)
    requires SameSpec(t, t')
    ensures CR.Enabled(ms, t) == CR.Enabled(ms, t')
  {
    if ms != [] { EnabledSameSpec(ms[1..], t, t'); }
  }

  lemma ChangedSame(t: NSTemplateSet, t': NSTemplateSet)
    requires SameSpec(t, t') && t'.status.cluster == t.status.cluster && t'.status.features == t.status.features
    ensures ClusterChanged(t) == ClusterChanged(t')
  {
    assert CleanFeatures(t) == CleanFeatures(t');
  }

  lemma LabelsOfRef(e: Env, t: NSTemplateSet)
    requires NewOf(e, t) != []
    ensures Space in RefLabels(e, t.name, t.cluster) && RefLabels(e, t.name, t.cluster)[Space] == t.name
  {}

  lemma DropAllOfNothing(ms: seq<Manifest>)
    ensures CR.DropAll([], ms) == []
    decreases |ms|
  {
    if ms != [] { DropAllOfNothing(ms[1..]); }
  }

  lemma EnsureQuota(e: Env, s: State)
    requires Synced(s) && NoneDying(e, s.objs, s.cur) && ClusterChanged(s.cur) && s.cur.status.cluster == None
    ensures var (s', ok) := CR.Ensure(e, s);
      && NoneDying(e, s'.objs, s.cur) && (QuotaSet(e, s.objs, s.cur) || ok ==> QuotaSet(e, s'.objs, s.cur))
      && Steady(s, s')
  {
    var c := EnsureCut(e, s);
    var news, rest, labels := NewOf(e, s.cur), RestOf(e, s.cur), RefLabels(e, s.cur.name, s.cur.cluster);
    assert RefManifests(e, s.cur.name, None) == Some([]);
    DropAllOfNothing(news);
    assert rest == [] && rest[..c.deleted] == [];
    if news != [] {
      LabelsOfRef(e, s.cur);
      StampedQuota(e, s.objs, s.cur, labels, c.applied);
    }
  }

  lemma RevisionChanged(e: Env, s: State)
    requires Synced(s)
    ensures var (s', ok) := UpdateClusterRevision(e, s);
      s'.objs == s.objs && SameSpec(s.saved, s'.saved)
      && ((s'.saved.status.cluster == s.saved.status.cluster && s'.saved.status.features == s.saved.status.features)
          || !ClusterChanged(s'.saved))
  {
    SyncedStatus(s);
    FeatureDrift(s.cur);
    ChangedSame(CaughtUp(s.cur), CaughtUp(s.cur).(finalizer := s.saved.finalizer));
    var (s', ok) := UpdateClusterRevision(e, s);
    if s'.saved.status != s.saved.status { ChangedSame(CaughtUp(s.cur), s'.saved); }
  }

  lemma ClusterPhaseQuota(e: Env, s: State)
    requires Synced(s) && NoneDying(e, s.objs, s.cur)
    requires ClusterChanged(s.cur) ==> s.cur.status.cluster == None
    requires !ClusterChanged(s.cur) ==> QuotaSet(e, s.objs, s.cur)
    ensures var (s', ok) := ClusterPhase(e, s);
      && NoneDying(e, s'.objs, s.cur)
      && (QuotaSet(e, s.objs, s.cur) || ok || !ClusterChanged(s'.saved) ==> QuotaSet(e, s'.objs, s.cur))
      && (ClusterChanged(s'.saved) ==> s'.saved.status.cluster == None)
  {
    SyncedStatus(s);
    ChangedSame(s.cur, s.saved);
    var (s1, ok) := CR.Ensure(e, s);
    if ClusterChanged(s.cur) {
      EnsureQuota(e, s);
      SteadyMild(s, s1);
      ChangedSame(s.saved, s1.saved);
    }
    if ok {
      RevisionChanged(e, s1);
      var (s', done) := UpdateClusterRevision(e, s1);
      if s'.saved.status.cluster == s1.saved.status.cluster && s'.saved.status.features == s1.saved.status.features {
        ChangedSame(s1.saved, s'.saved);
      }
    }
  }

  // ---- Runs with a fixed spec ----

  ghost predicate Inv(e: Env, s: State, refs: Refs) {
    var t := s.saved;
    && !t.deleting && ClusterShaped(e, t.name, t.cluster) && RefsIn(s, refs) && Shaped(e, t.name, refs)
    && NoneDying(e, s.objs, t)
    && (ClusterChanged(t) ==> t.status.cluster == None)
    && (!ClusterChanged(t) || HasNamespace(s.objs, t.name) ==> QuotaSet(e, s.objs, t))
  }

  // Others neither take the quota objects away nor hand the space a namespace.
  ghost predicate Harmless(e: Env, s: State, ev: Event, refs: Refs) {
    match ev
    case Pass(_) => true
    case Outside(objs) =>
      && NoneDying(e, objs, s.saved) && NsIn(objs, refs)
      && (QuotaSet(e, s.objs, s.saved) ==> QuotaSet(e, objs, s.saved))
      && (HasNamespace(objs, s.saved.name) ==> HasNamespace(s.objs, s.saved.name))
    case _ => false
  }

  ghost predicate Quiet(e: Env, s: State, evs: seq<Event>, refs: Refs)
    decreases |evs|
  {
    evs == [] || (Harmless(e, s, evs[0], refs) && Quiet(e, Next(e, s, evs[0]), evs[1..], refs))
  }

  lemma PassInv(e: Env, s: State, refs: Refs)
    requires Inv(e, s, refs)
    ensures Inv(e, Reconcile(e, s).0, refs)
  {
    var t := s.saved;
    assert ClusterShaped(e, t.name, t.status.cluster) by {
      if ClusterChanged(t) { assert RefManifests(e, t.name, None) == Some([]); }
      else { assert RefManifests(e, t.name, t.status.cluster) == RefManifests(e, t.name, t.cluster); }
    }
    var s1, got := AfterClusterPhase(e, s, refs);
    var s' := Reconcile(e, s).0;
    ProvideRefs(e, s, refs);
    QuotaSameSpec(e, s.objs, t, s1.cur);
    ChangedSame(t, s1.cur);
    if !got {
      ChangedSame(t, s'.saved);
      QuotaSameSpec(e, s'.objs, t, s'.saved);
    } else {
      ClusterPhaseQuota(e, s1);
      var (s2, ok2) := ClusterPhase(e, s1);
      ClusterPhaseEffect(e, s1);
      ChangedSame(s2.saved, s'.saved);
      QuotaSameSpec(e, s2.objs, t, s1.cur);
      ScopedSame(e, s2.objs, s'.objs, t);
      QuotaSameSpec(e, s'.objs, t, s'.saved);
      if !ok2 && HasNamespace(s'.objs, t.name) {
        NamespacesKept(e, s1);
      }
    }
  }

  lemma NamespacesKept(e: Env, s: State)
    requires Synced(s) && ClusterShaped(e, s.cur.name, s.cur.cluster)
    requires ClusterShaped(e, s.cur.name, s.cur.status.cluster)
    ensures OwnedNames(ClusterPhase(e, s).0.objs, s.cur.name) == OwnedNames(s.objs, s.cur.name)
  {
    var s2 := ClusterPhase(e, s).0;
    forall x ensures Owns(s2.objs, s.cur.name, x) <==> Owns(s.objs, s.cur.name, x) {
      ClusterPhaseScope(e, s, NsKey(x));
    }
  }

  lemma ScopedSame(e: Env, objs: Objects, objs': Objects, t: NSTemplateSet)
    requires ClusterShaped(e, t.name, t.cluster) && forall k :: ClusterScoped(k) ==> At(objs', k) == At(objs, k)
    ensures QuotaSet(e, objs, t) == QuotaSet(e, objs', t) && NoneDying(e, objs, t) == NoneDying(e, objs', t)
  {
    forall m | m in NewOf(e, t)
      ensures (m.key in objs <==> m.key in objs') && (Live(objs, m.key) <==> Live(objs', m.key))
      ensures m.key in objs ==> (InStore(objs, m, t.name) <==> InStore(objs', m, t.name))
    {
      assert At(objs', m.key) == At(objs, m.key);
    }
  }

  lemma InvSameCluster(e: Env, e': Env, s: State, refs: Refs)
    requires Inv(e, s, refs) && e.tiers == e'.tiers && e.groups == e'.groups
    ensures Inv(e', s, refs)
  {
    var t := s.saved;
    ShapedSame(e, e', t.name, refs);
    assert RefManifests(e, t.name, t.cluster) == RefManifests(e', t.name, t.cluster);
    assert NewOf(e, t) == NewOf(e', t);
    assert forall m :: Available(e, m) == Available(e', m);
  }

  // From an empty space, in every run with a fixed spec and any failures: no namespace of the space exists
  // unless all enabled cluster-scoped objects are in place.
  lemma {:induction false} QuotaBeforeNamespaces(e: Env, s: State, evs: seq<Event>, refs: Refs)
    requires Inv(e, s, refs) && Quiet(e, s, evs, refs)
    ensures var s' := Run(e, s, evs);
      Inv(e, s', refs) && (HasNamespace(s'.objs, s'.saved.name) ==> QuotaSet(e, s'.objs, s'.saved))
    decreases |evs|
  {
    if evs != [] {
      if evs[0].Pass? {
        var e' := e.(fate := evs[0].fate);
        InvSameCluster(e, e', s, refs);
        PassInv(e', s, refs);
        InvSameCluster(e', e, Reconcile(e', s).0, refs);
      }
      QuotaBeforeNamespaces(e, Next(e, s, evs[0]), evs[1..], refs);
    }
  }

  // An empty space: nothing recorded in the status, no namespace, none of the objects on its way out.
  lemma EmptySpace(e: Env, s: State, refs: Refs)
    requires !s.saved.deleting && ClusterShaped(e, s.saved.name, s.saved.cluster) && RefsIn(s, refs)
    requires Shaped(e, s.saved.name, refs)
    requires s.saved.status.cluster == None && !HasNamespace(s.objs, s.saved.name) && NoneDying(e, s.objs, s.saved)
    ensures Inv(e, s, refs)
  {
    if !ClusterChanged(s.saved) { assert RefManifests(e, s.saved.name, s.saved.cluster) == Some([]); }
  }
}
