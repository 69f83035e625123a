// Cluster resources over whole runs: contained in the old and new templates, and there before any namespace.
module ClusterRuns {
  import opened Names
  import opened Cluster
  import opened Applying
  import opened Statuses
  import opened Passes
  import opened ClusterPasses
  import opened ClusterRecovery
  import opened NamespacePasses
  import opened RolePasses
  import opened DeletionPasses
  import opened ProvisionedSoundness
  import opened CommitMarker
  import opened Reconciler
  import NS = Namespaces
  import CR = ClusterResources
  import SR = SpaceRoles

  // ---- Runs ----

  // A reconcile with any failures; an edit of the NSTemplateSet; or anything else changing the store.
  datatype Event =
    | Pass(fate: nat -> Fate)
    | EditCluster(ref: Option<string>)
    | EditFeatures(features: Option<seq<string>>)
    | EditNamespaces(refs: seq<string>)
    | EditRoles(roles: SR.Roles)
    | MarkDeleted
    | Outside(objs: Objects)

  function Next(e: Env, s: State, ev: Event): State {
    match ev
    case Pass(fate) => Reconcile(e.(fate := fate), s).0
    case EditCluster(ref) => s.(saved := s.saved.(cluster := ref))
    case EditFeatures(features) => s.(saved := s.saved.(features := features))
    case EditNamespaces(refs) => s.(saved := s.saved.(namespaces := refs))
    case EditRoles(roles) => s.(saved := s.saved.(roles := roles))
    case MarkDeleted => s.(saved := s.saved.(deleting := true))
    case Outside(objs) => s.(objs := objs)
  }

  function Run(e: Env, s: State, evs: seq<Event>): State
    decreases |evs|
  {
    if evs == [] then s else Run(e, Next(e, s, evs[0]), evs[1..])
  }

  // ---- Which phase touches what ----

  // The references a space looks up: templates of its namespaces, and of its roles.
  datatype Refs = Refs(namespaces: set<string>, roles: set<string>)

  // In the namespaces of the space, role templates generate namespaced objects; so does everything in the
  // namespace templates besides the namespaces, which set neither the labels of the marker nor the roles annotation.
  ghost predicate Shaped(e: Env, space: string, refs: Refs) {
    && (forall n, roles, m :: n != "" && From(roles, refs.roles) && Yields(e, n, roles, m) ==>
          m.key.ns != "" && !m.key.gvk.kind.Namespace?)
    && (forall ref, m :: ref in refs.namespaces && TierAt(e, ref).Some? && m in Content(TierAt(e, ref).value, space) ==>
          m.key.ns != "")
    && (forall ref, m :: ref in refs.namespaces && TierAt(e, ref).Some? && m in Frame(TierAt(e, ref).value, space) ==>
          TemplateRef !in m.labels && TierName !in m.labels && LastAppliedSpaceRoles !in m.notes)
  }

  // The roles an object records.
  predicate NoteFrom(o: Object, refs: set<string>) {
    SR.LastApplied(o).Some? ==> From(SR.Items(SR.LastApplied(o).value), refs)
  }

  predicate NsRefs(objs: Objects, x: string, refs: Refs) {
    NsKey(x) in objs ==>
      && (RefLabel(objs, x) == "" || RefLabel(objs, x) in refs.namespaces)
      && NoteFrom(objs[NsKey(x)], refs.roles)
  }

  ghost predicate NsIn(objs: Objects, refs: Refs) { forall x :: NsRefs(objs, x, refs) }

  predicate SpecIn(t: NSTemplateSet, refs: Refs) {
    (forall ref :: ref in t.namespaces ==> ref in refs.namespaces) && From(SR.Items(t.roles), refs.roles)
  }

  // The spec, the labels of namespaces and the roles they record refer to these templates only.
  ghost predicate RefsIn(s: State, refs: Refs) { SpecIn(s.saved, refs) && NsIn(s.objs, refs) }

  lemma NewsShaped(e: Env, space: string, n: Ns, want: SR.Roles, refs: Refs)
    requires Shaped(e, space, refs) && From(SR.Items(want), refs.roles) && n.name != ""
    ensures forall m :: m in News(e, n, want) ==> m.key.ns != "" && !m.key.gvk.kind.Namespace?
  {
    assert forall m :: m in News(e, n, want) ==> Yields(e, n.name, SR.Items(want), m);
  }

  lemma ShapedNoNamespaces(e: Env, space: string, want: SR.Roles, refs: Refs)
    requires Shaped(e, space, refs) && From(SR.Items(want), refs.roles)
    ensures NoNamespaces(e, want)
  {
    forall n: Ns, m | n.name != "" && m in News(e, n, want) ensures !m.key.gvk.kind.Namespace? {
      NewsShaped(e, space, n, want, refs);
    }
  }

  lemma ShapedNoRoleNamespaces(e: Env, objs: Objects, t: NSTemplateSet, refs: Refs)
    requires Shaped(e, t.name, refs) && SpecIn(t, refs) && NsIn(objs, refs)
    ensures NoRoleNamespaces(e, objs, t)
  {
    ShapedNoNamespaces(e, t.name, t.roles, refs);
    forall x | Owns(objs, t.name, x) && SR.LastApplied(objs[NsKey(x)]).Some?
      ensures NoNamespaces(e, SR.LastApplied(objs[NsKey(x)]).value)
    {
      assert NsRefs(objs, x, refs);
      ShapedNoNamespaces(e, t.name, SR.LastApplied(objs[NsKey(x)]).value, refs);
    }
  }

  lemma FillScope(e: Env, objs: Objects, space: string, f: Effect, k: Key)
    requires f.Fill? && Fits(e, space, f) && ClusterScoped(k)
    requires forall m :: m in Content(f.tier, space) ==> m.key.ns != ""
    requires forall m :: m in Outdated(e, space, f.n, f.tier) ==> m.key.ns != ""
    ensures At(On(e, objs, space, f), k) == At(objs, k)
  {
    var olds, news := Outdated(e, space, f.n, f.tier)[..f.deleted], Content(f.tier, space)[..f.applied];
    SweepAt(objs, olds, k);
    StampAllElsewhere(e, Sweep(objs, olds), news, NS.InnerLabels(space), k);
  }

  lemma OutdatedNamespaced(e: Env, space: string, n: Ns, t: Tier, refs: Refs)
    requires Shaped(e, space, refs) && (OldRef(n, t).Some? ==> OldRef(n, t).value in refs.namespaces)
    ensures forall m :: m in Outdated(e, space, n, t) ==> m.key.ns != ""
  {}

  lemma ContentScope(e: Env, objs: Objects, t: NSTemplateSet, refs: Refs, f: Effect, k: Key)
    requires Shaped(e, t.name, refs) && SpecIn(t, refs) && NsIn(objs, refs)
    requires ClusterScoped(k) && Fits(e, t.name, f) && Due(e, objs, t.name, t.namespaces, f)
    ensures At(On(e, objs, t.name, f), k) == At(objs, k)
  {
    if f.Stamp? {
      StampAllElsewhere(e, objs, Frame(f.tier, t.name)[..f.applied], NS.NsLabels(t.name, f.tier), k);
    } else if f.Fill? {
      FillContentScope(e, objs, t, refs, f, k);
    }
  }

  lemma FillContentScope(e: Env, objs: Objects, t: NSTemplateSet, refs: Refs, f: Effect, k: Key)
    requires Shaped(e, t.name, refs) && SpecIn(t, refs) && NsIn(objs, refs)
    requires ClusterScoped(k) && f.Fill? && Fits(e, t.name, f)
    requires FromSpec(e, t.namespaces, f.tier) && At(objs, NsKey(f.n.name)) == Some(f.n.obj)
    ensures At(On(e, objs, t.name, f), k) == At(objs, k)
  {
    assert NsRefs(objs, f.n.name, refs);
    OutdatedNamespaced(e, t.name, f.n, f.tier, refs);
    FillScope(e, objs, t.name, f, k);
  }

  lemma {:induction false} ReappliedScope(e: Env, objs: Objects, space: string, nss: seq<Ns>, want: SR.Roles,
                                          refs: Refs, k: Key)
    requires Shaped(e, space, refs) && From(SR.Items(want), refs.roles) && Named(nss) && ClusterScoped(k)
    ensures At(Reapplied(e, objs, space, nss, want), k) == At(objs, k)
    decreases |nss|
  {
    if nss != [] {
      NewsShaped(e, space, nss[0], want, refs);
      StampAllElsewhere(e, objs, News(e, nss[0], want), NS.InnerLabels(space), k);
      ReappliedScope(e, StampAll(e, objs, News(e, nss[0], want), NS.InnerLabels(space)), space, nss[1..], want, refs,
                     k);
    }
  }

  lemma RolePhaseScope(e: Env, s: State, refs: Refs, k: Key)
    requires Synced(s) && Shaped(e, s.cur.name, refs) && SpecIn(s.cur, refs) && NsIn(s.objs, refs) && ClusterScoped(k)
    ensures At(RolePhase(e, s).0.objs, k) == At(s.objs, k)
  {
    var nss, want, space := Owned(s.objs, s.cur.name), s.cur.roles, s.cur.name;
    var d, p, q := RolePhaseDone(e, s, nss);
    if RolePhase(e, s).0.objs != s.objs {
      OwnedAreNamed(s.objs, space);
      OwnedMembers(s.objs, space);
      ReappliedScope(e, s.objs, space, nss[..d], want, refs, k);
      if d < |nss| {
        assert nss[d] in nss && NsRefs(s.objs, nss[d].name, refs);
        SwitchedScope(e, Reapplied(e, s.objs, space, nss[..d], want), space, nss[d], want, p, refs, k);
      }
    }
  }

  lemma SwitchedScope(e: Env, objs: Objects, space: string, n: Ns, want: SR.Roles, p: Part, refs: Refs, k: Key)
    requires FitsIn(e, n, want, p) && Shaped(e, space, refs) && ClusterScoped(k)
    requires n.name != "" && From(SR.Items(want), refs.roles) && NoteFrom(n.obj, refs.roles)
    ensures At(OnOne(e, objs, space, n, want, p), k) == At(objs, k)
  {
    var news, leaving := News(e, n, want)[..p.applied], Leaving(e, n, want)[..p.deleted];
    NewsShaped(e, space, n, want, refs);
    if SR.LastApplied(n.obj).Some? { NewsShaped(e, space, n, SR.LastApplied(n.obj).value, refs); }
    StampAllElsewhere(e, objs, news, NS.InnerLabels(space), k);
    SweepAt(StampAll(e, objs, news, NS.InnerLabels(space)), leaving, k);
  }

  // ---- What namespaces record ----

  lemma {:induction false} StampAllNotes(e: Env, objs: Objects, ms: seq<Manifest>, labels: Labels, k: Key,
                                         refs: set<string>)
    requires k.gvk.kind.Namespace? && (k in objs ==> NoteFrom(objs[k], refs))
    requires forall m :: m in ms ==> LastAppliedSpaceRoles !in m.notes
    ensures var r := StampAll(e, objs, ms, labels); k in r ==> NoteFrom(r[k], refs)
    decreases |ms|
  {
    if ms != [] {
      var next := if Available(e, ms[0]) then StampIn(e, objs, ms[0], labels) else objs;
      StampAllNotes(e, next, ms[1..], labels, k, refs);
    }
  }

  lemma StampNotes(e: Env, objs: Objects, t: NSTemplateSet, refs: Refs, tier: Tier, applied: nat, x: string)
    requires Shaped(e, t.name, refs) && SpecIn(t, refs) && NsRefs(objs, x, refs)
    requires FromSpec(e, t.namespaces, tier) && applied <= |Frame(tier, t.name)|
    ensures var r := On(e, objs, t.name, Stamp(tier, applied)); NsKey(x) in r ==> NoteFrom(r[NsKey(x)], refs.roles)
  {
    StampAllNotes(e, objs, Frame(tier, t.name)[..applied], NS.NsLabels(t.name, tier), NsKey(x), refs.roles);
  }

  lemma FillNotes(e: Env, objs: Objects, space: string, refs: Refs, f: Effect, x: string)
    requires f.Fill? && Fits(e, space, f) && At(objs, NsKey(f.n.name)) == Some(f.n.obj) && NsRefs(objs, x, refs)
    ensures var r := On(e, objs, space, f); NsKey(x) in r ==> NoteFrom(r[NsKey(x)], refs.roles)
  {
    FilledNamespaces(e, objs, space, f.tier, f.n, f.deleted, f.applied, x);
    var filled := Filled(e, objs, space, f.tier, f.n, f.deleted, f.applied);
    assert At(filled, NsKey(x)) == At(objs, NsKey(x));
    assert SR.LastApplied(NS.Marked(f.n.obj, f.tier)) == SR.LastApplied(f.n.obj);
  }

  lemma EffectNotes(e: Env, objs: Objects, t: NSTemplateSet, refs: Refs, f: Effect, x: string)
    requires Shaped(e, t.name, refs) && SpecIn(t, refs) && NsRefs(objs, x, refs)
    requires Fits(e, t.name, f) && Due(e, objs, t.name, t.namespaces, f)
    ensures var r := On(e, objs, t.name, f); NsKey(x) in r ==> NoteFrom(r[NsKey(x)], refs.roles)
  {
    match f
    case Stamp(tier, applied) => StampNotes(e, objs, t, refs, tier, applied, x);
    case Fill(_, _, _, _, _) => FillNotes(e, objs, t.name, refs, f, x);
    case _ =>
  }

  lemma SwitchedNotes(o: Object, want: SR.Roles, refs: set<string>)
    requires From(SR.Items(want), refs)
    ensures NoteFrom(SR.Annotated(o, want), refs)
  {}

  lemma RolePhaseNotes(e: Env, s: State, refs: Refs, x: string)
    requires Synced(s) && Shaped(e, s.cur.name, refs) && SpecIn(s.cur, refs) && NsIn(s.objs, refs)
    ensures var r := RolePhase(e, s).0.objs; NsKey(x) in r ==> NoteFrom(r[NsKey(x)], refs.roles)
  {
    var nss, r := Owned(s.objs, s.cur.name), RolePhase(e, s).0.objs;
    var d, p, q := RolePhaseDone(e, s, nss);
    assert NsRefs(s.objs, x, refs);
    if r != s.objs {
      ShapedNoRoleNamespaces(e, s.objs, s.cur, refs);
      EachDoneNamespaces(e, s.objs, s.cur, nss, d, p, r, q, x);
      if d < |nss| { SwitchedNotes(nss[d].obj, s.cur.roles, refs.roles); }
    }
  }

  // A reconcile that provides: `got` says whether the cluster phase was entered; past it, no cluster-scoped
  // object and no recorded cluster reference or feature changes any more.
  lemma AfterClusterPhase(e: Env, s: State, refs: Refs) returns (s1: State, got: bool)
    requires !s.saved.deleting && RefsIn(s, refs) && Shaped(e, s.saved.name, refs)
    requires ClusterShaped(e, s.saved.name, s.saved.cluster) && ClusterShaped(e, s.saved.name, s.saved.status.cluster)
    ensures Synced(s1) && s1.objs == s.objs && SameSpec(s.saved, s1.cur) && SameStatus(s.saved, s1.cur)
    ensures var s' := Reconcile(e, s).0;
      if !got then s'.objs == s.objs && SameSpec(s.saved, s'.saved) && SameStatus(s.saved, s'.saved)
      else var (s2, ok2) := ClusterPhase(e, s1);
        && (forall k :: ClusterScoped(k) ==> At(s'.objs, k) == At(s2.objs, k))
        && SameSpec(s.saved, s'.saved)
        && s'.saved.status.cluster == s2.saved.status.cluster && s'.saved.status.features == s2.saved.status.features
        && (!ok2 ==> s'.objs == s2.objs)
  {
    var (s0, ok) := Read(e, Fetched(s));
    s1, got := s0, false;
    if ok {
      AddFinalizerEffect(e, s0);
      var (sf, okf) := AddFinalizer(e, s0);
      if okf {
        SyncedStatus(sf);
        s1, got := sf, true;
        ClusterPhaseEffect(e, s1);
        var (s2, ok2) := ClusterPhase(e, s1);
        if ok2 {
          ClusterPhaseNsIn(e, s1, refs);
          LaterPhases(e, s2, refs);
        }
      }
    }
  }

  lemma NsInSame(objs: Objects, objs': Objects, refs: Refs)
    requires NsIn(objs, refs) && forall x :: At(objs', NsKey(x)) == At(objs, NsKey(x))
    ensures NsIn(objs', refs)
  {
    forall x ensures NsRefs(objs', x, refs) {
      assert NsRefs(objs, x, refs) && At(objs', NsKey(x)) == At(objs, NsKey(x));
    }
  }

  lemma ClusterPhaseNsIn(e: Env, s: State, refs: Refs)
    requires Synced(s) && NsIn(s.objs, refs)
    requires ClusterShaped(e, s.cur.name, s.cur.cluster) && ClusterShaped(e, s.cur.name, s.cur.status.cluster)
    ensures NsIn(ClusterPhase(e, s).0.objs, refs)
  {
    forall x ensures At(ClusterPhase(e, s).0.objs, NsKey(x)) == At(s.objs, NsKey(x)) {
      ClusterPhaseScope(e, s, NsKey(x));
    }
    NsInSame(s.objs, ClusterPhase(e, s).0.objs, refs);
  }

  lemma LaterPhases(e: Env, s: State, refs: Refs)
    requires Synced(s) && Shaped(e, s.cur.name, refs) && SpecIn(s.cur, refs) && NsIn(s.objs, refs)
    ensures var s' := ThenNamespaces(e, s).0;
      && (forall k :: ClusterScoped(k) ==> At(s'.objs, k) == At(s.objs, k))
      && SameSpec(s.saved, s'.saved) && s'.saved.status.cluster == s.saved.status.cluster
      && s'.saved.status.features == s.saved.status.features
  {
    NamespacePhaseEffect(e, s);
    NamespacePhaseObjs(e, s);
    NamespacePhaseStatus(e, s);
    var (s3, p3) := NamespacePhase(e, s);
    var f := EnsureEffect(e, s);
    PartFromSpec(e, s.objs, s.cur.name, s.cur.namespaces, f);
    forall k | ClusterScoped(k) ensures At(s3.objs, k) == At(s.objs, k) {
      ContentScope(e, s.objs, s.cur, refs, f, k);
    }
    if p3.Unchanged? {
      RolePhaseEffect(e, s3);
      var (s4, p4) := RolePhase(e, s3);
      forall k | ClusterScoped(k) ensures At(s4.objs, k) == At(s3.objs, k) {
        RolePhaseScope(e, s3, refs, k);
      }
      SetReadyStatus(e, s4);
    }
  }

  // The annotations after the later phases.
  lemma LaterNotes(e: Env, s: State, refs: Refs, x: string)
    requires Synced(s) && Shaped(e, s.cur.name, refs) && SpecIn(s.cur, refs) && NsIn(s.objs, refs)
    ensures var r := ThenNamespaces(e, s).0.objs; NsKey(x) in r ==> NoteFrom(r[NsKey(x)], refs.roles)
  {
    NamespacePhaseEffect(e, s);
    NamespacePhaseObjs(e, s);
    var (s3, p3) := NamespacePhase(e, s);
    var f := EnsureEffect(e, s);
    PartFromSpec(e, s.objs, s.cur.name, s.cur.namespaces, f);
    assert NsRefs(s.objs, x, refs);
    EffectNotes(e, s.objs, s.cur, refs, f, x);
    if p3.Unchanged? {
      RolePhaseNotes(e, s3, refs, x);
      SetReadyStatus(e, RolePhase(e, s3).0);
    }
  }

  // A reconcile that provides keeps to the references.
  lemma ProvideNotes(e: Env, s: State, refs: Refs, x: string)
    requires !s.saved.deleting && RefsIn(s, refs) && Shaped(e, s.saved.name, refs)
    requires ClusterShaped(e, s.saved.name, s.saved.cluster) && ClusterShaped(e, s.saved.name, s.saved.status.cluster)
    ensures var r := Reconcile(e, s).0.objs; NsKey(x) in r ==> NoteFrom(r[NsKey(x)], refs.roles)
  {
    var (s0, ok) := Read(e, Fetched(s));
    assert NsRefs(s.objs, x, refs);
    if ok {
      AddFinalizerEffect(e, s0);
      var (s1, ok1) := AddFinalizer(e, s0);
      if ok1 {
        SyncedStatus(s1);
        ClusterPhaseNsIn(e, s1, refs);
        ClusterPhaseEffect(e, s1);
        var (s2, ok2) := ClusterPhase(e, s1);
        assert NsRefs(s2.objs, x, refs);
        if ok2 { LaterNotes(e, s2, refs, x); }
      }
    }
  }

  lemma ProvideRefs(e: Env, s: State, refs: Refs)
    requires !s.saved.deleting && RefsIn(s, refs) && Shaped(e, s.saved.name, refs)
    requires ClusterShaped(e, s.saved.name, s.saved.cluster) && ClusterShaped(e, s.saved.name, s.saved.status.cluster)
    ensures RefsIn(Reconcile(e, s).0, refs)
  {
    var s' := Reconcile(e, s).0;
    var s1, got := AfterClusterPhase(e, s, refs);
    ShapedNoRoleNamespaces(e, s.objs, s.saved, refs);
    forall x ensures NsRefs(s'.objs, x, refs) {
      ProvideNotes(e, s, refs, x);
      LabelIsCommitMarker(e, s, x);
      assert NsRefs(s.objs, x, refs);
    }
  }

  lemma SetReadyStatus(e: Env, s: State)
    ensures var s' := SetReady(e, s, Provisioned).0; s'.objs == s.objs && SameSpec(s.saved, s'.saved)
    ensures SameStatus(s.saved, s.cur) ==> SameStatus(s.saved, SetReady(e, s, Provisioned).0.saved)
  {}

  lemma RecordNamespacesStatus(e: Env, s: State)
    requires Synced(s)
    ensures var s' := RecordNamespaces(e, s).0;
      s'.saved.status.cluster == s.saved.status.cluster && s'.saved.status.features == s.saved.status.features
  {
    SyncedStatus(s);
    NsRevisionEffect(e, s);
    var (s2, ok2) := NS.UpdateRevision(e, s);
    if ok2 { SyncedStatus(s2); ProvisionedListEffect(e, s2); }
  }

  lemma NamespacePhaseStatus(e: Env, s: State)
    requires Synced(s)
    ensures var s' := NamespacePhase(e, s).0;
      s'.saved.status.cluster == s.saved.status.cluster && s'.saved.status.features == s.saved.status.features
  {
    var f := EnsureEffect(e, s);
    var (s1, p) := NS.Ensure(e, s);
    SteadyMild(s, s1);
    SyncedStatus(s1);
    if p.Unchanged? { RecordNamespacesStatus(e, s1); }
  }

  lemma ClusterStatus(e: Env, s: State)
    requires Synced(s)
    ensures var t := ClusterPhase(e, s).0.saved;
      SameSpec(s.saved, t) && t.status.cluster in {s.saved.status.cluster, s.saved.cluster}
  {
    SyncedStatus(s);
    ClusterPhaseEffect(e, s);
    if ClusterChanged(s.cur) { var c := EnsureCut(e, s); }
    SteadyMild(s, CR.Ensure(e, s).0);
  }

  lemma LaterStatus(e: Env, s: State)
    requires Synced(s)
    ensures var t := ThenNamespaces(e, s).0.saved; SameSpec(s.saved, t) && t.status.cluster == s.saved.status.cluster
  {
    NamespacePhaseEffect(e, s);
    NamespacePhaseStatus(e, s);
    var (s1, p) := NamespacePhase(e, s);
    if p.Unchanged? {
      RolePhaseEffect(e, s1);
      SetReadyStatus(e, RolePhase(e, s1).0);
    }
  }

  // The cluster reference a reconcile that provides records is the one recorded before or that of the spec.
  lemma ProvideStatus(e: Env, s: State)
    requires s.saved == s.cur
    ensures var t := Provide(e, s).0.saved;
      SameSpec(s.saved, t) && t.status.cluster in {s.saved.status.cluster, s.saved.cluster}
  {
    AddFinalizerEffect(e, s);
    var (s1, ok1) := AddFinalizer(e, s);
    if ok1 {
      SyncedStatus(s1);
      ClusterStatus(e, s1);
      ClusterPhaseEffect(e, s1);
      var (s2, ok2) := ClusterPhase(e, s1);
      if ok2 { LaterStatus(e, s2); }
    }
  }

  // ---- Containment ----

  predicate Mine(objs: Objects, k: Key, space: string) {
    ClusterScoped(k) && Live(objs, k) && Labelled(objs, k, Space, space)
  }

  function TemplateKeys(e: Env, space: string, c: Option<string>): set<Key> {
    var ms := RefManifests(e, space, c); if ms.Some? then Keys(ms.value) else {}
  }

  // The live cluster-scoped objects of the space are all in the template recorded in the status or in that of the spec.
  ghost predicate Contained(e: Env, objs: Objects, t: NSTemplateSet) {
    forall k :: Mine(objs, k, t.name) ==>
      k in TemplateKeys(e, t.name, t.status.cluster) || k in TemplateKeys(e, t.name, t.cluster)
  }

  ghost predicate OnlyNew(e: Env, objs: Objects, t: NSTemplateSet) {
    forall k :: Mine(objs, k, t.name) ==> k in TemplateKeys(e, t.name, t.cluster)
  }

  lemma CutMine(e: Env, objs: Objects, t: NSTemplateSet, c: Cut, k: Key)
    requires c.applied <= |NewOf(e, t)| && c.deleted <= |RestOf(e, t)|
    requires Mine(CutPass(e, objs, NewOf(e, t), RestOf(e, t), RefLabels(e, t.name, t.cluster), c), k, t.name)
    ensures Mine(objs, k, t.name) || k in TemplateKeys(e, t.name, t.cluster)
  {
    var news, rest, labels := NewOf(e, t), RestOf(e, t), RefLabels(e, t.name, t.cluster);
    if k !in TemplateKeys(e, t.name, t.cluster) {
      StampAllElsewhere(e, objs, news[..c.applied], labels, k);
      SweepAt(StampAll(e, objs, news[..c.applied], labels), rest[..c.deleted], k);
    }
  }

  // After a whole pass nothing outside the new template is left.
  lemma WholePassOnlyNew(e: Env, objs: Objects, t: NSTemplateSet)
    requires Contained(e, objs, t) && ClusterShaped(e, t.name, t.cluster) && ClusterShaped(e, t.name, t.status.cluster)
    requires RefManifests(e, t.name, t.cluster).Some? && RefManifests(e, t.name, t.status.cluster).Some?
    ensures var news, rest := NewOf(e, t), RestOf(e, t);
      OnlyNew(e, CutPass(e, objs, news, rest, RefLabels(e, t.name, t.cluster), Cut(|news|, |rest|)), t)
  {
    var news, rest, labels := NewOf(e, t), RestOf(e, t), RefLabels(e, t.name, t.cluster);
    var olds := RefManifests(e, t.name, t.status.cluster).value;
    var c := Cut(|news|, |rest|);
    assert news[..|news|] == news && rest[..|rest|] == rest;
    forall k | Mine(CutPass(e, objs, news, rest, labels, c), k, t.name)
      ensures k in TemplateKeys(e, t.name, t.cluster)
    {
      CutMine(e, objs, t, c, k);
      if k !in TemplateKeys(e, t.name, t.cluster) {
        var o :| o in olds && o.key == k;
        assert !Matches(o, news);
        DropAllKeeps(olds, news, o);
        SweepAt(StampAll(e, objs, news, labels), rest, k);
      }
    }
  }

  lemma ClusterPhaseContained(e: Env, s: State)
    requires Synced(s) && Contained(e, s.objs, s.cur)
    requires ClusterShaped(e, s.cur.name, s.cur.cluster) && ClusterShaped(e, s.cur.name, s.cur.status.cluster)
    ensures var (s', ok) := ClusterPhase(e, s);
      && Contained(e, s'.objs, s.cur)
      && (s'.saved.status.cluster == s.cur.status.cluster
          || (s'.saved.status.cluster == s.cur.cluster
              && (OnlyNew(e, s'.objs, s.cur) || RefOf(s.cur.cluster) == RefOf(s.cur.status.cluster))))
  {
    SyncedStatus(s);
    var (s1, ok) := CR.Ensure(e, s);
    if ClusterChanged(s.cur) {
      var c := EnsureCut(e, s);
      SteadyMild(s, s1);
      forall k | Mine(s1.objs, k, s.cur.name)
        ensures k in TemplateKeys(e, s.cur.name, s.cur.status.cluster)
          || k in TemplateKeys(e, s.cur.name, s.cur.cluster)
      {
        CutMine(e, s.objs, s.cur, c, k);
      }
      if ok { WholePassOnlyNew(e, s.objs, s.cur); }
    }
  }

  lemma ProvideContained(e: Env, s: State, refs: Refs)
    requires !s.saved.deleting && RefsIn(s, refs) && Shaped(e, s.saved.name, refs) && Contained(e, s.objs, s.saved)
    requires ClusterShaped(e, s.saved.name, s.saved.cluster) && ClusterShaped(e, s.saved.name, s.saved.status.cluster)
    ensures var s' := Reconcile(e, s).0;
      && Contained(e, s'.objs, s'.saved) && SameSpec(s.saved, s'.saved)
      && s'.saved.status.cluster in {s.saved.status.cluster, s.saved.cluster}
  {
    var s1, got := AfterClusterPhase(e, s, refs);
    var s' := Reconcile(e, s).0;
    if got {
      assert Contained(e, s1.objs, s1.cur);
      ClusterPhaseContained(e, s1);
      var (s2, ok2) := ClusterPhase(e, s1);
      forall k | Mine(s'.objs, k, s.saved.name) ensures Mine(s2.objs, k, s.saved.name) {
        assert At(s'.objs, k) == At(s2.objs, k);
      }
    }
  }

  // ---- Deletion keeps containment too ----

  lemma MarkFirstOnlyNamespaces(objs: Objects, space: string, k: Key)
    ensures ClusterScoped(k) ==> At(MarkFirst(objs, space), k) == At(objs, k)
  {
    MarkFirstAt(objs, space, k);
  }

  lemma MarkFirstRefs(objs: Objects, space: string, x: string, refs: Refs)
    requires NsRefs(objs, x, refs)
    ensures NsRefs(MarkFirst(objs, space), x, refs)
  {
    MarkFirstAt(objs, space, NsKey(x));
  }

  lemma DeletedRefs(objs: Objects, mid: Objects, keys: set<Key>, x: string, refs: Refs)
    requires OnlyDeleted(objs, mid, keys) && NsRefs(objs, x, refs)
    ensures NsRefs(mid, x, refs)
  {
    var k := NsKey(x);
    assert At(mid, k) == At(objs, k) || At(mid, k) == Remains(k, At(objs, k));
  }

  lemma DeletedContained(e: Env, objs: Objects, mid: Objects, t: NSTemplateSet, t': NSTemplateSet)
    requires Contained(e, objs, t) && OnlyDeleted(objs, mid, Keys(Recorded(e, t))) && SameSpec(t, t')
    requires t'.status.cluster == t.status.cluster || (t'.status.cluster == None && AllGone(mid, Recorded(e, t)))
    ensures Contained(e, mid, t')
  {
    forall k | Mine(mid, k, t.name)
      ensures k in TemplateKeys(e, t.name, t'.status.cluster) || k in TemplateKeys(e, t.name, t.cluster)
    {
      assert At(mid, k) == At(objs, k) || At(mid, k) == Remains(k, At(objs, k));
      assert Mine(objs, k, t.name);
      if k in TemplateKeys(e, t.name, t.status.cluster) {
        var m :| m in Recorded(e, t) && m.key == k;
      }
    }
  }

  lemma TearContained(e: Env, s: State)
    requires s.saved.deleting && Contained(e, s.objs, s.saved)
    ensures var s' := Reconcile(e, s).0;
      && Contained(e, s'.objs, s'.saved) && SameSpec(s.saved, s'.saved)
      && s'.saved.status.cluster in {s.saved.status.cluster, None}
  {
    var (s0, ok) := Read(e, Fetched(s));
    if ok && s0.cur.finalizer {
      var mid := TearEffect(e, s0);
      var s' := Tear(e, s0).0;
      DeletedContained(e, s.objs, mid, s.saved, s'.saved);
      forall k | Mine(s'.objs, k, s.saved.name) ensures Mine(mid, k, s.saved.name) {
        MarkFirstOnlyNamespaces(mid, s.saved.name, k);
      }
    }
  }

  lemma TearRefs(e: Env, s: State, refs: Refs)
    requires s.saved.deleting && RefsIn(s, refs)
    ensures RefsIn(Reconcile(e, s).0, refs)
  {
    var (s0, ok) := Read(e, Fetched(s));
    if ok && s0.cur.finalizer {
      var mid := TearEffect(e, s0);
      var s' := Tear(e, s0).0;
      forall x ensures NsRefs(s'.objs, x, refs) {
        assert NsRefs(s.objs, x, refs);
        DeletedRefs(s.objs, mid, Keys(Recorded(e, s.saved)), x, refs);
        MarkFirstRefs(mid, s.saved.name, x, refs);
      }
    }
  }

  // ---- The run theorem ----

  ghost predicate Inv(e: Env, s: State, refs: Refs) {
    && Contained(e, s.objs, s.saved) && RefsIn(s, refs) && Shaped(e, s.saved.name, refs)
    && ClusterShaped(e, s.saved.name, s.saved.cluster) && ClusterShaped(e, s.saved.name, s.saved.status.cluster)
  }

  // The cluster template is edited only once the status has caught up with it; features at any time.
  ghost predicate Allowed(e: Env, s: State, ev: Event, refs: Refs) {
    match ev
    case EditCluster(ref) =>
      RefOf(s.saved.status.cluster) == RefOf(s.saved.cluster) && ClusterShaped(e, s.saved.name, ref)
    case EditNamespaces(names) => forall ref :: ref in names ==> ref in refs.namespaces
    case EditRoles(roles) => From(SR.Items(roles), refs.roles)
    case Outside(objs) =>
      && (forall k :: Mine(objs, k, s.saved.name) ==> Mine(s.objs, k, s.saved.name))
      && NsIn(objs, refs)
    case _ => true
  }

  ghost predicate Disciplined(e: Env, s: State, evs: seq<Event>, refs: Refs)
    decreases |evs|
  {
    evs == [] || (Allowed(e, s, evs[0], refs) && Disciplined(e, Next(e, s, evs[0]), evs[1..], refs))
  }

  lemma {:induction false} RoleManifestsSame(e: Env, e': Env, n: string, roles: seq<SpaceRole>)
    requires e.tiers == e'.tiers
    ensures RoleManifests(e, n, roles) == RoleManifests(e', n, roles)
  {
    if roles != [] { RoleManifestsSame(e, e', n, roles[1..]); }
  }

  lemma ShapedSame(e: Env, e': Env, space: string, refs: Refs)
    requires Shaped(e, space, refs) && e.tiers == e'.tiers
    ensures Shaped(e', space, refs)
  {
    forall n, roles, m ensures Yields(e, n, roles, m) == Yields(e', n, roles, m) { RoleManifestsSame(e, e', n, roles); }
    assert forall ref :: TierAt(e, ref) == TierAt(e', ref);
  }

  lemma InvSame(e: Env, e': Env, s: State, refs: Refs)
    requires Inv(e, s, refs) && e.tiers == e'.tiers
    ensures Inv(e', s, refs)
  {
    var t := s.saved;
    ShapedSame(e, e', t.name, refs);
    assert RefManifests(e, t.name, t.cluster) == RefManifests(e', t.name, t.cluster);
    assert RefManifests(e, t.name, t.status.cluster) == RefManifests(e', t.name, t.status.cluster);
  }

  lemma PassInv(e: Env, s: State, refs: Refs)
    requires Inv(e, s, refs)
    ensures Inv(e, Reconcile(e, s).0, refs)
  {
    if s.saved.deleting {
      TearContained(e, s);
      TearRefs(e, s, refs);
      assert RefManifests(e, s.saved.name, None) == Some([]);
    } else {
      ProvideContained(e, s, refs);
      ProvideRefs(e, s, refs);
    }
  }

  lemma EventInv(e: Env, s: State, ev: Event, refs: Refs)
    requires Inv(e, s, refs) && Allowed(e, s, ev, refs)
    ensures Inv(e, Next(e, s, ev), refs)
  {
    match ev
    case Pass(fate) =>
      var e' := e.(fate := fate);
      InvSame(e, e', s, refs);
      PassInv(e', s, refs);
      InvSame(e', e, Reconcile(e', s).0, refs);
    case EditCluster(ref) =>
      assert RefManifests(e, s.saved.name, s.saved.status.cluster) == RefManifests(e, s.saved.name, s.saved.cluster);
    case _ =>
  }

  // Where it may start: a new space without objects of its own.
  lemma NewSpaceIsContained(e: Env, s: State, refs: Refs)
    requires RefsIn(s, refs) && Shaped(e, s.saved.name, refs) && ClusterShaped(e, s.saved.name, s.saved.cluster)
    requires s.saved.status.cluster == None && forall k :: !Mine(s.objs, k, s.saved.name)
    ensures Inv(e, s, refs)
  {
    assert RefManifests(e, s.saved.name, None) == Some([]);
  }

  // In every run of reconciles failing anywhere, feature and other edits at any time, deletion included.
  lemma {:induction false} ContainedInRuns(e: Env, s: State, evs: seq<Event>, refs: Refs)
    requires Inv(e, s, refs) && Disciplined(e, s, evs, refs)
    ensures Inv(e, Run(e, s, evs), refs)
    decreases |evs|
  {
    if evs != [] {
      EventInv(e, s, evs[0], refs);
      ContainedInRuns(e, Next(e, s, evs[0]), evs[1..], refs);
    }
  }
}
