// Any interleaving of the reconciles of two spaces leaves each as if it had run alone.
module IsolationRuns {
  import opened Names
  import opened Cluster
  import opened Applying
  import opened Statuses
  import opened Passes
  import opened Isolation
  import opened Reconciler
  import CP = ClusterPasses
  import NP = NamespacePasses
  import RP = RolePasses
  import DP = DeletionPasses
  import PS = ProvisionedSoundness
  import CM = CommitMarker
  import CRuns = ClusterRuns
  import CR = ClusterResources
  import NS = Namespaces
  import SR = SpaceRoles

  // ---- space_roles.go ----

  lemma {:induction false} UserObjectsIn(e: Env, space: string, K: iset<Key>, ref: string, n: string,
                                         users: seq<string>, refs: Lookup)
    requires Territory(e, space, K, refs) && n != "" && NsKey(n) in K && ref in refs.roles && TierAt(e, ref).Some?
    ensures var ms := SR.UserObjects(TierAt(e, ref).value, n, users); ms.Some? ==> KeysIn(ms.value, K)
  {
    if users != [] {
      UserObjectsIn(e, space, K, ref, n, users[1..], refs);
      var ms := TierAt(e, ref).value.process(Params("", users[0], n));
      if ms.Some? {
        forall m | m in ms.value ensures m.key in K { assert Generates(e, ref, Params("", users[0], n), m); }
      }
    }
  }

  lemma {:induction false} RoleObjectsFrame(e: Env, s: State, fr: Objects, K: iset<Key>, space: string, n: string,
                                            roles: seq<SpaceRole>, refs: Lookup)
    requires Territory(e, space, K, refs) && n != "" && NsKey(n) in K && RP.From(roles, refs.roles)
    ensures SR.RoleObjects(e, With(s, fr), n, roles) == WithR(SR.RoleObjects(e, s, n, roles), fr)
    ensures var r := SR.RoleObjects(e, s, n, roles);
      r.0 == s.(calls := r.0.calls) && (r.1.Some? ==> KeysIn(r.1.value, K))
    decreases |roles|
  {
    if roles != [] {
      assert roles[0] in roles;
      var (s1, t) := GetTier(e, s, roles[0].templateRef);
      if t.Some? { UserObjectsIn(e, space, K, roles[0].templateRef, n, roles[0].usernames, refs); }
      RoleObjectsFrame(e, s1, fr, K, space, n, roles[1..], refs);
    }
  }

  lemma {:induction false} ApplyAllCur(e: Env, s: State, ms: seq<Manifest>, labels: Labels)
    ensures ApplyAll(e, s, ms, labels).0.cur == s.cur
    decreases |ms|
  {
    if ms != [] { ApplyAllCur(e, ApplyOne(e, s, ms[0], labels).0, ms[1..], labels); }
  }

  lemma SwitchFrame(e: Env, s: State, fr: Objects, K: iset<Key>, n: Ns, last: SR.Roles, olds: seq<Manifest>,
                    news: seq<Manifest>)
    requires KeysIn(olds, K) && KeysIn(news, K) && NsKey(n.name) in K && Inside(s.objs, K)
    requires forall x :: x in fr ==> x !in K
    ensures Framed(SR.Switch(e, s, n, last, olds, news), SR.Switch(e, With(s, fr), n, last, olds, news), fr, K)
  {
    ApplyAllFrame(e, s, fr, K, news, NS.InnerLabels(s.cur.name));
    ApplyAllCur(e, s, news, NS.InnerLabels(s.cur.name));
    var (s1, applied) := ApplyAll(e, s, news, NS.InnerLabels(s.cur.name));
    StatusFrame(e, s1, fr, UnableToProvisionNamespace);
    SweepFrame(e, s1, fr, K, olds, news);
    var (s2, swept) := DeleteObsolete(e, s1, olds, news);
    UpdateFrame(e, s2, fr, K, NsKey(n.name), n.obj, SR.Annotated(n.obj, s.cur.roles));
    StatusFrame(e, Update(e, s2, NsKey(n.name), n.obj, SR.Annotated(n.obj, s.cur.roles)).0, fr, UnableToProvision);
  }

  lemma RolesFailedFrame(e: Env, s: State, fr: Objects)
    ensures SetRolesFailed(e, With(s, fr)) == With(SetRolesFailed(e, s), fr) && SetRolesFailed(e, s).objs == s.objs
  {
    StatusFrame(e, s, fr, FailureReason(s, UnableToProvisionSpaceRoles));
  }

  lemma RolesExchangeFrame(e: Env, s: State, fr: Objects, K: iset<Key>, n: Ns, last: SR.Roles, refs: Lookup)
    requires Territory(e, s.cur.name, K, refs) && n.name != "" && NsKey(n.name) in K
    requires Inside(s.objs, K) && forall x :: x in fr ==> x !in K
    requires RolesIn(last, refs.roles) && RolesIn(s.cur.roles, refs.roles)
    ensures Framed(SR.Exchange(e, s, n, last), SR.Exchange(e, With(s, fr), n, last), fr, K)
  {
    RoleObjectsFrame(e, s, fr, K, s.cur.name, n.name, SR.Items(last), refs);
    var (s1, olds) := SR.RoleObjects(e, s, n.name, SR.Items(last));
    RolesFailedFrame(e, s1, fr);
    if olds.Some? {
      RoleObjectsFrame(e, s1, fr, K, s.cur.name, n.name, SR.Items(s.cur.roles), refs);
      var (s2, news) := SR.RoleObjects(e, s1, n.name, SR.Items(s.cur.roles));
      RolesFailedFrame(e, s2, fr);
      if news.Some? { SwitchFrame(e, s2, fr, K, n, last, olds.value, news.value); }
    }
  }

  lemma EnsureInFrame(e: Env, s: State, fr: Objects, K: iset<Key>, n: Ns, refs: Lookup)
    requires Territory(e, s.cur.name, K, refs) && NsKey(n.name) in K && Inside(s.objs, K)
    requires forall x :: x in fr ==> x !in K
    requires OwnOne(n, s.cur.name, refs) && RolesIn(s.cur.roles, refs.roles)
    ensures Framed(SR.EnsureIn(e, s, n), SR.EnsureIn(e, With(s, fr), n), fr, K)
  {
    var last := SR.LastApplied(n.obj);
    if last.Some? {
      StatusFrame(e, s, fr, Updating);
      var (s1, ok) := if s.cur.roles != last.value then SetUpdatingIfNotProvisioning(e, s) else (s, true);
      if ok { RolesExchangeFrame(e, s1, fr, K, n, last.value, refs); }
    }
  }

  lemma {:induction false} EnsureEachFrame(e: Env, s: State, fr: Objects, K: iset<Key>, nss: seq<Ns>, refs: Lookup)
    requires CP.Synced(s) && Territory(e, s.cur.name, K, refs) && Inside(s.objs, K) && forall x :: x in fr ==> x !in K
    requires OwnNs(nss, s.cur.name, K, refs) && RolesIn(s.cur.roles, refs.roles)
    ensures Framed(SR.EnsureEach(e, s, nss), SR.EnsureEach(e, With(s, fr), nss), fr, K)
    decreases |nss|
  {
    if nss != [] {
      EnsureInFrame(e, s, fr, K, nss[0], refs);
      var p := RP.EnsureInEffect(e, s, nss[0]);
      var s1 := SR.EnsureIn(e, s, nss[0]).0;
      assert CP.Core(s1.cur).name == CP.Core(s.cur).name && CP.Core(s1.cur).roles == CP.Core(s.cur).roles;
      EnsureEachFrame(e, s1, fr, K, nss[1..], refs);
    }
  }

  lemma RoleEnsureFrame(e: Env, s: State, fr: Objects, K: iset<Key>, refs: Lookup)
    requires CP.Synced(s) && Territory(e, s.cur.name, K, refs) && Inside(s.objs, K) && Frame(fr, s.cur.name, K)
    requires SpecLooks(s.cur, refs) && Looks(s.objs, refs)
    ensures Framed(SR.Ensure(e, s), SR.Ensure(e, With(s, fr)), fr, K)
  {
    var nss := ListFrame(s, fr, K, refs);
    EnsureIs(e, s, nss);
    EnsureIs(e, With(s, fr), nss);
    StatusFrame(e, Tick(s), fr, UnableToProvision);
    EnsureEachFrame(e, Tick(s), fr, K, nss, refs);
  }

  lemma RoleRevisionFrame(e: Env, s: State, fr: Objects)
    ensures SR.UpdateRevision(e, With(s, fr)) == WithR(SR.UpdateRevision(e, s), fr)
    ensures SR.UpdateRevision(e, s).0.objs == s.objs
  {
    RecordRolesFrame(e, s, fr, SR.SortedRoles(s.cur.roles), SR.SortedRoles(s.cur.status.roles),
                     SR.Alike(e, s.cur.roles, s.cur.status.roles));
  }

  lemma RecordRolesFrame(e: Env, s: State, fr: Objects, spec: SR.Roles, status: SR.Roles, same: bool)
    ensures SR.RecordRoles(e, With(s, fr), spec, status, same) == WithR(SR.RecordRoles(e, s, spec, status, same), fr)
    ensures SR.RecordRoles(e, s, spec, status, same).0.objs == s.objs
  {}

  // ---- The references stay among those looked up ----

  ghost predicate AllTidy(ms: seq<Manifest>, refs: Lookup) { forall m :: m in ms ==> Tidy(m, refs) }

  lemma {:induction false} StampAllLooks(e: Env, objs: Objects, ms: seq<Manifest>, labels: Labels, refs: Lookup)
    requires Looks(objs, refs) && AllTidy(ms, refs) && LabelIn(labels, refs.templates)
    ensures Looks(StampAll(e, objs, ms, labels), refs)
    decreases |ms|
  {
    if ms != [] {
      var next := if Available(e, ms[0]) then StampIn(e, objs, ms[0], labels) else objs;
      forall x | NsKey(x) in next ensures NsLooks(next[NsKey(x)], refs) {
        if Available(e, ms[0]) && ms[0].key == NsKey(x) { StampedLooks(e, ms[0], labels, At(objs, NsKey(x)), refs); }
      }
      StampAllLooks(e, next, ms[1..], labels, refs);
    }
  }

  lemma StampedLooks(e: Env, m: Manifest, labels: Labels, o: Option<Object>, refs: Lookup)
    requires m.key.gvk.kind.Namespace? && Tidy(m, refs) && LabelIn(labels, refs.templates)
    requires (o.Some? ==> NsLooks(o.value, refs))
    ensures NsLooks(Stamped(e, m, labels, o), refs)
  {}

  lemma SweepLooks(objs: Objects, ms: seq<Manifest>, refs: Lookup)
    requires Looks(objs, refs)
    ensures Looks(Sweep(objs, ms), refs)
  {
    forall x | NsKey(x) in Sweep(objs, ms) ensures NsLooks(Sweep(objs, ms)[NsKey(x)], refs) {
      SweepAt(objs, ms, NsKey(x));
    }
  }

  lemma GeneratedTidy(e: Env, space: string, K: iset<Key>, ref: string, refs: Lookup)
    requires Territory(e, space, K, refs) && ref in refs.templates && TierAt(e, ref).Some?
    ensures var ms := TierAt(e, ref).value.process(Params(space, "", "")); ms.Some? ==> AllTidy(ms.value, refs)
  {
    var ms := TierAt(e, ref).value.process(Params(space, "", ""));
    if ms.Some? {
      forall m | m in ms.value ensures Tidy(m, refs) { assert Generates(e, ref, Params(space, "", ""), m); }
    }
  }

  lemma ClusterPhaseLooks(e: Env, s: State, K: iset<Key>, refs: Lookup)
    requires CP.Synced(s) && Territory(e, s.cur.name, K, refs) && SpecLooks(s.cur, refs) && Looks(s.objs, refs)
    ensures Looks(ClusterPhase(e, s).0.objs, refs)
  {
    if ClusterChanged(s.cur) {
      var c := CP.EnsureCut(e, s);
      var news, rest, labels := CP.NewOf(e, s.cur), CP.RestOf(e, s.cur), CP.RefLabels(e, s.cur.name, s.cur.cluster);
      if news != [] { GeneratedTidy(e, s.cur.name, K, s.cur.cluster.value, refs); }
      assert AllTidy(news[..c.applied], refs);
      StampAllLooks(e, s.objs, news[..c.applied], labels, refs);
      SweepLooks(StampAll(e, s.objs, news[..c.applied], labels), rest[..c.deleted], refs);
    }
    RevisionFrame(e, CR.Ensure(e, s).0, map[]);
  }

  lemma FromSpecKnown(e: Env, space: string, names: seq<string>, t: Tier, K: iset<Key>, refs: Lookup)
    requires Territory(e, space, K, refs) && CM.FromSpec(e, names, t)
    requires forall ref :: ref in names ==> ref in refs.templates
    ensures AllTidy(NP.Frame(t, space), refs) && AllTidy(NP.Content(t, space), refs) && t.templateRef in refs.templates
  {
    var i :| 0 <= i < |names| && TierAt(e, names[i]) == Some(t);
    GeneratedTidy(e, space, K, names[i], refs);
  }

  lemma EffectLooks(e: Env, objs: Objects, t: NSTemplateSet, f: NP.Effect, K: iset<Key>, refs: Lookup)
    requires Territory(e, t.name, K, refs) && SpecLooks(t, refs) && Looks(objs, refs)
    requires NP.Fits(e, t.name, f) && CM.Due(e, objs, t.name, t.namespaces, f)
    ensures Looks(NP.On(e, objs, t.name, f), refs)
  {
    match f
    case Quiet =>
    case Gone(_) =>
    case Stamp(tier, applied) =>
      FromSpecKnown(e, t.name, t.namespaces, tier, K, refs);
      assert AllTidy(NP.Frame(tier, t.name)[..applied], refs);
      StampAllLooks(e, objs, NP.Frame(tier, t.name)[..applied], NS.NsLabels(t.name, tier), refs);
    case Fill(tier, n, deleted, applied, marked) =>
      FromSpecKnown(e, t.name, t.namespaces, tier, K, refs);
      var olds, news := NP.Outdated(e, t.name, n, tier)[..deleted], NP.Content(tier, t.name)[..applied];
      SweepLooks(objs, olds, refs);
      assert AllTidy(news, refs);
      StampAllLooks(e, Sweep(objs, olds), news, NS.InnerLabels(t.name), refs);
  }

  lemma NamespacePhaseLooks(e: Env, s: State, K: iset<Key>, refs: Lookup)
    requires CP.Synced(s) && Territory(e, s.cur.name, K, refs) && SpecLooks(s.cur, refs) && Looks(s.objs, refs)
    ensures Looks(NamespacePhase(e, s).0.objs, refs)
  {
    CM.NamespacePhaseObjs(e, s);
    var f := NP.EnsureEffect(e, s);
    CM.PartFromSpec(e, s.objs, s.cur.name, s.cur.namespaces, f);
    EffectLooks(e, s.objs, s.cur, f, K, refs);
  }

  lemma {:induction false} UserObjectsTidy(e: Env, space: string, K: iset<Key>, ref: string, n: string,
                                           users: seq<string>, refs: Lookup)
    requires Territory(e, space, K, refs) && n != "" && NsKey(n) in K && ref in refs.roles && TierAt(e, ref).Some?
    ensures var ms := SR.UserObjects(TierAt(e, ref).value, n, users); ms.Some? ==> AllTidy(ms.value, refs)
  {
    if users != [] {
      UserObjectsTidy(e, space, K, ref, n, users[1..], refs);
      var ms := TierAt(e, ref).value.process(Params("", users[0], n));
      if ms.Some? {
        forall m | m in ms.value ensures Tidy(m, refs) { assert Generates(e, ref, Params("", users[0], n), m); }
      }
    }
  }

  lemma {:induction false} RoleManifestsTidy(e: Env, space: string, K: iset<Key>, n: string, roles: seq<SpaceRole>,
                                             refs: Lookup)
    requires Territory(e, space, K, refs) && n != "" && NsKey(n) in K && RP.From(roles, refs.roles)
    ensures var ms := RP.RoleManifests(e, n, roles); ms.Some? ==> AllTidy(ms.value, refs)
    decreases |roles|
  {
    if roles != [] && RP.RoleManifests(e, n, roles).Some? {
      assert roles[0] in roles;
      UserObjectsTidy(e, space, K, roles[0].templateRef, n, roles[0].usernames, refs);
      RoleManifestsTidy(e, space, K, n, roles[1..], refs);
    }
  }

  lemma NewsTidy(e: Env, space: string, K: iset<Key>, n: Ns, want: SR.Roles, refs: Lookup)
    requires Territory(e, space, K, refs) && n.name != "" && NsKey(n.name) in K && RolesIn(want, refs.roles)
    ensures AllTidy(RP.News(e, n, want), refs)
  {
    RoleManifestsTidy(e, space, K, n.name, SR.Items(want), refs);
  }

  lemma {:induction false} ReappliedLooks(e: Env, objs: Objects, space: string, nss: seq<Ns>, want: SR.Roles,
                                          K: iset<Key>, refs: Lookup)
    requires Territory(e, space, K, refs) && OwnNs(nss, space, K, refs) && RolesIn(want, refs.roles)
    requires Looks(objs, refs)
    ensures Looks(RP.Reapplied(e, objs, space, nss, want), refs)
    decreases |nss|
  {
    if nss != [] {
      NewsTidy(e, space, K, nss[0], want, refs);
      StampAllLooks(e, objs, RP.News(e, nss[0], want), NS.InnerLabels(space), refs);
      ReappliedLooks(e, StampAll(e, objs, RP.News(e, nss[0], want), NS.InnerLabels(space)), space, nss[1..], want, K,
                     refs);
    }
  }

  lemma SwitchLooks(e: Env, objs: Objects, space: string, n: Ns, want: SR.Roles, p: RP.Part, K: iset<Key>, refs: Lookup)
    requires Territory(e, space, K, refs) && NsKey(n.name) in K && OwnOne(n, space, refs) && RolesIn(want, refs.roles)
    requires Looks(objs, refs) && RP.FitsIn(e, n, want, p)
    ensures Looks(RP.OnOne(e, objs, space, n, want, p), refs)
  {
    var news, leaving := RP.News(e, n, want)[..p.applied], RP.Leaving(e, n, want)[..p.deleted];
    NewsTidy(e, space, K, n, want, refs);
    assert AllTidy(news, refs);
    StampAllLooks(e, objs, news, NS.InnerLabels(space), refs);
    SweepLooks(StampAll(e, objs, news, NS.InnerLabels(space)), leaving, refs);
    AnnotatedLooks(n.obj, want, refs);
  }

  lemma AnnotatedLooks(o: Object, want: SR.Roles, refs: Lookup)
    requires NsLooks(o, refs) && RolesIn(want, refs.roles)
    ensures NsLooks(SR.Annotated(o, want), refs)
  {}

  lemma OwnedLook(objs: Objects, space: string, K: iset<Key>, refs: Lookup)
    requires Inside(objs, K) && Looks(objs, refs)
    ensures OwnNs(Owned(objs, space), space, K, refs)
  {
    OwnedMembers(objs, space);
  }

  lemma RolePhaseLooks(e: Env, s: State, K: iset<Key>, refs: Lookup)
    requires CP.Synced(s) && Territory(e, s.cur.name, K, refs) && SpecLooks(s.cur, refs) && Looks(s.objs, refs)
    requires Inside(s.objs, K)
    ensures Looks(RolePhase(e, s).0.objs, refs)
  {
    var nss := Owned(s.objs, s.cur.name);
    OwnedLook(s.objs, s.cur.name, K, refs);
    var d, p, q := CM.RolePhaseDone(e, s, nss);
    if RolePhase(e, s).0.objs != s.objs {
      ReappliedLooks(e, s.objs, s.cur.name, nss[..d], s.cur.roles, K, refs);
      if d < |nss| {
        assert nss[d] in nss;
        SwitchLooks(e, RP.Reapplied(e, s.objs, s.cur.name, nss[..d], s.cur.roles), s.cur.name, nss[d], s.cur.roles, p,
                    K, refs);
      }
    }
  }

  lemma SameSpecLooks(t: NSTemplateSet, t': NSTemplateSet, refs: Lookup)
    requires SpecLooks(t, refs) && CP.SameSpec(t, t') && t'.status.cluster in {t.status.cluster, t.cluster, None}
    ensures SpecLooks(t', refs)
  {}

  // ---- The phases and the reconcile ----

  lemma NsRevisionFrame(e: Env, s: State, fr: Objects)
    ensures NS.UpdateRevision(e, With(s, fr)) == WithR(NS.UpdateRevision(e, s), fr)
    ensures NS.UpdateRevision(e, s).0.objs == s.objs
    ensures NS.UpdateRevision(e, s).0.cur.name == s.cur.name
  {}

  lemma RecordNamespacesFrame(e: Env, s: State, fr: Objects, K: iset<Key>, refs: Lookup)
    requires Inside(s.objs, K) && Frame(fr, s.cur.name, K) && Looks(s.objs, refs)
    ensures Framed(RecordNamespaces(e, s), RecordNamespaces(e, With(s, fr)), fr, K)
  {
    NsRevisionFrame(e, s, fr);
    UpdateProvisionedFrame(e, NS.UpdateRevision(e, s).0, fr, K, refs);
  }

  lemma NamespacePhaseFrame(e: Env, s: State, fr: Objects, K: iset<Key>, refs: Lookup)
    requires CP.Synced(s) && Territory(e, s.cur.name, K, refs) && Inside(s.objs, K) && Frame(fr, s.cur.name, K)
    requires SpecLooks(s.cur, refs) && Looks(s.objs, refs)
    ensures Framed(NamespacePhase(e, s), NamespacePhase(e, With(s, fr)), fr, K)
  {
    NamespaceEnsureFrame(e, s, fr, K, refs);
    var f := NP.EnsureEffect(e, s);
    var (s1, p) := NS.Ensure(e, s);
    if p.Unchanged? { RecordNamespacesFrame(e, s1, fr, K, refs); }
  }

  lemma RolePhaseFrame(e: Env, s: State, fr: Objects, K: iset<Key>, refs: Lookup)
    requires CP.Synced(s) && Territory(e, s.cur.name, K, refs) && Inside(s.objs, K) && Frame(fr, s.cur.name, K)
    requires SpecLooks(s.cur, refs) && Looks(s.objs, refs)
    ensures Framed(RolePhase(e, s), RolePhase(e, With(s, fr)), fr, K)
  {
    RoleEnsureFrame(e, s, fr, K, refs);
    RoleRevisionFrame(e, SR.Ensure(e, s).0, fr);
  }

  lemma ThenRolesFrame(e: Env, s: State, fr: Objects, K: iset<Key>, refs: Lookup)
    requires CP.Synced(s) && Territory(e, s.cur.name, K, refs) && Inside(s.objs, K) && Frame(fr, s.cur.name, K)
    requires SpecLooks(s.cur, refs) && Looks(s.objs, refs)
    ensures Framed(ThenRoles(e, s), ThenRoles(e, With(s, fr)), fr, K)
  {
    RolePhaseFrame(e, s, fr, K, refs);
    StatusFrame(e, RolePhase(e, s).0, fr, Provisioned);
  }

  lemma ThenNamespacesFrame(e: Env, s: State, fr: Objects, K: iset<Key>, refs: Lookup)
    requires CP.Synced(s) && Territory(e, s.cur.name, K, refs) && Inside(s.objs, K) && Frame(fr, s.cur.name, K)
    requires SpecLooks(s.cur, refs) && Looks(s.objs, refs)
    ensures Framed(ThenNamespaces(e, s), ThenNamespaces(e, With(s, fr)), fr, K)
  {
    NamespacePhaseFrame(e, s, fr, K, refs);
    PS.NamespacePhaseEffect(e, s);
    var (s1, p) := NamespacePhase(e, s);
    if p.Unchanged? {
      SameSpecLooks(s.cur, s1.cur, refs);
      ThenRolesFrame(e, s1, fr, K, refs);
    }
  }

  lemma AddFinalizerFrame(e: Env, s: State, fr: Objects)
    requires s.saved == s.cur
    ensures AddFinalizer(e, With(s, fr)) == WithR(AddFinalizer(e, s), fr) && AddFinalizer(e, s).0.objs == s.objs
    ensures AddFinalizer(e, s).1 ==> CP.Synced(AddFinalizer(e, s).0) && AddFinalizer(e, s).0.cur.name == s.cur.name
    ensures forall refs :: SpecLooks(s.cur, refs) ==> SpecLooks(AddFinalizer(e, s).0.cur, refs)
  {}

  lemma ProvideFrame(e: Env, s: State, fr: Objects, K: iset<Key>, refs: Lookup)
    requires s.saved == s.cur && Territory(e, s.cur.name, K, refs) && Inside(s.objs, K) && Frame(fr, s.cur.name, K)
    requires SpecLooks(s.cur, refs) && Looks(s.objs, refs)
    ensures Framed(Provide(e, s), Provide(e, With(s, fr)), fr, K)
  {
    AddFinalizerFrame(e, s, fr);
    var (s1, ok1) := AddFinalizer(e, s);
    if ok1 {
      ClusterPhaseFrame(e, s1, fr, K, refs);
      PS.ClusterPhaseEffect(e, s1);
      ClusterPhaseLooks(e, s1, K, refs);
      var (s2, ok2) := ClusterPhase(e, s1);
      if ok2 {
        SameSpecLooks(s1.cur, s2.cur, refs);
        ThenNamespacesFrame(e, s2, fr, K, refs);
      }
    }
  }

  lemma DeleteResourcesFrame(e: Env, s: State, fr: Objects, K: iset<Key>, refs: Lookup)
    requires Territory(e, s.cur.name, K, refs) && Inside(s.objs, K) && forall x :: x in fr ==> x !in K
    requires SpecLooks(s.cur, refs)
    ensures Framed(CR.DeleteResources(e, s), CR.DeleteResources(e, With(s, fr)), fr, K)
  {
    ProcessRefFrame(e, s, fr, K, s.cur.status.cluster, refs);
    var (s1, old_) := CR.ProcessRef(e, s, s.cur.status.cluster);
    StatusFrame(e, s1, fr, FailureReason(s1, UnableToProvisionClusterResources));
    if old_.Some? { DeleteAllFrame(e, s1, fr, K, old_.value.1); }
  }

  lemma ClearClusterFrame(e: Env, s: State, fr: Objects)
    ensures ClearCluster(e, With(s, fr)) == WithR(ClearCluster(e, s), fr) && ClearCluster(e, s).0.objs == s.objs
    ensures ClearCluster(e, s).0.cur.name == s.cur.name
  {}

  lemma DeleteFirstFrame(e: Env, s: State, fr: Objects, K: iset<Key>, nss: seq<Ns>)
    requires Inside(s.objs, K) && (forall x :: x in fr ==> x !in K) && forall n :: n in nss ==> NsKey(n.name) in K
    ensures Framed(NS.DeleteFirst(e, s, nss), NS.DeleteFirst(e, With(s, fr), nss), fr, K)
  {
    if nss != [] {
      assert nss[0] in nss;
      DeleteFrame(e, s, fr, K, NsKey(nss[0].name));
      StatusFrame(e, Delete(e, s, NsKey(nss[0].name)).0, fr, TerminatingFailed);
    }
  }

  lemma EnsureDeletedFrame(e: Env, s: State, fr: Objects, K: iset<Key>, refs: Lookup)
    requires Inside(s.objs, K) && Frame(fr, s.cur.name, K) && Looks(s.objs, refs)
    ensures Framed(NS.EnsureDeleted(e, s), NS.EnsureDeleted(e, With(s, fr)), fr, K)
  {
    var nss := ListFrame(s, fr, K, refs);
    EnsureIs(e, s, nss);
    EnsureIs(e, With(s, fr), nss);
    StatusFrame(e, Tick(s), fr, TerminatingFailed);
    DeleteFirstFrame(e, Tick(s), fr, K, nss);
  }

  lemma FinalizerFrame(e: Env, s: State, fr: Objects)
    ensures PutFinalizer(e, With(s, fr), false) == WithR(PutFinalizer(e, s, false), fr)
    ensures PutFinalizer(e, s, false).0.objs == s.objs
  {}

  lemma ThenDeleteNamespacesFrame(e: Env, s: State, fr: Objects, K: iset<Key>, refs: Lookup)
    requires Inside(s.objs, K) && Frame(fr, s.cur.name, K) && Looks(s.objs, refs)
    ensures Framed(ThenDeleteNamespaces(e, s), ThenDeleteNamespaces(e, With(s, fr)), fr, K)
  {
    EnsureDeletedFrame(e, s, fr, K, refs);
    var (s1, all) := NS.EnsureDeleted(e, s);
    StatusFrame(e, s1, fr, TerminatingFailed);
    FinalizerFrame(e, s1, fr);
    StatusFrame(e, PutFinalizer(e, s1, false).0, fr, TerminatingFailed);
  }

  lemma ThenDeleteResourcesFrame(e: Env, s: State, fr: Objects, K: iset<Key>, refs: Lookup)
    requires CP.Synced(s) && Territory(e, s.cur.name, K, refs) && Inside(s.objs, K) && Frame(fr, s.cur.name, K)
    requires SpecLooks(s.cur, refs) && Looks(s.objs, refs)
    ensures Framed(ThenDeleteResources(e, s), ThenDeleteResources(e, With(s, fr)), fr, K)
  {
    DeleteResourcesFrame(e, s, fr, K, refs);
    DP.DeleteResourcesEffect(e, s);
    var (s1, ok1) := CR.DeleteResources(e, s);
    assert CP.Core(s1.cur).name == CP.Core(s.cur).name;
    if ok1 {
      ClearClusterFrame(e, s1, fr);
      ThenDeleteNamespacesFrame(e, ClearCluster(e, s1).0, fr, K, refs);
    }
  }

  lemma TearFrame(e: Env, s: State, fr: Objects, K: iset<Key>, refs: Lookup)
    requires s.saved == s.cur && Territory(e, s.cur.name, K, refs) && Inside(s.objs, K) && Frame(fr, s.cur.name, K)
    requires SpecLooks(s.cur, refs) && Looks(s.objs, refs)
    ensures Framed(Tear(e, s), Tear(e, With(s, fr)), fr, K)
  {
    StatusFrame(e, s, fr, Terminating);
    var (s1, ok) := SetReady(e, s, Terminating);
    StatusFrame(e, s1, fr, TerminatingFailed);
    if ok { ThenDeleteResourcesFrame(e, s1, fr, K, refs); }
  }

  // A reconcile does the same, and leaves the rest alone, whatever else is in the store.
  lemma ReconcileFrame(e: Env, s: State, fr: Objects, K: iset<Key>, refs: Lookup)
    requires Territory(e, s.saved.name, K, refs) && Inside(s.objs, K) && Frame(fr, s.saved.name, K)
    requires SpecLooks(s.saved, refs) && Looks(s.objs, refs)
    ensures Framed(Reconcile(e, s), Reconcile(e, With(s, fr)), fr, K)
  {
    var s1 := Tick(Fetched(s));
    assert Tick(Fetched(With(s, fr))) == With(s1, fr);
    if s1.cur.deleting { TearFrame(e, s1, fr, K, refs); } else { ProvideFrame(e, s1, fr, K, refs); }
  }

  lemma ThenNamespacesLooks(e: Env, s: State, K: iset<Key>, refs: Lookup)
    requires CP.Synced(s) && Territory(e, s.cur.name, K, refs) && SpecLooks(s.cur, refs) && Looks(s.objs, refs)
    requires Inside(s.objs, K)
    ensures Looks(ThenNamespaces(e, s).0.objs, refs)
  {
    NamespacePhaseLooks(e, s, K, refs);
    PS.NamespacePhaseEffect(e, s);
    var (s1, p) := NamespacePhase(e, s);
    if p.Unchanged? {
      SameSpecLooks(s.cur, s1.cur, refs);
      RolePhaseLooks(e, s1, K, refs);
      PS.SetReadyKeeps(e, RolePhase(e, s1).0);
    }
  }

  lemma ProvideLooks(e: Env, s: State, K: iset<Key>, refs: Lookup)
    requires s.saved == s.cur && Territory(e, s.cur.name, K, refs) && Inside(s.objs, K)
    requires SpecLooks(s.cur, refs) && Looks(s.objs, refs)
    ensures Looks(Provide(e, s).0.objs, refs)
  {
    AddFinalizerFrame(e, s, map[]);
    var (s1, ok1) := AddFinalizer(e, s);
    if ok1 {
      ClusterPhaseFrame(e, s1, map[], K, refs);
      ClusterPhaseLooks(e, s1, K, refs);
      PS.ClusterPhaseEffect(e, s1);
      var (s2, ok2) := ClusterPhase(e, s1);
      if ok2 {
        SameSpecLooks(s1.cur, s2.cur, refs);
        ThenNamespacesLooks(e, s2, K, refs);
      }
    }
  }

  lemma DeletedLooks(objs: Objects, mid: Objects, keys: set<Key>, refs: Lookup)
    requires DP.OnlyDeleted(objs, mid, keys) && Looks(objs, refs)
    ensures Looks(mid, refs)
  {
    forall x | NsKey(x) in mid ensures NsLooks(mid[NsKey(x)], refs) {
      assert At(mid, NsKey(x)) == At(objs, NsKey(x)) || At(mid, NsKey(x)) == Remains(NsKey(x), At(objs, NsKey(x)));
    }
  }

  lemma MarkFirstLooks(objs: Objects, space: string, refs: Lookup)
    requires Looks(objs, refs)
    ensures Looks(DP.MarkFirst(objs, space), refs)
  {
    var r := DP.MarkFirst(objs, space);
    forall x | NsKey(x) in r ensures NsLooks(r[NsKey(x)], refs) { DP.MarkFirstAt(objs, space, NsKey(x)); }
  }

  // Whatever fails, a reconcile keeps to the references the space looked up before.
  lemma ReconcileLooks(e: Env, s: State, K: iset<Key>, refs: Lookup)
    requires Territory(e, s.saved.name, K, refs) && Inside(s.objs, K) && SpecLooks(s.saved, refs) && Looks(s.objs, refs)
    ensures var r := Reconcile(e, s).0; SpecLooks(r.saved, refs) && Looks(r.objs, refs)
  {
    var s1 := Tick(Fetched(s));
    if !s1.cur.deleting {
      ProvideLooks(e, s1, K, refs);
      CRuns.ProvideStatus(e, s1);
      SameSpecLooks(s.saved, Provide(e, s1).0.saved, refs);
    } else if s1.cur.finalizer {
      var mid := DP.TearEffect(e, s1);
      DeletedLooks(s.objs, mid, Keys(DP.Recorded(e, s.saved)), refs);
      MarkFirstLooks(mid, s.saved.name, refs);
      SameSpecLooks(s.saved, Tear(e, s1).0.saved, refs);
    }
  }

  // ---- No reconcile hands a namespace to another space ----

  ghost predicate HandsOver(objs: Objects, objs': Objects, other: string) {
    exists x :: Owns(objs', other, x) && !Owns(objs, other, x)
  }

  lemma {:induction false} StampAllOwns(e: Env, objs: Objects, ms: seq<Manifest>, labels: Labels, other: string)
    requires ms != [] ==> Space in labels && labels[Space] != other
    ensures !HandsOver(objs, StampAll(e, objs, ms, labels), other)
    decreases |ms|
  {
    if ms != [] {
      var next := if Available(e, ms[0]) then StampIn(e, objs, ms[0], labels) else objs;
      StampAllOwns(e, next, ms[1..], labels, other);
      forall x | Owns(next, other, x) ensures Owns(objs, other, x) {}
    }
  }

  lemma SweepOwns(objs: Objects, ms: seq<Manifest>, other: string)
    ensures !HandsOver(objs, Sweep(objs, ms), other)
  {
    forall x | Owns(Sweep(objs, ms), other, x) ensures Owns(objs, other, x) { SweepAt(objs, ms, NsKey(x)); }
  }

  lemma ClusterPhaseOwns(e: Env, s: State, other: string)
    requires CP.Synced(s) && s.cur.name != other
    ensures !HandsOver(s.objs, ClusterPhase(e, s).0.objs, other)
  {
    if ClusterChanged(s.cur) {
      var c := CP.EnsureCut(e, s);
      var news, rest, labels := CP.NewOf(e, s.cur), CP.RestOf(e, s.cur), CP.RefLabels(e, s.cur.name, s.cur.cluster);
      StampAllOwns(e, s.objs, news[..c.applied], labels, other);
      SweepOwns(StampAll(e, s.objs, news[..c.applied], labels), rest[..c.deleted], other);
    }
    RevisionFrame(e, CR.Ensure(e, s).0, map[]);
  }

  lemma EffectOwns(e: Env, objs: Objects, space: string, f: NP.Effect, other: string)
    requires NP.Fits(e, space, f) && space != other
    requires f.Fill? ==> Owns(objs, space, f.n.name) && objs[NsKey(f.n.name)] == f.n.obj
    ensures !HandsOver(objs, NP.On(e, objs, space, f), other)
  {
    match f
    case Quiet =>
    case Gone(_) =>
    case Stamp(t, applied) => StampAllOwns(e, objs, NP.Frame(t, space)[..applied], NS.NsLabels(space, t), other);
    case Fill(t, n, deleted, applied, marked) =>
      var olds, news := NP.Outdated(e, space, n, t)[..deleted], NP.Content(t, space)[..applied];
      SweepOwns(objs, olds, other);
      StampAllOwns(e, Sweep(objs, olds), news, NS.InnerLabels(space), other);
  }

  lemma NamespacePhaseOwns(e: Env, s: State, other: string)
    requires CP.Synced(s) && s.cur.name != other
    ensures !HandsOver(s.objs, NamespacePhase(e, s).0.objs, other)
  {
    CM.NamespacePhaseObjs(e, s);
    var f := NP.EnsureEffect(e, s);
    if f.Fill? { RefillOwned(e, s.objs, s.cur.name, s.cur.namespaces, f); }
    EffectOwns(e, s.objs, s.cur.name, f, other);
  }

  lemma RefillOwned(e: Env, objs: Objects, space: string, refs: seq<string>, f: NP.Effect)
    requires f.Fill? && NP.PartOf(f, NP.Decide(e, objs, space, refs))
    ensures Owns(objs, space, f.n.name) && objs[NsKey(f.n.name)] == f.n.obj
  {
    CM.DecideFromSpec(e, objs, space, refs);
  }

  lemma {:induction false} ReappliedOwns(e: Env, objs: Objects, space: string, nss: seq<Ns>, want: SR.Roles,
                                         other: string)
    requires space != other
    ensures !HandsOver(objs, RP.Reapplied(e, objs, space, nss, want), other)
    decreases |nss|
  {
    if nss != [] {
      StampAllOwns(e, objs, RP.News(e, nss[0], want), NS.InnerLabels(space), other);
      ReappliedOwns(e, StampAll(e, objs, RP.News(e, nss[0], want), NS.InnerLabels(space)), space, nss[1..], want,
                    other);
    }
  }

  lemma SwitchOwns(e: Env, objs: Objects, space: string, n: Ns, want: SR.Roles, p: RP.Part, other: string)
    requires RP.FitsIn(e, n, want, p) && space != other
    requires p.noted ==> At(RP.Switched(e, objs, space, n, want, p), NsKey(n.name)) == Some(n.obj)
    ensures !HandsOver(objs, RP.OnOne(e, objs, space, n, want, p), other)
  {
    var news, leaving := RP.News(e, n, want)[..p.applied], RP.Leaving(e, n, want)[..p.deleted];
    StampAllOwns(e, objs, news, NS.InnerLabels(space), other);
    SweepOwns(StampAll(e, objs, news, NS.InnerLabels(space)), leaving, other);
  }

  lemma RolePhaseOwns(e: Env, s: State, other: string)
    requires CP.Synced(s) && s.cur.name != other
    ensures !HandsOver(s.objs, RolePhase(e, s).0.objs, other)
  {
    CM.RolePhaseObjs(e, s);
    var nss := Owned(s.objs, s.cur.name);
    EnsureIs(e, s, nss);
    CP.SetFailedSteady(e, Tick(s), UnableToProvision);
    var d, p := RP.EnsureEachEffect(e, Tick(s), nss);
    ReappliedOwns(e, s.objs, s.cur.name, nss[..d], s.cur.roles, other);
    if d < |nss| {
      SwitchOwns(e, RP.Reapplied(e, s.objs, s.cur.name, nss[..d], s.cur.roles), s.cur.name, nss[d], s.cur.roles, p,
                 other);
    }
  }

  lemma ThenNamespacesOwns(e: Env, s: State, other: string)
    requires CP.Synced(s) && s.cur.name != other
    ensures !HandsOver(s.objs, ThenNamespaces(e, s).0.objs, other)
  {
    NamespacePhaseOwns(e, s, other);
    PS.NamespacePhaseEffect(e, s);
    var (s1, p) := NamespacePhase(e, s);
    if p.Unchanged? {
      RolePhaseOwns(e, s1, other);
      PS.SetReadyKeeps(e, RolePhase(e, s1).0);
    }
  }

  lemma ProvideOwns(e: Env, s: State, other: string)
    requires s.saved == s.cur && s.cur.name != other
    ensures !HandsOver(s.objs, Provide(e, s).0.objs, other)
  {
    AddFinalizerFrame(e, s, map[]);
    var (s1, ok1) := AddFinalizer(e, s);
    if ok1 {
      ClusterPhaseOwns(e, s1, other);
      PS.ClusterPhaseEffect(e, s1);
      var (s2, ok2) := ClusterPhase(e, s1);
      if ok2 { ThenNamespacesOwns(e, s2, other); }
    }
  }

  lemma DeletedOwns(objs: Objects, mid: Objects, keys: set<Key>, other: string)
    requires DP.OnlyDeleted(objs, mid, keys)
    ensures !HandsOver(objs, mid, other)
  {
    forall x | Owns(mid, other, x) ensures Owns(objs, other, x) {
      assert At(mid, NsKey(x)) == At(objs, NsKey(x)) || At(mid, NsKey(x)) == Remains(NsKey(x), At(objs, NsKey(x)));
    }
  }

  lemma MarkFirstOwns(objs: Objects, space: string, other: string)
    ensures !HandsOver(objs, DP.MarkFirst(objs, space), other)
  {}

  lemma TearOwns(e: Env, s: State, other: string)
    requires s.saved == s.cur
    ensures !HandsOver(s.objs, Tear(e, s).0.objs, other)
  {
    if s.cur.finalizer {
      var mid := DP.TearEffect(e, s);
      DeletedOwns(s.objs, mid, Keys(DP.Recorded(e, s.saved)), other);
      MarkFirstOwns(mid, s.saved.name, other);
    }
  }

  lemma ReconcileOwns(e: Env, s: State, other: string)
    requires s.saved.name != other
    ensures !HandsOver(s.objs, Reconcile(e, s).0.objs, other)
  {
    var s1 := Tick(Fetched(s));
    if s1.cur.deleting { TearOwns(e, s1, other); } else { ProvideOwns(e, s1, other); }
  }

  lemma NameKept(e: Env, s: State)
    ensures Reconcile(e, s).0.saved.name == s.saved.name
  {
    var s1 := Tick(Fetched(s));
    if s1.cur.deleting {
      if s1.cur.finalizer { var mid := DP.TearEffect(e, s1); }
    } else {
      ProvideName(e, s1);
    }
  }

  lemma ProvideName(e: Env, s: State)
    requires s.saved == s.cur
    ensures Provide(e, s).0.saved.name == s.saved.name
  {
    PS.AddFinalizerEffect(e, s);
    var (s1, ok1) := AddFinalizer(e, s);
    if ok1 {
      PS.ClusterPhaseEffect(e, s1);
      var (s2, ok2) := ClusterPhase(e, s1);
      if ok2 {
        PS.NamespacePhaseEffect(e, s2);
        var (s3, p3) := NamespacePhase(e, s2);
        if p3.Unchanged? {
          PS.RolePhaseEffect(e, s3);
          PS.SetReadyKeeps(e, RolePhase(e, s3).0);
        }
      }
    }
  }

  // ---- Interleavings ----

  // One store, two NSTemplateSets.
  datatype Both = Both(objs: Objects, a: NSTemplateSet, b: NSTemplateSet)

  // A reconcile of the first or the second, each with its own failures.
  datatype Turn = First(e: Env) | Second(e: Env)

  function Alone(objs: Objects, t: NSTemplateSet): State { State(objs, t, t, 0) }

  function Take(w: Both, turn: Turn): Both {
    match turn
    case First(e) => var s := Reconcile(e, Alone(w.objs, w.a)).0; Both(s.objs, s.saved, w.b)
    case Second(e) => var s := Reconcile(e, Alone(w.objs, w.b)).0; Both(s.objs, w.a, s.saved)
  }

  function Interleaved(w: Both, turns: seq<Turn>): Both
    decreases |turns|
  {
    if turns == [] then w else Interleaved(Take(w, turns[0]), turns[1..])
  }

  // The run of one space alone, on its part of the store.
  function Solo(objs: Objects, t: NSTemplateSet, first: bool, turns: seq<Turn>): (Objects, NSTemplateSet)
    decreases |turns|
  {
    if turns == [] then (objs, t)
    else if turns[0].First? != first then Solo(objs, t, first, turns[1..])
    else var s := Reconcile(turns[0].e, Alone(objs, t)).0; Solo(s.objs, s.saved, first, turns[1..])
  }

  ghost function Part(objs: Objects, K: iset<Key>): Objects { map k | k in objs && k in K :: objs[k] }
  ghost function Outside(objs: Objects, K: iset<Key>): Objects { map k | k in objs && k !in K :: objs[k] }

  // The space's namespaces are in its territory.
  ghost predicate AtHome(objs: Objects, space: string, K: iset<Key>) {
    forall x :: Owns(objs, space, x) ==> NsKey(x) in K
  }

  // The references of spec, status and namespaces are known, and the space's namespaces are in its territory.
  ghost predicate Fitting(objs: Objects, t: NSTemplateSet, K: iset<Key>, refs: Lookup) {
    SpecLooks(t, refs) && Looks(Part(objs, K), refs) && AtHome(objs, t.name, K)
  }

  // A turn is that of the space alone on its part; the other parts stay.
  lemma TurnFrame(e: Env, objs: Objects, t: NSTemplateSet, K: iset<Key>, refs: Lookup)
    requires Territory(e, t.name, K, refs) && Fitting(objs, t, K, refs)
    ensures var s, p := Reconcile(e, Alone(objs, t)).0, Reconcile(e, Alone(Part(objs, K), t)).0;
      s.objs == p.objs + Outside(objs, K) && s.saved == p.saved && Inside(p.objs, K)
  {
    var part, rest := Part(objs, K), Outside(objs, K);
    assert part + rest == objs;
    forall x ensures !Owns(rest, t.name, x) { assert Owns(rest, t.name, x) ==> Owns(objs, t.name, x); }
    ReconcileFrame(e, Alone(part, t), rest, K, refs);
    assert With(Alone(part, t), rest) == Alone(objs, t);
  }

  lemma TurnParts(e: Env, objs: Objects, t: NSTemplateSet, K: iset<Key>, K': iset<Key>, other: string, refs: Lookup)
    requires Territory(e, t.name, K, refs) && Fitting(objs, t, K, refs) && AtHome(objs, other, K') && K !! K'
    requires t.name != other
    ensures var s, p := Reconcile(e, Alone(objs, t)).0, Reconcile(e, Alone(Part(objs, K), t)).0;
      && Part(s.objs, K) == p.objs && s.saved == p.saved && s.saved.name == t.name
      && Part(s.objs, K') == Part(objs, K') && Outside(s.objs, K + K') == Outside(objs, K + K')
      && Fitting(s.objs, s.saved, K, refs) && AtHome(s.objs, other, K')
  {
    TurnFrame(e, objs, t, K, refs);
    var s := Reconcile(e, Alone(objs, t)).0;
    var p := Reconcile(e, Alone(Part(objs, K), t)).0;
    NameKept(e, Alone(objs, t));
    ReconcileOwns(e, Alone(objs, t), other);
    ReconcileLooks(e, Alone(Part(objs, K), t), K, refs);
    assert Part(s.objs, K) == p.objs;
    forall x | Owns(s.objs, t.name, x) ensures NsKey(x) in K {
      assert NsKey(x) !in K ==> Owns(objs, t.name, x);
    }
    forall x | Owns(s.objs, other, x) ensures NsKey(x) in K' { assert Owns(objs, other, x); }
  }

  // Whatever the order of turns, and whatever fails in them: each space's part of the store and its
  // NSTemplateSet are those of its run alone, and the rest of the store is untouched. What has to be disjoint is
  // what the templates the two spaces refer to, in their specs and by what was applied before, generate for them.
  lemma {:induction false} Isolated(w: Both, turns: seq<Turn>, K: iset<Key>, K': iset<Key>, refs: Lookup, refs': Lookup)
    requires w.a.name != w.b.name && K !! K' && Fitting(w.objs, w.a, K, refs) && Fitting(w.objs, w.b, K', refs')
    requires forall i :: 0 <= i < |turns| && turns[i].First? ==> Territory(turns[i].e, w.a.name, K, refs)
    requires forall i :: 0 <= i < |turns| && turns[i].Second? ==> Territory(turns[i].e, w.b.name, K', refs')
    ensures var w' := Interleaved(w, turns);
      && (Part(w'.objs, K), w'.a) == Solo(Part(w.objs, K), w.a, true, turns)
      && (Part(w'.objs, K'), w'.b) == Solo(Part(w.objs, K'), w.b, false, turns)
      && Outside(w'.objs, K + K') == Outside(w.objs, K + K')
    decreases |turns|
  {
    if turns != [] {
      assert K + K' == K' + K;
      match turns[0] {
        case First(e) => TurnParts(e, w.objs, w.a, K, K', w.b.name, refs);
        case Second(e) => TurnParts(e, w.objs, w.b, K', K, w.a.name, refs');
      }
      Isolated(Take(w, turns[0]), turns[1..], K, K', refs, refs');
    }
  }
}
