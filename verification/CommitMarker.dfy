// The template-reference label of a namespace is a commit marker for its content.
module CommitMarker {
  import opened Names
  import opened Cluster
  import opened Applying
  import opened Statuses
  import opened Passes
  import opened ClusterPasses
  import opened ClusterRecovery
  import opened Namespaces
  import opened NamespacePasses
  import opened RolePasses
  import opened DeletionPasses
  import opened ProvisionedSoundness
  import opened Reconciler
  import CR = ClusterResources
  import SR = SpaceRoles

  // ---- Shapes of templates ----

  predicate ClusterScoped(k: Key) { k.ns == "" && !k.gvk.kind.Namespace? }

  // A cluster-resources template generates cluster-scoped objects other than namespaces.
  predicate ClusterShaped(e: Env, space: string, c: Option<string>) {
    RefManifests(e, space, c).Some? ==> forall m :: m in RefManifests(e, space, c).value ==> ClusterScoped(m.key)
  }

  // Namespace templates do not set the labels that record the tier and the reference.
  predicate FramesUnmarked(e: Env, space: string, refs: seq<string>) {
    forall ref, m :: ref in refs && TierAt(e, ref).Some? && m in Frame(TierAt(e, ref).value, space) ==>
      TemplateRef !in m.labels && TierName !in m.labels
  }

  lemma StampAllSweepElsewhere(e: Env, objs: Objects, news: seq<Manifest>, rest: seq<Manifest>, labels: Labels, c: Cut,
                               k: Key)
    requires c.applied <= |news| && c.deleted <= |rest| && k !in Keys(news) && k !in Keys(rest)
    ensures At(CutPass(e, objs, news, rest, labels, c), k) == At(objs, k)
  {
    StampAllElsewhere(e, objs, news[..c.applied], labels, k);
    SweepAt(StampAll(e, objs, news[..c.applied], labels), rest[..c.deleted], k);
  }

  // The cluster phase leaves every other kind of object alone.
  lemma ClusterPhaseScope(e: Env, s: State, k: Key)
    requires Synced(s) && !ClusterScoped(k)
    requires ClusterShaped(e, s.cur.name, s.cur.cluster) && ClusterShaped(e, s.cur.name, s.cur.status.cluster)
    ensures At(ClusterPhase(e, s).0.objs, k) == At(s.objs, k)
  {
    if ClusterChanged(s.cur) {
      var c := EnsureCut(e, s);
      var news, rest := NewOf(e, s.cur), RestOf(e, s.cur);
      if RefManifests(e, s.cur.name, s.cur.status.cluster).Some? {
        DropAllIds(RefManifests(e, s.cur.name, s.cur.status.cluster).value, news);
      }
      StampAllSweepElsewhere(e, s.objs, news, rest, RefLabels(e, s.cur.name, s.cur.cluster), c, k);
    }
    var (s1, ok) := CR.Ensure(e, s);
    if ok && Synced(s1) { ClusterRevisionEffect(e, s1); }
  }

  // ---- What the marker promises ----

  // The object of a manifest is there as this operator labels it.
  predicate InStore(objs: Objects, m: Manifest, space: string) {
    m.key in objs && (!m.key.gvk.kind.ServiceAccount? ==> Labelled(objs, m.key, Space, space))
  }

  ghost predicate ContentApplied(e: Env, objs: Objects, space: string, t: Tier) {
    && (forall m :: m in Content(t, space) && Available(e, m) ==> InStore(objs, m, space))
    && (DistinctKeys(Content(t, space)) ==>
          forall m :: m in Content(t, space) && Available(e, m) && !m.key.gvk.kind.ServiceAccount? ==>
            objs[m.key].body == m.body)
  }

  lemma {:induction false} StampAllStores(e: Env, objs: Objects, ms: seq<Manifest>, labels: Labels, m: Manifest)
    requires m in ms && Available(e, m)
    ensures m.key in StampAll(e, objs, ms, labels)
    decreases |ms|
  {
    var next := if Available(e, ms[0]) then StampIn(e, objs, ms[0], labels) else objs;
    if m in ms[1..] {
      StampAllStores(e, next, ms[1..], labels, m);
    } else {
      StampAllKeeps(e, next, ms[1..], labels, m.key);
    }
  }

  lemma {:induction false} StampAllKeeps(e: Env, objs: Objects, ms: seq<Manifest>, labels: Labels, k: Key)
    requires k in objs
    ensures k in StampAll(e, objs, ms, labels)
    decreases |ms|
  {
    if ms != [] {
      StampAllKeeps(e, if Available(e, ms[0]) then StampIn(e, objs, ms[0], labels) else objs, ms[1..], labels, k);
    }
  }

  lemma StampedContent(e: Env, objs: Objects, space: string, t: Tier)
    ensures ContentApplied(e, StampAll(e, objs, Content(t, space), InnerLabels(space)), space, t)
  {
    var news, labels := Content(t, space), InnerLabels(space);
    var r := StampAll(e, objs, news, labels);
    forall m | m in news && Available(e, m) ensures InStore(r, m, space) {
      StampAllStores(e, objs, news, labels, m);
      if !m.key.gvk.kind.ServiceAccount? { StampAllLabels(e, objs, news, labels, m, Space); }
    }
    if DistinctKeys(news) {
      forall m | m in news && Available(e, m) && !m.key.gvk.kind.ServiceAccount?
        ensures m.key in r && r[m.key].body == m.body
      {
        var i :| 0 <= i < |news| && news[i] == m;
        StampAllAt(e, objs, news, labels, i);
      }
    }
  }

  // What a complete fill leaves, before and after the label is written.
  lemma FilledContent(e: Env, objs: Objects, space: string, t: Tier, n: Ns)
    ensures var r := Filled(e, objs, space, t, n, |Outdated(e, space, n, t)|, |Content(t, space)|);
      ContentApplied(e, r, space, t) && AllGone(r, Outdated(e, space, n, t))
  {
    var olds, news := Outdated(e, space, n, t), Content(t, space);
    assert olds[..|olds|] == olds && news[..|news|] == news;
    var swept := Sweep(objs, olds);
    StampedContent(e, swept, space, t);
    forall m | m in olds ensures !Live(StampAll(e, swept, news, InnerLabels(space)), m.key) {
      SweepAt(objs, olds, m.key);
      assert At(swept, m.key) == Remains(m.key, At(objs, m.key));
      assert forall x :: x in news && x.key == m.key ==> SameGvkAndName(m, x);
      StampAllElsewhere(e, swept, news, InnerLabels(space), m.key);
    }
  }

  function RefLabel(objs: Objects, name: string): string {
    if NsKey(name) in objs then LabelOf(objs[NsKey(name)].labels, TemplateRef) else ""
  }

  // The namespace is filled from R, and nothing of Q that R does not have is left.
  ghost predicate Committed(e: Env, objs: Objects, space: string, ref: string, was: string) {
    && TierAt(e, ref).Some?
    && ContentApplied(e, objs, space, TierAt(e, ref).value)
    && (was != "" && was != ref ==>
          && TierAt(e, was).Some?
          && AllGone(objs, Unmatched(Content(TierAt(e, was).value, space), Content(TierAt(e, ref).value, space))))
  }

  // Updating the labels of a namespace changes nothing about content or deletions.
  lemma MarkingKeeps(e: Env, objs: Objects, space: string, t: Tier, n: Ns, ms: seq<Manifest>)
    requires ContentApplied(e, objs, space, t) && AllGone(objs, ms)
    requires forall m :: m in ms ==> !m.key.gvk.kind.Namespace?
    ensures var r := objs[NsKey(n.name) := Marked(n.obj, t)]; ContentApplied(e, r, space, t) && AllGone(r, ms)
  {
    var r := objs[NsKey(n.name) := Marked(n.obj, t)];
    forall m | m in Content(t, space) && Available(e, m) ensures InStore(r, m, space) {
      assert InStore(objs, m, space);
      assert m.key != NsKey(n.name);
    }
  }

  lemma FillCommits(e: Env, objs: Objects, space: string, f: Effect)
    requires Fits(e, space, f) && f.Fill? && f.marked && At(objs, NsKey(f.n.name)) == Some(f.n.obj)
    requires TierAt(e, f.tier.templateRef) == Some(f.tier)
    ensures Committed(e, On(e, objs, space, f), space, f.tier.templateRef, RefLabel(objs, f.n.name))
  {
    var olds := Outdated(e, space, f.n, f.tier);
    FilledContent(e, objs, space, f.tier, f.n);
    MarkingKeeps(e, Filled(e, objs, space, f.tier, f.n, f.deleted, f.applied), space, f.tier, f.n, olds);
  }

  lemma StampAllRefLabel(e: Env, objs: Objects, ms: seq<Manifest>, labels: Labels, name: string)
    requires forall m :: m in ms ==> TemplateRef !in m.labels
    requires TemplateRef !in labels
    ensures RefLabel(StampAll(e, objs, ms, labels), name) in {RefLabel(objs, name), ""}
    decreases |ms|
  {
    if ms != [] {
      var next := if Available(e, ms[0]) then StampIn(e, objs, ms[0], labels) else objs;
      StampAllRefLabel(e, next, ms[1..], labels, name);
    }
  }

  // A tier the decision is about is the one of its reference in the spec.
  lemma {:induction false} TiersOfAt(e: Env, refs: seq<string>, i: nat)
    requires TiersOf(e, refs).Some? && i < |TiersOf(e, refs).value|
    ensures |TiersOf(e, refs).value| == |refs| && TierAt(e, refs[i]) == Some(TiersOf(e, refs).value[i]) && refs[i] != ""
  {
    if i > 0 {
      TiersOfAt(e, refs[1..], i - 1);
    } else if |refs| > 1 && TiersOf(e, refs[1..]).value != [] {
      TiersOfAt(e, refs[1..], 0);
    }
  }

  ghost predicate FromSpec(e: Env, refs: seq<string>, t: Tier) {
    exists i :: 0 <= i < |refs| && TierAt(e, refs[i]) == Some(t)
  }

  lemma {:induction false} PickFromSpec(objs: Objects, tiers: seq<Tier>, nss: seq<Ns>) returns (i: nat)
    requires Pick(objs, tiers, nss).Todo?
    ensures i < |tiers| && Pick(objs, tiers, nss).tier == tiers[i]
    ensures Pick(objs, tiers, nss).ns.Some? ==> Pick(objs, tiers, nss).ns.value in nss
    decreases |tiers|
  {
    var n := FindNamespace(nss, tiers[0].typeName);
    i := 0;
    if n.Some? && (!n.value.obj.active || Fine(objs, n.value, tiers[0]) == Some(true)) {
      var j := PickFromSpec(objs, tiers[1..], nss);
      i := j + 1;
    }
  }

  lemma DecideFromSpec(e: Env, objs: Objects, space: string, refs: seq<string>)
    ensures var p := Decide(e, objs, space, refs);
      && (p.Make? || p.Refill? ==> FromSpec(e, refs, p.tier))
      && (p.Refill? ==> At(objs, NsKey(p.n.name)) == Some(p.n.obj) && IsOwned(objs, space, p.n))
      && (p.Drop? ==> Owns(objs, space, p.n.name))
  {
    OwnedMembers(objs, space);
    var nss := Owned(objs, space);
    DecideCases(e, objs, space, refs, nss);
    var p := Decide(e, objs, space, refs);
    if p.Make? || p.Refill? {
      var i := PickFromSpec(objs, TiersOf(e, refs).value, nss);
      TiersOfAt(e, refs, i);
    }
  }

  lemma DecideCases(e: Env, objs: Objects, space: string, refs: seq<string>, nss: seq<Ns>)
    requires nss == Owned(objs, space)
    ensures var p, tiers := Decide(e, objs, space, refs), TiersOf(e, refs);
      && (p.Make? || p.Refill? ==>
            tiers.Some? && Pick(objs, tiers.value, nss).Todo? && Pick(objs, tiers.value, nss).tier == p.tier)
      && (p.Refill? ==> Pick(objs, tiers.value, nss).ns == Some(p.n))
      && (p.Drop? ==> p.n in nss)
  {
    if TiersOf(e, refs).Some? { AmongCases(objs, TiersOf(e, refs).value, nss); }
  }

  lemma AmongCases(objs: Objects, tiers: seq<Tier>, nss: seq<Ns>)
    ensures var p, next := PlanAmong(objs, tiers, nss), Pick(objs, tiers, nss);
      && (p.Make? || p.Refill? ==> next.Todo? && next.tier == p.tier)
      && (p.Refill? ==> next.ns == Some(p.n))
      && (p.Drop? ==> p.n in nss)
  {}

  // An effect on behalf of the space: it concerns a tier of the spec and a namespace of the space.
  ghost predicate Due(e: Env, objs: Objects, space: string, refs: seq<string>, f: Effect) {
    match f
    case Quiet => true
    case Gone(name) => Owns(objs, space, name)
    case Stamp(tier, _) => FromSpec(e, refs, tier)
    case Fill(tier, n, _, _, _) => FromSpec(e, refs, tier) && IsOwned(objs, space, n)
  }

  lemma PartFromSpec(e: Env, objs: Objects, space: string, refs: seq<string>, f: Effect)
    requires PartOf(f, Decide(e, objs, space, refs))
    ensures Due(e, objs, space, refs, f)
  {
    DecideFromSpec(e, objs, space, refs);
  }

  // ---- The theorem ----

  // The label is as it was, or gone, or that of a reference of the spec which is now committed.
  ghost predicate Justified(e: Env, objs: Objects, objs': Objects, space: string, refs: seq<string>, name: string) {
    var ref := RefLabel(objs', name);
    ref == RefLabel(objs, name) || ref == "" || (ref in refs && Committed(e, objs', space, ref, RefLabel(objs, name)))
  }

  lemma StampJustified(e: Env, objs: Objects, space: string, refs: seq<string>, t: Tier, applied: nat, name: string)
    requires applied <= |Frame(t, space)| && forall m :: m in Frame(t, space) ==> TemplateRef !in m.labels
    ensures Justified(e, objs, On(e, objs, space, Stamp(t, applied)), space, refs, name)
  {
    StampAllRefLabel(e, objs, Frame(t, space)[..applied], NsLabels(space, t), name);
  }

  lemma FillJustified(e: Env, objs: Objects, space: string, refs: seq<string>, f: Effect, name: string)
    requires f.Fill? && Fits(e, space, f) && At(objs, NsKey(f.n.name)) == Some(f.n.obj)
    requires FromSpec(e, refs, f.tier)
    ensures Justified(e, objs, On(e, objs, space, f), space, refs, name)
  {
    FilledNamespaces(e, objs, space, f.tier, f.n, f.deleted, f.applied, name);
    if f.marked && f.n.name == name {
      FillCommits(e, objs, space, f);
    }
  }

  lemma EffectCommits(e: Env, objs: Objects, space: string, refs: seq<string>, f: Effect, name: string)
    requires Fits(e, space, f) && Due(e, objs, space, refs, f) && FramesUnmarked(e, space, refs)
    ensures Justified(e, objs, On(e, objs, space, f), space, refs, name)
  {
    if f.Stamp? {
      StampJustified(e, objs, space, refs, f.tier, f.applied, name);
    } else if f.Fill? {
      FillJustified(e, objs, space, refs, f, name);
    } else if f.Gone? {
      GoneJustified(e, objs, space, refs, f.name, name);
    }
  }

  lemma GoneJustified(e: Env, objs: Objects, space: string, refs: seq<string>, gone: string, name: string)
    ensures Justified(e, objs, On(e, objs, space, Gone(gone)), space, refs, name)
  {
    var objs' := On(e, objs, space, Gone(gone));
    assert RefLabel(objs', name) in {RefLabel(objs, name), ""};
  }

  lemma NamespacePhaseObjs(e: Env, s: State)
    requires Synced(s)
    ensures NamespacePhase(e, s).0.objs == Ensure(e, s).0.objs
  {
    var f := EnsureEffect(e, s);
    NsRevisionEffect(e, Ensure(e, s).0);
  }

  lemma NamespacePhaseCommits(e: Env, s: State, name: string)
    requires Synced(s) && FramesUnmarked(e, s.cur.name, s.cur.namespaces)
    ensures Justified(e, s.objs, NamespacePhase(e, s).0.objs, s.cur.name, s.cur.namespaces, name)
  {
    NamespacePhaseObjs(e, s);
    var f := EnsureEffect(e, s);
    PartFromSpec(e, s.objs, s.cur.name, s.cur.namespaces, f);
    EffectCommits(e, s.objs, s.cur.name, s.cur.namespaces, f, name);
  }

  lemma FilledNamespaces(e: Env, objs: Objects, space: string, t: Tier, n: Ns, deleted: nat, applied: nat, name: string)
    requires deleted <= |Outdated(e, space, n, t)| && applied <= |Content(t, space)|
    ensures At(Filled(e, objs, space, t, n, deleted, applied), NsKey(name)) == At(objs, NsKey(name))
  {
    var olds, news := Outdated(e, space, n, t)[..deleted], Content(t, space)[..applied];
    SweepAt(objs, olds, NsKey(name));
    StampAllElsewhere(e, Sweep(objs, olds), news, InnerLabels(space), NsKey(name));
  }

  // Neither the roles of the spec nor those recorded on the space's namespaces generate namespaces.
  ghost predicate NoRoleNamespaces(e: Env, objs: Objects, t: NSTemplateSet) {
    && NoNamespaces(e, t.roles)
    && (forall x :: Owns(objs, t.name, x) && SR.LastApplied(objs[NsKey(x)]).Some? ==>
          NoNamespaces(e, SR.LastApplied(objs[NsKey(x)]).value))
  }

  lemma NoRoleNamespacesSame(e: Env, objs: Objects, objs': Objects, t: NSTemplateSet, t': NSTemplateSet)
    requires NoRoleNamespaces(e, objs, t) && SameSpec(t, t') && forall x :: At(objs', NsKey(x)) == At(objs, NsKey(x))
    ensures NoRoleNamespaces(e, objs', t')
  {
    forall x | Owns(objs', t'.name, x) ensures Owns(objs, t.name, x) && objs'[NsKey(x)] == objs[NsKey(x)] {
      assert At(objs', NsKey(x)) == At(objs, NsKey(x));
    }
  }

  lemma SwitchedNamespaces(e: Env, objs: Objects, space: string, n: Ns, want: SR.Roles, p: Part, name: string)
    requires FitsIn(e, n, want, p) && n.name != "" && NoNamespaces(e, want)
    requires SR.LastApplied(n.obj).Some? ==> NoNamespaces(e, SR.LastApplied(n.obj).value)
    ensures At(Switched(e, objs, space, n, want, p), NsKey(name)) == At(objs, NsKey(name))
  {
    var news, leaving := News(e, n, want)[..p.applied], Leaving(e, n, want)[..p.deleted];
    StampAllElsewhere(e, objs, news, InnerLabels(space), NsKey(name));
    SweepAt(StampAll(e, objs, news, InnerLabels(space)), leaving, NsKey(name));
  }

  lemma OnOneNamespace(e: Env, objs: Objects, space: string, n: Ns, want: SR.Roles, p: Part, r: Objects, q: Progress,
                       x: string)
    requires DidPart(e, objs, space, n, want, p, r, q) && n.name != "" && NoNamespaces(e, want)
    requires SR.LastApplied(n.obj).Some? ==> NoNamespaces(e, SR.LastApplied(n.obj).value)
    ensures if p.noted && x == n.name then
              At(r, NsKey(x)) == Some(SR.Annotated(n.obj, want)) && At(objs, NsKey(x)) == Some(n.obj)
            else At(r, NsKey(x)) == At(objs, NsKey(x))
  {
    SwitchedNamespaces(e, objs, space, n, want, p, x);
    SwitchedNamespaces(e, objs, space, n, want, p, n.name);
  }

  // Of the namespaces only the one switched changes, and of that one only the annotation.
  lemma EachDoneNamespaces(e: Env, objs: Objects, t: NSTemplateSet, nss: seq<Ns>, d: nat, p: Part, r: Objects,
                           q: Progress, x: string)
    requires NoRoleNamespaces(e, objs, t) && nss == Owned(objs, t.name)
    requires EachDone(e, objs, t.name, nss, t.roles, d, p, r, q)
    ensures if d < |nss| && p.noted && x == nss[d].name then
              At(r, NsKey(x)) == Some(SR.Annotated(nss[d].obj, t.roles)) && At(objs, NsKey(x)) == Some(nss[d].obj)
            else At(r, NsKey(x)) == At(objs, NsKey(x))
  {
    var settled := Reapplied(e, objs, t.name, nss[..d], t.roles);
    OwnedAreNamed(objs, t.name);
    ReappliedKeeps(e, objs, t.name, nss[..d], t.roles);
    assert At(settled, NsKey(x)) == At(objs, NsKey(x));
    if d < |nss| {
      OwnedMembers(objs, t.name);
      assert nss[d] in nss && Owns(objs, t.name, nss[d].name);
      OnOneNamespace(e, settled, t.name, nss[d], t.roles, p, r, q, x);
    }
  }

  lemma RolePhaseObjs(e: Env, s: State)
    requires Synced(s)
    ensures RolePhase(e, s).0.objs == SR.Ensure(e, s).0.objs
  {
    var s1 := Tick(s);
    SetFailedSteady(e, s1, UnableToProvision);
    var d, p := EnsureEachEffect(e, s1, Owned(s.objs, s.cur.name));
    RoleRevisionEffect(e, SR.Ensure(e, s).0);
  }

  // What the role phase leaves: nothing done, or the namespaces reapplied and at most one switched.
  lemma RolePhaseDone(e: Env, s: State, nss: seq<Ns>) returns (d: nat, p: Part, q: Progress)
    requires Synced(s) && nss == Owned(s.objs, s.cur.name)
    ensures var r := RolePhase(e, s);
      && (r.0.objs == s.objs || EachDone(e, s.objs, s.cur.name, nss, s.cur.roles, d, p, r.0.objs, q))
      && (r.1.Unchanged? ==> EachDone(e, s.objs, s.cur.name, nss, s.cur.roles, d, p, r.0.objs, q) && q.Unchanged?)
      && (r.1.Changed? ==> EachDone(e, s.objs, s.cur.name, nss, s.cur.roles, d, p, r.0.objs, q) && q.Changed?)
  {
    RolePhaseObjs(e, s);
    var s1 := Tick(s);
    SetFailedSteady(e, s1, UnableToProvision);
    d, p := EnsureEachEffect(e, s1, nss);
    q := SR.EnsureEach(e, s1, nss).1;
  }

  lemma RolePhaseNamespaces(e: Env, s: State, name: string)
    requires Synced(s) && NoRoleNamespaces(e, s.objs, s.cur)
    ensures RefLabel(RolePhase(e, s).0.objs, name) == RefLabel(s.objs, name)
  {
    var nss, r := Owned(s.objs, s.cur.name), RolePhase(e, s).0.objs;
    var d, p, q := RolePhaseDone(e, s, nss);
    if r != s.objs { EachDoneNamespaces(e, s.objs, s.cur, nss, d, p, r, q, name); }
  }

  // Whatever fails in a reconcile: if the reference label of a namespace comes out changed, and not removed,
  // then the namespace has been committed to the new reference.
  lemma LabelIsCommitMarker(e: Env, s: State, name: string)
    requires !s.saved.deleting && NoRoleNamespaces(e, s.objs, s.saved)
    requires FramesUnmarked(e, s.saved.name, s.saved.namespaces)
    requires ClusterShaped(e, s.saved.name, s.saved.cluster) && ClusterShaped(e, s.saved.name, s.saved.status.cluster)
    ensures Justified(e, s.objs, Reconcile(e, s).0.objs, s.saved.name, s.saved.namespaces, name)
  {
    var (s0, ok) := Read(e, Fetched(s));
    if ok {
      AddFinalizerEffect(e, s0);
      var (s1, ok1) := AddFinalizer(e, s0);
      if ok1 {
        ClusterPhaseScope(e, s1, NsKey(name));
        ClusterPhaseEffect(e, s1);
        var (s2, ok2) := ClusterPhase(e, s1);
        if ok2 {
          forall x ensures At(s2.objs, NsKey(x)) == At(s.objs, NsKey(x)) { ClusterPhaseScope(e, s1, NsKey(x)); }
          NoRoleNamespacesSame(e, s.objs, s2.objs, s.saved, s2.cur);
          NamespacePhaseCommits(e, s2, name);
          ThenNamespacesCommits(e, s2, name);
        }
      }
    }
  }

  // What follows the namespace phase leaves the label as it is; after a phase that wrote it nothing follows.
  lemma ThenNamespacesCommits(e: Env, s: State, name: string)
    requires Synced(s) && NoRoleNamespaces(e, s.objs, s.cur)
    ensures var s1 := NamespacePhase(e, s).0;
      ThenNamespaces(e, s).0.objs == s1.objs
      || (s1.objs == s.objs && RefLabel(ThenNamespaces(e, s).0.objs, name) == RefLabel(s.objs, name))
  {
    NamespacePhaseEffect(e, s);
    var (s1, p) := NamespacePhase(e, s);
    if p.Unchanged? {
      NoRoleNamespacesSame(e, s.objs, s1.objs, s.cur, s1.cur);
      RolePhaseNamespaces(e, s1, name);
      SetReadyKeeps(e, RolePhase(e, s1).0);
    }
  }
}
