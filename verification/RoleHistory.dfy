// The containment of space-role objects in every run of whole reconciles.
module RoleHistory {
  import opened Names
  import opened Cluster
  import opened Applying
  import opened Passes
  import opened ClusterPasses
  import opened ClusterRecovery
  import opened NamespacePasses
  import opened RolePasses
  import opened DeletionPasses
  import opened ProvisionedSoundness
  import opened CommitMarker
  import opened CRuns = ClusterRuns
  import opened RoleRuns
  import opened Reconciler
  import NS = Namespaces
  import SR = SpaceRoles

  // Namespace templates generate no role objects.
  ghost predicate Apart(e: Env, space: string, refs: Refs) {
    && RolesLocal(e, refs.roles)
    && (forall ref, m, n ::
          ref in refs.namespaces && TierAt(e, ref).Some? && m in Content(TierAt(e, ref).value, space) ==>
          !RoleKey(e, refs.roles, n, m.key))
  }

  // Objects live in existing namespaces, and a namespace of the templates exists only if it is the space's.
  ghost predicate Housed(e: Env, objs: Objects, t: NSTemplateSet) {
    && (forall k :: k in objs && k.ns != "" ==> NsKey(k.ns) in objs)
    && (forall ref, x :: ref in t.namespaces && TierAt(e, ref).Some? && NsKey(x) in objs ==>
          NsKey(x) in Keys(Frame(TierAt(e, ref).value, t.name)) ==> Owns(objs, t.name, x))
  }

  lemma UntouchedRespects(e: Env, objs: Objects, objs': Objects, space: string, want: SR.Roles, refs: set<string>)
    requires RolesLocal(e, refs)
    requires forall k: Key :: !ClusterScoped(k) ==> At(objs', k) == At(objs, k)
    ensures Respects(e, objs, objs', space, want, refs)
  {
    forall n | Owns(objs', space, n) ensures Owns(objs, space, n) && objs'[NsKey(n)] == objs[NsKey(n)] {
      assert At(objs', NsKey(n)) == At(objs, NsKey(n));
    }
    forall n, k | RoleKey(e, refs, n, k) && Live(objs', k) ensures Live(objs, k) {
      RoleKeyLocal(e, refs, n, k);
      assert At(objs', k) == At(objs, k);
    }
  }

  // ---- Creating and refreshing namespaces ----

  // Of what the recorded roles generated, nothing is alive but what the roles of the spec generate as well.
  ghost predicate Forgettable(e: Env, objs: Objects, x: string, want: SR.Roles)
    requires NsKey(x) in objs
  {
    var ns := Ns(x, objs[NsKey(x)]);
    forall m :: m in Olds(e, ns) && Live(objs, m.key) ==> m.key in Keys(News(e, ns, want))
  }

  lemma RecordedIsForgettable(e: Env, objs: Objects, x: string, want: SR.Roles)
    requires NsKey(x) in objs && LastApplied(objs[NsKey(x)]) == Some(want)
    ensures Forgettable(e, objs, x, want)
  {}

  // The namespaces of the space that a reconcile of this state would apply again, annotations included.
  predicate Refreshes(e: Env, objs: Objects, t: NSTemplateSet, x: string) {
    var p := Decide(e, objs, t.name, t.namespaces);
    p.Make? && Owns(objs, t.name, x) && NsKey(x) in AvailableKeys(e, Frame(p.tier, t.name))
  }

  // Applying keeps annotations, or no namespace that is applied again needs the one it has.
  ghost predicate NotesSafe(e: Env, objs: Objects, t: NSTemplateSet) {
    e.keepNotes || forall x :: Refreshes(e, objs, t, x) ==> Forgettable(e, objs, x, t.roles)
  }

  // As is the case once every namespace to be applied again has recorded the roles of the spec.
  lemma RecordedIsSafe(e: Env, objs: Objects, t: NSTemplateSet)
    requires forall x :: Refreshes(e, objs, t, x) ==> LastApplied(objs[NsKey(x)]) == Some(t.roles)
    ensures NotesSafe(e, objs, t)
  {
    forall x | Refreshes(e, objs, t, x) ensures Forgettable(e, objs, x, t.roles) {
      RecordedIsForgettable(e, objs, x, t.roles);
    }
  }

  lemma {:induction false} StampAllNote(e: Env, objs: Objects, ms: seq<Manifest>, labels: Labels, k: Key)
    requires e.keepNotes && k in objs && k.gvk.kind.Namespace?
    requires forall m :: m in ms ==> LastAppliedSpaceRoles !in m.notes
    ensures k in StampAll(e, objs, ms, labels) && LastApplied(StampAll(e, objs, ms, labels)[k]) == LastApplied(objs[k])
    decreases |ms|
  {
    if ms != [] {
      var next := if Available(e, ms[0]) then StampIn(e, objs, ms[0], labels) else objs;
      assert LastApplied(next[k]) == LastApplied(objs[k]);
      StampAllNote(e, next, ms[1..], labels, k);
    }
  }

  // What a refresh, cut anywhere, does to the space: role objects stay, and new namespaces have none.
  lemma StampKeepsRoleKeys(e: Env, objs: Objects, space: string, t: Tier, applied: nat, n: string, k: Key,
                           refs: set<string>)
    requires RolesLocal(e, refs) && applied <= |Frame(t, space)| && RoleKey(e, refs, n, k)
    ensures At(On(e, objs, space, Stamp(t, applied)), k) == At(objs, k)
  {
    RoleKeyLocal(e, refs, n, k);
    StampAllElsewhere(e, objs, Frame(t, space)[..applied], NS.NsLabels(space, t), k);
  }

  lemma ForgettableLeavesOnly(e: Env, objs: Objects, objs': Objects, x: string, want: SR.Roles, refs: set<string>)
    requires NsKey(x) in objs && NsKey(x) in objs' && Within(e, objs, x, want, refs) && Forgettable(e, objs, x, want)
    requires forall k :: RoleKey(e, refs, x, k) ==> At(objs', k) == At(objs, k)
    ensures OnlyOf(e, objs', x, want, refs)
  {
    var ns, ns' := Ns(x, objs[NsKey(x)]), Ns(x, objs'[NsKey(x)]);
    NewsByName(e, ns, ns', want);
    forall k | RoleKey(e, refs, x, k) && Live(objs', k) ensures k in Keys(News(e, ns', want)) {
      assert At(objs', k) == At(objs, k);
      if k in Keys(Olds(e, ns)) { var m :| m in Olds(e, ns) && m.key == k; }
    }
  }

  lemma StampedNamespaceRespects(e: Env, objs: Objects, space: string, t: Tier, applied: nat, want: SR.Roles,
                                 refs: set<string>, n: string)
    requires RolesLocal(e, refs) && applied <= |Frame(t, space)| && RolesContained(e, objs, space, want, refs)
    requires forall m :: m in Frame(t, space) ==> LastAppliedSpaceRoles !in m.notes
    requires forall k :: k in objs && k.ns != "" ==> NsKey(k.ns) in objs
    requires NsKey(n) in Keys(Frame(t, space)) && NsKey(n) in objs ==> Owns(objs, space, n)
    requires !e.keepNotes && NsKey(n) in AvailableKeys(e, Frame(t, space)) && Owns(objs, space, n) ==>
      Forgettable(e, objs, n, want)
    requires Owns(On(e, objs, space, Stamp(t, applied)), space, n)
    requires forall k :: RoleKey(e, refs, n, k) ==> At(On(e, objs, space, Stamp(t, applied)), k) == At(objs, k)
    ensures var objs' := On(e, objs, space, Stamp(t, applied));
      || (Owns(objs, space, n) && LastApplied(objs'[NsKey(n)]) == LastApplied(objs[NsKey(n)]))
      || OnlyOf(e, objs', n, want, refs)
  {
    var ms, labels := Frame(t, space)[..applied], NS.NsLabels(space, t);
    var objs' := StampAll(e, objs, ms, labels);
    if NsKey(n) !in objs {
      forall k | RoleKey(e, refs, n, k) ensures !Live(objs', k) {
        RoleKeyLocal(e, refs, n, k);
        assert At(objs', k) == At(objs, k);
      }
    } else if NsKey(n) !in AvailableKeys(e, Frame(t, space)) {
      StampAllElsewhere(e, objs, ms, labels, NsKey(n));
    } else if e.keepNotes {
      StampAllNote(e, objs, ms, labels, NsKey(n));
    } else {
      assert Within(e, objs, n, want, refs);
      ForgettableLeavesOnly(e, objs, objs', n, want, refs);
    }
  }

  lemma StampRespects(e: Env, objs: Objects, space: string, t: Tier, applied: nat, want: SR.Roles, refs: set<string>)
    requires RolesLocal(e, refs) && applied <= |Frame(t, space)| && RolesContained(e, objs, space, want, refs)
    requires forall m :: m in Frame(t, space) ==> LastAppliedSpaceRoles !in m.notes
    requires forall k :: k in objs && k.ns != "" ==> NsKey(k.ns) in objs
    requires forall x :: NsKey(x) in Keys(Frame(t, space)) && NsKey(x) in objs ==> Owns(objs, space, x)
    requires e.keepNotes || forall x :: NsKey(x) in AvailableKeys(e, Frame(t, space)) && Owns(objs, space, x) ==>
      Forgettable(e, objs, x, want)
    ensures Respects(e, objs, On(e, objs, space, Stamp(t, applied)), space, want, refs)
  {
    var objs' := On(e, objs, space, Stamp(t, applied));
    forall n, k | RoleKey(e, refs, n, k) ensures At(objs', k) == At(objs, k) {
      StampKeepsRoleKeys(e, objs, space, t, applied, n, k, refs);
    }
    forall n | Owns(objs', space, n)
      ensures (forall k :: RoleKey(e, refs, n, k) && Live(objs', k) ==> Live(objs, k))
      ensures (Owns(objs, space, n) && LastApplied(objs'[NsKey(n)]) == LastApplied(objs[NsKey(n)]))
        || OnlyOf(e, objs', n, want, refs)
    {
      forall k | RoleKey(e, refs, n, k) && Live(objs', k) ensures Live(objs, k) { assert At(objs', k) == At(objs, k); }
      StampedNamespaceRespects(e, objs, space, t, applied, want, refs, n);
    }
  }

  // ---- Filling namespaces ----

  lemma FillRespects(e: Env, objs: Objects, space: string, f: Effect, want: SR.Roles, refs: set<string>)
    requires RolesLocal(e, refs) && f.Fill? && Fits(e, space, f) && At(objs, NsKey(f.n.name)) == Some(f.n.obj)
    requires forall m, n :: m in Content(f.tier, space) ==> !RoleKey(e, refs, n, m.key)
    requires forall m, n :: m in Outdated(e, space, f.n, f.tier) ==> !RoleKey(e, refs, n, m.key)
    ensures Respects(e, objs, On(e, objs, space, f), space, want, refs)
  {
    var olds, news := Outdated(e, space, f.n, f.tier)[..f.deleted], Content(f.tier, space)[..f.applied];
    var objs' := On(e, objs, space, f);
    forall n, k | RoleKey(e, refs, n, k) && Live(objs', k) ensures Live(objs, k) {
      RoleKeyLocal(e, refs, n, k);
      SweepAt(objs, olds, k);
      StampAllElsewhere(e, Sweep(objs, olds), news, NS.InnerLabels(space), k);
    }
    forall n | Owns(objs', space, n)
      ensures Owns(objs, space, n) && LastApplied(objs'[NsKey(n)]) == LastApplied(objs[NsKey(n)])
    {
      FilledNamespaces(e, objs, space, f.tier, f.n, f.deleted, f.applied, n);
    }
  }

  lemma OutdatedApart(e: Env, space: string, n: Ns, t: Tier, refs: Refs)
    requires Apart(e, space, refs) && (OldRef(n, t).Some? ==> OldRef(n, t).value in refs.namespaces)
    ensures forall m, x :: m in Outdated(e, space, n, t) ==> !RoleKey(e, refs.roles, x, m.key)
  {}

  // What the roles need of a state before the later phases.
  ghost predicate RolesReady(e: Env, objs: Objects, t: NSTemplateSet, refs: Refs) {
    && Apart(e, t.name, refs) && Shaped(e, t.name, refs) && SpecIn(t, refs) && NsIn(objs, refs)
    && Housed(e, objs, t) && NotesSafe(e, objs, t) && RolesContained(e, objs, t.name, t.roles, refs.roles)
  }

  lemma EffectRespects(e: Env, objs: Objects, t: NSTemplateSet, refs: Refs, f: Effect)
    requires RolesReady(e, objs, t, refs) && Fits(e, t.name, f) && Due(e, objs, t.name, t.namespaces, f)
    requires f.Stamp? && !e.keepNotes ==>
      forall x :: Owns(objs, t.name, x) && NsKey(x) in AvailableKeys(e, Frame(f.tier, t.name)) ==>
      Forgettable(e, objs, x, t.roles)
    ensures Respects(e, objs, On(e, objs, t.name, f), t.name, t.roles, refs.roles)
  {
    match f
    case Stamp(tier, applied) => StampRespects(e, objs, t.name, tier, applied, t.roles, refs.roles);
    case Fill(tier, n, _, _, _) =>
      assert NsRefs(objs, n.name, refs);
      OutdatedApart(e, t.name, n, tier, refs);
      FillRespects(e, objs, t.name, f, t.roles, refs.roles);
    case Gone(name) => GoneRespects(e, objs, t.name, name, t.roles, refs.roles);
    case Quiet => UntouchedRespects(e, objs, objs, t.name, t.roles, refs.roles);
  }

  lemma NamespacePhaseRespects(e: Env, s: State, refs: Refs)
    requires Synced(s) && RolesReady(e, s.objs, s.cur, refs)
    ensures Respects(e, s.objs, NamespacePhase(e, s).0.objs, s.cur.name, s.cur.roles, refs.roles)
  {
    NamespacePhaseObjs(e, s);
    var f := EnsureEffect(e, s);
    PartFromSpec(e, s.objs, s.cur.name, s.cur.namespaces, f);
    if f.Stamp? && !e.keepNotes {
      forall x | Owns(s.objs, s.cur.name, x) && NsKey(x) in AvailableKeys(e, Frame(f.tier, s.cur.name))
        ensures Forgettable(e, s.objs, x, s.cur.roles)
      {
        assert Refreshes(e, s.objs, s.cur, x);
      }
    }
    EffectRespects(e, s.objs, s.cur, refs, f);
  }

  lemma GoneRespects(e: Env, objs: Objects, space: string, name: string, want: SR.Roles, refs: set<string>)
    requires RolesLocal(e, refs)
    ensures Respects(e, objs, Put(objs, NsKey(name), Remains(NsKey(name), At(objs, NsKey(name)))), space, want, refs)
  {
    forall n, k | RoleKey(e, refs, n, k) ensures k != NsKey(name) { RoleKeyLocal(e, refs, n, k); }
  }

  // Deleting recorded cluster resources and marking a namespace respects the roles as well.
  lemma TearRespects(e: Env, s: State, want: SR.Roles, refs: set<string>)
    requires RolesLocal(e, refs) && s.saved.deleting && ClusterShaped(e, s.saved.name, s.saved.status.cluster)
    ensures Respects(e, s.objs, Reconcile(e, s).0.objs, s.saved.name, want, refs)
  {
    var (s0, ok) := Read(e, Fetched(s));
    var space := s.saved.name;
    if ok && s0.cur.finalizer {
      var mid := TearEffect(e, s0);
      forall k: Key | !ClusterScoped(k) ensures At(mid, k) == At(s.objs, k) {
        assert k !in Keys(Recorded(e, s.saved));
      }
      UntouchedRespects(e, s.objs, mid, space, want, refs);
      MarkFirstRespects(e, mid, space, want, refs);
      forall n | Owns(MarkFirst(mid, space), space, n) ensures Owns(mid, space, n) {
        MarkFirstOnlyMarks(mid, space, n);
      }
      RespectsTransitive(e, s.objs, mid, MarkFirst(mid, space), space, want, refs);
    } else {
      UntouchedRespects(e, s.objs, s.objs, space, want, refs);
    }
  }

  lemma MarkFirstOnlyMarks(objs: Objects, space: string, n: string)
    ensures Owns(MarkFirst(objs, space), space, n) ==> Owns(objs, space, n)
  {
    MarkFirstAt(objs, space, NsKey(n));
  }

  lemma MarkFirstRespects(e: Env, objs: Objects, space: string, want: SR.Roles, refs: set<string>)
    requires RolesLocal(e, refs)
    ensures Respects(e, objs, MarkFirst(objs, space), space, want, refs)
  {
    var nss := Owned(objs, space);
    if nss == [] || nss[0].obj.terminating {
      UntouchedRespects(e, objs, objs, space, want, refs);
    } else {
      GoneRespects(e, objs, space, nss[0].name, want, refs);
    }
  }

  lemma RespectsTransitive(e: Env, a: Objects, b: Objects, c: Objects, space: string, want: SR.Roles, refs: set<string>)
    requires Respects(e, a, b, space, want, refs) && Respects(e, b, c, space, want, refs)
    requires forall n :: Owns(c, space, n) ==> Owns(b, space, n)
    ensures Respects(e, a, c, space, want, refs)
  {
    forall n | Owns(c, space, n) && OnlyOf(e, b, n, want, refs) ensures OnlyOf(e, c, n, want, refs) {
      NewsByName(e, Ns(n, b[NsKey(n)]), Ns(n, c[NsKey(n)]), want);
    }
  }

  // ---- The decision does not depend on cluster-scoped objects ----

  lemma FineSame(objs: Objects, objs': Objects, n: Ns, t: Tier)
    requires n.name != "" && forall k: Key :: !ClusterScoped(k) ==> At(objs', k) == At(objs, k)
    ensures Fine(objs, n, t) == Fine(objs', n, t)
  {
    var space := LabelOf(n.obj.labels, Space);
    forall m
      ensures NS.Contains(objs, NS.ListedKey(n.name, m), space) == NS.Contains(objs', NS.ListedKey(n.name, m), space)
    {
      assert At(objs', NS.ListedKey(n.name, m)) == At(objs, NS.ListedKey(n.name, m));
    }
  }

  lemma {:induction false} PickSame(objs: Objects, objs': Objects, tiers: seq<Tier>, nss: seq<Ns>)
    requires Named(nss) && forall k: Key :: !ClusterScoped(k) ==> At(objs', k) == At(objs, k)
    ensures Pick(objs, tiers, nss) == Pick(objs', tiers, nss)
    decreases |tiers|
  {
    if tiers != [] {
      var n := NS.FindNamespace(nss, tiers[0].typeName);
      if n.Some? { FineSame(objs, objs', n.value, tiers[0]); }
      PickSame(objs, objs', tiers[1..], nss);
    }
  }

  lemma DecideSame(e: Env, objs: Objects, objs': Objects, space: string, refs: seq<string>)
    requires forall k: Key :: !ClusterScoped(k) ==> At(objs', k) == At(objs, k)
    ensures Decide(e, objs, space, refs) == Decide(e, objs', space, refs)
  {
    OwnedSame(objs, objs', space);
    OwnedAreNamed(objs, space);
    if TiersOf(e, refs).Some? { PickSame(objs, objs', TiersOf(e, refs).value, Owned(objs, space)); }
  }

  lemma ForgettableSame(e: Env, objs: Objects, objs': Objects, x: string, want: SR.Roles, refs: set<string>)
    requires RolesLocal(e, refs) && x != "" && NsKey(x) in objs && CRuns.NoteFrom(objs[NsKey(x)], refs)
    requires forall k: Key :: !ClusterScoped(k) ==> At(objs', k) == At(objs, k)
    ensures NsKey(x) in objs' && (Forgettable(e, objs, x, want) <==> Forgettable(e, objs', x, want))
  {
    assert At(objs', NsKey(x)) == At(objs, NsKey(x));
    var ns := Ns(x, objs[NsKey(x)]);
    if LastApplied(ns.obj).Some? { NewsAreLocal(e, ns, LastApplied(ns.obj).value, refs); }
    forall m | m in Olds(e, ns) ensures Live(objs, m.key) == Live(objs', m.key) {
      assert At(objs', m.key) == At(objs, m.key);
    }
  }

  lemma RolesReadySame(e: Env, objs: Objects, objs': Objects, t: NSTemplateSet, t': NSTemplateSet, refs: Refs)
    requires RolesReady(e, objs, t, refs) && SameSpec(t, t')
    requires forall k: Key :: !ClusterScoped(k) ==> At(objs', k) == At(objs, k)
    ensures RolesReady(e, objs', t', refs)
  {
    UntouchedRespects(e, objs, objs', t.name, t.roles, refs.roles);
    RespectsKeeps(e, objs, objs', t.name, t.roles, refs.roles);
    forall x ensures At(objs', NsKey(x)) == At(objs, NsKey(x)) {}
    NsInSame(objs, objs', refs);
    HousedSame(e, objs, objs', t);
    DecideSame(e, objs, objs', t.name, t.namespaces);
    if !e.keepNotes {
      forall x | Refreshes(e, objs', t', x) ensures Forgettable(e, objs', x, t'.roles) {
        assert At(objs', NsKey(x)) == At(objs, NsKey(x)) && NsRefs(objs, x, refs);
        assert Refreshes(e, objs, t, x);
        ForgettableSame(e, objs, objs', x, t.roles, refs.roles);
      }
    }
  }

  lemma HousedSame(e: Env, objs: Objects, objs': Objects, t: NSTemplateSet)
    requires Housed(e, objs, t) && forall k: Key :: !ClusterScoped(k) ==> At(objs', k) == At(objs, k)
    ensures Housed(e, objs', t)
  {
    forall k | k in objs' && k.ns != "" ensures NsKey(k.ns) in objs' {
      assert At(objs', k) == At(objs, k);
      assert At(objs', NsKey(k.ns)) == At(objs, NsKey(k.ns));
    }
    forall x | NsKey(x) in objs' ensures NsKey(x) in objs && objs'[NsKey(x)] == objs[NsKey(x)] {
      assert At(objs', NsKey(x)) == At(objs, NsKey(x));
    }
  }

  // ---- Runs ----

  ghost predicate RoleInv(e: Env, s: State, refs: Refs) {
    && Inv(e, s, refs) && Apart(e, s.saved.name, refs)
    && RolesContained(e, s.objs, s.saved.name, s.saved.roles, refs.roles)
  }

  // The roles are edited only once every namespace has recorded them.
  ghost predicate RoleAllowed(e: Env, s: State, ev: Event, refs: Refs) {
    && Allowed(e, s, ev, refs)
    && match ev
       case Pass(fate) => Housed(e, s.objs, s.saved) && NotesSafe(e.(fate := fate), s.objs, s.saved)
       case EditRoles(_) => forall n :: Owns(s.objs, s.saved.name, n) ==>
         LastApplied(s.objs[NsKey(n)]) == Some(s.saved.roles)
       case Outside(objs) => Respects(e, s.objs, objs, s.saved.name, s.saved.roles, refs.roles)
       case _ => true
  }

  ghost predicate RoleDisciplined(e: Env, s: State, evs: seq<Event>, refs: Refs)
    decreases |evs|
  {
    evs == [] || (RoleAllowed(e, s, evs[0], refs) && RoleDisciplined(e, Next(e, s, evs[0]), evs[1..], refs))
  }

  lemma InLocal(e: Env, objs: Objects, t: NSTemplateSet, refs: Refs)
    requires SpecIn(t, refs) && NsIn(objs, refs)
    ensures RolesIn(objs, t.name, t.roles, refs.roles)
  {
    forall x | Owns(objs, t.name, x) ensures CRuns.NoteFrom(objs[NsKey(x)], refs.roles) {
      assert NsRefs(objs, x, refs);
    }
  }

  // The cluster phase, as far as the roles are concerned.
  lemma AfterCluster(e: Env, s1: State, refs: Refs)
    requires Synced(s1) && RolesReady(e, s1.objs, s1.cur, refs)
    requires ClusterShaped(e, s1.cur.name, s1.cur.cluster) && ClusterShaped(e, s1.cur.name, s1.cur.status.cluster)
    ensures var (s2, ok2) := ClusterPhase(e, s1);
      && (forall k: Key :: !ClusterScoped(k) ==> At(s2.objs, k) == At(s1.objs, k))
      && RolesContained(e, s2.objs, s1.cur.name, s1.cur.roles, refs.roles)
      && (ok2 ==> Synced(s2) && SameSpec(s1.cur, s2.cur) && RolesReady(e, s2.objs, s2.cur, refs))
  {
    ClusterPhaseEffect(e, s1);
    var (s2, ok2) := ClusterPhase(e, s1);
    forall k: Key | !ClusterScoped(k) ensures At(s2.objs, k) == At(s1.objs, k) { ClusterPhaseScope(e, s1, k); }
    RolesReadySame(e, s1.objs, s2.objs, s1.cur, s1.cur, refs);
    if ok2 { RolesReadySame(e, s1.objs, s2.objs, s1.cur, s2.cur, refs); }
  }

  lemma LaterPhasesContained(e: Env, s2: State, refs: Refs)
    requires Synced(s2) && RolesReady(e, s2.objs, s2.cur, refs)
    ensures var (s3, p3) := NamespacePhase(e, s2); var (s4, p4) := RolePhase(e, s3);
      && RolesContained(e, s3.objs, s2.cur.name, s2.cur.roles, refs.roles)
      && (p3.Unchanged? ==> RolesContained(e, s4.objs, s2.cur.name, s2.cur.roles, refs.roles))
  {
    NamespacePhaseRespects(e, s2, refs);
    NamespacePhaseEffect(e, s2);
    var (s3, p3) := NamespacePhase(e, s2);
    RespectsKeeps(e, s2.objs, s3.objs, s2.cur.name, s2.cur.roles, refs.roles);
    if p3.Unchanged? {
      InLocal(e, s3.objs, s3.cur, refs);
      RolePhaseContained(e, s3, refs.roles);
    }
  }

  lemma ProvideRoles(e: Env, s: State, refs: Refs)
    requires RoleInv(e, s, refs) && Housed(e, s.objs, s.saved) && NotesSafe(e, s.objs, s.saved) && !s.saved.deleting
    ensures RolesContained(e, Reconcile(e, s).0.objs, s.saved.name, s.saved.roles, refs.roles)
  {
    var (s0, ok) := Read(e, Fetched(s));
    if ok {
      AddFinalizerEffect(e, s0);
      var (s1, ok1) := AddFinalizer(e, s0);
      if ok1 {
        SyncedStatus(s1);
        RolesReadySame(e, s.objs, s.objs, s.saved, s1.cur, refs);
        AfterCluster(e, s1, refs);
        var (s2, ok2) := ClusterPhase(e, s1);
        if ok2 {
          LaterPhasesContained(e, s2, refs);
          SetReadyStatus(e, RolePhase(e, NamespacePhase(e, s2).0).0);
        }
      }
    }
  }

  lemma RolePassInv(e: Env, s: State, refs: Refs)
    requires RoleInv(e, s, refs) && Housed(e, s.objs, s.saved) && NotesSafe(e, s.objs, s.saved)
    ensures RoleInv(e, Reconcile(e, s).0, refs)
  {
    PassInv(e, s, refs);
    if s.saved.deleting {
      TearRespects(e, s, s.saved.roles, refs.roles);
      TearContained(e, s);
      RespectsKeeps(e, s.objs, Reconcile(e, s).0.objs, s.saved.name, s.saved.roles, refs.roles);
    } else {
      ProvideContained(e, s, refs);
      ProvideRoles(e, s, refs);
    }
  }

  lemma YieldsSame(e: Env, e': Env, n: string, roles: seq<SpaceRole>, m: Manifest)
    requires e.tiers == e'.tiers
    ensures Yields(e, n, roles, m) == Yields(e', n, roles, m)
  {
    RoleManifestsSame(e, e', n, roles);
  }

  lemma RoleKeySame(e: Env, e': Env, refs: set<string>, n: string, k: Key)
    requires e.tiers == e'.tiers && RoleKey(e, refs, n, k)
    ensures RoleKey(e', refs, n, k)
  {
    var roles, m :| From(roles, refs) && Yields(e, n, roles, m) && m.key == k;
    YieldsSame(e, e', n, roles, m);
  }

  lemma ApartSame(e: Env, e': Env, space: string, refs: Refs)
    requires e.tiers == e'.tiers && Apart(e, space, refs)
    ensures Apart(e', space, refs)
    ensures forall n, k :: RoleKey(e, refs.roles, n, k) == RoleKey(e', refs.roles, n, k)
  {
    forall n, roles, m ensures Yields(e, n, roles, m) == Yields(e', n, roles, m) { YieldsSame(e, e', n, roles, m); }
    forall n, k ensures RoleKey(e, refs.roles, n, k) == RoleKey(e', refs.roles, n, k) {
      if RoleKey(e, refs.roles, n, k) { RoleKeySame(e, e', refs.roles, n, k); }
      if RoleKey(e', refs.roles, n, k) { RoleKeySame(e', e, refs.roles, n, k); }
    }
    assert forall ref :: TierAt(e, ref) == TierAt(e', ref);
  }

  lemma RoleInvSame(e: Env, e': Env, s: State, refs: Refs)
    requires RoleInv(e, s, refs) && e.tiers == e'.tiers
    ensures RoleInv(e', s, refs)
  {
    InvSame(e, e', s, refs);
    ApartSame(e, e', s.saved.name, refs);
    forall n | Owns(s.objs, s.saved.name, n) ensures Within(e', s.objs, n, s.saved.roles, refs.roles) {
      assert Within(e, s.objs, n, s.saved.roles, refs.roles);
      var ns := Ns(n, s.objs[NsKey(n)]);
      RoleManifestsSame(e, e', n, SR.Items(s.saved.roles));
      if LastApplied(ns.obj).Some? { RoleManifestsSame(e, e', n, SR.Items(LastApplied(ns.obj).value)); }
    }
  }

  lemma RoleEventInv(e: Env, s: State, ev: Event, refs: Refs)
    requires RoleInv(e, s, refs) && RoleAllowed(e, s, ev, refs)
    ensures RoleInv(e, Next(e, s, ev), refs)
  {
    EventInv(e, s, ev, refs);
    match ev
    case Pass(fate) =>
      var e' := e.(fate := fate);
      RoleInvSame(e, e', s, refs);
      assert Housed(e', s.objs, s.saved) by { assert forall ref :: TierAt(e, ref) == TierAt(e', ref); }
      RolePassInv(e', s, refs);
      RoleInvSame(e', e, Reconcile(e', s).0, refs);
    case EditRoles(roles) =>
      forall n | Owns(s.objs, s.saved.name, n) ensures Within(e, s.objs, n, roles, refs.roles) {
        assert Within(e, s.objs, n, s.saved.roles, refs.roles);
      }
    case Outside(objs) => RespectsKeeps(e, s.objs, objs, s.saved.name, s.saved.roles, refs.roles);
    case _ =>
  }

  // In every run, failures anywhere: the live role objects of each namespace of the space are generated by
  // its last applied roles or by the roles of the spec.
  lemma {:induction false} RolesContainedInRuns(e: Env, s: State, evs: seq<Event>, refs: Refs)
    requires RoleInv(e, s, refs) && RoleDisciplined(e, s, evs, refs)
    ensures RoleInv(e, Run(e, s, evs), refs)
    decreases |evs|
  {
    if evs != [] {
      RoleEventInv(e, s, evs[0], refs);
      RolesContainedInRuns(e, Next(e, s, evs[0]), evs[1..], refs);
    }
  }

  lemma ThenRolesAreExact(e: Env, s: State, n: Ns, k: Key, refs: set<string>)
    requires Synced(s) && RolesLocal(e, refs) && RolesIn(s.objs, s.cur.name, s.cur.roles, refs)
    requires RolesContained(e, s.objs, s.cur.name, s.cur.roles, refs) && RolePhase(e, s).1.Unchanged?
    requires IsOwned(s.objs, s.cur.name, n) && RoleKey(e, refs, n.name, k)
    ensures Live(ThenRoles(e, s).0.objs, k) <==> Kept(e, s.objs, News(e, n, s.cur.roles), k)
  {
    RolePhaseIsExact(e, s, n, k, refs);
    SetReadyStatus(e, RolePhase(e, s).0);
  }

  // The later phases, when they find nothing to do.
  lemma LaterRolesAreExact(e: Env, s: State, n: Ns, k: Key, refs: Refs)
    requires Synced(s) && RolesReady(e, s.objs, s.cur, refs) && LaterThrough(e, s)
    requires IsOwned(s.objs, s.cur.name, n) && RoleKey(e, refs.roles, n.name, k)
    ensures Live(ThenNamespaces(e, s).0.objs, k) <==> Kept(e, s.objs, News(e, n, s.cur.roles), k)
  {
    NamespacePhaseEffect(e, s);
    InLocal(e, s.objs, s.cur, refs);
    ThenRolesAreExact(e, NamespacePhase(e, s).0, n, k, refs.roles);
  }

  lemma KeptSame(e: Env, objs: Objects, objs': Objects, news: seq<Manifest>, k: Key)
    requires At(objs', k) == At(objs, k)
    ensures Kept(e, objs, news, k) == Kept(e, objs', news, k)
  {}

  lemma PhasesLeaveExact(e: Env, s: State, n: Ns, k: Key, refs: Refs)
    requires Synced(s) && RolesReady(e, s.objs, s.cur, refs)
    requires ClusterShaped(e, s.cur.name, s.cur.cluster) && ClusterShaped(e, s.cur.name, s.cur.status.cluster)
    requires ClusterPhase(e, s).1 && LaterThrough(e, ClusterPhase(e, s).0)
    requires IsOwned(s.objs, s.cur.name, n) && RoleKey(e, refs.roles, n.name, k)
    ensures Live(ThenNamespaces(e, ClusterPhase(e, s).0).0.objs, k) <==> Kept(e, s.objs, News(e, n, s.cur.roles), k)
  {
    AfterCluster(e, s, refs);
    var s2 := ClusterPhase(e, s).0;
    RoleKeyLocal(e, refs.roles, n.name, k);
    assert At(s2.objs, NsKey(n.name)) == At(s.objs, NsKey(n.name)) && At(s2.objs, k) == At(s.objs, k);
    LaterRolesAreExact(e, s2, n, k, refs);
    KeptSame(e, s.objs, s2.objs, News(e, n, s.cur.roles), k);
  }

  // The reconcile that gets to set Provisioned leaves of the role objects exactly those kept.
  lemma ReadyRolesAreExact(e: Env, s: State, n: Ns, k: Key, refs: Refs)
    requires RoleInv(e, s, refs) && Housed(e, s.objs, s.saved) && NotesSafe(e, s.objs, s.saved)
    requires Through(e, s) && IsOwned(s.objs, s.saved.name, n) && RoleKey(e, refs.roles, n.name, k)
    ensures Live(Reconcile(e, s).0.objs, k) <==> Kept(e, s.objs, News(e, n, s.saved.roles), k)
  {
    var s0 := Read(e, Fetched(s)).0;
    AddFinalizerEffect(e, s0);
    var s1 := AddFinalizer(e, s0).0;
    SyncedStatus(s1);
    RolesReadySame(e, s.objs, s.objs, s.saved, s1.cur, refs);
    PhasesLeaveExact(e, s1, n, k, refs);
  }

  // ---- A refresh that drops the annotation ----

  lemma {:induction false} StampAllForgets(e: Env, objs: Objects, ms: seq<Manifest>, labels: Labels, k: Key)
    requires !e.keepNotes && k.gvk.kind.Namespace? && forall m :: m in ms ==> LastAppliedSpaceRoles !in m.notes
    requires k in AvailableKeys(e, ms) || (k in objs && LastApplied(objs[k]) == Some(None))
    ensures var r := StampAll(e, objs, ms, labels); k in r && LastApplied(r[k]) == Some(None)
    decreases |ms|
  {
    if ms != [] {
      var next := if Available(e, ms[0]) then StampIn(e, objs, ms[0], labels) else objs;
      assert k in AvailableKeys(e, ms) <==> (Available(e, ms[0]) && ms[0].key == k) || k in AvailableKeys(e, ms[1..]);
      StampAllForgets(e, next, ms[1..], labels, k);
    }
  }

  // After a whole refresh containment holds in the namespace exactly if it could do without its annotation.
  lemma RefreshedIff(e: Env, objs: Objects, space: string, t: Tier, x: string, want: SR.Roles, refs: set<string>)
    requires !e.keepNotes && RolesLocal(e, refs) && x != "" && NsKey(x) in objs && Within(e, objs, x, want, refs)
    requires CRuns.NoteFrom(objs[NsKey(x)], refs) && NsKey(x) in AvailableKeys(e, Frame(t, space))
    requires forall m :: m in Frame(t, space) ==> LastAppliedSpaceRoles !in m.notes
    ensures var r := On(e, objs, space, Stamp(t, |Frame(t, space)|));
      NsKey(x) in r && (Within(e, r, x, want, refs) <==> Forgettable(e, objs, x, want))
  {
    var ms := Frame(t, space);
    var r := On(e, objs, space, Stamp(t, |ms|));
    assert ms[..|ms|] == ms;
    StampAllForgets(e, objs, ms, NS.NsLabels(space, t), NsKey(x));
    var was, ns := Ns(x, objs[NsKey(x)]), Ns(x, r[NsKey(x)]);
    NewsByName(e, was, ns, want);
    assert Olds(e, ns) == [];
    forall k | RoleKey(e, refs, x, k) ensures At(r, k) == At(objs, k) {
      StampKeepsRoleKeys(e, objs, space, t, |ms|, x, k, refs);
    }
    if Forgettable(e, objs, x, want) {
      ForgettableLeavesOnly(e, objs, r, x, want, refs);
    } else {
      var m :| m in Olds(e, was) && Live(objs, m.key) && m.key !in Keys(News(e, was, want));
      NewsAreRoleKeys(e, was, LastApplied(was.obj).value, refs, m.key);
      assert At(r, m.key) == At(objs, m.key);
    }
  }

  // The namespace phase that reports a change after deciding to make a namespace has done all of it.
  lemma MadeWhole(e: Env, s: State)
    requires Synced(s) && Decide(e, s.objs, s.cur.name, s.cur.namespaces).Make? && !ThenNamespaces(e, s).1.Error?
    ensures var t := Decide(e, s.objs, s.cur.name, s.cur.namespaces).tier;
      ThenNamespaces(e, s).0.objs == On(e, s.objs, s.cur.name, Stamp(t, |Frame(t, s.cur.name)|))
    ensures FromSpec(e, s.cur.namespaces, Decide(e, s.objs, s.cur.name, s.cur.namespaces).tier)
  {
    NamespacePhaseObjs(e, s);
    NamespacePhaseEffect(e, s);
    MadeProgress(e, s);
    var f := EnsureEffect(e, s);
    PartFromSpec(e, s.objs, s.cur.name, s.cur.namespaces, f);
  }

  lemma MadeProgress(e: Env, s: State)
    ensures NamespacePhase(e, s).1.Changed? ==> NS.Ensure(e, s).1.Changed?
    ensures !ThenNamespaces(e, s).1.Error? ==> !NamespacePhase(e, s).1.Failed?
    ensures NamespacePhase(e, s).1.Changed? ==> ThenNamespaces(e, s).0 == NamespacePhase(e, s).0
  {}

  lemma RefreshAfterCluster(e: Env, s: State, x: string, refs: Refs)
    requires Synced(s) && RolesLocal(e, refs.roles) && Shaped(e, s.cur.name, refs) && SpecIn(s.cur, refs)
    requires NsIn(s.objs, refs)
    requires RolesContained(e, s.objs, s.cur.name, s.cur.roles, refs.roles) && !e.keepNotes
    requires Refreshes(e, s.objs, s.cur, x) && !ThenNamespaces(e, s).1.Error?
    ensures var r := ThenNamespaces(e, s).0.objs;
      NsKey(x) in r && (Within(e, r, x, s.cur.roles, refs.roles) <==> Forgettable(e, s.objs, x, s.cur.roles))
  {
    MadeWhole(e, s);
    var t := Decide(e, s.objs, s.cur.name, s.cur.namespaces).tier;
    assert NsRefs(s.objs, x, refs);
    assert Within(e, s.objs, x, s.cur.roles, refs.roles);
    RefreshedIff(e, s.objs, s.cur.name, t, x, s.cur.roles, refs.roles);
  }

  // Where applying replaces annotations: a reconcile that refreshes a namespace and gets through keeps the role
  // objects there contained exactly if none is alive that only the recorded roles generate. Otherwise that
  // object is on no deletion list any more.
  lemma RefreshKeepsRolesIff(e: Env, s: State, x: string, refs: Refs)
    requires RoleInv(e, s, refs) && !s.saved.deleting && !e.keepNotes
    requires Refreshes(e, s.objs, s.saved, x) && !Reconcile(e, s).1.Error?
    ensures var r := Reconcile(e, s).0.objs;
      NsKey(x) in r && (Within(e, r, x, s.saved.roles, refs.roles) <==> Forgettable(e, s.objs, x, s.saved.roles))
  {
    var s0 := Read(e, Fetched(s)).0;
    AddFinalizerEffect(e, s0);
    var s1 := AddFinalizer(e, s0).0;
    SyncedStatus(s1);
    ClusterPhaseEffect(e, s1);
    ClusterPhaseNsIn(e, s1, refs);
    var (s2, ok2) := ClusterPhase(e, s1);
    forall k: Key | !ClusterScoped(k) ensures At(s2.objs, k) == At(s.objs, k) { ClusterPhaseScope(e, s1, k); }
    DecideSame(e, s.objs, s2.objs, s.saved.name, s.saved.namespaces);
    UntouchedRespects(e, s.objs, s2.objs, s.saved.name, s.saved.roles, refs.roles);
    RespectsKeeps(e, s.objs, s2.objs, s.saved.name, s.saved.roles, refs.roles);
    assert NsRefs(s.objs, x, refs);
    ForgettableSame(e, s.objs, s2.objs, x, s.saved.roles, refs.roles);
    assert At(s2.objs, NsKey(x)) == At(s.objs, NsKey(x));
    RefreshAfterCluster(e, s2, x, refs);
  }
}
