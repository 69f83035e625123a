// Reconciles that fail do not get in the way of convergence later.
module FailingRounds {
  import opened Names
  import opened Cluster
  import opened ClusterPasses
  import opened ClusterRecovery
  import opened Namespaces
  import opened NamespacePasses
  import opened RolePasses
  import opened ProvisionedSoundness
  import opened CommitMarker
  import opened RoleRuns
  import opened Reconciler
  import opened Convergence
  import opened ConvergenceRuns
  import DR = DeletionRuns
  import CRuns = ClusterRuns
  import SR = SpaceRoles
  import RH = RoleHistory

  // ---- Each phase, cut anywhere, leaves a good space good ----

  lemma NamespacesKeptGood(e: Env, objs: Objects, objs': Objects, t: NSTemplateSet, tiers: seq<Tier>, rr: set<string>)
    requires GoodSpace(e, objs, t, tiers, rr) && forall x :: At(objs', NsKey(x)) == At(objs, NsKey(x))
    ensures GoodSpace(e, DR.Settle(objs'), t, tiers, rr)
  {
    assert At(objs', NsKey("")) == At(objs, NsKey(""));
    GoodStep(e, objs, objs', t, tiers, "", rr);
  }

  lemma GoneKeepsGood(e: Env, objs: Objects, t: NSTemplateSet, tiers: seq<Tier>, f: Effect, rr: set<string>)
    requires GoodSpace(e, objs, t, tiers, rr) && f.Gone?
    ensures GoodSpace(e, DR.Settle(On(e, objs, t.name, f)), t, tiers, rr)
  {
    var objs' := On(e, objs, t.name, f);
    SettleAt(objs', NsKey(f.name));
    GoodStep(e, objs, objs', t, tiers, f.name, rr);
  }

  lemma StampedKeepsGood(e: Env, objs: Objects, t: NSTemplateSet, tiers: seq<Tier>, i: nat, f: Effect, rr: set<string>)
    requires GoodTemplates(e, t, rr) && tiers == Tiers(e, t) && GoodSpace(e, objs, t, tiers, rr) && i < |tiers|
    requires f == Stamp(tiers[i], 1) && Fits(e, t.name, f)
    ensures GoodSpace(e, DR.Settle(On(e, objs, t.name, f)), t, tiers, rr)
  {
    var h := Home(tiers[i], t.name);
    MadeNs(e, objs, t, tiers, i, rr);
    MadeGood(e, objs, t, tiers, i, rr);
    GoodStep(e, objs, On(e, objs, t.name, f), t, tiers, h, rr);
  }

  lemma OneFrame(e: Env, t: NSTemplateSet, tiers: seq<Tier>, i: nat, rr: set<string>)
    requires GoodTemplates(e, t, rr) && tiers == Tiers(e, t) && i < |tiers|
    ensures |Frame(tiers[i], t.name)| == 1
  {
    assert GoodTier(e, t.name, tiers[i], rr);
  }

  lemma StampNothing(e: Env, objs: Objects, t: NSTemplateSet, tiers: seq<Tier>, f: Effect, rr: set<string>)
    requires GoodSpace(e, objs, t, tiers, rr) && f.Stamp? && f.applied == 0
    ensures GoodSpace(e, DR.Settle(On(e, objs, t.name, f)), t, tiers, rr)
  {
    assert On(e, objs, t.name, f) == objs;
    NamespacesKeptGood(e, objs, objs, t, tiers, rr);
  }

  lemma FilledOnlyHome(e: Env, objs: Objects, space: string, f: Effect)
    requires f.Fill? && Fits(e, space, f)
    ensures forall x :: !(f.marked && x == f.n.name) ==> At(On(e, objs, space, f), NsKey(x)) == At(objs, NsKey(x))
    ensures f.marked ==> At(On(e, objs, space, f), NsKey(f.n.name)) == Some(Marked(f.n.obj, f.tier))
  {
    forall x | !(f.marked && x == f.n.name) ensures At(On(e, objs, space, f), NsKey(x)) == At(objs, NsKey(x)) {
      FilledNamespaces(e, objs, space, f.tier, f.n, f.deleted, f.applied, x);
    }
  }

  lemma PartlyFilledKeepsGood(e: Env, objs: Objects, t: NSTemplateSet, tiers: seq<Tier>, f: Effect, rr: set<string>)
    requires GoodSpace(e, objs, t, tiers, rr) && f.Fill? && !f.marked && Fits(e, t.name, f)
    ensures GoodSpace(e, DR.Settle(On(e, objs, t.name, f)), t, tiers, rr)
  {
    FilledOnlyHome(e, objs, t.name, f);
    NamespacesKeptGood(e, objs, On(e, objs, t.name, f), t, tiers, rr);
  }

  lemma FilledKeepsGood(e: Env, objs: Objects, t: NSTemplateSet, tiers: seq<Tier>, i: nat, f: Effect, rr: set<string>)
    requires GoodTemplates(e, t, rr) && tiers == Tiers(e, t) && GoodSpace(e, objs, t, tiers, rr) && i < |tiers|
    requires f.Fill? && f.marked && Fits(e, t.name, f) && f.tier == tiers[i]
    requires f.n.name == Home(tiers[i], t.name) && IsOwned(objs, t.name, f.n)
    ensures GoodSpace(e, DR.Settle(On(e, objs, t.name, f)), t, tiers, rr)
  {
    var objs', n := On(e, objs, t.name, f), f.n;
    FilledOnlyHome(e, objs, t.name, f);
    assert GoodNs(e, n.obj, n.name, t, tiers, rr);
    assert !n.obj.terminating;
    MarkedGood(e, t, tiers, i, n, rr);
    SettleAt(objs', NsKey(n.name));
    GoodStep(e, objs, objs', t, tiers, n.name, rr);
  }

  // What the decision says of an effect that is part of it.
  ghost predicate Aims(objs: Objects, t: NSTemplateSet, tiers: seq<Tier>, f: Effect, i: nat) {
    match f
    case Quiet => true
    case Gone(_) => true
    case Stamp(tier, _) => i < |tiers| && tier == tiers[i]
    case Fill(tier, n, _, _, _) =>
      i < |tiers| && tier == tiers[i] && n.name == Home(tier, t.name) && IsOwned(objs, t.name, n)
  }

  lemma AimedKeepsGood(e: Env, objs: Objects, t: NSTemplateSet, tiers: seq<Tier>, f: Effect, i: nat, rr: set<string>)
    requires GoodTemplates(e, t, rr) && tiers == Tiers(e, t) && GoodSpace(e, objs, t, tiers, rr)
    requires Fits(e, t.name, f) && Aims(objs, t, tiers, f, i)
    ensures GoodSpace(e, DR.Settle(On(e, objs, t.name, f)), t, tiers, rr)
  {
    if f.Quiet? {
      NamespacesKeptGood(e, objs, On(e, objs, t.name, f), t, tiers, rr);
    } else if f.Gone? {
      GoneKeepsGood(e, objs, t, tiers, f, rr);
    } else if f.Stamp? {
      OneFrame(e, t, tiers, i, rr);
      if f.applied == 0 {
        StampNothing(e, objs, t, tiers, f, rr);
      } else {
        StampedKeepsGood(e, objs, t, tiers, i, f, rr);
      }
    } else if f.marked {
      FilledKeepsGood(e, objs, t, tiers, i, f, rr);
    } else {
      PartlyFilledKeepsGood(e, objs, t, tiers, f, rr);
    }
  }

  lemma EffectKeepsGood(e: Env, objs: Objects, t: NSTemplateSet, tiers: seq<Tier>, f: Effect, rr: set<string>)
    requires GoodTemplates(e, t, rr) && tiers == Tiers(e, t) && GoodSpace(e, objs, t, tiers, rr)
    requires Fits(e, t.name, f) && PartOf(f, Decide(e, objs, t.name, t.namespaces))
    ensures GoodSpace(e, DR.Settle(On(e, objs, t.name, f)), t, tiers, rr)
  {
    var i := DecideMeans(e, objs, t, tiers, rr);
    AimedKeepsGood(e, objs, t, tiers, f, i, rr);
  }

  lemma GoodRolesIn(e: Env, objs: Objects, t: NSTemplateSet, tiers: seq<Tier>, rr: set<string>)
    requires GoodTemplates(e, t, rr) && GoodSpace(e, objs, t, tiers, rr)
    ensures RolesLocal(e, rr) && RolesIn(objs, t.name, t.roles, rr)
  {
    forall x | Owns(objs, t.name, x) ensures CRuns.NoteFrom(objs[NsKey(x)], rr) {
      assert GoodNs(e, objs[NsKey(x)], x, t, tiers, rr);
    }
  }

  lemma AnnotatedGood(e: Env, o: Object, x: string, t: NSTemplateSet, tiers: seq<Tier>, rr: set<string>)
    requires GoodNs(e, o, x, t, tiers, rr) && From(SR.Items(t.roles), rr)
    ensures GoodNs(e, SR.Annotated(o, t.roles), x, t, tiers, rr)
  {}

  lemma RolePhaseKeepsGood(e: Env, s: State, tiers: seq<Tier>, rr: set<string>)
    requires Synced(s) && GoodTemplates(e, s.cur, rr) && GoodSpace(e, s.objs, s.cur, tiers, rr)
    ensures GoodSpace(e, DR.Settle(RolePhase(e, s).0.objs), s.cur, tiers, rr)
  {
    var nss, r := Owned(s.objs, s.cur.name), RolePhase(e, s).0.objs;
    var d, p, q := RolePhaseDone(e, s, nss);
    GoodRolesIn(e, s.objs, s.cur, tiers, rr);
    LocalNoRoleNamespaces(e, s.objs, s.cur, rr);
    if r == s.objs {
      NamespacesKeptGood(e, s.objs, r, s.cur, tiers, rr);
    } else {
      forall x
        ensures if d < |nss| && p.noted && x == nss[d].name then
                  && At(s.objs, NsKey(x)) == Some(nss[d].obj)
                  && At(r, NsKey(x)) == Some(SR.Annotated(nss[d].obj, s.cur.roles))
                else
                  At(r, NsKey(x)) == At(s.objs, NsKey(x))
      {
        EachDoneNamespaces(e, s.objs, s.cur, nss, d, p, r, q, x);
      }
      if d < |nss| && p.noted {
        AnnotatedKeepsGood(e, s.objs, r, s.cur, tiers, nss, d, rr);
      } else {
        NamespacesKeptGood(e, s.objs, r, s.cur, tiers, rr);
      }
    }
  }

  lemma AnnotatedKeepsGood(e: Env, objs: Objects, r: Objects, t: NSTemplateSet, tiers: seq<Tier>, nss: seq<Ns>, d: nat,
                           rr: set<string>)
    requires GoodTemplates(e, t, rr) && GoodSpace(e, objs, t, tiers, rr) && nss == Owned(objs, t.name) && d < |nss|
    requires forall x :: x != nss[d].name ==> At(r, NsKey(x)) == At(objs, NsKey(x))
    requires At(r, NsKey(nss[d].name)) == Some(SR.Annotated(nss[d].obj, t.roles))
    ensures GoodSpace(e, DR.Settle(r), t, tiers, rr)
  {
    var n := nss[d];
    OwnedMembers(objs, t.name);
    assert n in nss && GoodNs(e, n.obj, n.name, t, tiers, rr);
    AnnotatedGood(e, n.obj, n.name, t, tiers, rr);
    SettleAt(r, NsKey(n.name));
    assert !objs[NsKey(n.name)].terminating;
    GoodStep(e, objs, r, t, tiers, n.name, rr);
  }

  // ---- The whole reconcile ----

  lemma LaterKeepsGood(e: Env, s: State, tiers: seq<Tier>, rr: set<string>)
    requires Synced(s) && GoodTemplates(e, s.cur, rr) && tiers == Tiers(e, s.cur)
    requires GoodSpace(e, s.objs, s.cur, tiers, rr)
    ensures GoodSpace(e, DR.Settle(ThenNamespaces(e, s).0.objs), s.cur, tiers, rr)
  {
    NamespacePhaseEffect(e, s);
    NamespacePhaseObjs(e, s);
    var f := EnsureEffect(e, s);
    var (s1, p) := NamespacePhase(e, s);
    EffectKeepsGood(e, s.objs, s.cur, tiers, f, rr);
    if p.Unchanged? {
      GoodSameSpec(e, s1.objs, s.cur, s1.cur, rr);
      RolePhaseKeepsGood(e, s1, tiers, rr);
      var s2 := RolePhase(e, s1).0;
      GoodSameSpec(e, DR.Settle(s2.objs), s.cur, s1.cur, rr);
      CRuns.SetReadyStatus(e, s2);
    }
  }

  lemma ProvideKeepsGood(e: Env, s: State, tiers: seq<Tier>, rr: set<string>)
    requires s.saved == s.cur && GoodTemplates(e, s.cur, rr) && tiers == Tiers(e, s.cur)
    requires GoodSpace(e, s.objs, s.cur, tiers, rr)
    requires ClusterShaped(e, s.cur.name, s.cur.cluster) && ClusterShaped(e, s.cur.name, s.cur.status.cluster)
    ensures GoodSpace(e, DR.Settle(Provide(e, s).0.objs), s.saved, tiers, rr)
  {
    AddFinalizerEffect(e, s);
    NamespacesKeptGood(e, s.objs, s.objs, s.saved, tiers, rr);
    var (s1, ok1) := AddFinalizer(e, s);
    if ok1 {
      SyncedStatus(s1);
      GoodSameSpec(e, s1.objs, s.saved, s1.cur, rr);
      ClusterPhaseStep(e, s1, tiers, rr);
      var (s2, ok2) := ClusterPhase(e, s1);
      forall x ensures At(s2.objs, NsKey(x)) == At(s.objs, NsKey(x)) { ClusterPhaseScope(e, s1, NsKey(x)); }
      NamespacesKeptGood(e, s.objs, s2.objs, s.saved, tiers, rr);
      if ok2 {
        ClusterPhaseEffect(e, s1);
        GoodSameSpec(e, s2.objs, s1.cur, s2.cur, rr);
        LaterKeepsGood(e, s2, tiers, rr);
        GoodSameSpec(e, DR.Settle(ThenNamespaces(e, s2).0.objs), s.saved, s2.cur, rr);
      }
    }
  }

  // Whatever fails in a reconcile, when the environment has settled the space is good again.
  lemma RoundKeepsGood(e: Env, s: State, rr: set<string>)
    requires Good(e, s, rr)
    ensures Good(e, DR.Round(e, s), rr) && SameSpec(s.saved, DR.Round(e, s).saved)
  {
    var t, tiers := s.saved, Tiers(e, s.saved);
    var (s0, ok) := Read(e, Fetched(s));
    NamespacesKeptGood(e, s.objs, s.objs, t, tiers, rr);
    if ok {
      ProvideKeepsGood(e, s0, tiers, rr);
      CRuns.ProvideStatus(e, s0);
    }
    var s' := DR.Round(e, s);
    GoodSameSpec(e, s'.objs, t, s'.saved, rr);
    assert s'.saved.status.cluster in {t.status.cluster, t.cluster};
  }

  // ---- Runs of failing reconciles ----

  lemma {:induction false} TiersOfSame(e: Env, e': Env, refs: seq<string>)
    requires e.tiers == e'.tiers
    ensures TiersOf(e, refs) == TiersOf(e', refs)
  {
    if refs != [] { TiersOfSame(e, e', refs[1..]); }
  }

  ghost predicate SameHost(e: Env, e': Env) { e.tiers == e'.tiers && e.groups == e'.groups }

  lemma InsideSame(e: Env, e': Env, ms: seq<Manifest>, home: string, rr: set<string>)
    requires SameHost(e, e') && Inside(e, ms, home, rr)
    ensures Inside(e', ms, home, rr)
  {
    forall m, n | m in ms ensures !RoleKey(e', rr, n, m.key) {
      if RoleKey(e', rr, n, m.key) { RH.RoleKeySame(e', e, rr, n, m.key); }
    }
  }

  lemma GoodTierSame(e: Env, e': Env, space: string, t: Tier, rr: set<string>)
    requires SameHost(e, e') && GoodTier(e, space, t, rr)
    ensures GoodTier(e', space, t, rr)
  {
    InsideSame(e, e', Content(t, space), Frame(t, space)[0].key.name, rr);
    assert AvailableKeys(e, Content(t, space)) == AvailableKeys(e', Content(t, space));
  }

  lemma GoodTemplatesSame(e: Env, e': Env, t: NSTemplateSet, rr: set<string>)
    requires SameHost(e, e') && GoodTemplates(e, t, rr)
    ensures GoodTemplates(e', t, rr) && Tiers(e', t) == Tiers(e, t)
  {
    TiersOfSame(e, e', t.namespaces);
    var tiers := Tiers(e, t);
    forall n, roles, m ensures Yields(e, n, roles, m) == Yields(e', n, roles, m) { RH.YieldsSame(e, e', n, roles, m); }
    forall i | 0 <= i < |tiers|
      ensures GoodTier(e', t.name, tiers[i], rr) && RoleManifests(e', Home(tiers[i], t.name), SR.Items(t.roles)).Some?
    {
      GoodTierSame(e, e', t.name, tiers[i], rr);
      CRuns.RoleManifestsSame(e, e', Home(tiers[i], t.name), SR.Items(t.roles));
    }
  }

  lemma GoodNsSameHost(e: Env, e': Env, o: Object, x: string, t: NSTemplateSet, tiers: seq<Tier>, rr: set<string>)
    requires SameHost(e, e') && GoodNs(e, o, x, t, tiers, rr)
    ensures GoodNs(e', o, x, t, tiers, rr)
  {
    CRuns.RoleManifestsSame(e, e', x, SR.Items(LastApplied(o).value));
    CRuns.RoleManifestsSame(e, e', x, SR.Items(t.roles));
    var ref := LabelOf(o.labels, TemplateRef);
    assert TierAt(e, ref) == TierAt(e', ref);
    if ref != "" { InsideSame(e, e', Content(TierAt(e, ref).value, t.name), x, rr); }
  }

  lemma GoodSame(e: Env, e': Env, s: State, rr: set<string>)
    requires SameHost(e, e') && Good(e, s, rr)
    ensures Good(e', s, rr)
  {
    var t := s.saved;
    GoodTemplatesSame(e, e', t, rr);
    forall x | Owns(s.objs, t.name, x) ensures GoodNs(e', s.objs[NsKey(x)], x, t, Tiers(e, t), rr) {
      GoodNsSameHost(e, e', s.objs[NsKey(x)], x, t, Tiers(e, t), rr);
    }
    assert RefManifests(e, t.name, t.cluster) == RefManifests(e', t.name, t.cluster);
    assert RefManifests(e, t.name, t.status.cluster) == RefManifests(e', t.name, t.status.cluster);
  }

  // Reconciles with any failures, each followed by the environment.
  function Interrupted(e: Env, s: State, fates: seq<nat -> Fate>): State
    decreases |fates|
  {
    if fates == [] then s else Interrupted(e, DR.Round(e.(fate := fates[0]), s), fates[1..])
  }

  lemma {:induction false} InterruptedKeepsGood(e: Env, s: State, fates: seq<nat -> Fate>, rr: set<string>)
    requires Good(e, s, rr)
    ensures Good(e, Interrupted(e, s, fates), rr) && Interrupted(e, s, fates).saved.namespaces == s.saved.namespaces
    decreases |fates|
  {
    if fates != [] {
      var e' := e.(fate := fates[0]);
      GoodSame(e, e', s, rr);
      RoundKeepsGood(e', s, rr);
      GoodSame(e', e, DR.Round(e', s), rr);
      InterruptedKeepsGood(e, DR.Round(e', s), fates[1..], rr);
    }
  }

  // After any number of reconciles failing anywhere, those without failures come to Ready within the bound.
  lemma ConvergesAfterFailures(e: Env, s: State, fates: seq<nat -> Fate>, rr: set<string>) returns (h: seq<State>)
    requires NoFaults(e) && Good(e, s, rr)
    ensures var s' := Interrupted(e, s, fates);
      && Good(e, s', rr) && 0 < |h| <= WorkLeft(e, s') + 1 && h[0] == s' && History(e, h) && ReadyNow(e, h[|h| - 1])
      && |h| <= 2 * |OwnedNames(s'.objs, s'.saved.name)| + 6 * |s.saved.namespaces| + 1
  {
    InterruptedKeepsGood(e, s, fates, rr);
    var s' := Interrupted(e, s, fates);
    h := Converges(e, s', rr);
    WorkBound(e, s');
  }
}
