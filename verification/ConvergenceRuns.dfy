// Every reconcile without failures either makes the remaining work smaller or finds none and reports Ready.
module ConvergenceRuns {
  import opened Names
  import opened Cluster
  import opened Applying
  import opened Statuses
  import opened Passes
  import opened ClusterPasses
  import opened Namespaces
  import opened NamespacePasses
  import opened RolePasses
  import opened ProvisionedSoundness
  import opened CommitMarker
  import opened RoleRuns
  import opened Reconciler
  import opened Convergence
  import DR = DeletionRuns
  import CRuns = ClusterRuns
  import CR = ClusterResources
  import SR = SpaceRoles

  // ---- Without failures every call sequence gets through ----

  lemma {:induction false} ApplyAllWorks(e: Env, s: State, ms: seq<Manifest>, labels: Labels)
    requires NoFaults(e)
    ensures ApplyAll(e, s, ms, labels).1
    decreases |ms|
  {
    if ms != [] { ApplyAllWorks(e, ApplyOne(e, s, ms[0], labels).0, ms[1..], labels); }
  }

  lemma {:induction false} DeleteObsoleteWorks(e: Env, s: State, ms: seq<Manifest>, news: seq<Manifest>)
    requires NoFaults(e)
    ensures DeleteObsolete(e, s, ms, news).1
    decreases |ms|
  {
    if ms != [] {
      DeleteObsoleteWorks(e, s, ms[1..], news);
      DeleteObsoleteWorks(e, Delete(e, s, ms[0].key).0, ms[1..], news);
    }
  }

  lemma {:induction false} ApplyNewsWorks(e: Env, a: CR.Applier, ms: seq<Manifest>, labels: Labels)
    requires NoFaults(e)
    ensures CR.ApplyNews(e, a, ms, labels).1
    decreases |ms|
  {
    if ms != [] { ApplyNewsWorks(e, CR.ApplyNew(e, a, ms[0], labels).0, ms[1..], labels); }
  }

  lemma ClusterPhaseWorks(e: Env, s: State)
    requires NoFaults(e)
    requires RefManifests(e, s.cur.name, s.cur.cluster).Some? && RefManifests(e, s.cur.name, s.cur.status.cluster).Some?
    ensures ClusterPhase(e, s).1
  {
    if ClusterChanged(s.cur) {
      var (s1, new_) := CR.ProcessRef(e, s, s.cur.cluster);
      var (s2, old_) := CR.ProcessRef(e, s1, s.cur.status.cluster);
      var a0 := CR.Applier(s2, old_.value.1, false);
      var labels := CR.TierLabels(s.cur.name, new_.value.0);
      ApplyNewsWorks(e, a0, new_.value.1, labels);
      var (a, ok) := CR.ApplyNews(e, a0, new_.value.1, labels);
      var (a1, flagged) := if a.rest != [] then CR.Flag(e, a) else (a, true);
      DeleteObsoleteWorks(e, a1.s, a.rest, []);
    }
  }

  // The template a namespace was filled from before is still there.
  predicate OldReadable(e: Env, space: string, n: Ns, t: Tier) {
    var tier := if OldRef(n, t).Some? then TierAt(e, OldRef(n, t).value) else None;
    OldRef(n, t).Some? ==> tier.Some? && tier.value.process(Params(space, "", "")).Some?
  }

  lemma DropOldWorks(e: Env, s: State, n: Ns, t: Tier)
    requires NoFaults(e)
    requires OldReadable(e, s.cur.name, n, t)
    ensures DropOld(e, s, n, t, Content(t, s.cur.name)).1
  {
    if OldRef(n, t).Some? {
      var (s1, ok) := SetUpdatingIfNotProvisioning(e, s);
      var (s2, tier) := GetTier(e, s1, OldRef(n, t).value);
      DeleteObsoleteWorks(e, s2, Content(tier.value, s.cur.name), Content(t, s.cur.name));
    }
  }

  lemma EnsureInnerWorks(e: Env, s: State, t: Tier, n: Ns)
    requires NoFaults(e) && Synced(s) && t.process(Params(s.cur.name, "", "")).Some?
    requires At(s.objs, NsKey(n.name)) == Some(n.obj)
    requires OldReadable(e, s.cur.name, n, t)
    ensures EnsureInner(e, s, t, n).1.Changed?
  {
    var news := Content(t, s.cur.name);
    DropOldWorks(e, s, n, t);
    var i := DropOldCut(e, s, n, t);
    var (s1, swept) := DropOld(e, s, n, t, news);
    ApplyAllWorks(e, s1, news, InnerLabels(s.cur.name));
    var j := ApplyAllCut(e, s1, news, InnerLabels(s.cur.name));
    FilledNamespaces(e, s.objs, s.cur.name, t, n, i, j, n.name);
  }

  // What the namespace phase needs to get through, given its decision.
  predicate Feasible(e: Env, objs: Objects, space: string, p: Plan) {
    match p
    case Stuck => false
    case Idle => true
    case Drop(n) => NsKey(n.name) in objs
    case Make(t) => t.process(Params(space, "", "")).Some?
    case Refill(t, n) =>
      && t.process(Params(space, "", "")).Some? && At(objs, NsKey(n.name)) == Some(n.obj)
      && OldReadable(e, space, n, t)
  }

  lemma ProvisionWorks(e: Env, s: State, t: Tier, n: Option<Ns>, nss: seq<Ns>)
    requires NoFaults(e) && Synced(s) && Feasible(e, s.objs, s.cur.name, PlanFor(Todo(t, n)))
    ensures Provision(e, s, t, n, nss).1.Changed?
  {
    UpdatingSteady(e, s);
    var (s1, ok) := if nss != [] then SetUpdatingIfNotProvisioning(e, s) else SetProvisioningIfNotUpdating(e, s);
    assert Core(s1.cur).name == Core(s.cur).name;
    if n.Some? && HasExpectedLabels(t, n.value) == Some(true) {
      EnsureInnerWorks(e, s1, t, n.value);
    } else {
      ApplyAllWorks(e, s1, Frame(t, s1.cur.name), NsLabels(s1.cur.name, t));
    }
  }

  lemma ActWorks(e: Env, s: State, tiers: seq<Tier>, nss: seq<Ns>)
    requires NoFaults(e) && Synced(s) && Feasible(e, s.objs, s.cur.name, PlanAmong(s.objs, tiers, nss))
    ensures !Act(e, s, tiers, nss).1.Failed?
  {
    var gone := NextToDeprovision(tiers, nss);
    if gone.Some? {
      UpdatingSteady(e, s);
    } else {
      NextSame(e, s, tiers, nss);
      var (s1, next) := NextToProvision(e, s, tiers, nss);
      if next.Todo? { ProvisionWorks(e, s1, next.tier, next.ns, nss); }
    }
  }

  lemma EnsureWorks(e: Env, s: State)
    requires NoFaults(e) && Synced(s)
    requires Feasible(e, s.objs, s.cur.name, Decide(e, s.objs, s.cur.name, s.cur.namespaces))
    ensures !Ensure(e, s).1.Failed?
  {
    var s1 := Tick(s);
    var nss := Owned(s.objs, s.cur.name);
    GetTiersSame(e, s1, s.cur.namespaces);
    var (s2, tiers) := GetTiers(e, s1, s.cur.namespaces);
    ActWorks(e, s2, tiers.value, nss);
  }

  lemma NamespacePhaseWorks(e: Env, s: State)
    requires NoFaults(e) && Synced(s)
    requires Feasible(e, s.objs, s.cur.name, Decide(e, s.objs, s.cur.name, s.cur.namespaces))
    ensures !NamespacePhase(e, s).1.Failed?
  {
    EnsureWorks(e, s);
  }

  // A namespace whose roles, recorded and wanted, can be read and stay among `rr`.
  predicate Readable(e: Env, n: Ns, want: SR.Roles, rr: set<string>) {
    && n.name != "" && CRuns.NoteFrom(n.obj, rr) && LastApplied(n.obj).Some?
    && RoleManifests(e, n.name, SR.Items(LastApplied(n.obj).value)).Some?
    && RoleManifests(e, n.name, SR.Items(want)).Some?
  }

  lemma SwitchWorks(e: Env, s: State, n: Ns, last: SR.Roles, rr: set<string>)
    requires NoFaults(e) && LastApplied(n.obj) == Some(last) && RolesLocal(e, rr) && From(SR.Items(s.cur.roles), rr)
    requires Readable(e, n, s.cur.roles, rr) && At(s.objs, NsKey(n.name)) == Some(n.obj)
    ensures !SR.Switch(e, s, n, last, Olds(e, n), News(e, n, s.cur.roles)).1.Failed?
  {
    var news, olds, labels := News(e, n, s.cur.roles), Olds(e, n), InnerLabels(s.cur.name);
    NewsAreLocal(e, n, s.cur.roles, rr);
    NewsAreLocal(e, n, last, rr);
    ApplyAllWorks(e, s, news, labels);
    var i := ApplyAllCut(e, s, news, labels);
    var (s1, applied) := ApplyAll(e, s, news, labels);
    DeleteObsoleteWorks(e, s1, olds, news);
    var j := DeleteObsoleteCut(e, s1, olds, news);
    StampAllElsewhere(e, s.objs, news[..i], labels, NsKey(n.name));
    SweepAt(s1.objs, Unmatched(olds, news)[..j], NsKey(n.name));
  }

  lemma EnsureInWorks(e: Env, s: State, n: Ns, rr: set<string>)
    requires NoFaults(e) && Synced(s) && RolesLocal(e, rr) && From(SR.Items(s.cur.roles), rr)
    requires Readable(e, n, s.cur.roles, rr) && At(s.objs, NsKey(n.name)) == Some(n.obj)
    ensures !SR.EnsureIn(e, s, n).1.Failed?
  {
    var last, want := LastApplied(n.obj).value, s.cur.roles;
    UpdatingSteady(e, s);
    var (s1, ok) := if want != last then SetUpdatingIfNotProvisioning(e, s) else (s, true);
    RoleObjectsSame(e, s1, n.name, SR.Items(last));
    var (s2, olds) := SR.RoleObjects(e, s1, n.name, SR.Items(last));
    RoleObjectsSame(e, s2, n.name, SR.Items(want));
    var (s3, news) := SR.RoleObjects(e, s2, n.name, SR.Items(want));
    SwitchWorks(e, s3, n, last, rr);
  }

  lemma {:induction false} EnsureEachWorks(e: Env, s: State, nss: seq<Ns>, rr: set<string>)
    requires NoFaults(e) && Synced(s) && RolesLocal(e, rr) && From(SR.Items(s.cur.roles), rr)
    requires forall n :: n in nss ==> Readable(e, n, s.cur.roles, rr) && At(s.objs, NsKey(n.name)) == Some(n.obj)
    ensures !SR.EnsureEach(e, s, nss).1.Failed?
    decreases |nss|
  {
    if nss != [] {
      EnsureInWorks(e, s, nss[0], rr);
      var p := EnsureInEffect(e, s, nss[0]);
      var (s1, q) := SR.EnsureIn(e, s, nss[0]);
      if q.Unchanged? {
        assert Core(s1.cur).roles == Core(s.cur).roles;
        NewsAreLocal(e, nss[0], s.cur.roles, rr);
        forall n | n in nss[1..] ensures At(s1.objs, NsKey(n.name)) == Some(n.obj) {
          StampAllElsewhere(e, s.objs, News(e, nss[0], s.cur.roles), InnerLabels(s.cur.name), NsKey(n.name));
        }
        EnsureEachWorks(e, s1, nss[1..], rr);
      }
    }
  }

  // ---- The namespace phase as a step ----

  lemma GoodIsFeasible(e: Env, objs: Objects, t: NSTemplateSet, tiers: seq<Tier>, rr: set<string>)
    requires GoodTemplates(e, t, rr) && tiers == Tiers(e, t) && GoodSpace(e, objs, t, tiers, rr)
    ensures Feasible(e, objs, t.name, Decide(e, objs, t.name, t.namespaces))
  {
    var i := DecideMeans(e, objs, t, tiers, rr);
    var p := Decide(e, objs, t.name, t.namespaces);
    if p.Make? { assert GoodTier(e, t.name, tiers[i], rr); }
    if p.Refill? {
      assert GoodTier(e, t.name, tiers[i], rr) && GoodNs(e, p.n.obj, p.n.name, t, tiers, rr);
      RefillIsFeasible(e, objs, t, tiers, p.tier, p.n, rr);
    }
  }

  lemma RefillIsFeasible(e: Env, objs: Objects, t: NSTemplateSet, tiers: seq<Tier>, tier: Tier, n: Ns, rr: set<string>)
    requires GoodTier(e, t.name, tier, rr) && GoodNs(e, n.obj, n.name, t, tiers, rr)
    requires At(objs, NsKey(n.name)) == Some(n.obj)
    ensures Feasible(e, objs, t.name, Refill(tier, n))
  {}

  lemma EffectStep(e: Env, objs: Objects, t: NSTemplateSet, tiers: seq<Tier>, f: Effect, rr: set<string>)
    requires GoodTemplates(e, t, rr) && tiers == Tiers(e, t) && GoodSpace(e, objs, t, tiers, rr)
    requires Fits(e, t.name, f) && Complete(e, t.name, f) && PartOf(f, Decide(e, objs, t.name, t.namespaces))
    ensures var r := DR.Settle(On(e, objs, t.name, f));
      GoodSpace(e, r, t, tiers, rr) && Work(r, t, tiers) < Work(objs, t, tiers)
  {
    var i := DecideMeans(e, objs, t, tiers, rr);
    match f
    case Gone(name) => DropStep(e, objs, t, tiers, name, rr);
    case Stamp(tier, applied) =>
      assert GoodTier(e, t.name, tiers[i], rr);
      MakeStep(e, objs, t, tiers, i, rr);
    case Fill(tier, n, deleted, applied, marked) => RefillStep(e, objs, t, tiers, i, n, rr);
  }

  lemma TierLacksNothing(e: Env, objs: Objects, t: NSTemplateSet, tiers: seq<Tier>, nss: seq<Ns>, i: nat,
                         rr: set<string>)
    requires GoodSpace(e, objs, t, tiers, rr) && i < |tiers| && GoodTier(e, t.name, tiers[i], rr)
    requires TierInPlace(objs, t.name, nss, tiers[i]) && forall n :: n in nss <==> IsOwned(objs, t.name, n)
    ensures Lack(objs, t.name, tiers[i]) == 0
  {
    FoundAtHome(e, objs, t, tiers, nss, i, rr);
    var n := FindNamespace(nss, tiers[i].typeName).value;
    assert GoodNs(e, n.obj, n.name, t, tiers, rr);
    assert Fine(objs, n, tiers[i]) == Some(true);
  }

  lemma IdleInPlace(e: Env, objs: Objects, space: string, refs: seq<string>, tiers: seq<Tier>)
    requires Decide(e, objs, space, refs).Idle? && TiersOf(e, refs) == Some(tiers)
    ensures forall i :: 0 <= i < |tiers| ==> TierInPlace(objs, space, Owned(objs, space), tiers[i])
    ensures Redundant(objs, space, tiers) == {}
  {
    OwnedMembers(objs, space);
    DeprovisionMeans(objs, space, tiers);
    PickedNothing(objs, space, tiers, Owned(objs, space));
  }

  lemma IdleLacksNothing(e: Env, objs: Objects, t: NSTemplateSet, tiers: seq<Tier>, rr: set<string>)
    requires GoodTemplates(e, t, rr) && tiers == Tiers(e, t) && GoodSpace(e, objs, t, tiers, rr)
    requires Decide(e, objs, t.name, t.namespaces).Idle?
    ensures Redundant(objs, t.name, tiers) == {} && Lacks(objs, t.name, tiers) == 0
  {
    IdleInPlace(e, objs, t.name, t.namespaces, tiers);
    forall i | 0 <= i < |tiers| ensures Lack(objs, t.name, tiers[i]) == 0 {
      OwnedMembers(objs, t.name);
      TierLacksNothing(e, objs, t, tiers, Owned(objs, t.name), i, rr);
    }
    NoLacks(objs, t.name, tiers);
  }

  lemma {:induction false} NoLacks(objs: Objects, space: string, tiers: seq<Tier>)
    requires forall i :: 0 <= i < |tiers| ==> Lack(objs, space, tiers[i]) == 0
    ensures Lacks(objs, space, tiers) == 0
  {
    if tiers != [] { NoLacks(objs, space, tiers[1..]); }
  }

  // ---- The role phase as a step ----

  // Only role objects and annotations change.
  ghost predicate OnlyRoles(e: Env, objs: Objects, objs': Objects, rr: set<string>) {
    && (forall k: Key :: !k.gvk.kind.Namespace? && (forall n :: !RoleKey(e, rr, n, k)) ==> At(objs', k) == At(objs, k))
    && (forall x :: (NsKey(x) in objs' <==> NsKey(x) in objs)
          && (NsKey(x) in objs ==> objs'[NsKey(x)] == objs[NsKey(x)].(notes := objs'[NsKey(x)].notes)))
  }

  lemma NewsRoleKeys(e: Env, n: Ns, want: SR.Roles, rr: set<string>)
    requires From(SR.Items(want), rr) && n.name != ""
    ensures forall m :: m in News(e, n, want) ==> RoleKey(e, rr, n.name, m.key)
  {
    forall m | m in News(e, n, want) ensures RoleKey(e, rr, n.name, m.key) { NewsAreRoleKeys(e, n, want, rr, m.key); }
  }

  lemma {:induction false} ReappliedOther(e: Env, objs: Objects, space: string, nss: seq<Ns>, want: SR.Roles, k: Key,
                                          rr: set<string>)
    requires From(SR.Items(want), rr) && Named(nss) && forall n :: !RoleKey(e, rr, n, k)
    ensures At(Reapplied(e, objs, space, nss, want), k) == At(objs, k)
    decreases |nss|
  {
    if nss != [] {
      NewsRoleKeys(e, nss[0], want, rr);
      StampAllElsewhere(e, objs, News(e, nss[0], want), InnerLabels(space), k);
      ReappliedOther(e, StampAll(e, objs, News(e, nss[0], want), InnerLabels(space)), space, nss[1..], want, k, rr);
    }
  }

  lemma SwitchedOther(e: Env, objs: Objects, space: string, n: Ns, want: SR.Roles, p: Part, k: Key, rr: set<string>)
    requires From(SR.Items(want), rr) && CRuns.NoteFrom(n.obj, rr) && n.name != ""
    requires FitsIn(e, n, want, p) && forall x :: !RoleKey(e, rr, x, k)
    ensures At(Switched(e, objs, space, n, want, p), k) == At(objs, k)
  {
    NewsRoleKeys(e, n, want, rr);
    if LastApplied(n.obj).Some? { NewsRoleKeys(e, n, LastApplied(n.obj).value, rr); }
    StampAllElsewhere(e, objs, News(e, n, want)[..p.applied], InnerLabels(space), k);
    SweepAt(StampAll(e, objs, News(e, n, want)[..p.applied], InnerLabels(space)), Leaving(e, n, want)[..p.deleted], k);
  }

  lemma OnlyRolesKeepTiers(e: Env, objs: Objects, objs': Objects, t: NSTemplateSet, tiers: seq<Tier>, rr: set<string>)
    requires GoodTemplates(e, t, rr) && tiers == Tiers(e, t) && Clean(objs) && OnlyRoles(e, objs, objs', rr)
    ensures Lacks(DR.Settle(objs'), t.name, tiers) <= Lacks(objs, t.name, tiers)
  {
    forall i | 0 <= i < |tiers| ensures Lack(DR.Settle(objs'), t.name, tiers[i]) <= Lack(objs, t.name, tiers[i]) {
      assert GoodTier(e, t.name, tiers[i], rr);
      OnlyRolesKeepTier(e, objs, objs', t.name, tiers[i], rr);
      LackKept(e, objs, DR.Settle(objs'), t.name, tiers[i], rr);
    }
    LacksKept(objs, DR.Settle(objs'), t.name, tiers);
  }

  lemma OnlyRolesKeepTier(e: Env, objs: Objects, objs': Objects, space: string, t: Tier, rr: set<string>)
    requires GoodTier(e, space, t, rr) && Clean(objs) && OnlyRoles(e, objs, objs', rr)
    ensures KeepsTier(objs, DR.Settle(objs'), space, t)
  {
    var k := NsKey(Home(t, space));
    SettleAt(objs', k);
    forall r | k in objs && Needed(t, space, r) && Labelled(objs, r, Space, space)
      ensures Labelled(DR.Settle(objs'), r, Space, space)
    {
      assert At(objs', r) == At(objs, r);
      SettleAt(objs', r);
    }
  }

  lemma RoleStep(e: Env, objs: Objects, t: NSTemplateSet, tiers: seq<Tier>, objs': Objects, n: Ns, rr: set<string>)
    requires GoodTemplates(e, t, rr) && tiers == Tiers(e, t) && GoodSpace(e, objs, t, tiers, rr)
    requires OnlyRoles(e, objs, objs', rr) && Redundant(objs, t.name, tiers) == {}
    requires forall x :: x != n.name ==> At(objs', NsKey(x)) == At(objs, NsKey(x))
    requires IsOwned(objs, t.name, n) && LastApplied(n.obj) != Some(t.roles)
    requires At(objs', NsKey(n.name)) == Some(SR.Annotated(n.obj, t.roles))
    ensures var r := DR.Settle(objs'); GoodSpace(e, r, t, tiers, rr) && Work(r, t, tiers) < Work(objs, t, tiers)
  {
    var r := DR.Settle(objs');
    assert GoodNs(e, n.obj, n.name, t, tiers, rr);
    SettleAt(objs', NsKey(n.name));
    assert GoodNs(e, r[NsKey(n.name)], n.name, t, tiers, rr);
    GoodStep(e, objs, objs', t, tiers, n.name, rr);
    SettledNames(objs, objs', t.name, n.name);
    assert n.name !in Redundant(objs, t.name, tiers);
    ObsoleteDrop(objs, r, t.name, tiers, n.name);
    StaleStep(objs, r, t.name, t.roles, n.name);
    OnlyRolesKeepTiers(e, objs, objs', t, tiers, rr);
  }

  lemma ReappliedDone(e: Env, objs: Objects, t: NSTemplateSet, tiers: seq<Tier>, objs': Objects, rr: set<string>)
    requires GoodTemplates(e, t, rr) && tiers == Tiers(e, t) && GoodSpace(e, objs, t, tiers, rr)
    requires OnlyRoles(e, objs, objs', rr) && Redundant(objs, t.name, tiers) == {} && Lacks(objs, t.name, tiers) == 0
    requires forall x :: At(objs', NsKey(x)) == At(objs, NsKey(x))
    requires forall n :: IsOwned(objs, t.name, n) ==> LastApplied(n.obj) == Some(t.roles)
    ensures var r := DR.Settle(objs'); GoodSpace(e, r, t, tiers, rr) && Work(r, t, tiers) == 0
  {
    var r := DR.Settle(objs');
    assert At(objs', NsKey("")) == At(objs, NsKey(""));
    GoodStep(e, objs, objs', t, tiers, "", rr);
    OnlyRolesKeepTiers(e, objs, objs', t, tiers, rr);
    forall x | Owns(r, t.name, x) ensures x !in Redundant(r, t.name, tiers) && x !in Stale(r, t.name, t.roles) {
      SettleLabels(objs', t.name, x);
      assert At(objs', NsKey(x)) == At(objs, NsKey(x));
      assert IsOwned(objs, t.name, Ns(x, objs[NsKey(x)]));
      assert x !in Redundant(objs, t.name, tiers);
    }
    assert Redundant(r, t.name, tiers) == {} && Stale(r, t.name, t.roles) == {};
  }

  lemma RolePhaseProgress(e: Env, s: State)
    requires NoFaults(e)
    ensures RolePhase(e, s).1 == SR.EnsureEach(e, Tick(s), Owned(s.objs, s.cur.name)).1
  {}

  lemma RolePhaseReadable(e: Env, s: State, tiers: seq<Tier>, rr: set<string>)
    requires NoFaults(e) && Synced(s) && GoodTemplates(e, s.cur, rr) && GoodSpace(e, s.objs, s.cur, tiers, rr)
    ensures !SR.EnsureEach(e, Tick(s), Owned(s.objs, s.cur.name)).1.Failed?
  {
    OwnedMembers(s.objs, s.cur.name);
    forall n | n in Owned(s.objs, s.cur.name) ensures Readable(e, n, s.cur.roles, rr) {
      assert GoodNs(e, n.obj, n.name, s.cur, tiers, rr);
    }
    EnsureEachWorks(e, Tick(s), Owned(s.objs, s.cur.name), rr);
  }

  lemma NothingToSwitch(e: Env, s: State, tiers: seq<Tier>, nss: seq<Ns>, rr: set<string>)
    requires GoodTemplates(e, s.cur, rr) && tiers == Tiers(e, s.cur) && GoodSpace(e, s.objs, s.cur, tiers, rr)
    requires Redundant(s.objs, s.cur.name, tiers) == {} && Lacks(s.objs, s.cur.name, tiers) == 0
    requires nss == Owned(s.objs, s.cur.name)
    requires forall x :: 0 <= x < |nss| ==> LastApplied(nss[x].obj) == Some(s.cur.roles)
    ensures var r := DR.Settle(Reapplied(e, s.objs, s.cur.name, nss, s.cur.roles));
      GoodSpace(e, r, s.cur, tiers, rr) && Work(r, s.cur, tiers) == 0
  {
    var settled := Reapplied(e, s.objs, s.cur.name, nss, s.cur.roles);
    OwnedAreNamed(s.objs, s.cur.name);
    ReappliedOnlyRoles(e, s.objs, s.cur.name, nss, s.cur.roles, rr);
    AllRecorded(s.objs, s.cur.name, nss, s.cur.roles);
    ReappliedDone(e, s.objs, s.cur, tiers, settled, rr);
  }

  lemma OneSwitched(e: Env, s: State, tiers: seq<Tier>, nss: seq<Ns>, d: nat, p: Part, r: Objects, q: Progress,
                    rr: set<string>)
    requires GoodTemplates(e, s.cur, rr) && tiers == Tiers(e, s.cur) && GoodSpace(e, s.objs, s.cur, tiers, rr)
    requires Redundant(s.objs, s.cur.name, tiers) == {}
    requires nss == Owned(s.objs, s.cur.name) && d < |nss| && p.noted
    requires var settled := Reapplied(e, s.objs, s.cur.name, nss[..d], s.cur.roles);
      DidPart(e, settled, s.cur.name, nss[d], s.cur.roles, p, r, q)
    ensures GoodSpace(e, DR.Settle(r), s.cur, tiers, rr)
    ensures Work(DR.Settle(r), s.cur, tiers) < Work(s.objs, s.cur, tiers)
  {
    var settled := Reapplied(e, s.objs, s.cur.name, nss[..d], s.cur.roles);
    OwnedAreNamed(s.objs, s.cur.name);
    ReappliedOnlyRoles(e, s.objs, s.cur.name, nss[..d], s.cur.roles, rr);
    OwnedMembers(s.objs, s.cur.name);
    assert nss[d] in nss;
    SwitchPhaseStep(e, s, tiers, settled, nss[d], p, r, q, rr);
  }

  lemma AllDone(e: Env, objs: Objects, space: string, nss: seq<Ns>, want: SR.Roles, d: nat, p: Part, r: Objects,
                q: Progress)
    requires EachDone(e, objs, space, nss, want, d, p, r, q) && d >= |nss|
    ensures r == Reapplied(e, objs, space, nss, want) && !q.Changed?
    ensures forall x :: 0 <= x < |nss| ==> LastApplied(nss[x].obj) == Some(want)
  {
    assert nss[..|nss|] == nss;
  }

  // The store after the role phase has come through, by what it did.
  lemma EachDoneStep(e: Env, s: State, tiers: seq<Tier>, nss: seq<Ns>, d: nat, p: Part, r: Objects, q: Progress,
                     rr: set<string>)
    requires GoodTemplates(e, s.cur, rr) && tiers == Tiers(e, s.cur) && GoodSpace(e, s.objs, s.cur, tiers, rr)
    requires Redundant(s.objs, s.cur.name, tiers) == {} && Lacks(s.objs, s.cur.name, tiers) == 0
    requires nss == Owned(s.objs, s.cur.name) && !q.Failed?
    requires EachDone(e, s.objs, s.cur.name, nss, s.cur.roles, d, p, r, q)
    ensures GoodSpace(e, DR.Settle(r), s.cur, tiers, rr)
    ensures var left := Work(DR.Settle(r), s.cur, tiers);
      if q.Changed? then left < Work(s.objs, s.cur, tiers) else left == 0
  {
    if d < |nss| {
      OneSwitched(e, s, tiers, nss, d, p, r, q, rr);
    } else {
      AllDone(e, s.objs, s.cur.name, nss, s.cur.roles, d, p, r, q);
      NothingToSwitch(e, s, tiers, nss, rr);
    }
  }

  lemma RolePhaseStep(e: Env, s: State, tiers: seq<Tier>, rr: set<string>)
    requires NoFaults(e) && Synced(s)
    requires GoodTemplates(e, s.cur, rr) && tiers == Tiers(e, s.cur) && GoodSpace(e, s.objs, s.cur, tiers, rr)
    requires Redundant(s.objs, s.cur.name, tiers) == {} && Lacks(s.objs, s.cur.name, tiers) == 0
    ensures var (s', p) := RolePhase(e, s); var r := DR.Settle(s'.objs);
      && !p.Failed? && GoodSpace(e, r, s.cur, tiers, rr)
      && (if p.Changed? then Work(r, s.cur, tiers) < Work(s.objs, s.cur, tiers) else Work(r, s.cur, tiers) == 0)
  {
    RolePhaseProgress(e, s);
    RolePhaseReadable(e, s, tiers, rr);
    var nss := Owned(s.objs, s.cur.name);
    var d, p, q := RolePhaseDone(e, s, nss);
    EachDoneStep(e, s, tiers, nss, d, p, RolePhase(e, s).0.objs, q, rr);
  }

  lemma AllRecorded(objs: Objects, space: string, nss: seq<Ns>, want: SR.Roles)
    requires nss == Owned(objs, space) && forall x :: 0 <= x < |nss| ==> LastApplied(nss[x].obj) == Some(want)
    ensures forall n :: IsOwned(objs, space, n) ==> LastApplied(n.obj) == Some(want)
  {
    OwnedMembers(objs, space);
  }

  lemma ReappliedOnlyRoles(e: Env, objs: Objects, space: string, nss: seq<Ns>, want: SR.Roles, rr: set<string>)
    requires RolesLocal(e, rr) && From(SR.Items(want), rr) && Named(nss)
    ensures var r := Reapplied(e, objs, space, nss, want);
      OnlyRoles(e, objs, r, rr) && forall x :: At(r, NsKey(x)) == At(objs, NsKey(x))
  {
    var r := Reapplied(e, objs, space, nss, want);
    LocalNoNamespaces(e, want, rr);
    ReappliedKeeps(e, objs, space, nss, want);
    AllSame(objs, r);
    forall k: Key | forall n :: !RoleKey(e, rr, n, k) ensures At(r, k) == At(objs, k) {
      ReappliedOther(e, objs, space, nss, want, k, rr);
    }
  }

  lemma AllSame(objs: Objects, objs': Objects)
    requires forall x :: At(objs', NsKey(x)) == At(objs, NsKey(x))
    ensures forall x :: NsKey(x) in objs' <==> NsKey(x) in objs
    ensures forall x :: NsKey(x) in objs ==> objs'[NsKey(x)] == objs[NsKey(x)]
  {
    forall x
      ensures (NsKey(x) in objs' <==> NsKey(x) in objs) && (NsKey(x) in objs ==> objs'[NsKey(x)] == objs[NsKey(x)])
    {
      assert At(objs', NsKey(x)) == At(objs, NsKey(x));
    }
  }

  // A switch touches role objects and the annotation of its namespace.
  lemma SwitchOnlyRoles(e: Env, objs: Objects, settled: Objects, space: string, n: Ns, want: SR.Roles, p: Part,
                        r: Objects, q: Progress, rr: set<string>)
    requires RolesLocal(e, rr) && From(SR.Items(want), rr) && CRuns.NoteFrom(n.obj, rr) && n.name != ""
    requires DidPart(e, settled, space, n, want, p, r, q) && p.noted
    requires OnlyRoles(e, objs, settled, rr) && forall x :: At(settled, NsKey(x)) == At(objs, NsKey(x))
    ensures OnlyRoles(e, objs, r, rr)
    ensures forall x :: At(r, NsKey(x)) == if x == n.name then Some(SR.Annotated(n.obj, want)) else At(objs, NsKey(x))
  {
    LocalNoNamespaces(e, want, rr);
    if LastApplied(n.obj).Some? { LocalNoNamespaces(e, LastApplied(n.obj).value, rr); }
    forall x ensures At(r, NsKey(x)) == if x == n.name then Some(SR.Annotated(n.obj, want)) else At(objs, NsKey(x)) {
      OnOneNamespace(e, settled, space, n, want, p, r, q, x);
    }
    forall k: Key | !k.gvk.kind.Namespace? && forall n :: !RoleKey(e, rr, n, k) ensures At(r, k) == At(objs, k) {
      SwitchedOther(e, settled, space, n, want, p, k, rr);
    }
    OnOneNamespace(e, settled, space, n, want, p, r, q, n.name);
    forall x ensures (NsKey(x) in r <==> NsKey(x) in objs)
      && (NsKey(x) in objs ==> r[NsKey(x)] == objs[NsKey(x)].(notes := r[NsKey(x)].notes)) {
      assert At(r, NsKey(x)) == if x == n.name then Some(SR.Annotated(n.obj, want)) else At(objs, NsKey(x));
      assert At(settled, NsKey(x)) == At(objs, NsKey(x));
    }
  }

  lemma SwitchPhaseStep(e: Env, s: State, tiers: seq<Tier>, settled: Objects, n: Ns, p: Part, r: Objects, q: Progress,
                        rr: set<string>)
    requires GoodTemplates(e, s.cur, rr) && tiers == Tiers(e, s.cur) && GoodSpace(e, s.objs, s.cur, tiers, rr)
    requires Redundant(s.objs, s.cur.name, tiers) == {} && IsOwned(s.objs, s.cur.name, n)
    requires OnlyRoles(e, s.objs, settled, rr) && forall x :: At(settled, NsKey(x)) == At(s.objs, NsKey(x))
    requires DidPart(e, settled, s.cur.name, n, s.cur.roles, p, r, q) && p.noted
    ensures GoodSpace(e, DR.Settle(r), s.cur, tiers, rr)
    ensures Work(DR.Settle(r), s.cur, tiers) < Work(s.objs, s.cur, tiers)
  {
    assert GoodNs(e, n.obj, n.name, s.cur, tiers, rr);
    SwitchOnlyRoles(e, s.objs, settled, s.cur.name, n, s.cur.roles, p, r, q, rr);
    RoleStep(e, s.objs, s.cur, tiers, r, n, rr);
  }

  // ---- One reconcile and the environment ----

  // The cluster phase neither adds work nor spoils the space.
  lemma ClusterPhaseStep(e: Env, s: State, tiers: seq<Tier>, rr: set<string>)
    requires Synced(s) && GoodTemplates(e, s.cur, rr) && tiers == Tiers(e, s.cur)
    requires GoodSpace(e, s.objs, s.cur, tiers, rr)
    requires ClusterShaped(e, s.cur.name, s.cur.cluster) && ClusterShaped(e, s.cur.name, s.cur.status.cluster)
    ensures var r := ClusterPhase(e, s).0.objs;
      GoodSpace(e, r, s.cur, tiers, rr) && Work(r, s.cur, tiers) <= Work(s.objs, s.cur, tiers)
  {
    var r := ClusterPhase(e, s).0.objs;
    forall k: Key | !ClusterScoped(k) ensures At(r, k) == At(s.objs, k) { ClusterPhaseScope(e, s, k); }
    UntouchedGood(e, s.objs, r, s.cur, tiers, rr);
  }

  lemma UntouchedGood(e: Env, objs: Objects, r: Objects, t: NSTemplateSet, tiers: seq<Tier>, rr: set<string>)
    requires GoodTemplates(e, t, rr) && tiers == Tiers(e, t) && GoodSpace(e, objs, t, tiers, rr)
    requires forall k: Key :: !ClusterScoped(k) ==> At(r, k) == At(objs, k)
    ensures GoodSpace(e, r, t, tiers, rr) && Work(r, t, tiers) <= Work(objs, t, tiers)
  {
    assert forall x :: At(r, NsKey(x)) == At(objs, NsKey(x));
    AllSame(objs, r);
    forall k | k in r && !ClusterScoped(k) ensures !r[k].terminating { assert At(r, k) == At(objs, k); }
    forall x ensures Owns(r, t.name, x) == Owns(objs, t.name, x) {}
    forall x | Owns(r, t.name, x) ensures GoodNs(e, r[NsKey(x)], x, t, tiers, rr) {}
    assert OwnedNames(r, t.name) == OwnedNames(objs, t.name);
    assert Redundant(r, t.name, tiers) == Redundant(objs, t.name, tiers);
    assert Stale(r, t.name, t.roles) == Stale(objs, t.name, t.roles);
    forall i | 0 <= i < |tiers| ensures Lack(r, t.name, tiers[i]) <= Lack(objs, t.name, tiers[i]) {
      assert GoodTier(e, t.name, tiers[i], rr);
      UntouchedTier(e, objs, r, t.name, tiers[i], rr);
      LackKept(e, objs, r, t.name, tiers[i], rr);
    }
    LacksKept(objs, r, t.name, tiers);
  }

  lemma UntouchedTier(e: Env, objs: Objects, r: Objects, space: string, t: Tier, rr: set<string>)
    requires GoodTier(e, space, t, rr) && forall k: Key :: !ClusterScoped(k) ==> At(r, k) == At(objs, k)
    ensures KeepsTier(objs, r, space, t)
  {
    assert At(r, NsKey(Home(t, space))) == At(objs, NsKey(Home(t, space)));
    forall k | Needed(t, space, k) && Labelled(objs, k, Space, space) ensures Labelled(r, k, Space, space) {
      assert At(r, k) == At(objs, k);
    }
  }

  lemma NamespacePhaseStep(e: Env, s: State, tiers: seq<Tier>, rr: set<string>)
    requires NoFaults(e) && Synced(s) && GoodTemplates(e, s.cur, rr) && tiers == Tiers(e, s.cur)
    requires GoodSpace(e, s.objs, s.cur, tiers, rr)
    ensures var (s', p) := NamespacePhase(e, s); var r := DR.Settle(s'.objs);
      && !p.Failed?
      && (p.Changed? ==> GoodSpace(e, r, s.cur, tiers, rr) && Work(r, s.cur, tiers) < Work(s.objs, s.cur, tiers))
      && (p.Unchanged? ==>
          s'.objs == s.objs && Redundant(s.objs, s.cur.name, tiers) == {} && Lacks(s.objs, s.cur.name, tiers) == 0)
  {
    GoodIsFeasible(e, s.objs, s.cur, tiers, rr);
    NamespacePhaseWorks(e, s);
    NamespacePhaseEffect(e, s);
    NamespacePhaseObjs(e, s);
    var f := EnsureEffect(e, s);
    var (s', p) := NamespacePhase(e, s);
    if p.Changed? {
      NamespaceProgress(e, s);
      EffectStep(e, s.objs, s.cur, tiers, f, rr);
    } else {
      IdleLacksNothing(e, s.objs, s.cur, tiers, rr);
    }
  }

  lemma NamespaceProgress(e: Env, s: State)
    ensures NamespacePhase(e, s).1.Changed? ==> Ensure(e, s).1.Changed?
  {}

  lemma GoodSameSpec(e: Env, objs: Objects, t: NSTemplateSet, t': NSTemplateSet, rr: set<string>)
    requires SameSpec(t, t')
    ensures GoodTemplates(e, t, rr) == GoodTemplates(e, t', rr) && Tiers(e, t) == Tiers(e, t')
    ensures GoodSpace(e, objs, t, Tiers(e, t), rr) == GoodSpace(e, objs, t', Tiers(e, t'), rr)
    ensures Work(objs, t, Tiers(e, t)) == Work(objs, t', Tiers(e, t'))
  {
    assert forall x, o :: GoodNs(e, o, x, t, Tiers(e, t), rr) == GoodNs(e, o, x, t', Tiers(e, t'), rr);
  }

  lemma PhasesStep(e: Env, s1: State, tiers: seq<Tier>, rr: set<string>)
    requires NoFaults(e) && Synced(s1) && GoodTemplates(e, s1.cur, rr) && tiers == Tiers(e, s1.cur)
    requires GoodSpace(e, s1.objs, s1.cur, tiers, rr)
    requires RefManifests(e, s1.cur.name, s1.cur.cluster).Some? && ClusterShaped(e, s1.cur.name, s1.cur.cluster)
    requires RefManifests(e, s1.cur.name, s1.cur.status.cluster).Some?
    requires ClusterShaped(e, s1.cur.name, s1.cur.status.cluster)
    ensures var (s2, ok2) := ClusterPhase(e, s1); var (s3, p3) := NamespacePhase(e, s2);
      var (s4, p4) := RolePhase(e, s3);
      && ok2 && !p3.Failed?
      && (p3.Changed? ==>
          GoodSpace(e, DR.Settle(s3.objs), s1.cur, tiers, rr)
          && Work(DR.Settle(s3.objs), s1.cur, tiers) < Work(s1.objs, s1.cur, tiers))
      && (p3.Unchanged? ==> !p4.Failed? && GoodSpace(e, DR.Settle(s4.objs), s1.cur, tiers, rr))
      && (p3.Unchanged? ==>
          Work(DR.Settle(s4.objs), s1.cur, tiers) <= if p4.Changed? then Work(s1.objs, s1.cur, tiers) - 1 else 0)
  {
    ClusterPhaseWorks(e, s1);
    ClusterPhaseEffect(e, s1);
    ClusterPhaseStep(e, s1, tiers, rr);
    var (s2, ok2) := ClusterPhase(e, s1);
    GoodSameSpec(e, s2.objs, s1.cur, s2.cur, rr);
    NamespacePhaseStep(e, s2, tiers, rr);
    NamespacePhaseEffect(e, s2);
    var (s3, p3) := NamespacePhase(e, s2);
    GoodSameSpec(e, DR.Settle(s3.objs), s1.cur, s2.cur, rr);
    if p3.Unchanged? {
      GoodSameSpec(e, s3.objs, s2.cur, s3.cur, rr);
      RolePhaseStep(e, s3, tiers, rr);
      GoodSameSpec(e, DR.Settle(RolePhase(e, s3).0.objs), s1.cur, s3.cur, rr);
      GoodSameSpec(e, s3.objs, s1.cur, s3.cur, rr);
    }
  }

  function WorkLeft(e: Env, s: State): nat { Work(s.objs, s.saved, Tiers(e, s.saved)) }

  lemma RecordedCluster(e: Env, s: State, rr: set<string>)
    requires NoFaults(e) && Good(e, s, rr)
    ensures var s' := Reconcile(e, s).0; SameSpec(s.saved, s'.saved) && s'.saved.status.cluster == s.saved.cluster
  {
    var s0 := Tick(Fetched(s));
    AddFinalizerEffect(e, s0);
    var s1 := AddFinalizer(e, s0).0;
    SyncedStatus(s1);
    ClusterPhaseWorks(e, s1);
    ClusterPhaseEffect(e, s1);
    var s2 := ClusterPhase(e, s1).0;
    SyncedStatus(s2);
    NamespacePhaseEffect(e, s2);
    CRuns.NamespacePhaseStatus(e, s2);
    var (s3, p3) := NamespacePhase(e, s2);
    if p3.Unchanged? {
      RolePhaseEffect(e, s3);
      CRuns.SetReadyStatus(e, RolePhase(e, s3).0);
    }
  }

  lemma SetReadyWorks(e: Env, s: State)
    requires NoFaults(e)
    ensures SetReady(e, s, Provisioned).1
  {}

  lemma RolesResult(e: Env, s: State)
    requires NoFaults(e)
    ensures var (s', p) := RolePhase(e, s);
      ThenRoles(e, s) == if !p.Unchanged? then (s', ResultOf(p)) else (SetReady(e, s', Provisioned).0, Ready)
  {
    SetReadyWorks(e, RolePhase(e, s).0);
  }

  lemma LaterResult(e: Env, s: State)
    requires NoFaults(e)
    ensures var (s3, p3) := NamespacePhase(e, s); var (s4, p4) := RolePhase(e, s3);
      ThenNamespaces(e, s) == if !p3.Unchanged? then (s3, ResultOf(p3))
                              else if !p4.Unchanged? then (s4, ResultOf(p4))
                              else (SetReady(e, s4, Provisioned).0, Ready)
  {
    RolesResult(e, NamespacePhase(e, s).0);
  }

  // A reconcile without failures, followed by the environment, either leaves less work or reports Ready and
  // leaves none.
  lemma RoundStep(e: Env, s: State, rr: set<string>)
    requires NoFaults(e) && Good(e, s, rr)
    ensures var r := Reconcile(e, s).1; var s' := DR.Round(e, s);
      && Good(e, s', rr) && SameSpec(s.saved, s'.saved) && (r.Acted? || r.Ready?)
      && (r.Acted? ==> WorkLeft(e, s') < WorkLeft(e, s)) && (r.Ready? ==> WorkLeft(e, s') == 0)
  {
    var tiers := Tiers(e, s.saved);
    var s0 := Tick(Fetched(s));
    AddFinalizerEffect(e, s0);
    var s1 := AddFinalizer(e, s0).0;
    SyncedStatus(s1);
    GoodSameSpec(e, s.objs, s.saved, s1.cur, rr);
    PhasesStep(e, s1, tiers, rr);
    RecordedCluster(e, s, rr);
    var s2 := ClusterPhase(e, s1).0;
    var (s3, p3) := NamespacePhase(e, s2);
    var s4 := RolePhase(e, s3).0;
    LaterResult(e, s2);
    CRuns.SetReadyStatus(e, s4);
    var s' := DR.Round(e, s);
    GoodSameSpec(e, s'.objs, s1.cur, s'.saved, rr);
    GoodSameSpec(e, s.objs, s.saved, s'.saved, rr);
    assert RefManifests(e, s.saved.name, s'.saved.status.cluster) == RefManifests(e, s.saved.name, s.saved.cluster);
  }

  // One round, for a caller that needs no more of the states than these numbers.
  lemma RoundBrief(e: Env, s: State, rr: set<string>) returns (s': State, ready: bool)
    requires NoFaults(e) && Good(e, s, rr)
    ensures s' == DR.Round(e, s) && ready == ReadyNow(e, s)
    ensures Good(e, s', rr) && (if ready then WorkLeft(e, s') == 0 else WorkLeft(e, s') < WorkLeft(e, s))
  {
    RoundStep(e, s, rr);
    s', ready := DR.Round(e, s), ReadyNow(e, s);
  }

  predicate ReadyNow(e: Env, s: State) { Reconcile(e, s).1.Ready? }

  lemma NoWorkIsReady(e: Env, s: State, rr: set<string>)
    requires NoFaults(e) && Good(e, s, rr) && WorkLeft(e, s) == 0
    ensures ReadyNow(e, s)
  {
    var s', ready := RoundBrief(e, s, rr);
  }

  // The states before each of a number of reconciles without failures.
  ghost predicate History(e: Env, h: seq<State>) {
    forall i :: 0 <= i < |h| - 1 ==> Follows(e, h[i], h[i + 1])
  }

  predicate Follows(e: Env, s: State, s': State) { s' == DR.Round(e, s) }

  lemma HistoryCons(e: Env, s: State, h: seq<State>)
    requires h != [] && Follows(e, s, h[0]) && History(e, h)
    ensures History(e, [s] + h)
  {
    var g := [s] + h;
    forall i | 0 <= i < |g| - 1 ensures Follows(e, g[i], g[i + 1]) {
      if i > 0 { assert g[i] == h[i - 1] && g[i + 1] == h[i]; }
    }
  }

  // Ready is reached within one reconcile more than there is work: for each type at most 6 steps' worth, plus
  // one per redundant namespace and one per namespace whose roles are not recorded.
  lemma {:induction false} Converges(e: Env, s: State, rr: set<string>) returns (h: seq<State>)
    requires NoFaults(e) && Good(e, s, rr)
    ensures 0 < |h| <= WorkLeft(e, s) + 1 && h[0] == s && History(e, h) && ReadyNow(e, h[|h| - 1])
    decreases WorkLeft(e, s)
  {
    var s', ready := RoundBrief(e, s, rr);
    if ready {
      h := [s];
    } else {
      var g := Converges(e, s', rr);
      HistoryCons(e, s, g);
      h := [s] + g;
    }
  }

  // And from then on every reconcile reports Ready.
  lemma {:induction false} ReadyStays(e: Env, h: seq<State>, i: nat, rr: set<string>)
    requires NoFaults(e) && i < |h| && History(e, h) && Good(e, h[0], rr) && ReadyNow(e, h[0])
    ensures Good(e, h[i], rr) && ReadyNow(e, h[i]) && (i > 0 ==> WorkLeft(e, h[i]) == 0)
    decreases i
  {
    if i > 0 {
      ReadyStays(e, h, i - 1, rr);
      assert Follows(e, h[i - 1], h[i - 1 + 1]);
      ReadyNext(e, h[i - 1], h[i], rr);
    }
  }

  lemma ReadyNext(e: Env, s: State, s': State, rr: set<string>)
    requires NoFaults(e) && Good(e, s, rr) && ReadyNow(e, s) && Follows(e, s, s')
    ensures Good(e, s', rr) && ReadyNow(e, s') && WorkLeft(e, s') == 0
  {
    var n, ready := RoundBrief(e, s, rr);
    var n', ready' := RoundBrief(e, n, rr);
  }

  // Where it may start: a new space, no namespace of its own or of its templates' names yet.
  lemma NewSpaceIsGood(e: Env, s: State, rr: set<string>)
    requires !s.saved.deleting && GoodTemplates(e, s.saved, rr) && Clean(s.objs)
    requires OwnedNames(s.objs, s.saved.name) == {}
    requires forall i :: 0 <= i < |Tiers(e, s.saved)| ==> NsKey(Home(Tiers(e, s.saved)[i], s.saved.name)) !in s.objs
    requires RefManifests(e, s.saved.name, s.saved.cluster).Some? && ClusterShaped(e, s.saved.name, s.saved.cluster)
    requires s.saved.status.cluster == None
    ensures Good(e, s, rr)
  {
    assert RefManifests(e, s.saved.name, None) == Some([]);
    forall x ensures !Owns(s.objs, s.saved.name, x) { assert x !in OwnedNames(s.objs, s.saved.name); }
  }

  lemma {:induction false} LacksBound(objs: Objects, space: string, tiers: seq<Tier>)
    ensures Lacks(objs, space, tiers) <= 3 * |tiers|
  {
    if tiers != [] { LacksBound(objs, space, tiers[1..]); }
  }

  // The bound in terms of what can be counted beforehand.
  lemma WorkBound(e: Env, s: State)
    ensures WorkLeft(e, s) <= 2 * |OwnedNames(s.objs, s.saved.name)| + 6 * |s.saved.namespaces|
  {
    var tiers, names := Tiers(e, s.saved), OwnedNames(s.objs, s.saved.name);
    LacksBound(s.objs, s.saved.name, tiers);
    DR.CardinalityMonotone(Redundant(s.objs, s.saved.name, tiers), names);
    DR.CardinalityMonotone(Stale(s.objs, s.saved.name, s.saved.roles), names);
    if tiers != [] { TiersOfAt(e, s.saved.namespaces, 0); }
  }
}
