// A reconcile that strands a role object, where applying an object replaces its annotations.
module RefreshLoss {
  import opened Names
  import opened Cluster
  import opened Applying
  import opened Statuses
  import opened ClusterPasses
  import opened ClusterRecovery
  import opened NamespacePasses
  import opened RolePasses
  import opened ProvisionedSoundness
  import opened CRuns = ClusterRuns
  import opened RoleRuns
  import opened RoleHistory
  import opened Reconciler
  import opened Scenes
  import CG = ConvergenceRuns
  import NS = Namespaces
  import SR = SpaceRoles

  // The namespace lacks a label its template has got since, and the user has just lost the role.
  function HomeObject(n: Scene): Object {
    Object(map[Space := n.space, Type := "dev"], map[LastAppliedSpaceRoles := RolesJson(Roles(n))], "", false, false,
           true)
  }

  function GrantObject(n: Scene): Object { Object(map[Space := n.space], map[], "", false, false, false) }

  function Store(n: Scene): Objects {
    map[NsKey(n.home) := HomeObject(n), Grant(n, n.home, n.user).key := GrantObject(n)]
  }

  function Spec(n: Scene): NSTemplateSet {
    NSTemplateSet(n.space, None, [n.dev], None, None, true, false, Status(None, [], [n.dev], None, [], None))
  }

  function Start(n: Scene): State { State(Store(n), Spec(n), Spec(n), 0) }

  function Known(n: Scene): Refs { Refs({n.dev}, {n.adm}) }

  // ---- The state is one a disciplined run may reach ----

  lemma StartShaped(n: Scene)
    requires Distinct(n)
    ensures Shaped(Host(n), n.space, Known(n)) && Apart(Host(n), n.space, Known(n))
  {
    forall ns, roles, m | ns != "" && From(roles, Known(n).roles) && Yields(Host(n), ns, roles, m)
      ensures m.key.ns == ns && !m.key.gvk.kind.Namespace?
    {
      RolesGrant(n, ns, roles, m);
    }
    forall ref | ref in Known(n).namespaces
      ensures TierAt(Host(n), ref).Some? && Frame(TierAt(Host(n), ref).value, n.space) == [HomeManifest(n)]
        && Content(TierAt(Host(n), ref).value, n.space) == []
    {
      DevFrame(n, TierAt(Host(n), ref).value, n.space);
    }
  }

  lemma OwnedHome(n: Scene)
    requires Distinct(n)
    ensures OwnedNames(Store(n), n.space) == {n.home}
    ensures Owned(Store(n), n.space) == [Ns(n.home, HomeObject(n))]
  {
    OnlyHome(Store(n), n.space, n.home);
  }

  lemma StartRefs(n: Scene)
    requires Distinct(n)
    ensures RefsIn(Start(n), Known(n))
  {
    assert SR.Items(None) == [];
    forall x ensures NsRefs(Store(n), x, Known(n)) {
      if x == n.home { assert SR.LastApplied(HomeObject(n)) == Some(Roles(n)); }
    }
  }

  lemma StartHoused(n: Scene)
    requires Distinct(n)
    ensures Housed(Host(n), Store(n), Spec(n))
  {
    DevFrame(n, TierAt(Host(n), n.dev).value, n.space);
  }

  lemma StartContained(n: Scene)
    requires Distinct(n)
    ensures RolesContained(Host(n), Store(n), n.space, None, {n.adm})
  {
    HomeRoles(n);
    forall x | Owns(Store(n), n.space, x) ensures Within(Host(n), Store(n), x, None, {n.adm}) {
      assert x == n.home;
      forall k | RoleKey(Host(n), {n.adm}, x, k) && Live(Store(n), k)
        ensures k in Keys(Olds(Host(n), Ns(x, HomeObject(n))))
      {
        var roles, m :| From(roles, {n.adm}) && Yields(Host(n), x, roles, m) && m.key == k;
        RolesGrant(n, x, roles, m);
        assert Grant(n, n.home, n.user) in Olds(Host(n), Ns(x, HomeObject(n)));
      }
    }
  }

  lemma StartInv(n: Scene)
    requires Distinct(n)
    ensures RoleInv(Host(n), Start(n), Known(n))
  {
    StartShaped(n);
    StartRefs(n);
    StartContained(n);
    assert RefManifests(Host(n), n.space, None) == Some([]);
  }

  // ---- What the reconcile decides ----

  lemma ExpectsPurpose(n: Scene)
    ensures NS.HasExpectedLabels(DevTier(n), Ns(n.home, HomeObject(n))) == Some(false)
  {
    var t, ns := DevTier(n), Ns(n.home, HomeObject(n));
    DevFrame(n, t, n.space);
    assert NS.LastNamed([HomeManifest(n)], n.home) == Some(HomeManifest(n));
    assert PURPOSE in HomeManifest(n).labels && PURPOSE !in ns.obj.labels;
  }

  lemma DecidesToMake(n: Scene)
    requires Distinct(n)
    ensures Decide(Host(n), Store(n), n.space, [n.dev]) == Make(DevTier(n))
  {
    DevTiers(n);
    OwnedHome(n);
    ExpectsPurpose(n);
    var t, ns := DevTier(n), Ns(n.home, HomeObject(n));
    var nss := [ns];
    assert NS.TypeOf(ns) == "dev" && [t][0].typeName == "dev";
    assert NS.HasType([t], "dev");
    assert NS.NextToDeprovision([t], nss) == None by {
      assert forall x :: x in nss ==> NS.HasType([t], NS.TypeOf(x));
    }
    assert NS.FindNamespace(nss, "dev") == Some(ns);
    assert Fine(Store(n), ns, t) == Some(false) by { assert LabelOf(ns.obj.labels, TierName) == ""; }
    assert Pick(Store(n), [t], nss) == NS.Todo(t, Some(ns));
  }

  lemma HomeAvailable(n: Scene)
    ensures NsKey(n.home) in AvailableKeys(Host(n), Frame(DevTier(n), n.space))
  {
    DevFrame(n, DevTier(n), n.space);
    assert HomeManifest(n) in Frame(DevTier(n), n.space) && Available(Host(n), HomeManifest(n));
  }

  lemma MakingRefreshes(e: Env, objs: Objects, t: NSTemplateSet, x: string, tier: Tier)
    requires Decide(e, objs, t.name, t.namespaces) == Make(tier)
    requires Owns(objs, t.name, x) && NsKey(x) in AvailableKeys(e, Frame(tier, t.name))
    ensures Refreshes(e, objs, t, x)
  {}

  lemma StartRefreshes(n: Scene)
    requires Distinct(n)
    ensures Refreshes(Host(n), Store(n), Spec(n), n.home)
  {
    DecidesToMake(n);
    HomeAvailable(n);
    OwnedHome(n);
    assert n.home in OwnedNames(Store(n), n.space);
    MakingRefreshes(Host(n), Store(n), Spec(n), n.home, DevTier(n));
  }

  lemma StartNeedsNote(n: Scene)
    requires Distinct(n)
    ensures !Forgettable(Host(n), Store(n), n.home, None)
  {
    HomeRoles(n);
    var ns := Ns(n.home, HomeObject(n));
    assert SR.Items(None) == [] && News(Host(n), ns, None) == [];
    assert Grant(n, n.home, n.user) in Olds(Host(n), ns) && Live(Store(n), Grant(n, n.home, n.user).key);
  }

  lemma StartSucceeds(n: Scene)
    requires Distinct(n)
    ensures !Reconcile(Host(n), Start(n)).1.Error?
  {
    var e := Host(n);
    var s := Tick(Fetched(Start(n)));
    FeatureDrift(s.cur);
    assert ClusterPhase(e, s) == (s, true);
    DecidesToMake(n);
    assert CG.Feasible(e, s.objs, n.space, Make(DevTier(n)));
    CG.NamespacePhaseWorks(e, s);
    NamespacePhaseEffect(e, s);
    assert ThenNamespaces(e, s).1 == Acted;
  }

  // The object of the role taken away is alive, and after this reconcile no list of objects to delete has it.
  lemma RefreshStrands(n: Scene)
    requires Distinct(n)
    ensures var e, s, refs := Host(n), Start(n), Known(n);
      && RoleInv(e, s, refs) && Housed(e, s.objs, s.saved) && !NotesSafe(e, s.objs, s.saved)
      && !Reconcile(e, s).1.Error? && var r := Reconcile(e, s).0.objs;
      && NsKey(n.home) in r && !Within(e, r, n.home, s.saved.roles, refs.roles)
  {
    StartInv(n);
    StartHoused(n);
    StartRefreshes(n);
    StartNeedsNote(n);
    StartSucceeds(n);
    RefreshKeepsRolesIff(Host(n), Start(n), n.home, Known(n));
  }
}
