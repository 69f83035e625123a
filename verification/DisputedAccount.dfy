// A ready space that the second Ready reconcile changes once more.
module DisputedAccount {
  import opened Names
  import opened Cluster
  import opened Applying
  import opened ClusterPasses
  import opened ClusterRecovery
  import opened Namespaces
  import opened NamespacePasses
  import opened RolePasses
  import opened Convergence
  import opened ConvergenceRuns
  import opened Fixpoint
  import opened Scenes
  import DR = DeletionRuns
  import SR = SpaceRoles

  // The role grants an account, with a value of its own for one of the operator's labels.
  predicate Disputed(n: Scene, l: Label) {
    && Distinct(n) && n.gvk.kind.ServiceAccount?
    && l in n.labels && l in InnerLabels(n.space) && n.labels[l] != InnerLabels(n.space)[l]
  }

  // The namespace is filled and has recorded the roles; the account has been deleted by someone else.
  function HomeObject(n: Scene): Object {
    Object(map[Space := n.space, Type := "dev", TemplateRef := n.dev, TierName := "basic", PURPOSE := n.dev],
           map[LastAppliedSpaceRoles := RolesJson(Roles(n))], "", false, false, true)
  }

  function Store(n: Scene): Objects { map[NsKey(n.home) := HomeObject(n)] }

  function Spec(n: Scene): NSTemplateSet {
    NSTemplateSet(n.space, None, [n.dev], Roles(n), None, true, false,
                  Status(None, [], [n.dev], Roles(n), [n.home], Some(Provisioned)))
  }

  function Start(n: Scene): State { State(Store(n), Spec(n), Spec(n), 0) }

  function Account(n: Scene): Manifest { Grant(n, n.home, n.user) }

  // ---- Nothing is left to do ----

  lemma OwnedHome(n: Scene)
    requires Distinct(n)
    ensures OwnedNames(Store(n), n.space) == {n.home}
    ensures Owned(Store(n), n.space) == [Ns(n.home, HomeObject(n))]
  {
    forall x ensures Owns(Store(n), n.space, x) <==> x == n.home {}
    OnlyHome(Store(n), n.space, n.home);
  }

  lemma StartTier(n: Scene)
    requires Distinct(n)
    ensures Tiers(Host(n), Spec(n)) == [DevTier(n)]
    ensures GoodTier(Host(n), n.space, DevTier(n), {n.adm}) && Home(DevTier(n), n.space) == n.home
  {
    DevTiers(n);
    DevFrame(n, DevTier(n), n.space);
  }

  lemma StartTemplates(n: Scene)
    requires Distinct(n)
    ensures GoodTemplates(Host(n), Spec(n), {n.adm})
  {
    DevTiers(n);
    StartTier(n);
    HomeRoles(n);
    forall ns, roles, m | ns != "" && From(roles, {n.adm}) && Yields(Host(n), ns, roles, m)
      ensures m.key.ns == ns && !m.key.gvk.kind.Namespace?
    {
      RolesGrant(n, ns, roles, m);
    }
  }

  lemma HomeIsGood(n: Scene)
    requires Distinct(n)
    ensures GoodNs(Host(n), HomeObject(n), n.home, Spec(n), [DevTier(n)], {n.adm})
  {
    StartTier(n);
    HomeRoles(n);
    DevFrame(n, TierAt(Host(n), n.dev).value, n.space);
    assert SR.LastApplied(HomeObject(n)) == Some(Roles(n));
  }

  lemma StartSpace(n: Scene)
    requires Distinct(n)
    ensures GoodSpace(Host(n), Store(n), Spec(n), [DevTier(n)], {n.adm})
  {
    StartTier(n);
    HomeIsGood(n);
    forall x | Owns(Store(n), n.space, x)
      ensures GoodNs(Host(n), Store(n)[NsKey(x)], x, Spec(n), [DevTier(n)], {n.adm})
    {
      assert x == n.home;
    }
  }

  lemma StartGood(n: Scene)
    requires Distinct(n)
    ensures Good(Host(n), Start(n), {n.adm})
  {
    StartTemplates(n);
    StartTier(n);
    StartSpace(n);
    assert RefManifests(Host(n), n.space, None) == Some([]);
  }

  lemma HomeIsFine(n: Scene)
    ensures Fine(Store(n), Ns(n.home, HomeObject(n)), DevTier(n)) == Some(true)
  {
    var t, ns, space := DevTier(n), Ns(n.home, HomeObject(n)), n.space;
    DevFrame(n, t, space);
    assert MarkedFor(ns, t) && LabelOf(ns.obj.labels, Space) == space;
    assert t.process(Params(space, space, "")) == t.process(Params(space, "", "")) == Some([HomeManifest(n)]);
    assert AllButNamespaces([HomeManifest(n)]) == [];
  }

  lemma StartLacksNothing(n: Scene)
    requires Distinct(n)
    ensures Lacks(Store(n), n.space, [DevTier(n)]) == 0
  {
    var tiers := [DevTier(n)];
    StartTier(n);
    HomeIsFine(n);
    assert Store(n)[NsKey(n.home)] == HomeObject(n) && Owns(Store(n), n.space, n.home);
    DevFrame(n, DevTier(n), n.space);
    assert Lack(Store(n), n.space, DevTier(n)) == 0;
    assert tiers[1..] == [];
  }

  lemma StartHasNothingTooMuch(n: Scene)
    requires Distinct(n)
    ensures Redundant(Store(n), n.space, [DevTier(n)]) == {} && Stale(Store(n), n.space, Roles(n)) == {}
  {
    OwnedHome(n);
    var tiers := [DevTier(n)];
    assert tiers[0].typeName == "dev" == LabelOf(HomeObject(n).labels, Type);
    assert HasType(tiers, "dev");
    assert SR.LastApplied(HomeObject(n)) == Some(Roles(n));
  }

  lemma StartIsReady(n: Scene)
    requires Distinct(n)
    ensures ReadyNow(Host(n), Start(n))
  {
    StartTier(n);
    StartLacksNothing(n);
    StartHasNothingTooMuch(n);
    StartGood(n);
    NoWorkIsReady(Host(n), Start(n), {n.adm});
  }

  // ---- The account ----

  lemma StartUpkeep(n: Scene)
    requires Distinct(n)
    ensures Upkeep(Host(n), Store(n), Spec(n)) == [Account(n)]
  {
    OwnedHome(n);
    HomeRoles(n);
    var nss := [Ns(n.home, HomeObject(n))];
    assert nss[1..] == [];
    assert News(Host(n), nss[0], Roles(n)) == [Account(n)];
    assert AllNews(Host(n), [], Roles(n)) == [];
  }

  lemma CreatedOnce(e: Env, objs: Objects, m: Manifest, labels: Labels, l: Label)
    requires m.key.gvk.kind.ServiceAccount? && Available(e, m) && l in m.labels && l in labels
    requires m.key in objs && At(objs, m.key) == Fold(e, [m], labels, m.key, None)
    ensures l in objs[m.key].labels && objs[m.key].labels[l] == labels[l]
    ensures var r := StampAll(e, objs, [m], labels);
      m.key in r && l in r[m.key].labels && r[m.key].labels[l] == m.labels[l]
  {
    var ms := [m];
    assert ms[1..] == [];
    assert Fold(e, ms, labels, m.key, None) == Fold(e, [], labels, m.key, Some(Fresh(m, labels)));
    assert StampAll(e, objs, ms, labels) == StampAll(e, StampIn(e, objs, m, labels), [], labels);
  }

  // The first Ready reconcile creates a missing account with the operator's labels, the second gives it those of
  // the template.
  lemma CreatedThenRelabelled(e: Env, s: State, m: Manifest, l: Label, rr: set<string>)
    requires NoFaults(e) && Good(e, s, rr) && ReadyNow(e, s) && Upkeep(e, s.objs, s.saved) == [m]
    requires m.key.gvk.kind.ServiceAccount? && Available(e, m) && m.key !in s.objs
    requires l in m.labels && l in InnerLabels(s.saved.name)
    ensures var s1 := DR.Round(e, s); var s2 := DR.Round(e, s1);
      && m.key in s1.objs && l in s1.objs[m.key].labels && s1.objs[m.key].labels[l] == InnerLabels(s.saved.name)[l]
      && m.key in s2.objs && l in s2.objs[m.key].labels && s2.objs[m.key].labels[l] == m.labels[l]
  {
    assert m in [m] && m.key in AvailableKeys(e, [m]);
    ReadyRound(e, s, rr);
    SecondRound(e, s, rr);
    CreatedOnce(e, DR.Round(e, s).objs, m, InnerLabels(s.saved.name), l);
  }

  lemma StartCreatesDisputed(n: Scene, l: Label)
    requires Disputed(n, l)
    ensures !CreatesFinal(Host(n), Start(n))
  {
    StartUpkeep(n);
    var m := Account(n);
    assert m in [m] && Available(Host(n), m) && m.key !in Store(n) && !Agrees(m, InnerLabels(n.space));
  }

  // Nothing fails and nobody else does anything, but the two Ready reconciles leave different labels.
  lemma SecondRoundRelabels(n: Scene, l: Label)
    requires Disputed(n, l)
    ensures var e, s, k := Host(n), Start(n), Account(n).key;
      var s1 := DR.Round(e, s); var s2 := DR.Round(e, s1);
      && NoFaults(e) && Good(e, s, {n.adm}) && ReadyNow(e, s) && !CreatesFinal(e, s)
      && k in s1.objs && l in s1.objs[k].labels && s1.objs[k].labels[l] == InnerLabels(n.space)[l]
      && k in s2.objs && l in s2.objs[k].labels && s2.objs[k].labels[l] == n.labels[l]
      && s1.objs != s2.objs
  {
    StartGood(n);
    StartIsReady(n);
    StartUpkeep(n);
    StartCreatesDisputed(n, l);
    CreatedThenRelabelled(Host(n), Start(n), Account(n), l, {n.adm});
  }
}
