// A host with two templates, for the states in which a property fails.
module Scenes {
  import opened Names
  import opened Cluster
  import opened NamespacePasses
  import opened RolePasses
  import NS = Namespaces
  import SR = SpaceRoles

  // `dev` is a labelled namespace, `adm` generates one object per user, of this kind and with these labels.
  datatype Scene = Scene(space: string, home: string, dev: string, adm: string, user: string, gvk: Gvk, labels: Labels)

  predicate Distinct(n: Scene) {
    n.home != "" && n.dev != "" && n.adm != "" && n.dev != n.adm && !n.gvk.kind.Namespace?
  }

  const PURPOSE := OtherLabel("purpose")

  function HomeManifest(n: Scene): Manifest { Manifest(NsKey(n.home), map[PURPOSE := n.dev], map[], "", false) }

  function Grant(n: Scene, ns: string, user: string): Manifest {
    Manifest(Key(n.gvk, ns, user), n.labels, map[], "", false)
  }

  function DevTier(n: Scene): Tier { Tier(n.dev, "basic", "dev", (p: Params) => Some([HomeManifest(n)])) }

  function AdmTier(n: Scene): Tier { Tier(n.adm, "basic", "admin", (p: Params) => Some([Grant(n, p.ns, p.user)])) }

  function Host(n: Scene): Env {
    Env((ref: string) => if ref == n.dev then Some(DevTier(n)) else if ref == n.adm then Some(AdmTier(n)) else None,
        [], false, (refs: seq<string>) => [], (i: nat) => Done)
  }

  // One user has the role.
  function Roles(n: Scene): SR.Roles { Some([SpaceRole(n.adm, [n.user])]) }

  // ---- What the templates generate ----

  lemma {:induction false} UsersGrant(n: Scene, ns: string, users: seq<string>)
    ensures var ms := SR.UserObjects(AdmTier(n), ns, users);
      ms.Some? && forall m :: m in ms.value ==> m.key.ns == ns && m.key.gvk == n.gvk
  {
    if users != [] { UsersGrant(n, ns, users[1..]); }
  }

  lemma {:induction false} RolesGrant(n: Scene, ns: string, roles: seq<SpaceRole>, m: Manifest)
    requires Distinct(n) && From(roles, {n.adm}) && Yields(Host(n), ns, roles, m)
    ensures m.key.ns == ns && m.key.gvk == n.gvk
  {
    if roles != [] {
      var r := roles[0];
      assert r in roles && r.templateRef == n.adm;
      assert TierAt(Host(n), n.adm) == Some(AdmTier(n));
      UsersGrant(n, ns, r.usernames);
      var own, rest := SR.UserObjects(AdmTier(n), ns, r.usernames), RoleManifests(Host(n), ns, roles[1..]);
      if m !in own.value { RolesGrant(n, ns, roles[1..], m); }
    }
  }

  lemma HomeRoles(n: Scene)
    requires Distinct(n)
    ensures RoleManifests(Host(n), n.home, SR.Items(Roles(n))) == Some([Grant(n, n.home, n.user)])
  {
    assert TierAt(Host(n), n.adm) == Some(AdmTier(n));
    var users, roles := [n.user], SR.Items(Roles(n));
    assert users[1..] == [] && roles[1..] == [];
    assert SR.UserObjects(AdmTier(n), n.home, []) == Some([]);
    assert SR.UserObjects(AdmTier(n), n.home, users) == Some([Grant(n, n.home, n.user)] + []);
    assert RoleManifests(Host(n), n.home, []) == Some([]);
    assert [Grant(n, n.home, n.user)] + [] + [] == [Grant(n, n.home, n.user)];
  }

  lemma DevFrame(n: Scene, t: Tier, space: string)
    requires t.process == DevTier(n).process
    ensures Frame(t, space) == [HomeManifest(n)] && Content(t, space) == []
  {
    var ms := [HomeManifest(n)];
    assert ms[1..] == [];
    assert NS.NamespacesOnly(ms) == [ms[0]] + NS.NamespacesOnly([]);
    assert NS.AllButNamespaces(ms) == [] + NS.AllButNamespaces([]);
  }

  lemma DevTiers(n: Scene)
    requires Distinct(n)
    ensures TiersOf(Host(n), [n.dev]) == Some([DevTier(n)])
  {
    assert TierAt(Host(n), n.dev) == Some(DevTier(n));
    assert [n.dev][1..] == [];
    assert TiersOf(Host(n), []) == Some([]);
    assert [DevTier(n)] + [] == [DevTier(n)];
  }

  // One namespace, with this name.
  lemma OnlyHome(objs: Objects, space: string, home: string)
    requires forall x :: Owns(objs, space, x) <==> x == home
    ensures OwnedNames(objs, space) == {home} && Owned(objs, space) == [Ns(home, objs[NsKey(home)])]
  {
    var names := SortedNames({home});
    assert names[0] in names && |names| == 1;
    assert names == [home];
  }
}
