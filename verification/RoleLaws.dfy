// Which objects of space roles there are when a reconcile finds nothing more to do, told by users and templates.
module RoleLaws {
  import opened Names
  import opened Cluster
  import opened Applying
  import opened Statuses
  import opened Passes
  import opened ClusterPasses
  import opened ClusterRecovery
  import opened Namespaces
  import opened NamespacePasses
  import opened RolePasses
  import opened ProvisionedSoundness
  import opened ClusterRuns
  import opened RoleRuns
  import opened RoleHistory
  import opened Reconciler
  import opened Plain
  import SR = SpaceRoles

  // What a role gives one user in a namespace.
  function Share(e: Env, ref: string, u: string, n: string): seq<Manifest> { Generated(e, ref, Params("", u, n)) }

  // What the roles give all their users.
  predicate Granted(e: Env, roles: seq<SpaceRole>, n: string, m: Manifest) {
    exists r, u :: r in roles && u in r.usernames && m in Share(e, r.templateRef, u, n)
  }

  // The objects of space roles in a namespace: those that a role template gives to some user.
  ghost predicate OfSomeUser(e: Env, refs: set<string>, n: string, k: Key) {
    exists ref, u, m :: ref in refs && ref != "" && m in Share(e, ref, u, n) && m.key == k
  }

  // ---- The list of objects is what the users are given ----

  lemma UsersIff(e: Env, ref: string, n: string, users: seq<string>, m: Manifest)
    requires TierAt(e, ref).Some? && SR.UserObjects(TierAt(e, ref).value, n, users).Some?
    ensures m in SR.UserObjects(TierAt(e, ref).value, n, users).value <==>
      exists u :: u in users && m in Share(e, ref, u, n)
  {
    var t := TierAt(e, ref).value;
    SR.UserObjectsAre(t, n, users);
    assert forall u :: u in users ==> t.process(Params("", u, n)) == Some(Share(e, ref, u, n));
  }

  lemma {:induction false} RolesIff(e: Env, n: string, roles: seq<SpaceRole>, m: Manifest)
    requires RoleManifests(e, n, roles).Some?
    ensures m in RoleManifests(e, n, roles).value <==> Granted(e, roles, n, m)
  {
    if roles != [] {
      var r, rest := roles[0], roles[1..];
      UsersIff(e, r.templateRef, n, r.usernames, m);
      RolesIff(e, n, rest, m);
      assert roles == [r] + rest;
      if Granted(e, rest, n, m) {
        var q, u :| q in rest && u in q.usernames && m in Share(e, q.templateRef, u, n);
        assert q in roles;
      }
      if Granted(e, roles, n, m) && !Granted(e, rest, n, m) {
        var q, u :| q in roles && u in q.usernames && m in Share(e, q.templateRef, u, n);
        assert q == r;
      }
    }
  }

  lemma OfSomeUserIsRoleKey(e: Env, refs: set<string>, n: string, k: Key)
    requires n != "" && OfSomeUser(e, refs, n, k)
    ensures RoleKey(e, refs, n, k)
  {
    var ref, u, m :| ref in refs && ref != "" && m in Share(e, ref, u, n) && m.key == k;
    var users, roles := [u], [SpaceRole(ref, [u])];
    assert users[1..] == [] && roles[1..] == [];
    var t := TierAt(e, ref).value;
    assert SR.UserObjects(t, n, []) == Some([]);
    assert SR.UserObjects(t, n, users) == Some(Share(e, ref, u, n) + []);
    assert RoleManifests(e, n, []) == Some([]);
    assert From(roles, refs) && Yields(e, n, roles, m);
  }

  lemma GrantedIsOfSomeUser(e: Env, roles: seq<SpaceRole>, refs: set<string>, n: string, m: Manifest)
    requires Granted(e, roles, n, m) && From(roles, refs) && RoleManifests(e, n, roles).Some?
    ensures OfSomeUser(e, refs, n, m.key)
  {
    var r, u :| r in roles && u in r.usernames && m in Share(e, r.templateRef, u, n);
    RolesNamed(e, n, roles, r);
  }

  lemma {:induction false} RolesNamed(e: Env, n: string, roles: seq<SpaceRole>, r: SpaceRole)
    requires RoleManifests(e, n, roles).Some? && r in roles
    ensures r.templateRef != ""
  {
    if roles[0] != r { RolesNamed(e, n, roles[1..], r); }
  }

  // ---- A role phase with nothing to switch has processed all roles, and labelled what it applied ----

  lemma {:induction false} EachRead(e: Env, s: State, nss: seq<Ns>, n: Ns)
    requires Synced(s) && SR.EnsureEach(e, s, nss).1.Unchanged? && n in nss
    ensures RoleManifests(e, n.name, SR.Items(s.cur.roles)).Some?
    decreases |nss|
  {
    EnsureInSame(e, s, nss[0]);
    if n == nss[0] { ReadIn(e, s, n); } else { EachRead(e, SR.EnsureIn(e, s, nss[0]).0, nss[1..], n); }
  }

  lemma ReadIn(e: Env, s: State, n: Ns)
    requires Synced(s) && SR.EnsureIn(e, s, n).1.Unchanged?
    ensures RoleManifests(e, n.name, SR.Items(s.cur.roles)).Some?
  {
    var last := SR.LastApplied(n.obj).value;
    UpdatingSteady(e, s);
    var (s1, ok) := if s.cur.roles != last then SetUpdatingIfNotProvisioning(e, s) else (s, true);
    assert Core(s1.cur).roles == Core(s.cur).roles;
    RoleObjectsSame(e, s1, n.name, SR.Items(last));
    var s2 := SR.RoleObjects(e, s1, n.name, SR.Items(last)).0;
    RoleObjectsSame(e, s2, n.name, SR.Items(s1.cur.roles));
  }

  lemma {:induction false} ReappliedLabel(e: Env, objs: Objects, space: string, nss: seq<Ns>, want: SR.Roles, n: Ns,
                                          m: Manifest, l: Label)
    requires n in nss && m in News(e, n, want) && Available(e, m) && !m.key.gvk.kind.ServiceAccount?
    requires l in InnerLabels(space)
    ensures Labelled(Reapplied(e, objs, space, nss, want), m.key, l, InnerLabels(space)[l])
    decreases |nss|
  {
    var labels := InnerLabels(space);
    var next := StampAll(e, objs, News(e, nss[0], want), labels);
    if n in nss[1..] {
      ReappliedLabel(e, next, space, nss[1..], want, n, m, l);
    } else {
      StampAllLabels(e, objs, News(e, n, want), labels, m, l);
      ReappliedKeepsLabel(e, next, space, nss[1..], want, m.key, l);
    }
  }

  lemma {:induction false} ReappliedKeepsLabel(e: Env, objs: Objects, space: string, nss: seq<Ns>, want: SR.Roles,
                                               k: Key, l: Label)
    requires l in InnerLabels(space) && Labelled(objs, k, l, InnerLabels(space)[l]) && !k.gvk.kind.ServiceAccount?
    ensures Labelled(Reapplied(e, objs, space, nss, want), k, l, InnerLabels(space)[l])
    decreases |nss|
  {
    if nss != [] {
      StampAllKeepsLabel(e, objs, News(e, nss[0], want), InnerLabels(space), k, l);
      ReappliedKeepsLabel(e, StampAll(e, objs, News(e, nss[0], want), InnerLabels(space)), space, nss[1..], want, k, l);
    }
  }

  // The operator's labels of an object inside a namespace, on anything but an account, where the template may win.
  predicate Tagged(objs: Objects, k: Key, space: string) {
    && k in objs
    && (!k.gvk.kind.ServiceAccount? ==>
        && Provider in objs[k].labels && objs[k].labels[Provider] == "codeready-toolchain"
        && Space in objs[k].labels && objs[k].labels[Space] == space)
  }

  lemma LaterRead(e: Env, s: State, n: Ns)
    requires Synced(s) && LaterThrough(e, s) && IsOwned(s.objs, s.cur.name, n)
    ensures RoleManifests(e, n.name, SR.Items(s.cur.roles)).Some?
  {
    NamespacePhaseEffect(e, s);
    var s3 := NamespacePhase(e, s).0;
    OwnedMembers(s3.objs, s3.cur.name);
    EachRead(e, Tick(s3), Owned(s3.objs, s3.cur.name), n);
  }

  lemma LaterTagged(e: Env, s: State, n: Ns, m: Manifest)
    requires Synced(s) && LaterThrough(e, s) && IsOwned(s.objs, s.cur.name, n)
    requires m in News(e, n, s.cur.roles) && Available(e, m) && m.key in ThenNamespaces(e, s).0.objs
    ensures Tagged(ThenNamespaces(e, s).0.objs, m.key, s.cur.name)
  {
    NamespacePhaseEffect(e, s);
    var s3 := NamespacePhase(e, s).0;
    OwnedMembers(s3.objs, s3.cur.name);
    RolePhaseEffect(e, s3);
    SetReadyKeeps(e, RolePhase(e, s3).0);
    ReappliedTagged(e, s3.objs, s3.cur.name, Owned(s3.objs, s3.cur.name), s3.cur.roles, n, m);
  }

  lemma ReappliedTagged(e: Env, objs: Objects, space: string, nss: seq<Ns>, want: SR.Roles, n: Ns, m: Manifest)
    requires n in nss && m in News(e, n, want) && Available(e, m)
    requires m.key in Reapplied(e, objs, space, nss, want)
    ensures Tagged(Reapplied(e, objs, space, nss, want), m.key, space)
  {
    if !m.key.gvk.kind.ServiceAccount? {
      ReappliedLabel(e, objs, space, nss, want, n, m, Provider);
      ReappliedLabel(e, objs, space, nss, want, n, m, Space);
    }
  }

  lemma ThroughReads(e: Env, s: State, n: Ns, refs: Refs)
    requires RoleInv(e, s, refs) && Housed(e, s.objs, s.saved) && NotesSafe(e, s.objs, s.saved)
    requires Through(e, s) && IsOwned(s.objs, s.saved.name, n)
    ensures RoleManifests(e, n.name, SR.Items(s.saved.roles)).Some?
    ensures forall m :: m in News(e, n, s.saved.roles) && Available(e, m) && m.key in Reconcile(e, s).0.objs ==>
      Tagged(Reconcile(e, s).0.objs, m.key, s.saved.name)
  {
    var s0 := Read(e, Fetched(s)).0;
    AddFinalizerEffect(e, s0);
    var s1 := AddFinalizer(e, s0).0;
    SyncedStatus(s1);
    RolesReadySame(e, s.objs, s.objs, s.saved, s1.cur, refs);
    AfterCluster(e, s1, refs);
    var s2 := ClusterPhase(e, s1).0;
    assert At(s2.objs, NsKey(n.name)) == At(s.objs, NsKey(n.name));
    LaterRead(e, s2, n);
    forall m | m in News(e, n, s.saved.roles) && Available(e, m) && m.key in Reconcile(e, s).0.objs
      ensures Tagged(Reconcile(e, s).0.objs, m.key, s.saved.name)
    {
      LaterTagged(e, s2, n, m);
    }
  }

  // ---- The law ----

  // When a reconcile gets to set Provisioned, every user of every role has all that the role's template gives in
  // every namespace of the space, labelled, but for objects that were on their way out or whose API is missing.
  lemma UsersHaveTheirRoles(e: Env, s: State, n: Ns, r: SpaceRole, u: string, m: Manifest, refs: Refs)
    requires RoleInv(e, s, refs) && Housed(e, s.objs, s.saved) && NotesSafe(e, s.objs, s.saved)
    requires Through(e, s) && IsOwned(s.objs, s.saved.name, n)
    requires s.saved.roles.Some? && r in s.saved.roles.value && u in r.usernames
    requires m in Share(e, r.templateRef, u, n.name) && Held(e, m) && (m.key in s.objs ==> Alive(s.objs, m.key))
    ensures Alive(Reconcile(e, s).0.objs, m.key) && Tagged(Reconcile(e, s).0.objs, m.key, s.saved.name)
  {
    ThroughReads(e, s, n, refs);
    var roles := s.saved.roles.value;
    RolesIff(e, n.name, roles, m);
    GrantedIsOfSomeUser(e, roles, refs.roles, n.name, m);
    OfSomeUserIsRoleKey(e, refs.roles, n.name, m.key);
    assert Available(e, m) && m.key in AvailableKeys(e, News(e, n, s.saved.roles));
    ReadyRolesAreExact(e, s, n, m.key, refs);
  }

  // And nobody else: every live object that some role template gives to some user is given by a role of the spec
  // to one of its users.
  lemma NobodyElseHas(e: Env, s: State, n: Ns, k: Key, refs: Refs) returns (r: SpaceRole, u: string, m: Manifest)
    requires RoleInv(e, s, refs) && Housed(e, s.objs, s.saved) && NotesSafe(e, s.objs, s.saved)
    requires Through(e, s) && IsOwned(s.objs, s.saved.name, n)
    requires OfSomeUser(e, refs.roles, n.name, k) && Alive(Reconcile(e, s).0.objs, k)
    ensures s.saved.roles.Some? && r in s.saved.roles.value && u in r.usernames
    ensures m in Share(e, r.templateRef, u, n.name) && m.key == k
  {
    ThroughReads(e, s, n, refs);
    OfSomeUserIsRoleKey(e, refs.roles, n.name, k);
    ReadyRolesAreExact(e, s, n, k, refs);
    m :| m in News(e, n, s.saved.roles) && m.key == k;
    RolesIff(e, n.name, SR.Items(s.saved.roles), m);
    r, u :| r in SR.Items(s.saved.roles) && u in r.usernames && m in Share(e, r.templateRef, u, n.name);
  }
}
