// Space roles over runs: no access gap, and nothing left behind.
module RoleRuns {
  import opened Names
  import opened Cluster
  import opened Applying
  import opened Passes
  import opened ClusterPasses
  import opened ClusterRecovery
  import opened RolePasses
  import opened ProvisionedSoundness
  import opened CommitMarker
  import opened Reconciler
  import CRuns = ClusterRuns
  import NS = Namespaces
  import SR = SpaceRoles

  // The objects of space roles with templates among `refs` live in the namespace they are generated for.
  ghost predicate RolesLocal(e: Env, refs: set<string>) {
    forall n, roles, m :: n != "" && From(roles, refs) && Yields(e, n, roles, m) ==>
      m.key.ns == n && !m.key.gvk.kind.Namespace?
  }

  ghost predicate RoleKey(e: Env, refs: set<string>, n: string, k: Key) {
    n != "" && exists roles, m :: From(roles, refs) && Yields(e, n, roles, m) && m.key == k
  }

  // The roles of the spec and those recorded on the space's namespaces have their templates among `refs`.
  ghost predicate RolesIn(objs: Objects, space: string, want: SR.Roles, refs: set<string>) {
    From(SR.Items(want), refs) && forall x :: Owns(objs, space, x) ==> CRuns.NoteFrom(objs[NsKey(x)], refs)
  }

  lemma NewsAreLocal(e: Env, n: Ns, want: SR.Roles, refs: set<string>)
    requires RolesLocal(e, refs) && From(SR.Items(want), refs) && n.name != ""
    ensures forall m :: m in News(e, n, want) ==> m.key.ns == n.name && !m.key.gvk.kind.Namespace?
  {
    assert forall m :: m in News(e, n, want) ==> Yields(e, n.name, SR.Items(want), m);
  }

  lemma LocalNoNamespaces(e: Env, want: SR.Roles, refs: set<string>)
    requires RolesLocal(e, refs) && From(SR.Items(want), refs)
    ensures NoNamespaces(e, want)
  {
    forall n: Ns, m | n.name != "" && m in News(e, n, want) ensures !m.key.gvk.kind.Namespace? {
      NewsAreLocal(e, n, want, refs);
    }
  }

  lemma LocalNoRoleNamespaces(e: Env, objs: Objects, t: NSTemplateSet, refs: set<string>)
    requires RolesLocal(e, refs) && RolesIn(objs, t.name, t.roles, refs)
    ensures NoRoleNamespaces(e, objs, t)
  {
    LocalNoNamespaces(e, t.roles, refs);
    forall x | Owns(objs, t.name, x) && SR.LastApplied(objs[NsKey(x)]).Some?
      ensures NoNamespaces(e, SR.LastApplied(objs[NsKey(x)]).value)
    {
      LocalNoNamespaces(e, SR.LastApplied(objs[NsKey(x)]).value, refs);
    }
  }

  // ---- No gap ----

  lemma {:induction false} ReappliedKey(e: Env, objs: Objects, space: string, nss: seq<Ns>, want: SR.Roles, k: Key)
    ensures Live(objs, k) ==> Live(Reapplied(e, objs, space, nss, want), k)
    ensures Live(Reapplied(e, objs, space, nss, want), k) ==>
      Live(objs, k) || exists n :: n in nss && k in Keys(News(e, n, want))
    decreases |nss|
  {
    if nss != [] {
      var news, labels := News(e, nss[0], want), NS.InnerLabels(space);
      var next := StampAll(e, objs, news, labels);
      if Live(objs, k) { StampAllLive(e, objs, news, labels, k); }
      if k !in Keys(news) { StampAllElsewhere(e, objs, news, labels, k); }
      ReappliedKey(e, next, space, nss[1..], want, k);
      assert nss[0] in nss;
    }
  }

  // In one namespace, at whatever point the switch stops: what the new roles generate stays, and what
  // appears is generated by the new roles.
  lemma SwitchedKey(e: Env, objs: Objects, space: string, n: Ns, want: SR.Roles, p: Part, k: Key, refs: set<string>)
    requires RolesLocal(e, refs) && From(SR.Items(want), refs) && CRuns.NoteFrom(n.obj, refs) && n.name != ""
    requires FitsIn(e, n, want, p)
    ensures var r := OnOne(e, objs, space, n, want, p);
      && (!k.gvk.kind.Namespace? && Live(objs, k) && (k in Keys(News(e, n, want)) || k.ns != n.name) ==> Live(r, k))
      && (!k.gvk.kind.Namespace? && Live(r, k) && !Live(objs, k) ==> k in Keys(News(e, n, want)))
      && (p.noted && k in Keys(Olds(e, n)) && k !in Keys(News(e, n, want)) && !k.gvk.kind.Namespace? ==> !Live(r, k))
  {
    var news, leaving, labels := News(e, n, want), Leaving(e, n, want), NS.InnerLabels(space);
    var mid := StampAll(e, objs, news[..p.applied], labels);
    NewsAreLocal(e, n, want, refs);
    if LastApplied(n.obj).Some? { NewsAreLocal(e, n, LastApplied(n.obj).value, refs); }
    if Live(objs, k) { StampAllLive(e, objs, news[..p.applied], labels, k); }
    if k !in Keys(news) { StampAllElsewhere(e, objs, news[..p.applied], labels, k); }
    SweepAt(mid, leaving[..p.deleted], k);
    forall m | m in leaving && m.key == k ensures k !in Keys(news) && k.ns == n.name {
      assert forall x :: x in news && x.key == k ==> SameGvkAndName(m, x);
    }
    if p.noted {
      assert leaving[..|leaving|] == leaving;
      if k in Keys(Olds(e, n)) && k !in Keys(news) {
        var m :| m in Olds(e, n) && m.key == k;
        assert forall x :: x in news && SameGvkAndName(m, x) ==> x.key == k;
      }
    }
  }

  function LastApplied(o: Object): Option<SR.Roles> { SR.LastApplied(o) }

  // The role phase as a whole, cut anywhere: an object that exists and that the roles of the spec generate
  // for its namespace still exists. Failures can stop the pass after any call, so this speaks of every
  // intermediate state.
  lemma NoAccessGap(e: Env, s: State, n: Ns, k: Key, refs: set<string>)
    requires Synced(s) && RolesLocal(e, refs) && RolesIn(s.objs, s.cur.name, s.cur.roles, refs)
    requires n in Owned(s.objs, s.cur.name) && k in Keys(News(e, n, s.cur.roles)) && Live(s.objs, k)
    ensures Live(RolePhase(e, s).0.objs, k)
  {
    var nss, want, space := Owned(s.objs, s.cur.name), s.cur.roles, s.cur.name;
    var d, p, q := RolePhaseDone(e, s, nss);
    if RolePhase(e, s).0.objs != s.objs {
      ReappliedKey(e, s.objs, space, nss[..d], want, k);
      if d < |nss| {
        OwnedMembers(s.objs, space);
        assert nss[d] in nss && IsOwned(s.objs, space, n);
        NewsAreLocal(e, n, want, refs);
        NewsByName(e, n, nss[d], want);
        SwitchedKey(e, Reapplied(e, s.objs, space, nss[..d], want), space, nss[d], want, p, k, refs);
      }
    }
  }

  lemma NewsByName(e: Env, n: Ns, n': Ns, want: SR.Roles)
    ensures n.name == n'.name ==> News(e, n, want) == News(e, n', want)
  {}

  // ---- Containment ----

  ghost predicate Within(e: Env, objs: Objects, n: string, want: SR.Roles, refs: set<string>)
    requires NsKey(n) in objs
  {
    var ns := Ns(n, objs[NsKey(n)]);
    forall k :: RoleKey(e, refs, n, k) && Live(objs, k) ==> k in Keys(Olds(e, ns)) || k in Keys(News(e, ns, want))
  }

  // In every namespace of the space, the live objects of space roles are those of the last applied roles or
  // of the roles of the spec.
  ghost predicate RolesContained(e: Env, objs: Objects, space: string, want: SR.Roles, refs: set<string>) {
    forall n :: Owns(objs, space, n) ==> Within(e, objs, n, want, refs)
  }

  // The live role objects of the namespace are all generated by these roles.
  ghost predicate OnlyOf(e: Env, objs: Objects, n: string, want: SR.Roles, refs: set<string>)
    requires NsKey(n) in objs
  {
    forall k :: RoleKey(e, refs, n, k) && Live(objs, k) ==> k in Keys(News(e, Ns(n, objs[NsKey(n)]), want))
  }

  // A change that creates no role object, and in each namespace it leaves to the space keeps what is recorded or
  // leaves no role object the roles of the spec do not generate.
  ghost predicate Respects(e: Env, objs: Objects, objs': Objects, space: string, want: SR.Roles, refs: set<string>) {
    forall n :: Owns(objs', space, n) ==>
      && (forall k :: RoleKey(e, refs, n, k) && Live(objs', k) ==> Live(objs, k))
      && ((Owns(objs, space, n) && LastApplied(objs'[NsKey(n)]) == LastApplied(objs[NsKey(n)]))
          || OnlyOf(e, objs', n, want, refs))
  }

  lemma RespectsKeeps(e: Env, objs: Objects, objs': Objects, space: string, want: SR.Roles, refs: set<string>)
    requires RolesContained(e, objs, space, want, refs) && Respects(e, objs, objs', space, want, refs)
    ensures RolesContained(e, objs', space, want, refs)
  {
    forall n | Owns(objs', space, n) ensures Within(e, objs', n, want, refs) {
      if Owns(objs, space, n) && LastApplied(objs'[NsKey(n)]) == LastApplied(objs[NsKey(n)]) {
        assert Within(e, objs, n, want, refs);
        assert Olds(e, Ns(n, objs[NsKey(n)])) == Olds(e, Ns(n, objs'[NsKey(n)]));
        NewsByName(e, Ns(n, objs[NsKey(n)]), Ns(n, objs'[NsKey(n)]), want);
      }
    }
  }

  // ---- The role phase keeps containment, and cleans up ----

  lemma RoleKeyLocal(e: Env, refs: set<string>, n: string, k: Key)
    requires RolesLocal(e, refs) && RoleKey(e, refs, n, k)
    ensures k.ns == n && n != "" && !k.gvk.kind.Namespace? && !ClusterScoped(k)
  {}

  lemma NewsAreRoleKeys(e: Env, n: Ns, want: SR.Roles, refs: set<string>, k: Key)
    requires From(SR.Items(want), refs) && n.name != "" && k in Keys(News(e, n, want))
    ensures RoleKey(e, refs, n.name, k)
  {
    var m :| m in News(e, n, want) && m.key == k;
    assert Yields(e, n.name, SR.Items(want), m);
  }

  lemma ReappliedContained(e: Env, objs: Objects, space: string, nss: seq<Ns>, want: SR.Roles, refs: set<string>)
    requires RolesLocal(e, refs) && RolesIn(objs, space, want, refs) && RolesContained(e, objs, space, want, refs)
    requires Named(nss)
    ensures var r := Reapplied(e, objs, space, nss, want);
      RolesContained(e, r, space, want, refs) && forall x :: At(r, NsKey(x)) == At(objs, NsKey(x))
  {
    var r := Reapplied(e, objs, space, nss, want);
    LocalNoNamespaces(e, want, refs);
    ReappliedKeeps(e, objs, space, nss, want);
    forall n | Owns(r, space, n) ensures Within(e, r, n, want, refs) {
      assert At(r, NsKey(n)) == At(objs, NsKey(n));
      assert Within(e, objs, n, want, refs);
      var ns := Ns(n, r[NsKey(n)]);
      forall k | RoleKey(e, refs, n, k) && Live(r, k) ensures k in Keys(Olds(e, ns)) || k in Keys(News(e, ns, want)) {
        ReappliedKey(e, objs, space, nss, want, k);
        if !Live(objs, k) {
          var x :| x in nss && k in Keys(News(e, x, want));
          RoleKeyLocal(e, refs, n, k);
          NewsAreLocal(e, x, want, refs);
          NewsByName(e, x, ns, want);
        }
      }
    }
  }

  lemma SwitchWithin(e: Env, objs: Objects, space: string, n: Ns, want: SR.Roles, p: Part, r: Objects, q: NS.Progress,
                     x: string, refs: set<string>)
    requires RolesLocal(e, refs) && From(SR.Items(want), refs) && CRuns.NoteFrom(n.obj, refs) && n.name != ""
    requires DidPart(e, objs, space, n, want, p, r, q) && At(objs, NsKey(n.name)) == Some(n.obj)
    requires NsKey(x) in objs && NsKey(x) in r && Within(e, objs, x, want, refs)
    requires At(r, NsKey(x)) == if p.noted && x == n.name then Some(SR.Annotated(n.obj, want)) else At(objs, NsKey(x))
    ensures Within(e, r, x, want, refs)
  {
    var was, ns := Ns(x, objs[NsKey(x)]), Ns(x, r[NsKey(x)]);
    NewsByName(e, was, ns, want);
    forall k | RoleKey(e, refs, x, k) && Live(r, k) ensures k in Keys(Olds(e, ns)) || k in Keys(News(e, ns, want)) {
      RoleKeyLocal(e, refs, x, k);
      SwitchedKey(e, objs, space, n, want, p, k, refs);
      NewsAreLocal(e, n, want, refs);
      NewsByName(e, n, ns, want);
    }
  }

  lemma SwitchContained(e: Env, objs: Objects, space: string, n: Ns, want: SR.Roles, p: Part, r: Objects,
                        q: NS.Progress, refs: set<string>)
    requires RolesLocal(e, refs) && From(SR.Items(want), refs) && RolesContained(e, objs, space, want, refs)
    requires CRuns.NoteFrom(n.obj, refs) && n.name != ""
    requires DidPart(e, objs, space, n, want, p, r, q) && At(objs, NsKey(n.name)) == Some(n.obj)
    ensures RolesContained(e, r, space, want, refs)
  {
    LocalNoNamespaces(e, want, refs);
    if LastApplied(n.obj).Some? { LocalNoNamespaces(e, LastApplied(n.obj).value, refs); }
    forall x | Owns(r, space, x) ensures Within(e, r, x, want, refs) {
      OnOneNamespace(e, objs, space, n, want, p, r, q, x);
      assert Owns(objs, space, x);
      SwitchWithin(e, objs, space, n, want, p, r, q, x, refs);
    }
  }

  lemma RolePhaseContained(e: Env, s: State, refs: set<string>)
    requires Synced(s) && RolesLocal(e, refs) && RolesIn(s.objs, s.cur.name, s.cur.roles, refs)
    requires RolesContained(e, s.objs, s.cur.name, s.cur.roles, refs)
    ensures RolesContained(e, RolePhase(e, s).0.objs, s.cur.name, s.cur.roles, refs)
  {
    var nss, want, space := Owned(s.objs, s.cur.name), s.cur.roles, s.cur.name;
    var r := RolePhase(e, s).0.objs;
    var d, p, q := RolePhaseDone(e, s, nss);
    if r != s.objs {
      OwnedAreNamed(s.objs, space);
      ReappliedContained(e, s.objs, space, nss[..d], want, refs);
      if d < |nss| {
        OwnedMembers(s.objs, space);
        assert nss[d] in nss;
        SwitchContained(e, Reapplied(e, s.objs, space, nss[..d], want), space, nss[d], want, p, r, q, refs);
      }
    }
  }

  // ---- What a completed pass leaves is exact ----

  // Of the role objects of a namespace: those of available manifests, unless they were on their way out before,
  // and those still there of manifests whose API group the cluster lacks by now.
  predicate Kept(e: Env, objs: Objects, news: seq<Manifest>, k: Key) {
    if k in AvailableKeys(e, news) then k in objs ==> Live(objs, k) else k in Keys(news) && Live(objs, k)
  }

  lemma {:induction false} StampAllLiveIff(e: Env, objs: Objects, ms: seq<Manifest>, labels: Labels, k: Key)
    ensures Live(StampAll(e, objs, ms, labels), k) <==> Live(objs, k) || (k !in objs && k in AvailableKeys(e, ms))
    decreases |ms|
  {
    if ms != [] {
      var next := if Available(e, ms[0]) then StampIn(e, objs, ms[0], labels) else objs;
      StampAllLiveIff(e, next, ms[1..], labels, k);
      assert k in AvailableKeys(e, ms) <==> (Available(e, ms[0]) && ms[0].key == k) || k in AvailableKeys(e, ms[1..]);
    }
  }

  lemma {:induction false} ReappliedLiveIff(e: Env, objs: Objects, space: string, nss: seq<Ns>, want: SR.Roles, k: Key)
    ensures Live(Reapplied(e, objs, space, nss, want), k)
      <==> Live(objs, k) || (k !in objs && exists n :: n in nss && k in AvailableKeys(e, News(e, n, want)))
    decreases |nss|
  {
    if nss != [] {
      var news, labels := News(e, nss[0], want), NS.InnerLabels(space);
      var next := StampAll(e, objs, news, labels);
      StampAllLiveIff(e, objs, news, labels, k);
      if k in objs { StampAllKeeps(e, objs, news, labels, k); }
      if k !in AvailableKeys(e, news) { StampAllElsewhere(e, objs, news, labels, k); }
      ReappliedLiveIff(e, next, space, nss[1..], want, k);
      assert forall n :: n in nss <==> n == nss[0] || n in nss[1..];
    }
  }

  lemma LocalReapplied(e: Env, nss: seq<Ns>, n: Ns, want: SR.Roles, k: Key, refs: set<string>)
    requires RolesLocal(e, refs) && From(SR.Items(want), refs) && Named(nss) && n in nss && k.ns == n.name
    ensures (exists x :: x in nss && k in AvailableKeys(e, News(e, x, want))) <==>
      k in AvailableKeys(e, News(e, n, want))
  {
    if x :| x in nss && k in AvailableKeys(e, News(e, x, want)) {
      NewsAreLocal(e, x, want, refs);
      NewsByName(e, x, n, want);
    }
  }

  // A role phase that finds nothing to switch, as the one of every reconcile that sets Provisioned: afterwards the
  // live role objects of each namespace of the space are exactly those kept.
  lemma RolePhaseIsExact(e: Env, s: State, n: Ns, k: Key, refs: set<string>)
    requires Synced(s) && RolesLocal(e, refs) && RolesIn(s.objs, s.cur.name, s.cur.roles, refs)
    requires RolesContained(e, s.objs, s.cur.name, s.cur.roles, refs) && RolePhase(e, s).1.Unchanged?
    requires IsOwned(s.objs, s.cur.name, n) && RoleKey(e, refs, n.name, k)
    ensures Live(RolePhase(e, s).0.objs, k) <==> Kept(e, s.objs, News(e, n, s.cur.roles), k)
  {
    var nss, want, space := Owned(s.objs, s.cur.name), s.cur.roles, s.cur.name;
    RolePhaseEffect(e, s);
    OwnedMembers(s.objs, space);
    OwnedAreNamed(s.objs, space);
    RoleKeyLocal(e, refs, n.name, k);
    ReappliedLiveIff(e, s.objs, space, nss, want, k);
    LocalReapplied(e, nss, n, want, k, refs);
    assert Within(e, s.objs, n.name, want, refs);
    assert Olds(e, n) == News(e, n, want);
  }

  // So without role objects on their way out, and none left of an API group that is gone, they are exactly
  // the objects the roles of the spec generate and the cluster can hold.
  lemma RolePhaseLeavesSpec(e: Env, s: State, n: Ns, k: Key, refs: set<string>)
    requires Synced(s) && RolesLocal(e, refs) && RolesIn(s.objs, s.cur.name, s.cur.roles, refs)
    requires RolesContained(e, s.objs, s.cur.name, s.cur.roles, refs) && RolePhase(e, s).1.Unchanged?
    requires IsOwned(s.objs, s.cur.name, n) && RoleKey(e, refs, n.name, k)
    requires k in s.objs ==> Live(s.objs, k)
    requires k in s.objs && k in Keys(News(e, n, s.cur.roles)) ==> k in AvailableKeys(e, News(e, n, s.cur.roles))
    ensures Live(RolePhase(e, s).0.objs, k) <==> k in AvailableKeys(e, News(e, n, s.cur.roles))
  {
    RolePhaseIsExact(e, s, n, k, refs);
  }

  // A switch of one namespace that went through is exact in the same sense.
  lemma SwitchIsExact(e: Env, objs: Objects, space: string, n: Ns, want: SR.Roles, p: Part, k: Key, refs: set<string>)
    requires RolesLocal(e, refs) && From(SR.Items(want), refs) && CRuns.NoteFrom(n.obj, refs) && n.name != ""
    requires FitsIn(e, n, want, p) && p.noted && At(objs, NsKey(n.name)) == Some(n.obj)
    requires Within(e, objs, n.name, want, refs)
    requires RoleKey(e, refs, n.name, k)
    ensures Live(OnOne(e, objs, space, n, want, p), k) <==> Kept(e, objs, News(e, n, want), k)
  {
    RoleKeyLocal(e, refs, n.name, k);
    SwitchedKey(e, objs, space, n, want, p, k, refs);
    var news, leaving, labels := News(e, n, want), Leaving(e, n, want), NS.InnerLabels(space);
    assert news[..|news|] == news;
    StampAllLiveIff(e, objs, news, labels, k);
    SweepAt(StampAll(e, objs, news, labels), leaving[..p.deleted], k);
    forall x | x in leaving && x.key == k ensures k !in Keys(news) {
      assert forall m :: m in news && m.key == k ==> SameGvkAndName(x, m);
    }
  }

  // Different entries of the listing are different namespaces.
  lemma OthersOnly(objs: Objects, space: string, nss: seq<Ns>, d: nat)
    requires nss == Owned(objs, space) && d < |nss|
    ensures forall x :: x in nss[..d] ==> x.name != nss[d].name
  {
    var names := SortedNames(OwnedNames(objs, space));
    assert forall i :: 0 <= i < |nss| ==> nss[i].name == names[i];
  }

  lemma {:induction false} ReappliedElsewhere(e: Env, objs: Objects, space: string, nss: seq<Ns>, want: SR.Roles,
                                              k: Key, refs: set<string>)
    requires RolesLocal(e, refs) && From(SR.Items(want), refs) && Named(nss) && forall x :: x in nss ==> x.name != k.ns
    ensures At(Reapplied(e, objs, space, nss, want), k) == At(objs, k)
    decreases |nss|
  {
    if nss != [] {
      NewsAreLocal(e, nss[0], want, refs);
      StampAllElsewhere(e, objs, News(e, nss[0], want), NS.InnerLabels(space), k);
      ReappliedElsewhere(e, StampAll(e, objs, News(e, nss[0], want), NS.InnerLabels(space)), space, nss[1..], want, k,
                         refs);
    }
  }

  // Before the one namespace is switched, nothing in it has changed.
  lemma BeforeSwitch(e: Env, objs: Objects, space: string, want: SR.Roles, nss: seq<Ns>, d: nat, refs: set<string>)
    requires RolesLocal(e, refs) && RolesIn(objs, space, want, refs) && RolesContained(e, objs, space, want, refs)
    requires nss == Owned(objs, space) && d < |nss|
    ensures var r, n := Reapplied(e, objs, space, nss[..d], want), nss[d];
      && IsOwned(objs, space, n) && At(r, NsKey(n.name)) == Some(n.obj) && Within(e, r, n.name, want, refs)
      && forall k: Key :: k.ns == n.name ==> At(r, k) == At(objs, k)
  {
    var r, n := Reapplied(e, objs, space, nss[..d], want), nss[d];
    OwnedMembers(objs, space);
    OwnedAreNamed(objs, space);
    assert n in nss;
    ReappliedContained(e, objs, space, nss[..d], want, refs);
    assert At(r, NsKey(n.name)) == At(objs, NsKey(n.name));
    OthersOnly(objs, space, nss, d);
    forall k: Key | k.ns == n.name ensures At(r, k) == At(objs, k) {
      ReappliedElsewhere(e, objs, space, nss[..d], want, k, refs);
    }
  }

  // A role phase that reports a change has switched one namespace whose recorded roles were others, and exactly so.
  lemma SwitchedPhaseIsExact(e: Env, s: State, refs: set<string>) returns (n: Ns)
    requires Synced(s) && RolesLocal(e, refs) && RolesIn(s.objs, s.cur.name, s.cur.roles, refs)
    requires RolesContained(e, s.objs, s.cur.name, s.cur.roles, refs) && RolePhase(e, s).1.Changed?
    ensures IsOwned(s.objs, s.cur.name, n) && LastApplied(n.obj) != Some(s.cur.roles)
    ensures At(RolePhase(e, s).0.objs, NsKey(n.name)) == Some(SR.Annotated(n.obj, s.cur.roles))
    ensures forall k :: RoleKey(e, refs, n.name, k) ==>
      (Live(RolePhase(e, s).0.objs, k) <==> Kept(e, s.objs, News(e, n, s.cur.roles), k))
  {
    var nss, want, space := Owned(s.objs, s.cur.name), s.cur.roles, s.cur.name;
    var r := RolePhase(e, s).0.objs;
    var d, p, q := RolePhaseDone(e, s, nss);
    n := nss[d];
    BeforeSwitch(e, s.objs, space, want, nss, d, refs);
    LocalNoRoleNamespaces(e, s.objs, s.cur, refs);
    EachDoneNamespaces(e, s.objs, s.cur, nss, d, p, r, q, n.name);
    var settled := Reapplied(e, s.objs, space, nss[..d], want);
    SwitchIsExactSince(e, s.objs, settled, space, n, want, p, refs);
  }

  lemma SwitchIsExactSince(e: Env, objs: Objects, settled: Objects, space: string, n: Ns, want: SR.Roles, p: Part,
                           refs: set<string>)
    requires RolesLocal(e, refs) && From(SR.Items(want), refs) && CRuns.NoteFrom(n.obj, refs) && n.name != ""
    requires FitsIn(e, n, want, p) && p.noted && At(settled, NsKey(n.name)) == Some(n.obj)
    requires Within(e, settled, n.name, want, refs) && forall k: Key :: k.ns == n.name ==> At(settled, k) == At(objs, k)
    ensures forall k :: RoleKey(e, refs, n.name, k) ==>
      (Live(OnOne(e, settled, space, n, want, p), k) <==> Kept(e, objs, News(e, n, want), k))
  {
    forall k | RoleKey(e, refs, n.name, k)
      ensures Live(OnOne(e, settled, space, n, want, p), k) <==> Kept(e, objs, News(e, n, want), k)
    {
      SwitchIsExact(e, settled, space, n, want, p, k, refs);
      RoleKeyLocal(e, refs, n.name, k);
      assert At(settled, k) == At(objs, k);
    }
  }
}
