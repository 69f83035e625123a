// What one reconcile does in the space-role phase, under any failures.
module RolePasses {
  import opened Names
  import opened Cluster
  import opened Applying
  import opened Statuses
  import opened Passes
  import opened ClusterPasses
  import opened NamespacePasses
  import NS = Namespaces
  import opened SpaceRoles

  // The objects of a list of roles in a namespace.
  function RoleManifests(e: Env, n: string, roles: seq<SpaceRole>): Option<seq<Manifest>> {
    if roles == [] then Some([])
    else if roles[0].templateRef == "" || TierAt(e, roles[0].templateRef).None? then None
    else
      var objs := UserObjects(TierAt(e, roles[0].templateRef).value, n, roles[0].usernames);
      var rest := RoleManifests(e, n, roles[1..]);
      if objs.None? || rest.None? then None else Some(objs.value + rest.value)
  }

  lemma {:induction false} RoleObjectsSame(e: Env, s: State, n: string, roles: seq<SpaceRole>)
    ensures var r := RoleObjects(e, s, n, roles);
      && r.0 == s.(calls := r.0.calls)
      && (r.1.Some? ==> r.1 == RoleManifests(e, n, roles))
      && (NoFaults(e) ==> r.1 == RoleManifests(e, n, roles))
    decreases |roles|
  {
    if roles != [] {
      var (s1, t) := GetTier(e, s, roles[0].templateRef);
      RoleObjectsSame(e, s1, n, roles[1..]);
    }
  }

  // A manifest the roles generate for a namespace.
  predicate Yields(e: Env, n: string, roles: seq<SpaceRole>, m: Manifest) {
    RoleManifests(e, n, roles).Some? && m in RoleManifests(e, n, roles).value
  }

  // The templates of the roles are among these.
  predicate From(roles: seq<SpaceRole>, refs: set<string>) { forall r :: r in roles ==> r.templateRef in refs }

  // How far the switch of one namespace got.
  datatype Part = Part(applied: nat, deleted: nat, noted: bool)

  function News(e: Env, n: Ns, want: Roles): seq<Manifest> {
    var ms := RoleManifests(e, n.name, Items(want)); if ms.Some? then ms.value else []
  }

  function Olds(e: Env, n: Ns): seq<Manifest> {
    if LastApplied(n.obj).None? then [] else News(e, n, LastApplied(n.obj).value)
  }

  function Leaving(e: Env, n: Ns, want: Roles): seq<Manifest> { Unmatched(Olds(e, n), News(e, n, want)) }

  function Whole(e: Env, n: Ns, want: Roles, noted: bool): Part {
    Part(|News(e, n, want)|, |Leaving(e, n, want)|, noted)
  }

  // Applications first, then deletions, then the annotation.
  predicate FitsIn(e: Env, n: Ns, want: Roles, p: Part) {
    var news, leaving := News(e, n, want), Leaving(e, n, want);
    && p.applied <= |news| && p.deleted <= |leaving|
    && (p.deleted > 0 ==> p.applied == |news|)
    && (p.noted ==> p == Part(|news|, |leaving|, true) && LastApplied(n.obj) != Some(want))
    && (p.deleted > 0 || p.noted ==> LastApplied(n.obj).Some?)
    && (p.deleted > 0 || p.noted ==> RoleManifests(e, n.name, Items(want)).Some?)
    && (p.deleted > 0 || p.noted ==> RoleManifests(e, n.name, Items(LastApplied(n.obj).value)).Some?)
  }

  function Switched(e: Env, objs: Objects, space: string, n: Ns, want: Roles, p: Part): Objects
    requires FitsIn(e, n, want, p)
  {
    Sweep(StampAll(e, objs, News(e, n, want)[..p.applied], NS.InnerLabels(space)), Leaving(e, n, want)[..p.deleted])
  }

  function OnOne(e: Env, objs: Objects, space: string, n: Ns, want: Roles, p: Part): Objects
    requires FitsIn(e, n, want, p)
  {
    var swept := Switched(e, objs, space, n, want, p);
    if p.noted then swept[NsKey(n.name) := Annotated(n.obj, want)] else swept
  }

  // Namespaces whose roles are up to date only have their objects applied again.
  function Reapplied(e: Env, objs: Objects, space: string, nss: seq<Ns>, want: Roles): Objects
    decreases |nss|
  {
    if nss == [] then objs
    else Reapplied(e, StampAll(e, objs, News(e, nss[0], want), NS.InnerLabels(space)), space, nss[1..], want)
  }

  lemma SetRolesFailedSteady(e: Env, s: State)
    requires Synced(s)
    ensures Steady(s, SetRolesFailed(e, s)) && SetRolesFailed(e, s).objs == s.objs
  {}

  lemma {:induction false} UnmatchedBySelf(ms: seq<Manifest>, all: seq<Manifest>)
    requires forall m :: m in ms ==> m in all
    ensures Unmatched(ms, all) == []
  {
    if ms != [] {
      assert SameGvkAndName(ms[0], ms[0]);
      UnmatchedBySelf(ms[1..], all);
    }
  }

  // `q` was reported after this part of the switch; the annotation is only written over the object listed.
  ghost predicate DidPart(e: Env, objs: Objects, space: string, n: Ns, want: Roles, p: Part, r: Objects,
                          q: NS.Progress) {
    && FitsIn(e, n, want, p) && r == OnOne(e, objs, space, n, want, p)
    && (q.Changed? ==> p.noted)
    && (p.noted ==> At(Switched(e, objs, space, n, want, p), NsKey(n.name)) == Some(n.obj))
  }

  lemma NoteEffect(e: Env, s: State, n: Ns) returns (noted: bool)
    requires Synced(s)
    ensures var (s1, ok) := Update(e, s, NsKey(n.name), n.obj, Annotated(n.obj, s.cur.roles));
      var r := if ok then s1 else SetFailed(e, s1, UnableToProvision);
      && r.objs == (if noted then s.objs[NsKey(n.name) := Annotated(n.obj, s.cur.roles)] else s.objs) && Steady(s, r)
      && (noted ==> At(s.objs, NsKey(n.name)) == Some(n.obj)) && (ok ==> noted)
  {
    noted := UpdateEffect(e, s, NsKey(n.name), n.obj, Annotated(n.obj, s.cur.roles));
    SetFailedSteady(e, Update(e, s, NsKey(n.name), n.obj, Annotated(n.obj, s.cur.roles)).0, UnableToProvision);
  }

  lemma SwitchEffect(e: Env, s: State, n: Ns, last: Roles) returns (p: Part)
    requires Synced(s) && LastApplied(n.obj) == Some(last)
    requires RoleManifests(e, n.name, Items(last)).Some? && RoleManifests(e, n.name, Items(s.cur.roles)).Some?
    ensures var r := Switch(e, s, n, last, Olds(e, n), News(e, n, s.cur.roles));
      && DidPart(e, s.objs, s.cur.name, n, s.cur.roles, p, r.0.objs, r.1) && Steady(s, r.0)
      && (r.1.Unchanged? ==> last == s.cur.roles && p == Whole(e, n, s.cur.roles, false))
  {
    var news, olds, labels := News(e, n, s.cur.roles), Olds(e, n), NS.InnerLabels(s.cur.name);
    var i := ApplyAllCut(e, s, news, labels);
    var (s1, applied) := ApplyAll(e, s, news, labels);
    p := Part(i, 0, false);
    SetFailedSteady(e, s1, UnableToProvisionNamespace);
    if applied {
      var j := DeleteObsoleteCut(e, s1, olds, news);
      var (s2, swept) := DeleteObsolete(e, s1, olds, news);
      p := Part(i, j, false);
      SetFailedSteady(e, s2, UpdateFailed);
      if swept && s.cur.roles != last {
        var noted := NoteEffect(e, s2, n);
        p := Part(i, j, noted);
      }
    }
  }

  // With the same roles before and after there is nothing to delete.
  lemma SameRolesOnlyStamp(e: Env, objs: Objects, space: string, n: Ns, want: Roles, p: Part)
    requires LastApplied(n.obj) == Some(want) && p == Whole(e, n, want, false)
    ensures FitsIn(e, n, want, p)
    ensures OnOne(e, objs, space, n, want, p) == StampAll(e, objs, News(e, n, want), NS.InnerLabels(space))
  {
    var news := News(e, n, want);
    UnmatchedBySelf(news, news);
    assert news[..|news|] == news;
  }

  lemma ExchangeEffect(e: Env, s: State, n: Ns, last: Roles) returns (p: Part)
    requires Synced(s) && LastApplied(n.obj) == Some(last)
    ensures var r := Exchange(e, s, n, last);
      && DidPart(e, s.objs, s.cur.name, n, s.cur.roles, p, r.0.objs, r.1) && Steady(s, r.0)
      && (r.1.Unchanged? ==> last == s.cur.roles && p == Whole(e, n, s.cur.roles, false))
  {
    p := Part(0, 0, false);
    RoleObjectsSame(e, s, n.name, Items(last));
    var (s1, olds) := RoleObjects(e, s, n.name, Items(last));
    SetRolesFailedSteady(e, s1);
    if olds.Some? {
      RoleObjectsSame(e, s1, n.name, Items(s.cur.roles));
      var (s2, news) := RoleObjects(e, s1, n.name, Items(s.cur.roles));
      SetRolesFailedSteady(e, s2);
      if news.Some? { p := SwitchEffect(e, s2, n, last); }
    }
  }

  lemma EnsureInEffect(e: Env, s: State, n: Ns) returns (p: Part)
    requires Synced(s)
    ensures var r := EnsureIn(e, s, n);
      && DidPart(e, s.objs, s.cur.name, n, s.cur.roles, p, r.0.objs, r.1) && Steady(s, r.0)
      && (r.1.Unchanged? ==> LastApplied(n.obj) == Some(s.cur.roles))
      && (r.1.Unchanged? ==> r.0.objs == StampAll(e, s.objs, News(e, n, s.cur.roles), NS.InnerLabels(s.cur.name)))
  {
    p := Part(0, 0, false);
    var last := LastApplied(n.obj);
    if last.Some? {
      UpdatingSteady(e, s);
      var (s1, ok) := if s.cur.roles != last.value then SetUpdatingIfNotProvisioning(e, s) else (s, true);
      if ok {
        p := ExchangeEffect(e, s1, n, last.value);
        if last.value == s.cur.roles && p == Whole(e, n, s.cur.roles, false) {
          SameRolesOnlyStamp(e, s.objs, s.cur.name, n, s.cur.roles, p);
        }
      }
    }
  }

  // A prefix of the namespaces is up to date and only reapplied; at most one more is switched, maybe in part.
  ghost predicate EachDone(e: Env, objs: Objects, space: string, nss: seq<Ns>, want: Roles, d: nat, p: Part,
                           r: Objects, q: NS.Progress) {
    && d <= |nss| && (forall x :: 0 <= x < d ==> LastApplied(nss[x].obj) == Some(want))
    && (q.Unchanged? <==> d == |nss|)
    && var settled := Reapplied(e, objs, space, nss[..d], want);
       if d == |nss| then r == settled else DidPart(e, settled, space, nss[d], want, p, r, q)
  }

  lemma EachMore(e: Env, objs: Objects, space: string, nss: seq<Ns>, want: Roles, d: nat, p: Part, r: Objects,
                 q: NS.Progress)
    requires nss != [] && LastApplied(nss[0].obj) == Some(want)
    requires var next := StampAll(e, objs, News(e, nss[0], want), NS.InnerLabels(space));
      EachDone(e, next, space, nss[1..], want, d, p, r, q)
    ensures EachDone(e, objs, space, nss, want, d + 1, p, r, q)
  {
    assert nss[..d + 1][1..] == nss[1..][..d] && nss[..d + 1][0] == nss[0];
    forall x | 0 <= x < d + 1 ensures LastApplied(nss[x].obj) == Some(want) {
      if x > 0 { assert nss[x] == nss[1..][x - 1]; }
    }
  }

  lemma {:induction false} EnsureEachEffect(e: Env, s: State, nss: seq<Ns>) returns (d: nat, p: Part)
    requires Synced(s)
    ensures var r := EnsureEach(e, s, nss);
      EachDone(e, s.objs, s.cur.name, nss, s.cur.roles, d, p, r.0.objs, r.1) && Steady(s, r.0)
    decreases |nss|
  {
    d, p := 0, Part(0, 0, false);
    if nss != [] {
      p := EnsureInEffect(e, s, nss[0]);
      var (s1, r1) := EnsureIn(e, s, nss[0]);
      if r1.Unchanged? {
        assert s1.cur.roles == s.cur.roles && s1.cur.name == s.cur.name by {
          assert Core(s1.cur).roles == Core(s.cur).roles && Core(s1.cur).name == Core(s.cur).name;
        }
        d, p := EnsureEachEffect(e, s1, nss[1..]);
        var r := EnsureEach(e, s, nss);
        EachMore(e, s.objs, s.cur.name, nss, s.cur.roles, d, p, r.0.objs, r.1);
        d := d + 1;
      }
    }
  }

  // ---- The role phase that finds nothing to switch leaves the NSTemplateSet alone ----

  lemma SwitchSame(e: Env, s: State, n: Ns, last: Roles, olds: seq<Manifest>, news: seq<Manifest>)
    requires Switch(e, s, n, last, olds, news).1.Unchanged?
    ensures var r := Switch(e, s, n, last, olds, news).0; r.cur == s.cur && r.saved == s.saved
  {
    var labels := NS.InnerLabels(s.cur.name);
    var i := ApplyAllCut(e, s, news, labels);
    var j := DeleteObsoleteCut(e, ApplyAll(e, s, news, labels).0, olds, news);
  }

  lemma ExchangeSame(e: Env, s: State, n: Ns, last: Roles)
    requires Exchange(e, s, n, last).1.Unchanged?
    ensures var r := Exchange(e, s, n, last).0; r.cur == s.cur && r.saved == s.saved && last == s.cur.roles
  {
    RoleObjectsSame(e, s, n.name, Items(last));
    var (s1, olds) := RoleObjects(e, s, n.name, Items(last));
    RoleObjectsSame(e, s1, n.name, Items(s.cur.roles));
    var (s2, news) := RoleObjects(e, s1, n.name, Items(s.cur.roles));
    SwitchSame(e, s2, n, last, olds.value, news.value);
  }

  lemma EnsureInSame(e: Env, s: State, n: Ns)
    requires Synced(s) && EnsureIn(e, s, n).1.Unchanged?
    ensures var r := EnsureIn(e, s, n).0; r.cur == s.cur && r.saved == s.saved
  {
    var last := LastApplied(n.obj).value;
    UpdatingSteady(e, s);
    var (s1, ok) := if s.cur.roles != last then SetUpdatingIfNotProvisioning(e, s) else (s, true);
    assert Core(s1.cur).roles == Core(s.cur).roles;
    ExchangeSame(e, s1, n, last);
  }

  lemma {:induction false} EnsureEachSame(e: Env, s: State, nss: seq<Ns>)
    requires Synced(s) && EnsureEach(e, s, nss).1.Unchanged?
    ensures var r := EnsureEach(e, s, nss).0; r.cur == s.cur && r.saved == s.saved
    decreases |nss|
  {
    if nss != [] {
      EnsureInSame(e, s, nss[0]);
      EnsureEachSame(e, EnsureIn(e, s, nss[0]).0, nss[1..]);
    }
  }
}
