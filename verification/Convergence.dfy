// Without failures, reconciles bring a space to its spec within a bound that can be computed beforehand.
module Convergence {
  import opened Names
  import opened Cluster
  import opened Applying
  import opened Passes
  import opened ClusterPasses
  import opened ClusterRecovery
  import opened Namespaces
  import opened NamespacePasses
  import opened RolePasses
  import opened CommitMarker
  import opened RoleRuns
  import DR = DeletionRuns
  import CRuns = ClusterRuns
  import SR = SpaceRoles

  // ---- What is asked of the templates and of the space ----

  function Home(t: Tier, space: string): string { if Frame(t, space) != [] then Frame(t, space)[0].key.name else "" }

  // No label of the marker, and none of those enforced with another value.
  predicate Unreserved(labels: Labels, space: string, t: Tier) {
    && TemplateRef !in labels && TierName !in labels
    && forall l :: l in labels && l in NsLabels(space, t) ==> labels[l] == NsLabels(space, t)[l]
  }

  predicate IsRoleKind(k: Key) { k.gvk.kind.Role? || k.gvk.kind.RoleBinding? }

  // The objects of a template in one namespace; none of them belongs to a space role.
  ghost predicate Inside(e: Env, ms: seq<Manifest>, home: string, rr: set<string>) {
    forall m :: m in ms ==> m.key.ns == home && forall n :: !RoleKey(e, rr, n, m.key)
  }

  // One namespace, free of the operator's labels; everything else inside it; and the Roles and RoleBindings
  // it is checked for are among what is applied.
  ghost predicate GoodTier(e: Env, space: string, t: Tier, rr: set<string>) {
    && t.process(Params(space, "", "")).Some? && t.process(Params(space, space, "")).Some?
    && |Frame(t, space)| == 1 && var f := Frame(t, space)[0];
    && f.key == NsKey(f.key.name) && f.key.name != "" && Available(e, f) && Unreserved(f.labels, space, t)
    && LastAppliedSpaceRoles !in f.notes
    && Inside(e, Content(t, space), f.key.name, rr)
    && (forall m :: m in AllButNamespaces(t.process(Params(space, space, "")).value) && IsRoleKind(m.key) ==>
          ListedKey(f.key.name, m) in AvailableKeys(e, Content(t, space)))
  }

  ghost predicate GoodTemplates(e: Env, t: NSTemplateSet, rr: set<string>) {
    && RolesLocal(e, rr) && From(SR.Items(t.roles), rr) && TiersOf(e, t.namespaces).Some? && var tiers := Tiers(e, t);
    && (forall i :: 0 <= i < |tiers| ==>
        GoodTier(e, t.name, tiers[i], rr) && RoleManifests(e, Home(tiers[i], t.name), SR.Items(t.roles)).Some?)
    && (forall i, j :: 0 <= i < j < |tiers| ==>
          tiers[i].typeName != tiers[j].typeName && Home(tiers[i], t.name) != Home(tiers[j], t.name))
  }

  // A namespace of the space: named as the template of its type says, roles readable, reference known.
  ghost predicate GoodNs(e: Env, o: Object, x: string, t: NSTemplateSet, tiers: seq<Tier>, rr: set<string>) {
    && o.active && CRuns.NoteFrom(o, rr)
    && LastApplied(o).Some? && RoleManifests(e, x, SR.Items(LastApplied(o).value)).Some?
    && RoleManifests(e, x, SR.Items(t.roles)).Some?
    && (forall i :: 0 <= i < |tiers| && LabelOf(o.labels, Type) == tiers[i].typeName ==> x == Home(tiers[i], t.name))
    && var ref := LabelOf(o.labels, TemplateRef);
       ref != "" ==> && TierAt(e, ref).Some? && TierAt(e, ref).value.process(Params(t.name, "", "")).Some?
                     && Inside(e, Content(TierAt(e, ref).value, t.name), x, rr)
  }

  // No namespace and nothing in one is on its way out.
  predicate Clean(objs: Objects) { forall k :: k in objs && !ClusterScoped(k) ==> !objs[k].terminating }

  // The space is clean, and no other space's namespace has the name of one of the templates'.
  ghost predicate GoodSpace(e: Env, objs: Objects, t: NSTemplateSet, tiers: seq<Tier>, rr: set<string>) {
    && Clean(objs)
    && (forall x :: Owns(objs, t.name, x) ==> GoodNs(e, objs[NsKey(x)], x, t, tiers, rr))
    && (forall i :: 0 <= i < |tiers| && NsKey(Home(tiers[i], t.name)) in objs ==>
        Owns(objs, t.name, Home(tiers[i], t.name)))
  }

  function Tiers(e: Env, t: NSTemplateSet): seq<Tier> {
    if TiersOf(e, t.namespaces).Some? then TiersOf(e, t.namespaces).value else []
  }

  ghost predicate Good(e: Env, s: State, rr: set<string>) {
    var t := s.saved;
    && !t.deleting && GoodTemplates(e, t, rr) && GoodSpace(e, s.objs, t, Tiers(e, t), rr)
    && RefManifests(e, t.name, t.cluster).Some? && ClusterShaped(e, t.name, t.cluster)
    && RefManifests(e, t.name, t.status.cluster).Some? && ClusterShaped(e, t.name, t.status.cluster)
  }

  // ---- The measure ----

  // What a type still lacks: its namespace, the labels of it, its content, nothing.
  function Lack(objs: Objects, space: string, t: Tier): nat {
    var k := NsKey(Home(t, space));
    if !Owns(objs, space, Home(t, space)) || LabelOf(objs[k].labels, Type) != t.typeName || Frame(t, space) == [] then 3
    else if Fine(objs, Ns(Home(t, space), objs[k]), t) == Some(true) then 0
    else if MapContains(objs[k].labels, Frame(t, space)[0].labels) then 1
    else 2
  }

  function Lacks(objs: Objects, space: string, tiers: seq<Tier>): nat {
    if tiers == [] then 0 else Lack(objs, space, tiers[0]) + Lacks(objs, space, tiers[1..])
  }

  function Redundant(objs: Objects, space: string, tiers: seq<Tier>): set<string> {
    set x | x in OwnedNames(objs, space) && !HasType(tiers, LabelOf(objs[NsKey(x)].labels, Type))
  }

  function Stale(objs: Objects, space: string, want: SR.Roles): set<string> {
    set x | x in OwnedNames(objs, space) && LastApplied(objs[NsKey(x)]) != Some(want)
  }

  function Work(objs: Objects, t: NSTemplateSet, tiers: seq<Tier>): nat {
    |Redundant(objs, t.name, tiers)| + 2 * Lacks(objs, t.name, tiers) + |Stale(objs, t.name, t.roles)|
  }

  // ---- Locality of the measure ----

  predicate Needed(t: Tier, space: string, k: Key) { IsRoleKind(k) && k in Keys(Content(t, space)) }

  // A change that keeps the labels of the tier's namespace and those of its Roles and RoleBindings.
  ghost predicate KeepsTier(objs: Objects, objs': Objects, space: string, t: Tier) {
    var k := NsKey(Home(t, space));
    && (k in objs <==> k in objs') && (k in objs ==> objs'[k].labels == objs[k].labels)
    && (k in objs ==> forall r :: Needed(t, space, r) && Labelled(objs, r, Space, space) ==>
        Labelled(objs', r, Space, space))
  }

  lemma LackKept(e: Env, objs: Objects, objs': Objects, space: string, t: Tier, rr: set<string>)
    requires GoodTier(e, space, t, rr) && KeepsTier(objs, objs', space, t)
    ensures Lack(objs', space, t) <= Lack(objs, space, t)
  {
    var h := Home(t, space);
    var k := NsKey(h);
    if Lack(objs, space, t) == 0 {
      var ms := AllButNamespaces(t.process(Params(space, space, "")).value);
      forall m | m in ms && (m.key.gvk.kind.Role? || m.key.gvk.kind.RoleBinding?)
        ensures Contains(objs', ListedKey(h, m), space)
      {
        assert ListedKey(h, m) in AvailableKeys(e, Content(t, space));
        assert Needed(t, space, ListedKey(h, m));
        assert Labelled(objs, ListedKey(h, m), Space, space);
      }
    }
  }

  lemma {:induction false} LacksKept(objs: Objects, objs': Objects, space: string, tiers: seq<Tier>)
    requires forall i :: 0 <= i < |tiers| ==> Lack(objs', space, tiers[i]) <= Lack(objs, space, tiers[i])
    ensures Lacks(objs', space, tiers) <= Lacks(objs, space, tiers)
  {
    if tiers != [] { LacksKept(objs, objs', space, tiers[1..]); }
  }

  lemma {:induction false} LacksDrop(objs: Objects, objs': Objects, space: string, tiers: seq<Tier>, i: nat)
    requires i < |tiers|
    requires forall j :: 0 <= j < |tiers| && j != i ==> Lack(objs', space, tiers[j]) <= Lack(objs, space, tiers[j])
    ensures Lacks(objs', space, tiers) + Lack(objs, space, tiers[i])
      <= Lacks(objs, space, tiers) + Lack(objs', space, tiers[i])
  {
    if i == 0 {
      LacksKept(objs, objs', space, tiers[1..]);
    } else {
      LacksDrop(objs, objs', space, tiers[1..], i - 1);
    }
  }

  // ---- Settling ----

  lemma SettleAt(objs: Objects, k: Key)
    ensures At(DR.Settle(objs), k) == if DR.Stays(objs, k) then Some(DR.Woken(k, objs[k])) else None
  {}

  lemma SettleLabels(objs: Objects, space: string, x: string)
    ensures Owns(DR.Settle(objs), space, x) <==> Owns(objs, space, x) && !objs[NsKey(x)].terminating
    ensures Owns(DR.Settle(objs), space, x) ==>
      && DR.Settle(objs)[NsKey(x)].labels == objs[NsKey(x)].labels
      && LastApplied(DR.Settle(objs)[NsKey(x)]) == LastApplied(objs[NsKey(x)])
      && DR.Settle(objs)[NsKey(x)].active
  {}

  lemma SettleClean(objs: Objects)
    ensures Clean(DR.Settle(objs))
  {}

  // ---- What the decision says about the measure ----

  lemma {:induction false} PickedTodo(objs: Objects, tiers: seq<Tier>, nss: seq<Ns>) returns (i: nat)
    requires Pick(objs, tiers, nss).Todo?
    ensures var p := Pick(objs, tiers, nss);
      && i < |tiers| && p.tier == tiers[i] && p.ns == FindNamespace(nss, tiers[i].typeName)
      && (p.ns.Some? ==> p.ns.value.obj.active && Fine(objs, p.ns.value, tiers[i]) == Some(false))
    decreases |tiers|
  {
    var n := FindNamespace(nss, tiers[0].typeName);
    i := 0;
    if n.Some? && (!n.value.obj.active || Fine(objs, n.value, tiers[0]) == Some(true)) {
      var j := PickedTodo(objs, tiers[1..], nss);
      i := j + 1;
    }
  }

  lemma {:induction false} PickNotBroken(objs: Objects, space: string, tiers: seq<Tier>, nss: seq<Ns>)
    requires forall i :: 0 <= i < |tiers| ==> tiers[i].process(Params(space, space, "")).Some?
    requires forall n :: n in nss ==> Space in n.obj.labels && n.obj.labels[Space] == space
    ensures !Pick(objs, tiers, nss).Broken?
    decreases |tiers|
  {
    if tiers != [] { PickNotBroken(objs, space, tiers[1..], nss); }
  }

  lemma ExpectedLabels(e: Env, space: string, t: Tier, n: Ns, rr: set<string>)
    requires GoodTier(e, space, t, rr) && n.name == Home(t, space) && LabelOf(n.obj.labels, Space) == space
    ensures HasExpectedLabels(t, n) == Some(MapContains(n.obj.labels, Frame(t, space)[0].labels))
  {
    assert LastNamed(Frame(t, space), n.name) == Some(Frame(t, space)[0]);
  }

  lemma FoundAtHome(e: Env, objs: Objects, t: NSTemplateSet, tiers: seq<Tier>, nss: seq<Ns>, i: nat, rr: set<string>)
    requires GoodSpace(e, objs, t, tiers, rr) && i < |tiers| && forall n :: n in nss <==> IsOwned(objs, t.name, n)
    ensures var n := FindNamespace(nss, tiers[i].typeName); var h := Home(tiers[i], t.name);
      if n.None? then !Owns(objs, t.name, h) || LabelOf(objs[NsKey(h)].labels, Type) != tiers[i].typeName
      else n.value.name == h && IsOwned(objs, t.name, n.value) && LabelOf(n.value.obj.labels, Type) == tiers[i].typeName
  {
    var n, h := FindNamespace(nss, tiers[i].typeName), Home(tiers[i], t.name);
    if n.None? {
      if Owns(objs, t.name, h) { assert IsOwned(objs, t.name, Ns(h, objs[NsKey(h)])); }
    } else {
      assert GoodNs(e, n.value.obj, n.value.name, t, tiers, rr);
    }
  }

  // What the plan for a namespace found under its type comes to.
  lemma FoundMeans(e: Env, objs: Objects, space: string, t: Tier, n: Ns, rr: set<string>)
    requires GoodTier(e, space, t, rr) && n.name == Home(t, space) && IsOwned(objs, space, n)
    requires LabelOf(n.obj.labels, Type) == t.typeName && Fine(objs, n, t) == Some(false)
    ensures var p := PlanFor(Todo(t, Some(n)));
      (p == Make(t) && Lack(objs, space, t) == 2) || (p == Refill(t, n) && Lack(objs, space, t) == 1)
  {
    ExpectedLabels(e, space, t, n, rr);
  }

  lemma TodoMeans(e: Env, objs: Objects, t: NSTemplateSet, tiers: seq<Tier>, nss: seq<Ns>, i: nat, rr: set<string>)
    requires GoodTemplates(e, t, rr) && tiers == Tiers(e, t) && GoodSpace(e, objs, t, tiers, rr) && i < |tiers|
    requires forall n :: n in nss <==> IsOwned(objs, t.name, n)
    ensures var n := FindNamespace(nss, tiers[i].typeName); var p := PlanFor(Todo(tiers[i], n));
      if n.None? then p == Make(tiers[i]) && Lack(objs, t.name, tiers[i]) == 3
      else Fine(objs, n.value, tiers[i]) == Some(false) ==>
        (p == Make(tiers[i]) && Lack(objs, t.name, tiers[i]) == 2)
        || (p == Refill(tiers[i], n.value) && n.value.name == Home(tiers[i], t.name) && IsOwned(objs, t.name, n.value)
            && Lack(objs, t.name, tiers[i]) == 1)
  {
    FoundAtHome(e, objs, t, tiers, nss, i, rr);
    var n := FindNamespace(nss, tiers[i].typeName);
    if n.Some? && Fine(objs, n.value, tiers[i]) == Some(false) {
      FoundMeans(e, objs, t.name, tiers[i], n.value, rr);
    }
  }

  lemma DeprovisionMeans(objs: Objects, space: string, tiers: seq<Tier>)
    ensures var gone := NextToDeprovision(tiers, Owned(objs, space));
      && (gone.Some? ==> gone.value.name in Redundant(objs, space, tiers))
      && (gone.None? ==> Redundant(objs, space, tiers) == {})
  {
    OwnedMembers(objs, space);
    if NextToDeprovision(tiers, Owned(objs, space)).None? {
      forall x | x in OwnedNames(objs, space) ensures HasType(tiers, LabelOf(objs[NsKey(x)].labels, Type)) {
        assert IsOwned(objs, space, Ns(x, objs[NsKey(x)]));
      }
    }
  }

  // Never stuck; a namespace is made where it or its labels are lacking, and filled where only that is missing.
  lemma DecideMeans(e: Env, objs: Objects, t: NSTemplateSet, tiers: seq<Tier>, rr: set<string>) returns (i: nat)
    requires GoodTemplates(e, t, rr) && tiers == Tiers(e, t) && GoodSpace(e, objs, t, tiers, rr)
    ensures var p := Decide(e, objs, t.name, t.namespaces);
      && !p.Stuck?
      && (p.Drop? ==> p.n.name in Redundant(objs, t.name, tiers))
      && (!p.Drop? ==> Redundant(objs, t.name, tiers) == {})
      && (p.Make? ==> i < |tiers| && p.tier == tiers[i] && Lack(objs, t.name, tiers[i]) >= 2)
      && (p.Refill? ==> i < |tiers| && p.tier == tiers[i] && p.n.name == Home(tiers[i], t.name)
                        && IsOwned(objs, t.name, p.n) && Lack(objs, t.name, tiers[i]) == 1)
  {
    var nss := Owned(objs, t.name);
    i := 0;
    DeprovisionMeans(objs, t.name, tiers);
    OwnedMembers(objs, t.name);
    if NextToDeprovision(tiers, nss).None? {
      assert forall i :: 0 <= i < |tiers| ==> GoodTier(e, t.name, tiers[i], rr);
      PickNotBroken(objs, t.name, tiers, nss);
      if Pick(objs, tiers, nss).Todo? {
        i := PickedTodo(objs, tiers, nss);
        TodoMeans(e, objs, t, tiers, nss, i, rr);
      }
    }
  }

  // ---- The steps on the store: `objs` is clean, `objs'` what the effect leaves, then the environment settles ----

  // No namespace is touched but `home`, nor any Role or RoleBinding outside it.
  ghost predicate Around(objs: Objects, objs': Objects, home: string) {
    && (forall x :: x != home ==> At(objs', NsKey(x)) == At(objs, NsKey(x)))
    && (forall k: Key :: k.ns != "" && k.ns != home && IsRoleKind(k) ==> At(objs', k) == At(objs, k))
  }

  lemma AroundKeeps(e: Env, objs: Objects, objs': Objects, space: string, t: Tier, home: string, rr: set<string>)
    requires GoodTier(e, space, t, rr) && Around(objs, objs', home) && Home(t, space) != home
    requires Clean(objs)
    ensures KeepsTier(objs, DR.Settle(objs'), space, t)
  {
    var h := Home(t, space);
    SettleAt(objs', NsKey(h));
    assert At(objs', NsKey(h)) == At(objs, NsKey(h));
    forall r | NsKey(h) in objs && Needed(t, space, r) && Labelled(objs, r, Space, space)
      ensures Labelled(DR.Settle(objs'), r, Space, space)
    {
      assert At(objs', r) == At(objs, r);
      SettleAt(objs', r);
    }
  }

  lemma CardinalityDrop(a: set<string>, b: set<string>, x: string)
    requires a <= b - {x} && x in b
    ensures |a| < |b|
  {
    DR.SmallerSet(a, b, x);
  }

  lemma CardinalityGrow(a: set<string>, b: set<string>, x: string)
    requires a <= b + {x}
    ensures |a| <= |b| + 1
  {
    DR.CardinalityMonotone(a, b + {x});
  }

  lemma ObsoleteDrop(objs: Objects, objs': Objects, space: string, tiers: seq<Tier>, home: string)
    requires forall x :: Owns(objs', space, x) && x != home ==>
      Owns(objs, space, x) && objs'[NsKey(x)].labels == objs[NsKey(x)].labels
    requires !Owns(objs', space, home) || HasType(tiers, LabelOf(objs'[NsKey(home)].labels, Type))
    ensures |Redundant(objs', space, tiers)| <= |Redundant(objs, space, tiers)|
    ensures home in Redundant(objs, space, tiers) ==> |Redundant(objs', space, tiers)| < |Redundant(objs, space, tiers)|
  {
    assert Redundant(objs', space, tiers) <= Redundant(objs, space, tiers) - {home};
    DR.CardinalityMonotone(Redundant(objs', space, tiers), Redundant(objs, space, tiers));
    if home in Redundant(objs, space, tiers) {
      CardinalityDrop(Redundant(objs', space, tiers), Redundant(objs, space, tiers), home);
    }
  }

  lemma StaleStep(objs: Objects, objs': Objects, space: string, want: SR.Roles, home: string)
    requires forall x :: Owns(objs', space, x) && x != home ==>
      Owns(objs, space, x) && LastApplied(objs'[NsKey(x)]) == LastApplied(objs[NsKey(x)])
    ensures |Stale(objs', space, want)| <= |Stale(objs, space, want)| + 1
    ensures home !in Stale(objs', space, want) || home in Stale(objs, space, want) ==>
      |Stale(objs', space, want)| <= |Stale(objs, space, want)|
    ensures home !in Stale(objs', space, want) && home in Stale(objs, space, want) ==>
      |Stale(objs', space, want)| < |Stale(objs, space, want)|
  {
    var a, b := Stale(objs', space, want), Stale(objs, space, want);
    assert a <= b + {home};
    CardinalityGrow(a, b, home);
    if home !in a || home in b { assert a <= b; DR.CardinalityMonotone(a, b); }
    if home !in a && home in b { CardinalityDrop(a, b, home); }
  }

  // The tiers with another home are not affected.
  lemma OtherTiers(e: Env, objs: Objects, objs': Objects, t: NSTemplateSet, tiers: seq<Tier>, home: string,
                   rr: set<string>)
    requires GoodTemplates(e, t, rr) && tiers == Tiers(e, t) && Around(objs, objs', home)
    requires Clean(objs)
    ensures forall j :: 0 <= j < |tiers| && Home(tiers[j], t.name) != home ==>
      Lack(DR.Settle(objs'), t.name, tiers[j]) <= Lack(objs, t.name, tiers[j])
  {
    forall j | 0 <= j < |tiers| && Home(tiers[j], t.name) != home
      ensures Lack(DR.Settle(objs'), t.name, tiers[j]) <= Lack(objs, t.name, tiers[j])
    {
      AroundKeeps(e, objs, objs', t.name, tiers[j], home, rr);
      LackKept(e, objs, DR.Settle(objs'), t.name, tiers[j], rr);
    }
  }

  lemma GoodNsSame(e: Env, o: Object, o': Object, x: string, t: NSTemplateSet, tiers: seq<Tier>, rr: set<string>)
    requires GoodNs(e, o, x, t, tiers, rr) && o'.labels == o.labels && LastApplied(o') == LastApplied(o) && o'.active
    ensures GoodNs(e, o', x, t, tiers, rr)
  {}

  // The space stays good when all namespaces but one keep labels and annotation, and that one is gone or good.
  lemma GoodStep(e: Env, objs: Objects, objs': Objects, t: NSTemplateSet, tiers: seq<Tier>, home: string,
                 rr: set<string>)
    requires GoodSpace(e, objs, t, tiers, rr) && forall x :: x != home ==> At(objs', NsKey(x)) == At(objs, NsKey(x))
    requires var r := DR.Settle(objs');
      || At(objs', NsKey(home)) == At(objs, NsKey(home))
      || (if Owns(r, t.name, home) then GoodNs(e, r[NsKey(home)], home, t, tiers, rr) else NsKey(home) !in r)
    ensures GoodSpace(e, DR.Settle(objs'), t, tiers, rr)
  {
    var r := DR.Settle(objs');
    SettleClean(objs');
    forall x | Owns(r, t.name, x) ensures GoodNs(e, r[NsKey(x)], x, t, tiers, rr) {
      SettleLabels(objs', t.name, x);
      if x != home || At(objs', NsKey(home)) == At(objs, NsKey(home)) {
        assert At(objs', NsKey(x)) == At(objs, NsKey(x));
        GoodNsSame(e, objs[NsKey(x)], r[NsKey(x)], x, t, tiers, rr);
      }
    }
    forall i | 0 <= i < |tiers| && NsKey(Home(tiers[i], t.name)) in r ensures Owns(r, t.name, Home(tiers[i], t.name)) {
      var h := Home(tiers[i], t.name);
      SettleLabels(objs', t.name, h);
      if h != home || At(objs', NsKey(home)) == At(objs, NsKey(home)) {
        assert At(objs', NsKey(h)) == At(objs, NsKey(h));
      }
    }
  }

  predicate SameMarks(objs: Objects, objs': Objects, space: string, x: string)
    requires NsKey(x) in objs'
  {
    && Owns(objs, space, x) && objs'[NsKey(x)].labels == objs[NsKey(x)].labels
    && LastApplied(objs'[NsKey(x)]) == LastApplied(objs[NsKey(x)])
  }

  lemma SettledNames(objs: Objects, objs': Objects, space: string, home: string)
    requires forall x :: x != home ==> At(objs', NsKey(x)) == At(objs, NsKey(x))
    requires Clean(objs)
    ensures var r := DR.Settle(objs');
      forall x :: Owns(r, space, x) && x != home ==> SameMarks(objs, r, space, x)
  {
    forall x | x != home
      ensures Owns(DR.Settle(objs'), space, x) ==> SameMarks(objs, DR.Settle(objs'), space, x)
    {
      SettleLabels(objs', space, x);
      assert At(objs', NsKey(x)) == At(objs, NsKey(x));
    }
  }

  // Deprovisioning.
  lemma DropStep(e: Env, objs: Objects, t: NSTemplateSet, tiers: seq<Tier>, x: string, rr: set<string>)
    requires GoodTemplates(e, t, rr) && tiers == Tiers(e, t) && GoodSpace(e, objs, t, tiers, rr)
    requires x in Redundant(objs, t.name, tiers)
    ensures var r := DR.Settle(On(e, objs, t.name, Gone(x)));
      GoodSpace(e, r, t, tiers, rr) && Work(r, t, tiers) < Work(objs, t, tiers)
  {
    var objs' := On(e, objs, t.name, Gone(x));
    var r := DR.Settle(objs');
    assert Around(objs, objs', x);
    SettleAt(objs', NsKey(x));
    SettledNames(objs, objs', t.name, x);
    GoodStep(e, objs, objs', t, tiers, x, rr);
    ObsoleteDrop(objs, r, t.name, tiers, x);
    StaleStep(objs, r, t.name, t.roles, x);
    OtherTiers(e, objs, objs', t, tiers, x, rr);
    forall j | 0 <= j < |tiers| ensures Lack(r, t.name, tiers[j]) <= Lack(objs, t.name, tiers[j]) {}
    LacksKept(objs, r, t.name, tiers);
  }

  // Creating or relabelling.
  lemma StampOne(e: Env, objs: Objects, space: string, t: Tier)
    requires |Frame(t, space)| == 1 && Available(e, Frame(t, space)[0])
    ensures Fits(e, space, Stamp(t, 1))
    ensures On(e, objs, space, Stamp(t, 1)) == StampIn(e, objs, Frame(t, space)[0], NsLabels(space, t))
  {
    var frame := Frame(t, space);
    assert frame[..1] == frame;
    StampFirst(e, objs, frame, NsLabels(space, t));
  }

  lemma MadeNs(e: Env, objs: Objects, t: NSTemplateSet, tiers: seq<Tier>, i: nat, rr: set<string>)
    requires GoodTemplates(e, t, rr) && tiers == Tiers(e, t) && GoodSpace(e, objs, t, tiers, rr) && i < |tiers|
    ensures var h := Home(tiers[i], t.name); var f := Stamp(tiers[i], 1); var k := NsKey(h);
      && Complete(e, t.name, f) && Fits(e, t.name, f) && var objs' := On(e, objs, t.name, f);
      && Around(objs, objs', h) && k in objs' && !objs'[k].terminating
      && objs'[k].labels == Frame(tiers[i], t.name)[0].labels + NsLabels(t.name, tiers[i])
      && LastApplied(objs'[k]).Some? && RoleManifests(e, h, SR.Items(LastApplied(objs'[k]).value)).Some?
      && CRuns.NoteFrom(objs'[k], rr)
  {
    var tier := tiers[i];
    assert GoodTier(e, t.name, tier, rr);
    var k := Frame(tier, t.name)[0].key;
    StampOne(e, objs, t.name, tier);
    if k in objs { assert GoodNs(e, objs[k], k.name, t, tiers, rr); }
    assert SR.Items(None) == [];
  }

  // The labels of a namespace just made.
  lemma MadeLabels(e: Env, space: string, t: Tier, labels: Labels, rr: set<string>)
    requires GoodTier(e, space, t, rr) && labels == Frame(t, space)[0].labels + NsLabels(space, t)
    ensures TemplateRef !in labels && LabelOf(labels, Type) == t.typeName && LabelOf(labels, Space) == space
    ensures Space in labels
    ensures MapContains(labels, Frame(t, space)[0].labels)
  {}

  lemma MadeGoodNs(e: Env, o: Object, h: string, t: NSTemplateSet, tiers: seq<Tier>, i: nat, rr: set<string>)
    requires i < |tiers| && h == Home(tiers[i], t.name) && RoleManifests(e, h, SR.Items(t.roles)).Some?
    requires forall j :: 0 <= j < |tiers| && tiers[j].typeName == tiers[i].typeName ==> j == i
    requires o.active && CRuns.NoteFrom(o, rr) && LastApplied(o).Some?
    requires RoleManifests(e, h, SR.Items(LastApplied(o).value)).Some?
    requires TemplateRef !in o.labels && LabelOf(o.labels, Type) == tiers[i].typeName
    ensures GoodNs(e, o, h, t, tiers, rr)
  {}

  lemma MadeLack(objs: Objects, space: string, t: Tier)
    requires Frame(t, space) != [] && Owns(objs, space, Home(t, space))
    requires var labels := objs[NsKey(Home(t, space))].labels;
      LabelOf(labels, Type) == t.typeName && MapContains(labels, Frame(t, space)[0].labels)
    ensures Lack(objs, space, t) <= 1
  {}

  lemma MadeGood(e: Env, objs: Objects, t: NSTemplateSet, tiers: seq<Tier>, i: nat, rr: set<string>)
    requires GoodTemplates(e, t, rr) && tiers == Tiers(e, t) && GoodSpace(e, objs, t, tiers, rr) && i < |tiers|
    requires Fits(e, t.name, Stamp(tiers[i], 1))
    ensures var r := DR.Settle(On(e, objs, t.name, Stamp(tiers[i], 1))); var h := Home(tiers[i], t.name);
      && Owns(r, t.name, h) && LabelOf(r[NsKey(h)].labels, Type) == tiers[i].typeName
      && GoodNs(e, r[NsKey(h)], h, t, tiers, rr) && Lack(r, t.name, tiers[i]) <= 1
  {
    var h, tier := Home(tiers[i], t.name), tiers[i];
    MadeNs(e, objs, t, tiers, i, rr);
    assert GoodTier(e, t.name, tier, rr);
    var objs' := On(e, objs, t.name, Stamp(tier, 1));
    MadeLabels(e, t.name, tier, objs'[NsKey(h)].labels, rr);
    SettleLabels(objs', t.name, h);
    var r := DR.Settle(objs');
    var o := r[NsKey(h)];
    WokenNote(objs', h, rr);
    MadeGoodNs(e, o, h, t, tiers, i, rr);
    MadeLack(r, t.name, tier);
  }

  lemma WokenNote(objs: Objects, x: string, rr: set<string>)
    requires NsKey(x) in DR.Settle(objs)
    ensures CRuns.NoteFrom(DR.Settle(objs)[NsKey(x)], rr) == CRuns.NoteFrom(objs[NsKey(x)], rr)
  {}

  lemma MakeStep(e: Env, objs: Objects, t: NSTemplateSet, tiers: seq<Tier>, i: nat, rr: set<string>)
    requires GoodTemplates(e, t, rr) && tiers == Tiers(e, t) && GoodSpace(e, objs, t, tiers, rr) && i < |tiers|
    requires Lack(objs, t.name, tiers[i]) >= 2 && Fits(e, t.name, Stamp(tiers[i], 1))
    ensures var r := DR.Settle(On(e, objs, t.name, Stamp(tiers[i], 1)));
      GoodSpace(e, r, t, tiers, rr) && Work(r, t, tiers) < Work(objs, t, tiers)
  {
    var h := Home(tiers[i], t.name);
    MadeNs(e, objs, t, tiers, i, rr);
    MadeGood(e, objs, t, tiers, i, rr);
    var objs' := On(e, objs, t.name, Stamp(tiers[i], 1));
    GoodStep(e, objs, objs', t, tiers, h, rr);
    StepOfTier(e, objs, objs', t, tiers, i, rr);
  }

  // One tier gains, the others are not affected, no namespace becomes obsolete; roles may have to be recorded again.
  lemma StepOfTier(e: Env, objs: Objects, objs': Objects, t: NSTemplateSet, tiers: seq<Tier>, i: nat, rr: set<string>)
    requires GoodTemplates(e, t, rr) && tiers == Tiers(e, t) && GoodSpace(e, objs, t, tiers, rr) && i < |tiers|
    requires Around(objs, objs', Home(tiers[i], t.name))
    requires var r := DR.Settle(objs'); var h := Home(tiers[i], t.name);
      && Owns(r, t.name, h) && LabelOf(r[NsKey(h)].labels, Type) == tiers[i].typeName
      && Lack(r, t.name, tiers[i]) < Lack(objs, t.name, tiers[i])
    ensures Work(DR.Settle(objs'), t, tiers) < Work(objs, t, tiers)
  {
    var h, r := Home(tiers[i], t.name), DR.Settle(objs');
    SettledNames(objs, objs', t.name, h);
    assert HasType(tiers, tiers[i].typeName);
    ObsoleteDrop(objs, r, t.name, tiers, h);
    StaleStep(objs, r, t.name, t.roles, h);
    OtherTiers(e, objs, objs', t, tiers, h, rr);
    assert forall j :: 0 <= j < |tiers| && j != i ==> Home(tiers[j], t.name) != h;
    LacksDrop(objs, r, t.name, tiers, i);
  }

  // Filling.
  lemma RefilledAround(e: Env, objs: Objects, space: string, t: Tier, n: Ns, rr: set<string>)
    requires GoodTier(e, space, t, rr) && n.name == Home(t, space) && Inside(e, Outdated(e, space, n, t), n.name, rr)
    requires Fits(e, space, Fill(t, n, |Outdated(e, space, n, t)|, |Content(t, space)|, true))
    ensures Around(objs, On(e, objs, space, Fill(t, n, |Outdated(e, space, n, t)|, |Content(t, space)|, true)), n.name)
  {
    var olds, news := Outdated(e, space, n, t), Content(t, space);
    assert olds[..|olds|] == olds && news[..|news|] == news;
    var objs' := On(e, objs, space, Fill(t, n, |olds|, |news|, true));
    forall x | x != n.name ensures At(objs', NsKey(x)) == At(objs, NsKey(x)) {
      FilledNamespaces(e, objs, space, t, n, |olds|, |news|, x);
    }
    forall k: Key | k.ns != "" && k.ns != n.name && IsRoleKind(k) ensures At(objs', k) == At(objs, k) {
      SweepAt(objs, olds, k);
      StampAllElsewhere(e, Sweep(objs, olds), news, InnerLabels(space), k);
    }
  }

  lemma FilledLive(e: Env, objs: Objects, space: string, t: Tier, n: Ns, m: Manifest)
    requires m in Content(t, space) && Available(e, m) && Clean(objs) && m.key.ns != ""
    ensures Live(Filled(e, objs, space, t, n, |Outdated(e, space, n, t)|, |Content(t, space)|), m.key)
  {
    var olds, news := Outdated(e, space, n, t), Content(t, space);
    assert olds[..|olds|] == olds && news[..|news|] == news;
    SweepAt(objs, olds, m.key);
    forall x | x in olds ensures x.key != m.key { assert x.key == m.key ==> SameGvkAndName(x, m); }
    StampAllLive(e, Sweep(objs, olds), news, InnerLabels(space), m.key);
  }

  lemma FilledRole(e: Env, objs: Objects, space: string, t: Tier, n: Ns, m: Manifest, rr: set<string>)
    requires GoodTier(e, space, t, rr) && n.name == Home(t, space)
    requires Clean(objs)
    requires m in AllButNamespaces(t.process(Params(space, space, "")).value) && IsRoleKind(m.key)
    ensures var r := Filled(e, objs, space, t, n, |Outdated(e, space, n, t)|, |Content(t, space)|);
      Labelled(r, ListedKey(n.name, m), Space, space) && Live(r, ListedKey(n.name, m))
  {
    var news := Content(t, space);
    FilledContent(e, objs, space, t, n);
    assert ListedKey(n.name, m) in AvailableKeys(e, news);
    var x :| x in news && Available(e, x) && x.key == ListedKey(n.name, m);
    assert InStore(Filled(e, objs, space, t, n, |Outdated(e, space, n, t)|, |news|), x, space);
    FilledLive(e, objs, space, t, n, x);
  }

  lemma SettledRole(objs: Objects, k: Key, space: string)
    requires Labelled(objs, k, Space, space) && Live(objs, k) && NsKey(k.ns) in objs && !objs[NsKey(k.ns)].terminating
    ensures Contains(DR.Settle(objs), k, space)
  {
    SettleAt(objs, k);
  }

  lemma RefilledRoles(e: Env, objs: Objects, space: string, t: Tier, n: Ns, rr: set<string>)
    requires GoodTier(e, space, t, rr) && n.name == Home(t, space) && IsOwned(objs, space, n)
    requires Clean(objs)
    ensures var filled := Filled(e, objs, space, t, n, |Outdated(e, space, n, t)|, |Content(t, space)|);
      RolesPresent(DR.Settle(filled[NsKey(n.name) := Marked(n.obj, t)]), n.name,
                   AllButNamespaces(t.process(Params(space, space, "")).value), space)
  {
    var objs' := Filled(e, objs, space, t, n, |Outdated(e, space, n, t)|,
                        |Content(t, space)|)[NsKey(n.name) := Marked(n.obj, t)];
    var ms := AllButNamespaces(t.process(Params(space, space, "")).value);
    forall m | m in ms && (m.key.gvk.kind.Role? || m.key.gvk.kind.RoleBinding?)
      ensures Contains(DR.Settle(objs'), ListedKey(n.name, m), space)
    {
      FilledRole(e, objs, space, t, n, m, rr);
      SettledRole(objs', ListedKey(n.name, m), space);
    }
  }

  lemma MarkedIsFine(objs: Objects, space: string, t: Tier, o: Object)
    requires Frame(t, space) != [] && Owns(objs, space, Home(t, space)) && objs[NsKey(Home(t, space))] == o
    requires LabelOf(o.labels, Type) == t.typeName && MarkedFor(Ns(Home(t, space), o), t)
    requires t.process(Params(space, space, "")).Some?
    requires RolesPresent(objs, Home(t, space), AllButNamespaces(t.process(Params(space, space, "")).value), space)
    ensures Lack(objs, space, t) == 0
  {}

  lemma RefilledFine(e: Env, objs: Objects, space: string, t: Tier, n: Ns, rr: set<string>)
    requires GoodTier(e, space, t, rr) && n.name == Home(t, space) && IsOwned(objs, space, n)
    requires LabelOf(n.obj.labels, Type) == t.typeName
    requires Clean(objs)
    ensures var filled := Filled(e, objs, space, t, n, |Outdated(e, space, n, t)|, |Content(t, space)|);
      var r := DR.Settle(filled[NsKey(n.name) := Marked(n.obj, t)]);
      Lack(r, space, t) == 0 && At(r, NsKey(n.name)) == Some(Marked(n.obj, t).(active := true))
  {
    var k := NsKey(n.name);
    var objs' := Filled(e, objs, space, t, n, |Outdated(e, space, n, t)|, |Content(t, space)|)[k := Marked(n.obj, t)];
    RefilledRoles(e, objs, space, t, n, rr);
    SettleAt(objs', k);
    assert !n.obj.terminating;
    MarkedIsFine(DR.Settle(objs'), space, t, Marked(n.obj, t).(active := true));
  }

  lemma OutdatedInside(e: Env, t: NSTemplateSet, tiers: seq<Tier>, n: Ns, tier: Tier, rr: set<string>)
    requires GoodNs(e, n.obj, n.name, t, tiers, rr)
    ensures Inside(e, Outdated(e, t.name, n, tier), n.name, rr)
    ensures OldRef(n, tier).Some? ==> TierAt(e, OldRef(n, tier).value).Some?
  {}

  lemma MarkedGood(e: Env, t: NSTemplateSet, tiers: seq<Tier>, i: nat, n: Ns, rr: set<string>)
    requires GoodTemplates(e, t, rr) && tiers == Tiers(e, t) && i < |tiers|
    requires n.name == Home(tiers[i], t.name) && GoodNs(e, n.obj, n.name, t, tiers, rr)
    ensures GoodNs(e, Marked(n.obj, tiers[i]).(active := true), n.name, t, tiers, rr)
  {
    TiersOfAt(e, t.namespaces, i);
    assert GoodTier(e, t.name, tiers[i], rr);
    var o := Marked(n.obj, tiers[i]).(active := true);
    assert LastApplied(o) == LastApplied(n.obj) && LabelOf(o.labels, Type) == LabelOf(n.obj.labels, Type);
    assert TierAt(e, LabelOf(o.labels, TemplateRef)) == Some(tiers[i]);
  }

  lemma RefillStep(e: Env, objs: Objects, t: NSTemplateSet, tiers: seq<Tier>, i: nat, n: Ns, rr: set<string>)
    requires GoodTemplates(e, t, rr) && tiers == Tiers(e, t) && GoodSpace(e, objs, t, tiers, rr) && i < |tiers|
    requires n.name == Home(tiers[i], t.name) && IsOwned(objs, t.name, n) && Lack(objs, t.name, tiers[i]) == 1
    requires Fits(e, t.name, Fill(tiers[i], n, |Outdated(e, t.name, n, tiers[i])|, |Content(tiers[i], t.name)|, true))
    ensures var f := Fill(tiers[i], n, |Outdated(e, t.name, n, tiers[i])|, |Content(tiers[i], t.name)|, true);
      var r := DR.Settle(On(e, objs, t.name, f));
      GoodSpace(e, r, t, tiers, rr) && Work(r, t, tiers) < Work(objs, t, tiers)
  {
    var tier := tiers[i];
    assert GoodTier(e, t.name, tier, rr) && GoodNs(e, n.obj, n.name, t, tiers, rr);
    OutdatedInside(e, t, tiers, n, tier, rr);
    var objs' := On(e, objs, t.name, Fill(tier, n, |Outdated(e, t.name, n, tier)|, |Content(tier, t.name)|, true));
    RefilledAround(e, objs, t.name, tier, n, rr);
    RefilledFine(e, objs, t.name, tier, n, rr);
    MarkedGood(e, t, tiers, i, n, rr);
    GoodStep(e, objs, objs', t, tiers, n.name, rr);
    StepOfTier(e, objs, objs', t, tiers, i, rr);
  }
}
