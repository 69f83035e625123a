// Which namespace a reconcile works on and what it does there, told by labels and templates alone.
module NamespaceLaws {
  import opened Names
  import opened Cluster
  import opened Applying
  import opened Passes
  import opened ClusterPasses
  import opened Namespaces
  import opened NamespacePasses
  import opened Plain
  import opened Reconciler

  // ---- The namespaces of a space ----

  function Where(x: string): Key { Key(Gvk("", "v1", Namespace), "", x) }

  predicate InSpace(objs: Objects, space: string, x: string) {
    x != "" && Where(x) in objs && Space in objs[Where(x)].labels && objs[Where(x)].labels[Space] == space
  }

  function LabelAt(objs: Objects, x: string, l: Label): string
    requires Where(x) in objs
  {
    if l in objs[Where(x)].labels then objs[Where(x)].labels[l] else ""
  }

  // The first in name order of this type.
  ghost predicate First(objs: Objects, space: string, typeName: string, x: string) {
    && InSpace(objs, space, x) && LabelAt(objs, x, Type) == typeName
    && forall y :: InSpace(objs, space, y) && LabelAt(objs, y, Type) == typeName ==> Leq(x, y)
  }

  // A reference of the spec and the template behind it.
  predicate Known(e: Env, ref: string) { ref != "" && e.tiers(ref).Some? }

  ghost predicate Foreign(e: Env, objs: Objects, t: NSTemplateSet, x: string) {
    && InSpace(objs, t.name, x)
    && forall ref :: ref in t.namespaces && Known(e, ref) ==> LabelAt(objs, x, Type) != e.tiers(ref).value.typeName
  }

  // ---- Whether a namespace needs work ----

  // A Role or RoleBinding of the template is in the namespace and has the space's label.
  predicate HasRole(objs: Objects, space: string, x: string, m: Manifest) {
    var k := Key(Gvk("rbac.authorization.k8s.io", "v1", m.key.gvk.kind), x, m.key.name);
    k in objs && Space in objs[k].labels && objs[k].labels[Space] == space
  }

  ghost predicate UpToDate(e: Env, objs: Objects, space: string, x: string, ref: string)
    requires Known(e, ref) && Where(x) in objs
  {
    && LabelAt(objs, x, TemplateRef) == ref && LabelAt(objs, x, TierName) == e.tiers(ref).value.tierName
    && forall m :: m in Generated(e, ref, Params(space, space, "")) && m.key.gvk.kind in {Role, RoleBinding} ==>
         HasRole(objs, space, x, m)
  }

  // Its type has no namespace, or the first one of it is active and not up to date.
  ghost predicate NeedsWork(e: Env, objs: Objects, space: string, ref: string)
    requires Known(e, ref)
  {
    var typeName := e.tiers(ref).value.typeName;
    || (forall x :: !First(objs, space, typeName, x))
    || exists x :: First(objs, space, typeName, x) && objs[Where(x)].active && !UpToDate(e, objs, space, x, ref)
  }

  // ---- From lists to labels ----

  lemma InSpaceIff(objs: Objects, space: string, x: string)
    ensures InSpace(objs, space, x) <==> Owns(objs, space, x)
  {
    assert Where(x) == NsKey(x);
  }

  lemma InSpaceListed(objs: Objects, space: string, x: string)
    ensures InSpace(objs, space, x) ==> Ns(x, objs[Where(x)]) in Owned(objs, space)
    ensures forall n :: n in Owned(objs, space) ==> InSpace(objs, space, n.name) && objs[Where(n.name)] == n.obj
  {
    OwnedMembers(objs, space);
    forall n | n in Owned(objs, space) ensures InSpace(objs, space, n.name) && objs[Where(n.name)] == n.obj {
      InSpaceIff(objs, space, n.name);
    }
    if InSpace(objs, space, x) {
      InSpaceIff(objs, space, x);
      assert IsOwned(objs, space, Ns(x, objs[Where(x)]));
    }
  }

  // The list of namespaces is in name order.
  ghost predicate InOrder(nss: seq<Ns>) { forall i, j :: 0 <= i < j < |nss| ==> Leq(nss[i].name, nss[j].name) }

  lemma OwnedInOrder(objs: Objects, space: string)
    ensures InOrder(Owned(objs, space))
  {
    var names, nss := SortedNames(OwnedNames(objs, space)), Owned(objs, space);
    forall i, j | 0 <= i < j < |nss| ensures Leq(nss[i].name, nss[j].name) {
      assert nss[i].name == names[i] && nss[j].name == names[j];
    }
  }

  lemma TailInOrder(nss: seq<Ns>, n: Ns)
    requires InOrder(nss) && n in nss
    ensures InOrder(nss[1..]) && Leq(nss[0].name, n.name) && (n != nss[0] ==> n in nss[1..])
  {
    LeqReflexive(n.name);
    var i :| 0 <= i < |nss| && nss[i] == n;
    assert i > 0 ==> nss[1..][i - 1] == n;
  }

  lemma {:induction false} FoundLeast(nss: seq<Ns>, typeName: string, n: Ns)
    requires InOrder(nss) && n in nss && TypeOf(n) == typeName
    ensures var found := FindNamespace(nss, typeName); found.Some? && Leq(found.value.name, n.name)
  {
    TailInOrder(nss, n);
    if TypeOf(nss[0]) != typeName { FoundLeast(nss[1..], typeName, n); }
  }

  lemma {:induction false} GoneLeast(tiers: seq<Tier>, nss: seq<Ns>, n: Ns)
    requires InOrder(nss) && n in nss && !HasType(tiers, TypeOf(n))
    ensures var gone := NextToDeprovision(tiers, nss); gone.Some? && Leq(gone.value.name, n.name)
  {
    TailInOrder(nss, n);
    if HasType(tiers, TypeOf(nss[0])) { GoneLeast(tiers, nss[1..], n); }
  }

  lemma FoundIsFirst(objs: Objects, space: string, typeName: string)
    ensures var n := FindNamespace(Owned(objs, space), typeName);
      && (n.Some? ==> First(objs, space, typeName, n.value.name) && n.value.obj == objs[Where(n.value.name)])
      && (n.None? ==> forall x :: InSpace(objs, space, x) ==> LabelAt(objs, x, Type) != typeName)
  {
    var nss := Owned(objs, space);
    OwnedInOrder(objs, space);
    forall y | InSpace(objs, space, y) && LabelAt(objs, y, Type) == typeName
      ensures var n := FindNamespace(nss, typeName); n.Some? && Leq(n.value.name, y)
    {
      InSpaceListed(objs, space, y);
      FoundLeast(nss, typeName, Ns(y, objs[Where(y)]));
    }
    FoundListed(objs, space, typeName);
  }

  lemma FoundListed(objs: Objects, space: string, typeName: string)
    ensures var n := FindNamespace(Owned(objs, space), typeName);
      n.Some? ==> var x := n.value.name;
        InSpace(objs, space, x) && objs[Where(x)] == n.value.obj && LabelAt(objs, x, Type) == typeName
  {
    var n := FindNamespace(Owned(objs, space), typeName);
    if n.Some? { InSpaceListed(objs, space, n.value.name); }
  }

  lemma FirstUnique(objs: Objects, space: string, typeName: string, x: string, y: string)
    requires First(objs, space, typeName, x) && First(objs, space, typeName, y)
    ensures x == y
  {
    LeqAntisymmetric(x, y);
  }

  function TierOf(e: Env, ref: string): Tier
    requires Known(e, ref)
  {
    e.tiers(ref).value.(templateRef := ref)
  }

  predicate AllKnown(e: Env, refs: seq<string>) { forall ref :: ref in refs ==> Known(e, ref) }

  lemma {:induction false} TiersMean(e: Env, refs: seq<string>)
    requires TiersOf(e, refs).Some?
    ensures AllKnown(e, refs) && |TiersOf(e, refs).value| == |refs|
    ensures forall i :: 0 <= i < |refs| ==> Known(e, refs[i]) && TiersOf(e, refs).value[i] == TierOf(e, refs[i])
  {
    if refs != [] { TiersMean(e, refs[1..]); }
  }

  lemma ForeignIff(e: Env, objs: Objects, t: NSTemplateSet, x: string)
    requires TiersOf(e, t.namespaces).Some? && InSpace(objs, t.name, x)
    ensures Foreign(e, objs, t, x) <==> !HasType(TiersOf(e, t.namespaces).value, LabelAt(objs, x, Type))
  {
    var refs, tiers := t.namespaces, TiersOf(e, t.namespaces).value;
    TiersMean(e, refs);
    if HasType(tiers, LabelAt(objs, x, Type)) {
      var i :| 0 <= i < |tiers| && tiers[i].typeName == LabelAt(objs, x, Type);
      assert refs[i] in refs;
    }
    if ref :| ref in refs && Known(e, ref) && LabelAt(objs, x, Type) == e.tiers(ref).value.typeName {
      var i :| 0 <= i < |refs| && refs[i] == ref;
      assert tiers[i].typeName == LabelAt(objs, x, Type);
    }
  }

  lemma FineIff(e: Env, objs: Objects, space: string, x: string, ref: string)
    requires Known(e, ref) && InSpace(objs, space, x)
    ensures var f := Fine(objs, Ns(x, objs[Where(x)]), TierOf(e, ref));
      && (f == Some(true) ==> UpToDate(e, objs, space, x, ref))
      && (f == Some(false) ==> !UpToDate(e, objs, space, x, ref))
  {
    var t, n := TierOf(e, ref), Ns(x, objs[Where(x)]);
    var f := Fine(objs, n, t);
    assert LabelOf(n.obj.labels, TemplateRef) == LabelAt(objs, x, TemplateRef);
    assert LabelOf(n.obj.labels, TierName) == LabelAt(objs, x, TierName);
    if MarkedFor(n, t) && f.Some? {
      var ms := Generated(e, ref, Params(space, space, ""));
      assert t.process(Params(space, space, "")) == Some(ms);
      forall m | m in ms && (m.key.gvk.kind.Role? || m.key.gvk.kind.RoleBinding?)
        ensures HasRole(objs, space, x, m) <==> Contains(objs, ListedKey(x, m), space)
      {
        assert ListedKey(x, m) == Key(Gvk("rbac.authorization.k8s.io", "v1", m.key.gvk.kind), x, m.key.name);
      }
      forall m ensures m in AllButNamespaces(ms) <==> m in ms && !m.key.gvk.kind.Namespace? {}
    }
  }

  lemma FirstDecides(e: Env, objs: Objects, space: string, ref: string, x: string)
    requires Known(e, ref) && First(objs, space, e.tiers(ref).value.typeName, x)
    ensures NeedsWork(e, objs, space, ref) <==> objs[Where(x)].active && !UpToDate(e, objs, space, x, ref)
  {
    var typeName := e.tiers(ref).value.typeName;
    forall y | First(objs, space, typeName, y) ensures y == x { FirstUnique(objs, space, typeName, y, x); }
  }

  // A tier of the decision, one by one.
  lemma WorkIff(e: Env, objs: Objects, space: string, ref: string)
    requires Known(e, ref)
    ensures var t := TierOf(e, ref);
      var n := FindNamespace(Owned(objs, space), t.typeName);
      && (n.None? ==> NeedsWork(e, objs, space, ref))
      && (n.Some? ==> First(objs, space, t.typeName, n.value.name) && n.value.obj == objs[Where(n.value.name)])
      && (n.Some? && !n.value.obj.active ==> !NeedsWork(e, objs, space, ref))
      && (n.Some? && n.value.obj.active && Fine(objs, n.value, t) == Some(true) ==> !NeedsWork(e, objs, space, ref))
      && (n.Some? && n.value.obj.active && Fine(objs, n.value, t) == Some(false) ==> NeedsWork(e, objs, space, ref))
  {
    var t := TierOf(e, ref);
    var n := FindNamespace(Owned(objs, space), t.typeName);
    FoundIsFirst(objs, space, t.typeName);
    if n.Some? {
      FirstDecides(e, objs, space, ref, n.value.name);
      FineIff(e, objs, space, n.value.name, ref);
    }
  }

  // Up to this reference nothing needs work.
  ghost predicate RestsBefore(e: Env, objs: Objects, space: string, refs: seq<string>, i: nat)
    requires AllKnown(e, refs) && i <= |refs|
  {
    forall j :: 0 <= j < i ==> !NeedsWork(e, objs, space, refs[j])
  }

  // The namespace found for a tier is not active, or as it should be.
  predicate IsDone(objs: Objects, nss: seq<Ns>, t: Tier) {
    var n := FindNamespace(nss, t.typeName);
    n.Some? && (!n.value.obj.active || Fine(objs, n.value, t) == Some(true))
  }

  predicate IsOpen(objs: Objects, nss: seq<Ns>, t: Tier, n: Option<Ns>) {
    n == FindNamespace(nss, t.typeName)
    && (n.Some? ==> n.value.obj.active && Fine(objs, n.value, t) == Some(false))
  }

  ghost predicate Picked(objs: Objects, tiers: seq<Tier>, nss: seq<Ns>, i: nat, next: Next) {
    match next
    case Broken => true
    case Nothing => forall j :: 0 <= j < |tiers| ==> IsDone(objs, nss, tiers[j])
    case Todo(t, n) =>
      && i < |tiers| && t == tiers[i] && IsOpen(objs, nss, t, n)
      && forall j :: 0 <= j < i ==> IsDone(objs, nss, tiers[j])
  }

  lemma PickFirst(objs: Objects, tiers: seq<Tier>, nss: seq<Ns>)
    requires tiers != [] && !IsDone(objs, nss, tiers[0])
    ensures Picked(objs, tiers, nss, 0, Pick(objs, tiers, nss))
  {}

  lemma PickLater(objs: Objects, tiers: seq<Tier>, nss: seq<Ns>, i: nat, next: Next)
    requires tiers != [] && IsDone(objs, nss, tiers[0]) && Picked(objs, tiers[1..], nss, i, next)
    ensures Picked(objs, tiers, nss, i + 1, next)
  {
    forall k | 0 < k < |tiers| ensures tiers[k] == tiers[1..][k - 1] {}
  }

  lemma {:induction false} PickFinds(objs: Objects, tiers: seq<Tier>, nss: seq<Ns>) returns (i: nat)
    ensures Picked(objs, tiers, nss, i, Pick(objs, tiers, nss))
  {
    i := 0;
    if tiers != [] {
      if IsDone(objs, nss, tiers[0]) {
        var j := PickFinds(objs, tiers[1..], nss);
        PickLater(objs, tiers, nss, j, Pick(objs, tiers[1..], nss));
        i := j + 1;
      } else {
        PickFirst(objs, tiers, nss);
      }
    }
  }

  lemma DoneRests(e: Env, objs: Objects, space: string, ref: string)
    requires Known(e, ref) && IsDone(objs, Owned(objs, space), TierOf(e, ref))
    ensures !NeedsWork(e, objs, space, ref)
  {
    WorkIff(e, objs, space, ref);
  }

  lemma OpenNeedsWork(e: Env, objs: Objects, space: string, ref: string, n: Option<Ns>)
    requires Known(e, ref) && IsOpen(objs, Owned(objs, space), TierOf(e, ref), n)
    ensures NeedsWork(e, objs, space, ref)
  {
    WorkIff(e, objs, space, ref);
  }

  ghost predicate Behind(e: Env, refs: seq<string>, tiers: seq<Tier>) {
    |tiers| == |refs| && forall i :: 0 <= i < |refs| ==> Known(e, refs[i]) && tiers[i] == TierOf(e, refs[i])
  }

  lemma DoneBefore(e: Env, objs: Objects, space: string, refs: seq<string>, tiers: seq<Tier>, i: nat)
    requires Behind(e, refs, tiers) && AllKnown(e, refs) && i <= |refs|
    requires forall j :: 0 <= j < i ==> IsDone(objs, Owned(objs, space), tiers[j])
    ensures RestsBefore(e, objs, space, refs, i)
  {
    forall j | 0 <= j < i ensures !NeedsWork(e, objs, space, refs[j]) { DoneRests(e, objs, space, refs[j]); }
  }

  // The namespace chosen for deletion.
  function ToDrop(e: Env, objs: Objects, t: NSTemplateSet): Option<Ns>
    requires TiersOf(e, t.namespaces).Some?
  {
    NextToDeprovision(TiersOf(e, t.namespaces).value, Owned(objs, t.name))
  }

  lemma ForeignListed(e: Env, objs: Objects, t: NSTemplateSet, n: Ns)
    requires TiersOf(e, t.namespaces).Some? && n in Owned(objs, t.name)
    requires !HasType(TiersOf(e, t.namespaces).value, TypeOf(n))
    ensures Foreign(e, objs, t, n.name) && objs[Where(n.name)] == n.obj
  {
    InSpaceListed(objs, t.name, n.name);
    ForeignIff(e, objs, t, n.name);
  }

  lemma ForeignFound(e: Env, objs: Objects, t: NSTemplateSet)
    requires TiersOf(e, t.namespaces).Some?
    ensures var gone := ToDrop(e, objs, t);
      gone.Some? ==> FirstForeign(e, objs, t, gone.value.name) && gone.value.obj == objs[Where(gone.value.name)]
  {
    var gone := ToDrop(e, objs, t);
    if gone.Some? {
      ForeignListed(e, objs, t, gone.value);
      forall y | Foreign(e, objs, t, y) ensures Leq(gone.value.name, y) { ForeignAfter(e, objs, t, y); }
    }
  }

  lemma ForeignAfter(e: Env, objs: Objects, t: NSTemplateSet, y: string)
    requires TiersOf(e, t.namespaces).Some? && Foreign(e, objs, t, y)
    ensures var gone := ToDrop(e, objs, t); gone.Some? && Leq(gone.value.name, y)
  {
    ForeignIff(e, objs, t, y);
    InSpaceListed(objs, t.name, y);
    OwnedInOrder(objs, t.name);
    GoneLeast(TiersOf(e, t.namespaces).value, Owned(objs, t.name), Ns(y, objs[Where(y)]));
  }

  // The first namespace in name order of a type that the spec does not have.
  ghost predicate FirstForeign(e: Env, objs: Objects, t: NSTemplateSet, x: string) {
    Foreign(e, objs, t, x) && forall y :: Foreign(e, objs, t, y) ==> Leq(x, y)
  }

  // ---- What is done ----

  function Markers(space: string, typeName: string): Labels {
    map[Space := space, Type := typeName, Provider := "codeready-toolchain"]
  }

  function Inner(space: string): Labels { map[Space := space, Provider := "codeready-toolchain"] }

  // The namespaces of the template are applied with the operator's labels, everything else stays.
  ghost predicate Made(e: Env, objs: Objects, objs': Objects, space: string, ref: string)
    requires Known(e, ref)
  {
    var ms := Generated(e, ref, Params(space, "", ""));
    && (DistinctKeys(ms) ==> forall m :: m in ms && m.key.gvk.kind.Namespace? && Held(e, m) ==>
          m.key in objs'
          && AppliedOver(At(objs, m.key), m, Markers(space, e.tiers(ref).value.typeName), objs'[m.key]))
    && forall k :: (forall m :: m in ms && m.key.gvk.kind.Namespace? ==> m.key != k) ==> At(objs', k) == At(objs, k)
  }

  // In the template filled in before, which is another one, and not in the new one.
  ghost predicate LeftBehind(e: Env, space: string, was: string, ref: string, o: Manifest) {
    && was != "" && was != ref && o in Generated(e, was, Params(space, "", "")) && !o.key.gvk.kind.Namespace?
    && forall m :: m in Generated(e, ref, Params(space, "", "")) && !m.key.gvk.kind.Namespace? ==> !SameId(o, m)
  }

  ghost predicate NewsIn(e: Env, objs: Objects, objs': Objects, space: string, ref: string) {
    var ms := Generated(e, ref, Params(space, "", ""));
    DistinctKeys(ms) ==> forall m :: m in ms && !m.key.gvk.kind.Namespace? && Held(e, m) ==>
      m.key in objs' && AppliedOver(At(objs, m.key), m, Inner(space), objs'[m.key])
  }

  ghost predicate OldsOut(e: Env, objs': Objects, space: string, was: string, ref: string) {
    forall o :: LeftBehind(e, space, was, ref, o) ==> !Alive(objs', o.key)
  }

  ghost predicate Untouched(e: Env, space: string, was: string, ref: string, k: Key) {
    && (forall m :: m in Generated(e, ref, Params(space, "", "")) ==> m.key != k)
    && (forall o :: LeftBehind(e, space, was, ref, o) ==> o.key != k)
  }

  // Everything else of the template is applied in the namespace, what only the template filled in before had is gone,
  // the labels of the namespace say from which template it is filled, and nothing else has changed.
  ghost predicate Refilled(e: Env, objs: Objects, objs': Objects, space: string, ref: string, x: string)
    requires Known(e, ref) && Where(x) in objs
  {
    var was := LabelAt(objs, x, TemplateRef);
    && NewsIn(e, objs, objs', space, ref) && OldsOut(e, objs', space, was, ref)
    && (forall k :: k != Where(x) && Untouched(e, space, was, ref, k) ==> At(objs', k) == At(objs, k))
    && Where(x) in objs'
    && objs'[Where(x)] == objs[Where(x)].(labels :=
         objs[Where(x)].labels[TemplateRef := ref][TierName := e.tiers(ref).value.tierName])
  }

  // A namespace manifest of the template for this namespace, and whether it has the manifest's labels.
  predicate Describes(e: Env, space: string, ref: string, x: string, m: Manifest) {
    m in Generated(e, ref, Params(space, "", "")) && m.key.gvk.kind.Namespace? && m.key.name == x
  }

  predicate Labelled(objs: Objects, x: string, m: Manifest) {
    Where(x) in objs
    && forall l :: l in m.labels ==> l in objs[Where(x)].labels && objs[Where(x)].labels[l] == m.labels[l]
  }

  lemma {:induction false} PartsDistinct(ms: seq<Manifest>)
    requires DistinctKeys(ms)
    ensures DistinctKeys(NamespacesOnly(ms)) && DistinctKeys(AllButNamespaces(ms))
  {
    if ms != [] {
      TailDistinct(ms);
      PartsDistinct(ms[1..]);
      if ms[0].key.gvk.kind.Namespace? {
        ConsDistinct(ms[0], NamespacesOnly(ms[1..]));
      } else {
        ConsDistinct(ms[0], AllButNamespaces(ms[1..]));
      }
    }
  }

  lemma TailDistinct(ms: seq<Manifest>)
    requires DistinctKeys(ms) && ms != []
    ensures DistinctKeys(ms[1..]) && forall m :: m in ms[1..] ==> m.key != ms[0].key
  {
    forall m | m in ms[1..] ensures m.key != ms[0].key {
      var j :| 0 <= j < |ms| - 1 && ms[1..][j] == m;
      assert ms[j + 1] == m;
    }
  }

  lemma ConsDistinct(m: Manifest, ms: seq<Manifest>)
    requires DistinctKeys(ms) && forall n :: n in ms ==> n.key != m.key
    ensures DistinctKeys([m] + ms)
  {}

  lemma MakeMeans(e: Env, objs: Objects, space: string, ref: string)
    requires Known(e, ref) && e.tiers(ref).value.process(Params(space, "", "")).Some?
    ensures var t := TierOf(e, ref);
      Made(e, objs, StampAll(e, objs, Frame(t, space), NsLabels(space, t)), space, ref)
  {
    var t := TierOf(e, ref);
    var ms, frame, labels := Generated(e, ref, Params(space, "", "")), Frame(t, space), NsLabels(space, t);
    assert frame == NamespacesOnly(ms) && labels == Markers(space, t.typeName);
    var r := StampAll(e, objs, frame, labels);
    if DistinctKeys(ms) {
      PartsDistinct(ms);
      forall m | m in ms && m.key.gvk.kind.Namespace? && Held(e, m)
        ensures m.key in r && AppliedOver(At(objs, m.key), m, labels, r[m.key])
      {
        AppliedAt(e, objs, frame, labels, m);
      }
    }
    forall k | forall m :: m in ms && m.key.gvk.kind.Namespace? ==> m.key != k ensures At(r, k) == At(objs, k) {
      StampAllElsewhere(e, objs, frame, labels, k);
    }
  }

  lemma AppliedAt(e: Env, objs: Objects, ms: seq<Manifest>, labels: Labels, m: Manifest)
    requires DistinctKeys(ms) && m in ms && Held(e, m)
    ensures var r := StampAll(e, objs, ms, labels);
      m.key in r && AppliedOver(At(objs, m.key), m, labels, r[m.key])
  {
    assert Available(e, m);
    var i :| 0 <= i < |ms| && ms[i] == m;
    StampAllAt(e, objs, ms, labels, i);
  }

  // The store after the content has been replaced and before the namespace is marked.
  function Swapped(e: Env, objs: Objects, space: string, n: Ns, t: Tier): Objects {
    StampAll(e, Sweep(objs, Outdated(e, space, n, t)), Content(t, space), InnerLabels(space))
  }

  lemma NewsApplied(e: Env, objs: Objects, space: string, n: Ns, ref: string, m: Manifest)
    requires Known(e, ref) && DistinctKeys(Generated(e, ref, Params(space, "", "")))
    requires m in Generated(e, ref, Params(space, "", "")) && !m.key.gvk.kind.Namespace? && Held(e, m)
    ensures var r := Swapped(e, objs, space, n, TierOf(e, ref));
      m.key in r && AppliedOver(At(objs, m.key), m, Inner(space), r[m.key])
  {
    var t := TierOf(e, ref);
    var olds, news := Outdated(e, space, n, t), Content(t, space);
    PartsDistinct(Generated(e, ref, Params(space, "", "")));
    assert InnerLabels(space) == Inner(space);
    AppliedAt(e, Sweep(objs, olds), news, Inner(space), m);
    SweepAt(objs, olds, m.key);
    assert forall o :: o in olds && o.key == m.key ==> SameGvkAndName(o, m);
  }

  lemma OthersStay(e: Env, objs: Objects, space: string, n: Ns, ref: string, k: Key)
    requires Known(e, ref) && Untouched(e, space, LabelOf(n.obj.labels, TemplateRef), ref, k)
    requires e.tiers(ref).value.process(Params(space, "", "")).Some?
    ensures At(Swapped(e, objs, space, n, TierOf(e, ref)), k) == At(objs, k)
  {
    var t := TierOf(e, ref);
    var olds, news := Outdated(e, space, n, t), Content(t, space);
    forall o | o in olds ensures o.key != k {
      assert forall m :: m in news && SameId(o, m) ==> SameGvkAndName(o, m);
      assert LeftBehind(e, space, LabelOf(n.obj.labels, TemplateRef), ref, o);
    }
    SweepAt(objs, olds, k);
    StampAllElsewhere(e, Sweep(objs, olds), news, InnerLabels(space), k);
  }

  lemma FillMeans(e: Env, objs: Objects, space: string, ref: string, f: Effect)
    requires Known(e, ref) && Fits(e, space, f) && f.Fill? && f.marked
    requires f.tier == TierOf(e, ref) && f.tier.process(Params(space, "", "")).Some?
    requires At(objs, Where(f.n.name)) == Some(f.n.obj)
    ensures Refilled(e, objs, On(e, objs, space, f), space, ref, f.n.name)
  {
    var t, n := f.tier, f.n;
    var olds, news := Outdated(e, space, n, t), Content(t, space);
    assert olds[..|olds|] == olds && news[..|news|] == news;
    assert On(e, objs, space, f) == Swapped(e, objs, space, n, t)[Where(n.name) := Marked(n.obj, t)];
    SwapMeans(e, objs, space, ref, n);
  }

  lemma SwapMeans(e: Env, objs: Objects, space: string, ref: string, n: Ns)
    requires Known(e, ref) && TierOf(e, ref).process(Params(space, "", "")).Some?
    requires At(objs, Where(n.name)) == Some(n.obj)
    ensures var t := TierOf(e, ref);
      Refilled(e, objs, Swapped(e, objs, space, n, t)[Where(n.name) := Marked(n.obj, t)], space, ref, n.name)
  {
    var r := Swapped(e, objs, space, n, TierOf(e, ref));
    var was := LabelOf(n.obj.labels, TemplateRef);
    var r' := r[Where(n.name) := Marked(n.obj, TierOf(e, ref))];
    SwapNews(e, objs, space, ref, n);
    assert NewsIn(e, objs, r', space, ref);
    forall o | LeftBehind(e, space, was, ref, o) ensures !Alive(r', o.key) { OldsGone(e, objs, space, n, ref, o); }
    forall k | k != Where(n.name) && Untouched(e, space, was, ref, k) ensures At(r', k) == At(objs, k) {
      OthersStay(e, objs, space, n, ref, k);
    }
  }

  lemma SwapNews(e: Env, objs: Objects, space: string, ref: string, n: Ns)
    requires Known(e, ref)
    ensures NewsIn(e, objs, Swapped(e, objs, space, n, TierOf(e, ref)), space, ref)
  {
    var ms := Generated(e, ref, Params(space, "", ""));
    if DistinctKeys(ms) {
      forall m | m in ms && !m.key.gvk.kind.Namespace? && Held(e, m)
        ensures var r := Swapped(e, objs, space, n, TierOf(e, ref));
          m.key in r && AppliedOver(At(objs, m.key), m, Inner(space), r[m.key])
      {
        NewsApplied(e, objs, space, n, ref, m);
      }
    }
  }

  lemma OldsGone(e: Env, objs: Objects, space: string, n: Ns, ref: string, o: Manifest)
    requires Known(e, ref) && TierOf(e, ref).process(Params(space, "", "")).Some?
    requires LeftBehind(e, space, LabelOf(n.obj.labels, TemplateRef), ref, o)
    ensures !Alive(Swapped(e, objs, space, n, TierOf(e, ref)), o.key)
  {
    var t, was := TierOf(e, ref), LabelOf(n.obj.labels, TemplateRef);
    var olds, news := Outdated(e, space, n, t), Content(t, space);
    assert forall m :: m in news && SameGvkAndName(o, m) ==> SameId(o, m);
    assert o in Content(TierAt(e, was).value, space) && o in olds;
    SweepAt(objs, olds, o.key);
    assert forall m :: m in news && m.key == o.key ==> SameGvkAndName(o, m);
    StampAllElsewhere(e, Sweep(objs, olds), news, InnerLabels(space), o.key);
  }

  // ---- The law ----

  datatype Step = Idle | Drop(name: string) | Make(ref: string) | Fill(ref: string, name: string)

  // The first reference that needs work.
  ghost predicate IsNext(e: Env, objs: Objects, t: NSTemplateSet, ref: string)
    requires AllKnown(e, t.namespaces)
  {
    exists i: nat :: i < |t.namespaces| && t.namespaces[i] == ref && NeedsWork(e, objs, t.name, ref)
                     && RestsBefore(e, objs, t.name, t.namespaces, i)
  }

  // It has no namespace, or that one lacks a label of its manifest.
  ghost predicate ToMake(e: Env, objs: Objects, t: NSTemplateSet, ref: string)
    requires AllKnown(e, t.namespaces)
  {
    && IsNext(e, objs, t, ref)
    && forall x :: First(objs, t.name, TierOf(e, ref).typeName, x) ==>
         exists m :: Describes(e, t.name, ref, x, m) && !Labelled(objs, x, m)
  }

  // It has a namespace with the labels of its manifest.
  ghost predicate ToFill(e: Env, objs: Objects, t: NSTemplateSet, ref: string, x: string)
    requires AllKnown(e, t.namespaces)
  {
    && IsNext(e, objs, t, ref) && First(objs, t.name, TierOf(e, ref).typeName, x)
    && exists m :: Describes(e, t.name, ref, x, m) && Labelled(objs, x, m)
  }

  // What there is to do: drop the first namespace of a foreign type; else, for the first reference that needs work,
  // make the namespace or fill it.
  ghost predicate Calls(e: Env, objs: Objects, t: NSTemplateSet, step: Step)
    requires AllKnown(e, t.namespaces)
  {
    match step
    case Drop(x) => FirstForeign(e, objs, t, x)
    case Idle => (forall x :: !Foreign(e, objs, t, x)) && RestsBefore(e, objs, t.name, t.namespaces, |t.namespaces|)
    case Make(ref) => (forall x :: !Foreign(e, objs, t, x)) && ToMake(e, objs, t, ref)
    case Fill(ref, x) => (forall y :: !Foreign(e, objs, t, y)) && ToFill(e, objs, t, ref, x)
  }

  // And what that makes of the store.
  ghost predicate Leads(e: Env, objs: Objects, objs': Objects, t: NSTemplateSet, step: Step)
    requires AllKnown(e, t.namespaces)
  {
    match step
    case Idle => objs' == objs
    case Drop(x) => Where(x) in objs && objs' == objs[Where(x) := objs[Where(x)].(terminating := true, active := false)]
    case Make(ref) => ref in t.namespaces && Made(e, objs, objs', t.name, ref)
    case Fill(ref, x) => ref in t.namespaces && Where(x) in objs && Refilled(e, objs, objs', t.name, ref, x)
  }

  lemma LabelledIff(e: Env, objs: Objects, space: string, ref: string, x: string)
    requires Known(e, ref) && InSpace(objs, space, x)
    ensures var h := HasExpectedLabels(TierOf(e, ref), Ns(x, objs[Where(x)]));
      && (h == Some(true) ==> exists m :: Describes(e, space, ref, x, m) && Labelled(objs, x, m))
      && (h == Some(false) ==> exists m :: Describes(e, space, ref, x, m) && !Labelled(objs, x, m))
  {
    var t, n := TierOf(e, ref), Ns(x, objs[Where(x)]);
    var ms := t.process(Params(space, "", ""));
    if HasExpectedLabels(t, n).Some? {
      var m := LastNamed(NamespacesOnly(ms.value), x).value;
      assert Describes(e, space, ref, x, m);
    }
  }

  // The step that a plan stands for.
  function StepOf(p: Plan): Step {
    match p
    case Drop(n) => Step.Drop(n.name)
    case Make(t) => Step.Make(t.templateRef)
    case Refill(t, n) => Step.Fill(t.templateRef, n.name)
    case _ => Step.Idle
  }

  // The namespace found for a type is the first of it and the only such one.
  lemma OnlyFirst(objs: Objects, space: string, typeName: string, x: string)
    ensures var n := FindNamespace(Owned(objs, space), typeName);
      First(objs, space, typeName, x) ==> n == Some(Ns(x, objs[Where(x)]))
  {
    FoundIsFirst(objs, space, typeName);
    var n := FindNamespace(Owned(objs, space), typeName);
    if First(objs, space, typeName, x) && n.Some? { FirstUnique(objs, space, typeName, x, n.value.name); }
  }

  lemma MakeCalls(e: Env, objs: Objects, t: NSTemplateSet, ref: string, n: Option<Ns>)
    requires AllKnown(e, t.namespaces) && IsNext(e, objs, t, ref)
    requires Known(e, ref) && n == FindNamespace(Owned(objs, t.name), TierOf(e, ref).typeName)
    requires n.Some? ==> HasExpectedLabels(TierOf(e, ref), n.value) == Some(false)
    ensures ToMake(e, objs, t, ref)
  {
    var typeName := TierOf(e, ref).typeName;
    forall x | First(objs, t.name, typeName, x)
      ensures exists m :: Describes(e, t.name, ref, x, m) && !Labelled(objs, x, m)
    {
      OnlyFirst(objs, t.name, typeName, x);
      LabelledIff(e, objs, t.name, ref, x);
    }
  }

  lemma FillCalls(e: Env, objs: Objects, t: NSTemplateSet, ref: string, n: Ns)
    requires AllKnown(e, t.namespaces) && IsNext(e, objs, t, ref)
    requires Known(e, ref) && Some(n) == FindNamespace(Owned(objs, t.name), TierOf(e, ref).typeName)
    requires HasExpectedLabels(TierOf(e, ref), n) == Some(true)
    ensures ToFill(e, objs, t, ref, n.name)
  {
    FoundIsFirst(objs, t.name, TierOf(e, ref).typeName);
    LabelledIff(e, objs, t.name, ref, n.name);
  }

  // The plan speaks of namespaces as they are in the store and of templates that the spec names.
  ghost predicate Grounded(e: Env, objs: Objects, t: NSTemplateSet, p: Plan) {
    match p
    case Drop(n) => At(objs, Where(n.name)) == Some(n.obj)
    case Make(tier) => IsTier(e, t, tier)
    case Refill(tier, n) => IsTier(e, t, tier) && At(objs, Where(n.name)) == Some(n.obj)
    case _ => true
  }

  ghost predicate IsTier(e: Env, t: NSTemplateSet, tier: Tier) {
    tier.templateRef in t.namespaces && Known(e, tier.templateRef) && tier == TierOf(e, tier.templateRef)
  }

  ghost predicate Follows(e: Env, objs: Objects, t: NSTemplateSet, p: Plan) {
    AllKnown(e, t.namespaces) && Calls(e, objs, t, StepOf(p)) && Grounded(e, objs, t, p)
  }

  // A reference whose turn it is, with its tier.
  ghost predicate Due(e: Env, objs: Objects, t: NSTemplateSet, tier: Tier) {
    && AllKnown(e, t.namespaces) && (forall x :: !Foreign(e, objs, t, x)) && IsTier(e, t, tier)
    && IsNext(e, objs, t, tier.templateRef)
  }

  lemma MakeStep(e: Env, objs: Objects, t: NSTemplateSet, tier: Tier)
    requires Due(e, objs, t, tier) && ToMake(e, objs, t, tier.templateRef)
    ensures Follows(e, objs, t, Plan.Make(tier))
  {}

  lemma FillStep(e: Env, objs: Objects, t: NSTemplateSet, tier: Tier, n: Ns)
    requires Due(e, objs, t, tier) && ToFill(e, objs, t, tier.templateRef, n.name)
    requires At(objs, Where(n.name)) == Some(n.obj)
    ensures Follows(e, objs, t, Refill(tier, n))
  {}

  // The namespace found, if any, decides which of the two it is.
  lemma TodoMeans(e: Env, objs: Objects, t: NSTemplateSet, tier: Tier, n: Option<Ns>)
    requires Due(e, objs, t, tier) && n == FindNamespace(Owned(objs, t.name), tier.typeName)
    ensures n.None? ==> ToMake(e, objs, t, tier.templateRef)
    ensures n.Some? && HasExpectedLabels(tier, n.value) == Some(false) ==> ToMake(e, objs, t, tier.templateRef)
    ensures n.Some? && HasExpectedLabels(tier, n.value) == Some(true) ==>
      ToFill(e, objs, t, tier.templateRef, n.value.name) && At(objs, Where(n.value.name)) == Some(n.value.obj)
  {
    FoundListed(objs, t.name, tier.typeName);
    if n.Some? && HasExpectedLabels(tier, n.value) == Some(true) {
      FillCalls(e, objs, t, tier.templateRef, n.value);
    } else if n.None? || HasExpectedLabels(tier, n.value) == Some(false) {
      MakeCalls(e, objs, t, tier.templateRef, n);
    }
  }

  lemma TodoCalls(e: Env, objs: Objects, t: NSTemplateSet, tier: Tier, n: Option<Ns>)
    requires Due(e, objs, t, tier) && !PlanFor(Todo(tier, n)).Stuck?
    requires n.None? ==> ToMake(e, objs, t, tier.templateRef)
    requires n.Some? && HasExpectedLabels(tier, n.value) == Some(false) ==> ToMake(e, objs, t, tier.templateRef)
    requires n.Some? && HasExpectedLabels(tier, n.value) == Some(true) ==>
      ToFill(e, objs, t, tier.templateRef, n.value.name) && At(objs, Where(n.value.name)) == Some(n.value.obj)
    ensures Follows(e, objs, t, PlanFor(Todo(tier, n)))
  {
    if PlanFor(Todo(tier, n)).Make? { MakeStep(e, objs, t, tier); } else { FillStep(e, objs, t, tier, n.value); }
  }

  lemma PlanCalls(e: Env, objs: Objects, t: NSTemplateSet)
    requires !Decide(e, objs, t.name, t.namespaces).Stuck?
    ensures Follows(e, objs, t, Decide(e, objs, t.name, t.namespaces))
  {
    var refs, tiers, nss := t.namespaces, TiersOf(e, t.namespaces).value, Owned(objs, t.name);
    TiersMean(e, refs);
    ForeignFound(e, objs, t);
    if NextToDeprovision(tiers, nss).None? {
      forall x | Foreign(e, objs, t, x) ensures false { ForeignAfter(e, objs, t, x); }
      PickFollows(e, objs, t, tiers);
    }
  }

  lemma PickFollows(e: Env, objs: Objects, t: NSTemplateSet, tiers: seq<Tier>)
    requires AllKnown(e, t.namespaces) && Behind(e, t.namespaces, tiers) && forall x :: !Foreign(e, objs, t, x)
    requires !PlanFor(Pick(objs, tiers, Owned(objs, t.name))).Stuck?
    ensures Follows(e, objs, t, PlanFor(Pick(objs, tiers, Owned(objs, t.name))))
  {
    var nss := Owned(objs, t.name);
    var next := Pick(objs, tiers, nss);
    var i := PickFinds(objs, tiers, nss);
    if next.Todo? {
      DoneBefore(e, objs, t.name, t.namespaces, tiers, i);
      OpenNeedsWork(e, objs, t.name, t.namespaces[i], next.ns);
      TodoMeans(e, objs, t, next.tier, next.ns);
      TodoCalls(e, objs, t, next.tier, next.ns);
    } else {
      DoneBefore(e, objs, t.name, t.namespaces, tiers, |tiers|);
    }
  }

  lemma PlanLeads(e: Env, objs: Objects, t: NSTemplateSet, p: Plan, f: Effect)
    requires Follows(e, objs, t, p) && !p.Stuck?
    requires Fits(e, t.name, f) && PartOf(f, p) && (if p.Idle? then f.Quiet? else Complete(e, t.name, f))
    ensures Leads(e, objs, On(e, objs, t.name, f), t, StepOf(p))
  {
    match p
    case Make(tier) =>
      assert Frame(tier, t.name)[..f.applied] == Frame(tier, t.name);
      MakeMeans(e, objs, t.name, tier.templateRef);
    case Refill(tier, n) =>
      var m :| Describes(e, t.name, tier.templateRef, n.name, m);
      FillMeans(e, objs, t.name, tier.templateRef, f);
    case _ =>
  }

  // A reconcile whose namespace phase ends without a failure took exactly the step that is called for, and all of it.
  lemma OneStepAtATime(e: Env, s: State) returns (step: Step)
    requires Synced(s) && !Namespaces.Ensure(e, s).1.Failed?
    ensures var r := Namespaces.Ensure(e, s);
      && AllKnown(e, s.cur.namespaces) && Calls(e, s.objs, s.cur, step) && Leads(e, s.objs, r.0.objs, s.cur, step)
      && (r.1.Unchanged? <==> step.Idle?)
  {
    var f := EnsureEffect(e, s);
    var p := Decide(e, s.objs, s.cur.name, s.cur.namespaces);
    step := StepOf(p);
    PlanCalls(e, s.objs, s.cur);
    PlanLeads(e, s.objs, s.cur, p, f);
  }
}
