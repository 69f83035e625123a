// A reconcile sees and changes only its own space's part of the store.
module Isolation {
  import opened Names
  import opened Cluster
  import opened Applying
  import opened Statuses
  import opened Reconciler
  import CR = ClusterResources
  import NS = Namespaces
  import SR = SpaceRoles

  // ---- Territory and frame ----

  predicate Generates(e: Env, ref: string, p: Params, m: Manifest) {
    TierAt(e, ref).Some? && TierAt(e, ref).value.process(p).Some? && m in TierAt(e, ref).value.process(p).value
  }

  // The references a space looks up: those of its cluster resources and namespaces, of the spec and of what was
  // applied before; and those of its roles, likewise.
  datatype Lookup = Lookup(templates: set<string>, roles: set<string>)

  // Everything these templates generate for the space, and what is looked up for it, has its key in `K`.
  ghost predicate Territory(e: Env, space: string, K: iset<Key>, refs: Lookup) {
    && (forall ref, m :: ref in refs.templates && Generates(e, ref, Params(space, "", ""), m) ==>
          m.key in K && Tidy(m, refs))
    && (forall ref, u, n, m ::
          ref in refs.roles && n != "" && NsKey(n) in K && Generates(e, ref, Params("", u, n), m) ==>
          m.key in K && Tidy(m, refs))
    && (forall ref, n, m :: ref in refs.templates && NsKey(n) in K && Generates(e, ref, Params(space, space, ""), m) ==>
          IsRole(m) ==> NS.ListedKey(n, m) in K)
  }

  predicate IsRole(m: Manifest) { m.key.gvk.kind.Role? || m.key.gvk.kind.RoleBinding? }

  // What is recorded with this text is among the roles known.
  predicate NotesIn(notes: Notes, refs: set<string>) {
    LastAppliedSpaceRoles in notes ==>
      match notes[LastAppliedSpaceRoles]
      case RolesJson(Some(roles)) => forall r :: r in roles ==> r.templateRef in refs
      case _ => true
  }

  predicate LabelIn(labels: Labels, refs: set<string>) {
    LabelOf(labels, TemplateRef) == "" || LabelOf(labels, TemplateRef) in refs
  }

  // A generated namespace brings no references of its own.
  predicate Tidy(m: Manifest, refs: Lookup) {
    m.key.gvk.kind.Namespace? ==> LabelIn(m.labels, refs.templates) && NotesIn(m.notes, refs.roles)
  }

  // The references of the spec and of what the status records.
  predicate SpecLooks(t: NSTemplateSet, refs: Lookup) {
    && (RefOf(t.cluster) == "" || t.cluster.value in refs.templates)
    && (RefOf(t.status.cluster) == "" || t.status.cluster.value in refs.templates)
    && (forall ref :: ref in t.namespaces ==> ref in refs.templates)
    && RolesIn(t.roles, refs.roles)
  }

  predicate RolesIn(roles: SR.Roles, refs: set<string>) { forall r :: r in SR.Items(roles) ==> r.templateRef in refs }

  // The references a namespace records.
  predicate NsLooks(o: Object, refs: Lookup) { LabelIn(o.labels, refs.templates) && NotesIn(o.notes, refs.roles) }

  ghost predicate Looks(objs: Objects, refs: Lookup) { forall x :: NsKey(x) in objs ==> NsLooks(objs[NsKey(x)], refs) }

  ghost predicate Inside(objs: Objects, K: iset<Key>) { forall k :: k in objs ==> k in K }

  // The rest of the store: other keys, and no namespace of the space.
  ghost predicate Frame(fr: Objects, space: string, K: iset<Key>) {
    (forall k :: k in fr ==> k !in K) && (forall x :: !Owns(fr, space, x))
  }

  function With(s: State, fr: Objects): State { s.(objs := s.objs + fr) }

  function WithR<T>(r: (State, T), fr: Objects): (State, T) { (With(r.0, fr), r.1) }

  // A step that commutes with adding the frame and stays inside.
  ghost predicate Framed<T(!new)>(r: (State, T), r': (State, T), fr: Objects, K: iset<Key>) {
    r' == WithR(r, fr) && Inside(r.0.objs, K)
  }

  ghost predicate KeysIn(ms: seq<Manifest>, K: iset<Key>) { forall m :: m in ms ==> m.key in K }

  lemma PutFrame(objs: Objects, fr: Objects, K: iset<Key>, k: Key, o: Option<Object>)
    requires k in K && forall x :: x in fr ==> x !in K
    ensures Put(objs + fr, k, o) == Put(objs, k, o) + fr && At(objs + fr, k) == At(objs, k)
    ensures Inside(objs, K) ==> Inside(Put(objs, k, o), K)
  {}

  // ---- client.go ----

  lemma StampFrame(e: Env, objs: Objects, fr: Objects, K: iset<Key>, m: Manifest, labels: Labels)
    requires m.key in K && Inside(objs, K) && forall x :: x in fr ==> x !in K
    ensures StampIn(e, objs + fr, m, labels) == StampIn(e, objs, m, labels) + fr
    ensures Inside(StampIn(e, objs, m, labels), K)
  {
    PutFrame(objs, fr, K, m.key, Some(Stamped(e, m, labels, At(objs, m.key))));
  }

  lemma ApplyOneFrame(e: Env, s: State, fr: Objects, K: iset<Key>, m: Manifest, labels: Labels)
    requires m.key in K && Inside(s.objs, K) && forall x :: x in fr ==> x !in K
    ensures Framed(ApplyOne(e, s, m, labels), ApplyOne(e, With(s, fr), m, labels), fr, K)
  {
    StampFrame(e, s.objs, fr, K, m, labels);
  }

  lemma {:induction false} ApplyAllFrame(e: Env, s: State, fr: Objects, K: iset<Key>, ms: seq<Manifest>, labels: Labels)
    requires KeysIn(ms, K) && Inside(s.objs, K) && forall x :: x in fr ==> x !in K
    ensures Framed(ApplyAll(e, s, ms, labels), ApplyAll(e, With(s, fr), ms, labels), fr, K)
    decreases |ms|
  {
    if ms != [] {
      ApplyOneFrame(e, s, fr, K, ms[0], labels);
      ApplyAllFrame(e, ApplyOne(e, s, ms[0], labels).0, fr, K, ms[1..], labels);
    }
  }

  lemma DeleteFrame(e: Env, s: State, fr: Objects, K: iset<Key>, k: Key)
    requires k in K && Inside(s.objs, K) && forall x :: x in fr ==> x !in K
    ensures Framed(Delete(e, s, k), Delete(e, With(s, fr), k), fr, K)
  {
    PutFrame(s.objs, fr, K, k, Remains(k, At(s.objs, k)));
  }

  lemma UpdateFrame(e: Env, s: State, fr: Objects, K: iset<Key>, k: Key, was: Object, o: Object)
    requires k in K && Inside(s.objs, K) && forall x :: x in fr ==> x !in K
    ensures Framed(Update(e, s, k, was, o), Update(e, With(s, fr), k, was, o), fr, K)
  {
    PutFrame(s.objs, fr, K, k, Some(o));
  }

  lemma {:induction false} DeleteObsoleteFrame(e: Env, s: State, fr: Objects, K: iset<Key>, ms: seq<Manifest>,
                                               news: seq<Manifest>)
    requires KeysIn(ms, K) && Inside(s.objs, K) && forall x :: x in fr ==> x !in K
    ensures Framed(DeleteObsolete(e, s, ms, news), DeleteObsolete(e, With(s, fr), ms, news), fr, K)
    decreases |ms|
  {
    if ms != [] {
      if Matches(ms[0], news) {
        DeleteObsoleteFrame(e, s, fr, K, ms[1..], news);
      } else {
        DeleteFrame(e, s, fr, K, ms[0].key);
        DeleteObsoleteFrame(e, Delete(e, s, ms[0].key).0, fr, K, ms[1..], news);
      }
    }
  }

  // ---- status.go: only the NSTemplateSet is concerned ----

  lemma ReadyFrame(e: Env, s: State, fr: Objects, r: Reason)
    ensures SetReady(e, With(s, fr), r) == WithR(SetReady(e, s, r), fr) && SetReady(e, s, r).0.objs == s.objs
    ensures SetFailed(e, With(s, fr), r) == With(SetFailed(e, s, r), fr) && SetFailed(e, s, r).objs == s.objs
  {}

  lemma StatusFrame(e: Env, s: State, fr: Objects, r: Reason)
    ensures SetReady(e, With(s, fr), r) == WithR(SetReady(e, s, r), fr) && SetReady(e, s, r).0.objs == s.objs
    ensures SetFailed(e, With(s, fr), r) == With(SetFailed(e, s, r), fr) && SetFailed(e, s, r).objs == s.objs
    ensures SetUpdatingIfNotProvisioning(e, With(s, fr)) == WithR(SetUpdatingIfNotProvisioning(e, s), fr)
    ensures SetProvisioningIfNotUpdating(e, With(s, fr)) == WithR(SetProvisioningIfNotUpdating(e, s), fr)
    ensures SetUpdatingIfNotProvisioning(e, s).0.objs == s.objs && SetProvisioningIfNotUpdating(e, s).0.objs == s.objs
  {
    ReadyFrame(e, s, fr, r);
    ReadyFrame(e, s, fr, Updating);
    ReadyFrame(e, s, fr, Provisioning);
  }

  // ---- cluster_resources.go ----

  function WithA(a: CR.Applier, fr: Objects): CR.Applier { a.(s := With(a.s, fr)) }

  lemma FlagFrame(e: Env, a: CR.Applier, fr: Objects)
    ensures CR.Flag(e, WithA(a, fr)) == (var r := CR.Flag(e, a); (WithA(r.0, fr), r.1))
    ensures CR.Flag(e, a).0.s.objs == a.s.objs && CR.Flag(e, a).0.rest == a.rest
  {
    StatusFrame(e, a.s, fr, Updating);
  }

  lemma ApplyNewFrame(e: Env, a: CR.Applier, fr: Objects, K: iset<Key>, m: Manifest, labels: Labels)
    requires m.key in K && Inside(a.s.objs, K) && forall x :: x in fr ==> x !in K
    ensures CR.ApplyNew(e, WithA(a, fr), m, labels) == (var r := CR.ApplyNew(e, a, m, labels); (WithA(r.0, fr), r.1))
    ensures Inside(CR.ApplyNew(e, a, m, labels).0.s.objs, K)
  {
    var a0 := a.(rest := CR.DropFirst(a.rest, m));
    FlagFrame(e, a0, fr);
    var (a1, flagged) := CR.Flag(e, a0);
    ApplyOneFrame(e, a1.s, fr, K, m, labels);
    var (s2, ok) := ApplyOne(e, a1.s, m, labels);
    StatusFrame(e, s2, fr, CR.ApplyFailure(s2.cur));
  }

  lemma {:induction false} ApplyNewsFrame(e: Env, a: CR.Applier, fr: Objects, K: iset<Key>, ms: seq<Manifest>,
                                          labels: Labels)
    requires KeysIn(ms, K) && Inside(a.s.objs, K) && forall x :: x in fr ==> x !in K
    ensures CR.ApplyNews(e, WithA(a, fr), ms, labels)
      == (var r := CR.ApplyNews(e, a, ms, labels); (WithA(r.0, fr), r.1))
    ensures Inside(CR.ApplyNews(e, a, ms, labels).0.s.objs, K)
    decreases |ms|
  {
    if ms != [] {
      ApplyNewFrame(e, a, fr, K, ms[0], labels);
      ApplyNewsFrame(e, CR.ApplyNew(e, a, ms[0], labels).0, fr, K, ms[1..], labels);
    }
  }

  lemma CleanupFrame(e: Env, a: CR.Applier, fr: Objects, K: iset<Key>)
    requires KeysIn(a.rest, K) && Inside(a.s.objs, K) && forall x :: x in fr ==> x !in K
    ensures Framed(CR.Cleanup(e, a), CR.Cleanup(e, WithA(a, fr)), fr, K)
  {
    FlagFrame(e, a, fr);
    var (a1, flagged) := if a.rest != [] then CR.Flag(e, a) else (a, true);
    DeleteObsoleteFrame(e, a1.s, fr, K, a.rest, []);
    var (s2, ok) := DeleteObsolete(e, a1.s, a.rest, []);
    StatusFrame(e, s2, fr, CR.ApplyFailure(s2.cur));
  }

  lemma {:induction false} DropFirstIn(rest: seq<Manifest>, m: Manifest, K: iset<Key>)
    requires KeysIn(rest, K)
    ensures KeysIn(CR.DropFirst(rest, m), K)
  {
    if rest != [] { DropFirstIn(rest[1..], m, K); }
  }

  lemma {:induction false} RestIn(e: Env, a: CR.Applier, ms: seq<Manifest>, labels: Labels, K: iset<Key>)
    requires KeysIn(a.rest, K)
    ensures KeysIn(CR.ApplyNews(e, a, ms, labels).0.rest, K)
    decreases |ms|
  {
    if ms != [] {
      DropFirstIn(a.rest, ms[0], K);
      RestIn(e, CR.ApplyNew(e, a, ms[0], labels).0, ms[1..], labels, K);
    }
  }

  lemma ProcessRefFrame(e: Env, s: State, fr: Objects, K: iset<Key>, c: Option<string>, refs: Lookup)
    requires Territory(e, s.cur.name, K, refs) && (RefOf(c) == "" || c.value in refs.templates)
    ensures CR.ProcessRef(e, With(s, fr), c) == WithR(CR.ProcessRef(e, s, c), fr)
    ensures CR.ProcessRef(e, s, c).0.objs == s.objs
    ensures CR.ProcessRef(e, s, c).0.cur == s.cur
    ensures CR.ProcessRef(e, s, c).1.Some? ==> KeysIn(CR.ProcessRef(e, s, c).1.value.1, K)
  {
    var r := CR.ProcessRef(e, s, c);
    if RefOf(c) != "" && r.1.Some? {
      forall m | m in r.1.value.1 ensures m.key in K { assert Generates(e, c.value, Params(s.cur.name, "", ""), m); }
    }
  }

  lemma ExchangeFrame(e: Env, s: State, fr: Objects, K: iset<Key>, olds: seq<Manifest>, news: seq<Manifest>,
                      labels: Labels)
    requires KeysIn(olds, K) && KeysIn(news, K) && Inside(s.objs, K) && forall x :: x in fr ==> x !in K
    ensures Framed(CR.Exchange(e, s, olds, news, labels), CR.Exchange(e, With(s, fr), olds, news, labels), fr, K)
  {
    var a0 := CR.Applier(s, olds, false);
    ApplyNewsFrame(e, a0, fr, K, news, labels);
    RestIn(e, a0, news, labels, K);
    CleanupFrame(e, CR.ApplyNews(e, a0, news, labels).0, fr, K);
  }

  lemma ClusterEnsureFrame(e: Env, s: State, fr: Objects, K: iset<Key>, refs: Lookup)
    requires Territory(e, s.cur.name, K, refs) && SpecLooks(s.cur, refs) && Inside(s.objs, K)
    requires forall x :: x in fr ==> x !in K
    ensures Framed(CR.Ensure(e, s), CR.Ensure(e, With(s, fr)), fr, K)
  {
    ProcessRefFrame(e, s, fr, K, s.cur.cluster, refs);
    var (s1, new_) := CR.ProcessRef(e, s, s.cur.cluster);
    StatusFrame(e, s1, fr, FailureReason(s1, UnableToProvisionClusterResources));
    if new_.Some? {
      ProcessRefFrame(e, s1, fr, K, s.cur.status.cluster, refs);
      var (s2, old_) := CR.ProcessRef(e, s1, s.cur.status.cluster);
      StatusFrame(e, s2, fr, FailureReason(s2, UnableToProvisionClusterResources));
      if old_.Some? {
        ExchangeFrame(e, s2, fr, K, old_.value.1, new_.value.1, CR.TierLabels(s.cur.name, new_.value.0));
      }
    }
  }

  lemma ClusterPhaseFrame(e: Env, s: State, fr: Objects, K: iset<Key>, refs: Lookup)
    requires Territory(e, s.cur.name, K, refs) && SpecLooks(s.cur, refs) && Inside(s.objs, K)
    requires forall x :: x in fr ==> x !in K
    ensures Framed(ClusterPhase(e, s), ClusterPhase(e, With(s, fr)), fr, K)
  {
    ClusterEnsureFrame(e, s, fr, K, refs);
    RevisionFrame(e, CR.Ensure(e, s).0, fr);
  }

  lemma RevisionFrame(e: Env, s: State, fr: Objects)
    ensures UpdateClusterRevision(e, With(s, fr)) == WithR(UpdateClusterRevision(e, s), fr)
    ensures UpdateClusterRevision(e, s).0.objs == s.objs
  {}

  lemma {:induction false} DeleteAllFrame(e: Env, s: State, fr: Objects, K: iset<Key>, ms: seq<Manifest>)
    requires KeysIn(ms, K) && Inside(s.objs, K) && forall x :: x in fr ==> x !in K
    ensures Framed(CR.DeleteAll(e, s, ms), CR.DeleteAll(e, With(s, fr), ms), fr, K)
    decreases |ms|
  {
    if ms != [] {
      var s1 := Tick(s);
      StatusFrame(e, s1, fr, TerminatingFailed);
      assert At(With(s, fr).objs, ms[0].key) == At(s.objs, ms[0].key);
      if ms[0].key !in s.objs || s.objs[ms[0].key].terminating {
        DeleteAllFrame(e, s1, fr, K, ms[1..]);
      } else {
        DeleteFrame(e, s1, fr, K, ms[0].key);
        var (s2, r) := Delete(e, s1, ms[0].key);
        StatusFrame(e, s2, fr, TerminatingFailed);
        DeleteAllFrame(e, s2, fr, K, ms[1..]);
      }
    }
  }

  // ---- namespaces.go ----

  predicate OwnOne(n: Ns, space: string, refs: Lookup) {
    n.name != "" && LabelOf(n.obj.labels, Space) == space && NsLooks(n.obj, refs)
  }

  ghost predicate OwnNs(nss: seq<Ns>, space: string, K: iset<Key>, refs: Lookup) {
    forall n :: n in nss ==> NsKey(n.name) in K && OwnOne(n, space, refs)
  }

  lemma OwnedFrame(objs: Objects, fr: Objects, space: string, K: iset<Key>, refs: Lookup)
    requires Inside(objs, K) && Frame(fr, space, K) && Looks(objs, refs)
    ensures Owned(objs + fr, space) == Owned(objs, space)
    ensures OwnNs(Owned(objs, space), space, K, refs)
  {
    forall x ensures Owns(objs + fr, space, x) <==> Owns(objs, space, x) { assert !Owns(fr, space, x); }
    assert OwnedNames(objs + fr, space) == OwnedNames(objs, space);
    ListingFrame(objs, fr, SortedNames(OwnedNames(objs, space)), K);
    OwnedMembers(objs, space);
  }

  lemma {:induction false} ListingFrame(objs: Objects, fr: Objects, names: seq<string>, K: iset<Key>)
    requires Inside(objs, K) && (forall x :: x in fr ==> x !in K) && forall x :: x in names ==> NsKey(x) in objs
    ensures Listing(objs + fr, names) == Listing(objs, names)
  {
    if names != [] { ListingFrame(objs, fr, names[1..], K); }
  }

  lemma {:induction false} GetTiersFrame(e: Env, s: State, fr: Objects, names: seq<string>)
    ensures NS.GetTiers(e, With(s, fr), names) == WithR(NS.GetTiers(e, s, names), fr)
    ensures var r := NS.GetTiers(e, s, names);
      && r.0 == s.(calls := r.0.calls)
      && (r.1.Some? ==> forall i :: 0 <= i < |r.1.value| ==>
          exists ref :: ref in names && TierAt(e, ref) == Some(r.1.value[i]))
    decreases |names|
  {
    if names != [] {
      GetTiersFrame(e, GetTier(e, s, names[0]).0, fr, names[1..]);
      assert forall ref :: ref in names[1..] ==> ref in names;
    }
  }

  lemma RolesPresentFrame(objs: Objects, fr: Objects, K: iset<Key>, n: string, ms: seq<Manifest>, space: string)
    requires (forall x :: x in fr ==> x !in K) && forall m :: m in ms && IsRole(m) ==> NS.ListedKey(n, m) in K
    ensures NS.RolesPresent(objs + fr, n, ms, space) == NS.RolesPresent(objs, n, ms, space)
  {
    forall m | m in ms && IsRole(m)
      ensures NS.Contains(objs + fr, NS.ListedKey(n, m), space) == NS.Contains(objs, NS.ListedKey(n, m), space)
    {}
  }

  lemma UpToDateFrame(e: Env, s: State, fr: Objects, K: iset<Key>, n: Ns, t: Tier, ref: string, refs: Lookup)
    requires Territory(e, s.cur.name, K, refs) && Inside(s.objs, K) && forall x :: x in fr ==> x !in K
    requires NsKey(n.name) in K && ref in refs.templates && TierAt(e, ref) == Some(t)
    requires LabelOf(n.obj.labels, Space) == s.cur.name
    ensures NS.UpToDate(e, With(s, fr), n, t) == WithR(NS.UpToDate(e, s, n, t), fr)
  {
    var ms := t.process(Params(s.cur.name, s.cur.name, ""));
    if ms.Some? {
      forall m | m in NS.AllButNamespaces(ms.value) && IsRole(m) ensures NS.ListedKey(n.name, m) in K {
        assert Generates(e, ref, Params(s.cur.name, s.cur.name, ""), m);
      }
      RolesPresentFrame(s.objs, fr, K, n.name, NS.AllButNamespaces(ms.value), s.cur.name);
    }
  }

  ghost predicate Knows(e: Env, t: Tier, refs: Lookup) {
    exists ref :: ref in refs.templates && TierAt(e, ref) == Some(t)
  }

  ghost predicate Known(e: Env, tiers: seq<Tier>, refs: Lookup) {
    forall i :: 0 <= i < |tiers| ==> Knows(e, tiers[i], refs)
  }

  lemma UpToDateCalls(e: Env, s: State, n: Ns, t: Tier)
    ensures var r := NS.UpToDate(e, s, n, t).0; r == s.(calls := r.calls)
  {}

  lemma {:induction false} NextFound(e: Env, s: State, tiers: seq<Tier>, nss: seq<Ns>, refs: Lookup)
    requires Known(e, tiers, refs)
    ensures var r := NS.NextToProvision(e, s, tiers, nss);
      && r.0 == s.(calls := r.0.calls)
      && (r.1.Todo? ==> Knows(e, r.1.tier, refs) && (r.1.ns.Some? ==> r.1.ns.value in nss))
    decreases |tiers|
  {
    if tiers != [] {
      var n := NS.FindNamespace(nss, tiers[0].typeName);
      if n.Some? && !n.value.obj.active {
        NextFound(e, s, tiers[1..], nss, refs);
      } else if n.Some? {
        UpToDateCalls(e, s, n.value, tiers[0]);
        NextFound(e, NS.UpToDate(e, s, n.value, tiers[0]).0, tiers[1..], nss, refs);
      }
    }
  }

  lemma {:induction false} NextFrame(e: Env, s: State, fr: Objects, K: iset<Key>, tiers: seq<Tier>, nss: seq<Ns>,
                                     refs: Lookup)
    requires Territory(e, s.cur.name, K, refs) && Inside(s.objs, K) && forall x :: x in fr ==> x !in K
    requires Known(e, tiers, refs) && OwnNs(nss, s.cur.name, K, refs)
    ensures NS.NextToProvision(e, With(s, fr), tiers, nss) == WithR(NS.NextToProvision(e, s, tiers, nss), fr)
    decreases |tiers|
  {
    if tiers != [] {
      var n := NS.FindNamespace(nss, tiers[0].typeName);
      if n.Some? && !n.value.obj.active {
        NextFrame(e, s, fr, K, tiers[1..], nss, refs);
      } else if n.Some? {
        NextOneFrame(e, s, fr, K, n.value, tiers[0], refs);
        NextFrame(e, NS.UpToDate(e, s, n.value, tiers[0]).0, fr, K, tiers[1..], nss, refs);
      }
    }
  }

  lemma NextOneFrame(e: Env, s: State, fr: Objects, K: iset<Key>, n: Ns, t: Tier, refs: Lookup)
    requires Territory(e, s.cur.name, K, refs) && Inside(s.objs, K) && forall x :: x in fr ==> x !in K
    requires NsKey(n.name) in K && Knows(e, t, refs) && LabelOf(n.obj.labels, Space) == s.cur.name
    ensures NS.UpToDate(e, With(s, fr), n, t) == WithR(NS.UpToDate(e, s, n, t), fr)
    ensures var r := NS.UpToDate(e, s, n, t).0; r == s.(calls := r.calls)
  {
    var ref :| ref in refs.templates && TierAt(e, ref) == Some(t);
    UpToDateFrame(e, s, fr, K, n, t, ref, refs);
  }

  lemma OutcomeFrame(e: Env, r: (State, bool), fr: Objects)
    ensures NS.Outcome(e, WithR(r, fr)) == WithR(NS.Outcome(e, r), fr) && NS.Outcome(e, r).0.objs == r.0.objs
  {
    StatusFrame(e, r.0, fr, UnableToProvisionNamespace);
  }

  lemma GeneratedIn(e: Env, space: string, K: iset<Key>, t: Tier, ref: string, refs: Lookup)
    requires Territory(e, space, K, refs) && ref in refs.templates && TierAt(e, ref) == Some(t)
    ensures var ms := t.process(Params(space, "", ""));
      ms.Some? ==> KeysIn(NS.NamespacesOnly(ms.value), K) && KeysIn(NS.AllButNamespaces(ms.value), K)
  {
    var ms := t.process(Params(space, "", ""));
    if ms.Some? {
      forall m | m in ms.value ensures m.key in K { assert Generates(e, ref, Params(space, "", ""), m); }
    }
  }

  lemma NsResourceFrame(e: Env, s: State, fr: Objects, K: iset<Key>, t: Tier, ref: string, refs: Lookup)
    requires Territory(e, s.cur.name, K, refs) && Inside(s.objs, K) && (forall x :: x in fr ==> x !in K)
    requires ref in refs.templates && TierAt(e, ref) == Some(t)
    ensures Framed(NS.EnsureNsResource(e, s, t), NS.EnsureNsResource(e, With(s, fr), t), fr, K)
  {
    var objs := t.process(Params(s.cur.name, "", ""));
    GeneratedIn(e, s.cur.name, K, t, ref, refs);
    if objs.None? {
      OutcomeFrame(e, (s, false), fr);
    } else {
      ApplyAllFrame(e, s, fr, K, NS.NamespacesOnly(objs.value), NS.NsLabels(s.cur.name, t));
      OutcomeFrame(e, ApplyAll(e, s, NS.NamespacesOnly(objs.value), NS.NsLabels(s.cur.name, t)), fr);
    }
  }

  lemma DropFromFrame(e: Env, s: State, fr: Objects, K: iset<Key>, ref: string, news: seq<Manifest>, refs: Lookup)
    requires Territory(e, s.cur.name, K, refs) && Inside(s.objs, K) && forall x :: x in fr ==> x !in K
    requires ref == "" || ref in refs.templates
    ensures Framed(NS.DropFrom(e, s, ref, news), NS.DropFrom(e, With(s, fr), ref, news), fr, K)
    ensures NS.DropFrom(e, s, ref, news).0.cur.name == s.cur.name
  {
    var (s2, tier) := GetTier(e, s, ref);
    StatusFrame(e, s2, fr, UpdateFailed);
    if tier.Some? {
      GeneratedIn(e, s.cur.name, K, tier.value, ref, refs);
      if tier.value.process(Params(s.cur.name, "", "")).Some? {
        SweepFrame(e, s2, fr, K, NS.AllButNamespaces(tier.value.process(Params(s.cur.name, "", "")).value), news);
      }
    }
  }

  lemma DropOldFrame(e: Env, s: State, fr: Objects, K: iset<Key>, n: Ns, t: Tier, news: seq<Manifest>, refs: Lookup)
    requires Territory(e, s.cur.name, K, refs) && Inside(s.objs, K) && forall x :: x in fr ==> x !in K
    requires LabelIn(n.obj.labels, refs.templates)
    ensures Framed(NS.DropOld(e, s, n, t, news), NS.DropOld(e, With(s, fr), n, t, news), fr, K)
    ensures NS.DropOld(e, s, n, t, news).0.cur.name == s.cur.name
  {
    StatusFrame(e, s, fr, Updating);
    var (s1, ok) := SetUpdatingIfNotProvisioning(e, s);
    assert s1.cur.name == s.cur.name;
    DropFromFrame(e, s1, fr, K, LabelOf(n.obj.labels, TemplateRef), news, refs);
  }

  lemma SweepFrame(e: Env, s: State, fr: Objects, K: iset<Key>, ms: seq<Manifest>, news: seq<Manifest>)
    requires KeysIn(ms, K) && Inside(s.objs, K) && forall x :: x in fr ==> x !in K
    ensures var r := DeleteObsolete(e, s, ms, news); var r' := DeleteObsolete(e, With(s, fr), ms, news);
      && Framed(r, r', fr, K) && r.0.cur == s.cur
      && SetFailed(e, r'.0, UpdateFailed) == With(SetFailed(e, r.0, UpdateFailed), fr)
      && SetFailed(e, r.0, UpdateFailed).objs == r.0.objs && SetFailed(e, r.0, UpdateFailed).cur.name == s.cur.name
  {
    DeleteObsoleteFrame(e, s, fr, K, ms, news);
    DeleteObsoleteCur(e, s, ms, news);
    StatusFrame(e, DeleteObsolete(e, s, ms, news).0, fr, UpdateFailed);
  }

  lemma {:induction false} DeleteObsoleteCur(e: Env, s: State, ms: seq<Manifest>, news: seq<Manifest>)
    ensures DeleteObsolete(e, s, ms, news).0.cur == s.cur
    decreases |ms|
  {
    if ms != [] {
      DeleteObsoleteCur(e, s, ms[1..], news);
      DeleteObsoleteCur(e, Delete(e, s, ms[0].key).0, ms[1..], news);
    }
  }

  lemma InnerFrame(e: Env, s: State, fr: Objects, K: iset<Key>, t: Tier, n: Ns, ref: string, refs: Lookup)
    requires Territory(e, s.cur.name, K, refs) && Inside(s.objs, K) && (forall x :: x in fr ==> x !in K)
    requires ref in refs.templates && TierAt(e, ref) == Some(t) && NsKey(n.name) in K
    requires LabelIn(n.obj.labels, refs.templates)
    ensures Framed(NS.EnsureInner(e, s, t, n), NS.EnsureInner(e, With(s, fr), t, n), fr, K)
  {
    var objs := t.process(Params(s.cur.name, "", ""));
    OutcomeFrame(e, (s, false), fr);
    GeneratedIn(e, s.cur.name, K, t, ref, refs);
    if objs.Some? {
      var news := NS.AllButNamespaces(objs.value);
      DropOldFrame(e, s, fr, K, n, t, news, refs);
      var (s1, swept) := NS.DropOld(e, s, n, t, news);
      ApplyAllFrame(e, s1, fr, K, news, NS.InnerLabels(s.cur.name));
      var (s2, applied) := ApplyAll(e, s1, news, NS.InnerLabels(s.cur.name));
      UpdateFrame(e, s2, fr, K, NsKey(n.name), n.obj, NS.Marked(n.obj, t));
      OutcomeFrame(e, (s2, false), fr);
      OutcomeFrame(e, Update(e, s2, NsKey(n.name), n.obj, NS.Marked(n.obj, t)), fr);
    }
  }

  lemma EnsureNamespaceFrame(e: Env, s: State, fr: Objects, K: iset<Key>, t: Tier, n: Option<Ns>, ref: string,
                             refs: Lookup)
    requires Territory(e, s.cur.name, K, refs) && Inside(s.objs, K) && (forall x :: x in fr ==> x !in K)
    requires ref in refs.templates && TierAt(e, ref) == Some(t)
    requires n.Some? ==> NsKey(n.value.name) in K && LabelIn(n.value.obj.labels, refs.templates)
    ensures Framed(NS.EnsureNamespace(e, s, t, n), NS.EnsureNamespace(e, With(s, fr), t, n), fr, K)
  {
    NsResourceFrame(e, s, fr, K, t, ref, refs);
    OutcomeFrame(e, (s, false), fr);
    if n.Some? { InnerFrame(e, s, fr, K, t, n.value, ref, refs); }
  }

  lemma ProvisionFrame(e: Env, s: State, fr: Objects, K: iset<Key>, t: Tier, n: Option<Ns>, nss: seq<Ns>, ref: string,
                       refs: Lookup)
    requires Territory(e, s.cur.name, K, refs) && Inside(s.objs, K) && (forall x :: x in fr ==> x !in K)
    requires ref in refs.templates && TierAt(e, ref) == Some(t)
    requires n.Some? ==> NsKey(n.value.name) in K && LabelIn(n.value.obj.labels, refs.templates)
    ensures Framed(NS.Provision(e, s, t, n, nss), NS.Provision(e, With(s, fr), t, n, nss), fr, K)
  {
    StatusFrame(e, s, fr, Updating);
    var (s1, ok) := if nss != [] then SetUpdatingIfNotProvisioning(e, s) else SetProvisioningIfNotUpdating(e, s);
    assert s1.cur.name == s.cur.name;
    EnsureNamespaceFrame(e, s1, fr, K, t, n, ref, refs);
  }

  lemma DeprovisionFrame(e: Env, s: State, fr: Objects, K: iset<Key>, n: Ns)
    requires Inside(s.objs, K) && (forall x :: x in fr ==> x !in K) && NsKey(n.name) in K
    ensures Framed(NS.Deprovision(e, s, n), NS.Deprovision(e, With(s, fr), n), fr, K)
  {
    StatusFrame(e, s, fr, Updating);
    var s1 := SetUpdatingIfNotProvisioning(e, s).0;
    DeleteFrame(e, s1, fr, K, NsKey(n.name));
    StatusFrame(e, Delete(e, s1, NsKey(n.name)).0, fr, UpdateFailed);
  }

  lemma ActFrame(e: Env, s: State, fr: Objects, K: iset<Key>, tiers: seq<Tier>, nss: seq<Ns>, refs: Lookup)
    requires Territory(e, s.cur.name, K, refs) && Inside(s.objs, K) && forall x :: x in fr ==> x !in K
    requires Known(e, tiers, refs) && OwnNs(nss, s.cur.name, K, refs)
    ensures Framed(NS.Act(e, s, tiers, nss), NS.Act(e, With(s, fr), tiers, nss), fr, K)
  {
    var gone := NS.NextToDeprovision(tiers, nss);
    if gone.Some? {
      DeprovisionFrame(e, s, fr, K, gone.value);
    } else {
      NextFrame(e, s, fr, K, tiers, nss, refs);
      NextFound(e, s, tiers, nss, refs);
      var (s3, next) := NS.NextToProvision(e, s, tiers, nss);
      if next.Todo? {
        var ref :| ref in refs.templates && TierAt(e, ref) == Some(next.tier);
        ProvisionFrame(e, s3, fr, K, next.tier, next.ns, nss, ref, refs);
      }
    }
  }

  lemma EnsureOverFrame(e: Env, s: State, fr: Objects, K: iset<Key>, nss: seq<Ns>, refs: Lookup)
    requires Territory(e, s.cur.name, K, refs) && Inside(s.objs, K) && (forall x :: x in fr ==> x !in K)
    requires SpecLooks(s.cur, refs) && OwnNs(nss, s.cur.name, K, refs)
    ensures Framed(NS.EnsureOver(e, s, nss), NS.EnsureOver(e, With(s, fr), nss), fr, K)
  {
    GetTiersFrame(e, s, fr, s.cur.namespaces);
    var (s2, tiers) := NS.GetTiers(e, s, s.cur.namespaces);
    StatusFrame(e, s2, fr, UnableToProvisionNamespace);
    if tiers.Some? { ActFrame(e, s2, fr, K, tiers.value, nss, refs); }
  }

  // The listing seen with and without the frame.
  lemma ListFrame(s: State, fr: Objects, K: iset<Key>, refs: Lookup) returns (nss: seq<Ns>)
    requires Inside(s.objs, K) && Frame(fr, s.cur.name, K) && Looks(s.objs, refs)
    ensures nss == Owned(s.objs, s.cur.name) && nss == Owned(With(s, fr).objs, With(s, fr).cur.name)
    ensures OwnNs(nss, s.cur.name, K, refs)
  {
    OwnedFrame(s.objs, fr, s.cur.name, K, refs);
    nss := Owned(s.objs, s.cur.name);
  }

  lemma EnsureIs(e: Env, s: State, nss: seq<Ns>)
    requires nss == Owned(s.objs, s.cur.name)
    ensures NS.UpdateProvisioned(e, s)
      == if e.fate(s.calls).Done? then NS.RecordNames(e, Tick(s), nss) else (Tick(s), false)
    ensures NS.EnsureDeleted(e, s) == if e.fate(s.calls).Done? then NS.DeleteFirst(e, Tick(s), nss)
                                      else (SetFailed(e, Tick(s), TerminatingFailed), None)
    ensures SR.Ensure(e, s) == if e.fate(s.calls).Done? then SR.EnsureEach(e, Tick(s), nss)
                               else (SetFailed(e, Tick(s), UnableToProvision), NS.Failed)
  {}

  lemma NsEnsureIs(e: Env, s: State, nss: seq<Ns>)
    requires nss == Owned(s.objs, s.cur.name)
    ensures NS.Ensure(e, s) == if e.fate(s.calls).Done? then NS.EnsureOver(e, Tick(s), nss)
                               else (SetFailed(e, Tick(s), UnableToProvision), NS.Failed)
  {}

  lemma NamespaceEnsureFrame(e: Env, s: State, fr: Objects, K: iset<Key>, refs: Lookup)
    requires Territory(e, s.cur.name, K, refs) && Inside(s.objs, K) && Frame(fr, s.cur.name, K)
    requires SpecLooks(s.cur, refs) && Looks(s.objs, refs)
    ensures Framed(NS.Ensure(e, s), NS.Ensure(e, With(s, fr)), fr, K)
  {
    var nss := ListFrame(s, fr, K, refs);
    NsEnsureIs(e, s, nss);
    NsEnsureIs(e, With(s, fr), nss);
    StatusFrame(e, Tick(s), fr, UnableToProvision);
    EnsureOverFrame(e, Tick(s), fr, K, nss, refs);
  }

  lemma UpdateProvisionedFrame(e: Env, s: State, fr: Objects, K: iset<Key>, refs: Lookup)
    requires Inside(s.objs, K) && Frame(fr, s.cur.name, K) && Looks(s.objs, refs)
    ensures Framed(NS.UpdateProvisioned(e, s), NS.UpdateProvisioned(e, With(s, fr)), fr, K)
  {
    var nss := ListFrame(s, fr, K, refs);
    EnsureIs(e, s, nss);
    EnsureIs(e, With(s, fr), nss);
    RecordNamesFrame(e, Tick(s), fr, nss);
  }

  lemma RecordNamesFrame(e: Env, s: State, fr: Objects, nss: seq<Ns>)
    ensures NS.RecordNames(e, With(s, fr), nss) == WithR(NS.RecordNames(e, s, nss), fr)
    ensures NS.RecordNames(e, s, nss).0.objs == s.objs
  {}
}
