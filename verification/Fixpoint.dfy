// Once a reconcile reports Ready, further ones without failures change neither the store nor the NSTemplateSet.
module Fixpoint {
  import opened Names
  import opened Cluster
  import opened Applying
  import opened Statuses
  import opened Passes
  import opened ClusterPasses
  import opened ClusterRecovery
  import opened Namespaces
  import opened NamespacePasses
  import opened RolePasses
  import opened ProvisionedSoundness
  import opened CommitMarker
  import opened RoleRuns
  import opened Reconciler
  import opened Convergence
  import opened ConvergenceRuns
  import DR = DeletionRuns
  import CR = ClusterResources
  import SR = SpaceRoles
  import SC = StatusComparison

  // ---- Applying a list twice ----

  // What applying an object that is there does to it; `labels` and `notes` replace or are added.
  datatype Patch = Patch(newLabels: bool, labels: Labels, newNotes: bool, notes: Notes, body: Option<string>)

  const NOTHING := Patch(false, map[], false, map[], None)

  function Patched(o: Object, p: Patch): Object {
    o.(labels := if p.newLabels then p.labels else o.labels + p.labels,
       notes := if p.newNotes then p.notes else o.notes + p.notes,
       body := if p.body.Some? then p.body.value else o.body)
  }

  function Then(p: Patch, q: Patch): Patch {
    Patch(p.newLabels || q.newLabels, if q.newLabels then q.labels else p.labels + q.labels,
          p.newNotes || q.newNotes, if q.newNotes then q.notes else p.notes + q.notes,
          if q.body.Some? then q.body else p.body)
  }

  function PatchOf(e: Env, m: Manifest, labels: Labels): Patch {
    if m.key.gvk.kind.ServiceAccount? then Patch(false, labels + m.labels, false, m.notes, None)
    else Patch(true, m.labels + labels, !e.keepNotes, m.notes, Some(m.body))
  }

  lemma AddTwice<K, V>(a: map<K, V>, b: map<K, V>, c: map<K, V>)
    ensures (a + b) + c == a + (b + c) && (a + b) + b == a + b
  {
    assert ((a + b) + c).Keys == (a + (b + c)).Keys;
  }

  lemma StampedIsPatch(e: Env, m: Manifest, labels: Labels, o: Object)
    ensures Stamped(e, m, labels, Some(o)) == Patched(o, PatchOf(e, m, labels))
  {
    AddTwice(o.labels, labels, m.labels);
  }

  lemma PatchedThen(o: Object, p: Patch, q: Patch)
    ensures Patched(Patched(o, p), q) == Patched(o, Then(p, q))
  {
    AddTwice(o.labels, p.labels, q.labels);
    AddTwice(o.notes, p.notes, q.notes);
  }

  lemma PatchedTwice(o: Object, p: Patch)
    ensures Patched(Patched(o, p), p) == Patched(o, p)
  {
    AddTwice(o.labels, p.labels, p.labels);
    AddTwice(o.notes, p.notes, p.notes);
  }

  predicate Writes(e: Env, m: Manifest, k: Key) { Available(e, m) && m.key == k }

  // What applying a list makes of the object at a key.
  function Fold(e: Env, ms: seq<Manifest>, labels: Labels, k: Key, o: Option<Object>): Option<Object>
    decreases |ms|
  {
    if ms == [] then o
    else Fold(e, ms[1..], labels, k, if Writes(e, ms[0], k) then Some(Stamped(e, ms[0], labels, o)) else o)
  }

  function PatchOfAll(e: Env, ms: seq<Manifest>, labels: Labels, k: Key): Patch {
    if ms == [] then NOTHING
    else if Writes(e, ms[0], k) then Then(PatchOf(e, ms[0], labels), PatchOfAll(e, ms[1..], labels, k))
    else PatchOfAll(e, ms[1..], labels, k)
  }

  lemma {:induction false} StampAllIsFold(e: Env, objs: Objects, ms: seq<Manifest>, labels: Labels, k: Key)
    ensures At(StampAll(e, objs, ms, labels), k) == Fold(e, ms, labels, k, At(objs, k))
    decreases |ms|
  {
    if ms != [] {
      StampAllIsFold(e, if Available(e, ms[0]) then StampIn(e, objs, ms[0], labels) else objs, ms[1..], labels, k);
    }
  }

  lemma {:induction false} FoldIsPatch(e: Env, ms: seq<Manifest>, labels: Labels, k: Key, o: Object)
    ensures Fold(e, ms, labels, k, Some(o)) == Some(Patched(o, PatchOfAll(e, ms, labels, k)))
    decreases |ms|
  {
    if ms == [] {
      assert o.labels + map[] == o.labels && o.notes + map[] == o.notes;
    } else if Writes(e, ms[0], k) {
      var o' := Stamped(e, ms[0], labels, Some(o));
      StampedIsPatch(e, ms[0], labels, o);
      FoldIsPatch(e, ms[1..], labels, k, o');
      PatchedThen(o, PatchOf(e, ms[0], labels), PatchOfAll(e, ms[1..], labels, k));
    } else {
      FoldIsPatch(e, ms[1..], labels, k, o);
    }
  }

  // A created account carries the operator's labels, an account found has those of the template win.
  predicate Agrees(m: Manifest, labels: Labels) {
    m.key.gvk.kind.ServiceAccount? ==> forall l :: l in m.labels && l in labels ==> m.labels[l] == labels[l]
  }

  // So applying a manifest to the object it has just created changes nothing exactly if it agrees.
  lemma AppliedAgainIff(e: Env, m: Manifest, labels: Labels)
    ensures Stamped(e, m, labels, Some(Fresh(m, labels))) == Fresh(m, labels) <==> Agrees(m, labels)
  {
    StampedIsPatch(e, m, labels, Fresh(m, labels));
    AddTwice(map[], m.notes, m.notes);
    assert m.notes + m.notes == m.notes;
    var again := Stamped(e, m, labels, Some(Fresh(m, labels)));
    if m.key.gvk.kind.ServiceAccount? {
      if Agrees(m, labels) {
        assert again.labels == m.labels + labels;
      } else {
        var l :| l in m.labels && l in labels && m.labels[l] != labels[l];
        assert again.labels[l] == m.labels[l] && Fresh(m, labels).labels[l] == labels[l];
      }
    }
  }

  lemma {:induction false} FoldTwice(e: Env, ms: seq<Manifest>, labels: Labels, k: Key, o: Option<Object>)
    requires o.Some? || forall m :: m in ms && Writes(e, m, k) ==> Agrees(m, labels)
    ensures var r := Fold(e, ms, labels, k, o); Fold(e, ms, labels, k, r) == r
    decreases |ms|, o.None?
  {
    if o.Some? {
      var p := PatchOfAll(e, ms, labels, k);
      FoldIsPatch(e, ms, labels, k, o.value);
      FoldIsPatch(e, ms, labels, k, Patched(o.value, p));
      PatchedTwice(o.value, p);
    } else if ms != [] {
      if Writes(e, ms[0], k) {
        var f := Fresh(ms[0], labels);
        AppliedAgainIff(e, ms[0], labels);
        assert Fold(e, ms, labels, k, None) == Fold(e, ms, labels, k, Some(f));
        FoldTwice(e, ms, labels, k, Some(f));
      } else {
        FoldTwice(e, ms[1..], labels, k, None);
      }
    }
  }

  // ---- The role phase of a ready space as one list ----

  function AllNews(e: Env, nss: seq<Ns>, want: SR.Roles): seq<Manifest> {
    if nss == [] then [] else News(e, nss[0], want) + AllNews(e, nss[1..], want)
  }

  lemma {:induction false} StampAllCat(e: Env, objs: Objects, a: seq<Manifest>, b: seq<Manifest>, labels: Labels)
    ensures StampAll(e, objs, a + b, labels) == StampAll(e, StampAll(e, objs, a, labels), b, labels)
    decreases |a|
  {
    if a == [] {
      assert [] + b == b;
    } else {
      assert (a + b)[1..] == a[1..] + b;
      StampAllCat(e, if Available(e, a[0]) then StampIn(e, objs, a[0], labels) else objs, a[1..], b, labels);
    }
  }

  lemma {:induction false} ReappliedIsOnePass(e: Env, objs: Objects, space: string, nss: seq<Ns>, want: SR.Roles)
    ensures Reapplied(e, objs, space, nss, want) == StampAll(e, objs, AllNews(e, nss, want), InnerLabels(space))
    decreases |nss|
  {
    if nss != [] {
      var next := StampAll(e, objs, News(e, nss[0], want), InnerLabels(space));
      ReappliedIsOnePass(e, next, space, nss[1..], want);
      StampAllCat(e, objs, News(e, nss[0], want), AllNews(e, nss[1..], want), InnerLabels(space));
    }
  }

  lemma {:induction false} AllNewsByName(e: Env, nss: seq<Ns>, nss': seq<Ns>, want: SR.Roles)
    requires |nss| == |nss'| && forall i :: 0 <= i < |nss| ==> nss[i].name == nss'[i].name
    ensures AllNews(e, nss, want) == AllNews(e, nss', want)
  {
    if nss != [] {
      NewsByName(e, nss[0], nss'[0], want);
      AllNewsByName(e, nss[1..], nss'[1..], want);
    }
  }

  lemma {:induction false} AllNewsAreLocal(e: Env, nss: seq<Ns>, want: SR.Roles, rr: set<string>)
    requires RolesLocal(e, rr) && From(SR.Items(want), rr) && Named(nss)
    ensures forall m :: m in AllNews(e, nss, want) ==> m.key.ns != "" && !m.key.gvk.kind.Namespace?
  {
    if nss != [] {
      NewsAreLocal(e, nss[0], want, rr);
      AllNewsAreLocal(e, nss[1..], want, rr);
    }
  }

  // What a reconcile that finds the space ready applies.
  function Upkeep(e: Env, objs: Objects, t: NSTemplateSet): seq<Manifest> { AllNews(e, Owned(objs, t.name), t.roles) }

  lemma UpkeepByNames(e: Env, objs: Objects, objs': Objects, t: NSTemplateSet, t': NSTemplateSet)
    requires OwnedNames(objs, t.name) == OwnedNames(objs', t.name) && t'.name == t.name && t'.roles == t.roles
    ensures Upkeep(e, objs, t) == Upkeep(e, objs', t')
  {
    AllNewsByName(e, Owned(objs, t.name), Owned(objs', t.name), t.roles);
  }

  // ---- A store at rest ----

  predicate Rested(objs: Objects) {
    forall k :: k in objs ==> !objs[k].terminating && (k.gvk.kind.Namespace? ==> objs[k].active)
  }

  lemma SettleRests(objs: Objects)
    ensures Rested(DR.Settle(objs))
  {}

  lemma RestedStays(objs: Objects)
    requires Rested(objs)
    ensures DR.Settle(objs) == objs
  {
    forall k ensures At(DR.Settle(objs), k) == At(objs, k) {}
    SameAt(DR.Settle(objs), objs);
  }

  lemma {:induction false} StampAllRests(e: Env, objs: Objects, ms: seq<Manifest>, labels: Labels)
    requires Rested(objs) && forall m :: m in ms ==> !m.key.gvk.kind.Namespace?
    ensures Rested(StampAll(e, objs, ms, labels))
    decreases |ms|
  {
    if ms != [] {
      StampAllRests(e, if Available(e, ms[0]) then StampIn(e, objs, ms[0], labels) else objs, ms[1..], labels);
    }
  }

  // ---- Without failures the saved NSTemplateSet follows the one worked on ----

  predicate InStep(s: State) { s.saved == s.cur }

  lemma ReadyInStep(e: Env, s: State, r: Reason)
    requires NoFaults(e) && InStep(s)
    ensures InStep(SetReady(e, s, r).0) && InStep(SetFailed(e, s, r))
    ensures SetReady(e, s, r).0.cur.status.ready == Some(r) && SetReady(e, s, r).0.objs == s.objs
  {}

  lemma FlagInStep(e: Env, a: CR.Applier)
    requires NoFaults(e) && InStep(a.s)
    ensures InStep(CR.Flag(e, a).0.s)
  {
    ReadyInStep(e, a.s, Updating);
    ReadyInStep(e, a.s, Provisioning);
  }

  lemma ApplyNewInStep(e: Env, a: CR.Applier, m: Manifest, labels: Labels)
    requires NoFaults(e) && InStep(a.s)
    ensures InStep(CR.ApplyNew(e, a, m, labels).0.s)
  {
    var a0 := a.(rest := CR.DropFirst(a.rest, m));
    FlagInStep(e, a0);
    ApplyOneEffect(e, CR.Flag(e, a0).0.s, m, labels);
  }

  lemma {:induction false} ApplyNewsInStep(e: Env, a: CR.Applier, ms: seq<Manifest>, labels: Labels)
    requires NoFaults(e) && InStep(a.s)
    ensures InStep(CR.ApplyNews(e, a, ms, labels).0.s)
    decreases |ms|
  {
    if ms != [] {
      ApplyNewInStep(e, a, ms[0], labels);
      ApplyNewsInStep(e, CR.ApplyNew(e, a, ms[0], labels).0, ms[1..], labels);
    }
  }

  lemma CleanupInStep(e: Env, a: CR.Applier)
    requires NoFaults(e) && InStep(a.s)
    ensures InStep(CR.Cleanup(e, a).0)
  {
    FlagInStep(e, a);
    var (a1, flagged) := if a.rest != [] then CR.Flag(e, a) else (a, true);
    var j := DeleteObsoleteCut(e, a1.s, a.rest, []);
  }

  lemma ClusterEnsureInStep(e: Env, s: State)
    requires NoFaults(e) && InStep(s)
    ensures InStep(CR.Ensure(e, s).0)
  {
    if ClusterChanged(s.cur) {
      var (s1, new_) := CR.ProcessRef(e, s, s.cur.cluster);
      ProcessRefSame(e, s, s.cur.cluster);
      var (s2, old_) := CR.ProcessRef(e, s1, s.cur.status.cluster);
      ProcessRefSame(e, s1, s.cur.status.cluster);
      if new_.Some? && old_.Some? {
        var a0, labels := CR.Applier(s2, old_.value.1, false), CR.TierLabels(s.cur.name, new_.value.0);
        ApplyNewsInStep(e, a0, new_.value.1, labels);
        CleanupInStep(e, CR.ApplyNews(e, a0, new_.value.1, labels).0);
      }
    }
  }

  // The status has caught up with what the cluster phase records.
  predicate ClusterRecorded(t: NSTemplateSet) { t.status.cluster == t.cluster && !FeaturesNeedUpdate(t) }

  lemma ClusterPhaseInStep(e: Env, s: State)
    requires NoFaults(e) && InStep(s)
    requires RefManifests(e, s.cur.name, s.cur.cluster).Some? && RefManifests(e, s.cur.name, s.cur.status.cluster).Some?
    ensures var r := ClusterPhase(e, s);
      && r.1 && InStep(r.0) && SameSpec(s.saved, r.0.saved) && r.0.saved.finalizer == s.saved.finalizer
      && ClusterRecorded(r.0.saved) && (ClusterRecorded(s.saved) ==> r.0 == s)
  {
    ClusterPhaseWorks(e, s);
    ClusterPhaseEffect(e, s);
    ClusterEnsureInStep(e, s);
    if ClusterChanged(s.cur) { var c := EnsureCut(e, s); }
    var s1 := CR.Ensure(e, s).0;
    assert Core(s1.saved).finalizer == Core(s.saved).finalizer;
  }

  // What the namespace phase records of a store it finds as it should be.
  predicate NamespacesRecorded(objs: Objects, t: NSTemplateSet) {
    && multiset(t.status.namespaces) == multiset(t.namespaces)
    && (Owned(objs, t.name) != [] ==> t.status.provisioned == NamesOf(Owned(objs, t.name)))
  }

  lemma RevisionInStep(e: Env, s: State)
    requires NoFaults(e) && InStep(s)
    ensures var r := UpdateRevision(e, s); var (t, t') := (s.saved.status, r.0.saved.status);
      && r.1 && InStep(r.0) && r.0.objs == s.objs && r.0.saved == s.saved.(status := t.(namespaces := t'.namespaces))
      && multiset(t'.namespaces) == multiset(s.saved.namespaces)
      && (multiset(t.namespaces) == multiset(s.saved.namespaces) ==> t'.namespaces == t.namespaces)
  {}

  lemma ProvisionedInStep(e: Env, s: State, nss: seq<Ns>)
    requires NoFaults(e) && InStep(s) && nss == Owned(s.objs, s.cur.name)
    ensures var r := UpdateProvisioned(e, s); var t := s.saved.status;
      && r.1 && InStep(r.0) && r.0.objs == s.objs
      && r.0.saved == s.saved.(status := t.(provisioned := if nss == [] then t.provisioned else NamesOf(nss)))
  {
    assert UpdateProvisioned(e, s) == RecordNames(e, Tick(s), nss);
  }

  lemma RecordInStep(e: Env, s: State, nss: seq<Ns>)
    requires NoFaults(e) && InStep(s) && nss == Owned(s.objs, s.cur.name)
    ensures var r := RecordNamespaces(e, s).0; var (t, t') := (s.saved.status, r.saved.status);
      && InStep(r) && r.objs == s.objs && r.saved == s.saved.(status := t')
      && t' == t.(namespaces := t'.namespaces, provisioned := t'.provisioned)
      && multiset(t'.namespaces) == multiset(s.saved.namespaces)
      && (multiset(t.namespaces) == multiset(s.saved.namespaces) ==> t'.namespaces == t.namespaces)
      && t'.provisioned == if nss == [] then t.provisioned else NamesOf(nss)
  {
    RevisionInStep(e, s);
    ProvisionedInStep(e, UpdateRevision(e, s).0, nss);
  }

  lemma NamespacePhaseInStep(e: Env, s: State)
    requires NoFaults(e) && InStep(s) && NamespacePhase(e, s).1.Unchanged?
    ensures var r := NamespacePhase(e, s).0; var (t, t') := (s.saved.status, r.saved.status);
      && InStep(r) && r.objs == s.objs && r.saved == s.saved.(status := t')
      && t'.ready == t.ready && t'.roles == t.roles && t'.cluster == t.cluster && t'.features == t.features
      && NamespacesRecorded(s.objs, r.saved) && (NamespacesRecorded(s.objs, s.saved) ==> r.saved == s.saved)
  {
    var f := EnsureEffect(e, s);
    var nss := Owned(s.objs, s.cur.name);
    RecordInStep(e, Ensure(e, s).0, nss);
  }

  // ---- The role phase ----

  // The last step: comparing and recording the roles, and the Ready condition.
  function Finish(e: Env, s: State): State { SetReady(e, SR.UpdateRevision(e, s).0, Provisioned).0 }

  predicate RolesRecorded(e: Env, t: NSTemplateSet) {
    SR.Alike(e, t.roles, t.status.roles) && t.status.ready == Some(Provisioned)
  }

  lemma FinishInStep(e: Env, s: State)
    requires NoFaults(e) && InStep(s)
    ensures var r := Finish(e, s);
      && r.objs == s.objs && RolesRecorded(e, r.saved) && (RolesRecorded(e, s.saved) ==> r.saved == s.saved)
      && r.saved == s.saved.(status := s.saved.status.(roles := r.saved.status.roles, ready := Some(Provisioned)))
  {
    SC.ArrangeSortedUsers(e, SR.Items(s.cur.roles));
    SC.ArrangeSortedUsers(e, SR.Items(s.cur.status.roles));
    RecordInStepRoles(e, s, SR.SortedRoles(s.cur.roles), SR.SortedRoles(s.cur.status.roles),
                      SR.Alike(e, s.cur.roles, s.cur.status.roles));
  }

  lemma RecordInStepRoles(e: Env, s: State, spec: SR.Roles, status: SR.Roles, same: bool)
    requires NoFaults(e) && InStep(s)
    ensures var r := SetReady(e, SR.RecordRoles(e, s, spec, status, same).0, Provisioned).0;
      && r.objs == s.objs
      && r.saved == s.saved.(status := s.saved.status.(roles := r.saved.status.roles, ready := Some(Provisioned)))
      && (if !same then r.saved.status.roles == spec
          else if s.saved.status.ready == Some(Provisioned) then r.saved == s.saved
          else r.saved.status.roles == status)
  {}

  // ---- The theorem ----

  // The saved NSTemplateSet needs no more updates.
  predicate Recorded(e: Env, objs: Objects, t: NSTemplateSet) {
    t.finalizer && ClusterRecorded(t) && NamespacesRecorded(objs, t) && RolesRecorded(e, t)
  }

  lemma EnsureInStep(e: Env, s: State, nss: seq<Ns>)
    requires NoFaults(e) && InStep(s) && SR.Ensure(e, s).1.Unchanged? && nss == Owned(s.objs, s.cur.name)
    ensures var r := SR.Ensure(e, s).0;
      && r.cur == s.cur && r.saved == s.saved
      && r.objs == StampAll(e, s.objs, AllNews(e, nss, s.cur.roles), InnerLabels(s.cur.name))
  {
    EnsureEachSame(e, Tick(s), nss);
    var d, part := EnsureEachEffect(e, Tick(s), nss);
    assert nss[..|nss|] == nss;
    ReappliedIsOnePass(e, s.objs, s.cur.name, nss, s.cur.roles);
  }

  lemma ThenRolesInStep(e: Env, s: State, nss: seq<Ns>)
    requires NoFaults(e) && InStep(s) && ThenRoles(e, s).1.Ready? && nss == Owned(s.objs, s.cur.name)
    ensures var r := ThenRoles(e, s).0;
      && r.objs == StampAll(e, s.objs, AllNews(e, nss, s.cur.roles), InnerLabels(s.cur.name))
      && RolesRecorded(e, r.saved) && (RolesRecorded(e, s.saved) ==> r.saved == s.saved)
      && r.saved == s.saved.(status := s.saved.status.(roles := r.saved.status.roles, ready := Some(Provisioned)))
  {
    EnsureInStep(e, s, nss);
    FinishInStep(e, SR.Ensure(e, s).0);
  }

  // The NSTemplateSet after the later phases, when they come to Ready.
  lemma ThenNamespacesInStep(e: Env, s: State, nss: seq<Ns>)
    requires NoFaults(e) && InStep(s) && ThenNamespaces(e, s).1.Ready? && nss == Owned(s.objs, s.cur.name)
    ensures var r := ThenNamespaces(e, s).0;
      && r.objs == StampAll(e, s.objs, AllNews(e, nss, s.cur.roles), InnerLabels(s.cur.name))
      && SameSpec(s.saved, r.saved) && r.saved.finalizer == s.saved.finalizer
      && r.saved.status.cluster == s.saved.status.cluster && r.saved.status.features == s.saved.status.features
      && NamespacesRecorded(s.objs, r.saved) && RolesRecorded(e, r.saved)
      && (NamespacesRecorded(s.objs, s.saved) && RolesRecorded(e, s.saved) ==> r.saved == s.saved)
  {
    NamespacePhaseInStep(e, s);
    var s1 := NamespacePhase(e, s).0;
    ThenRolesInStep(e, s1, nss);
  }

  // A reconcile without failures that reports Ready, before the environment: `x` is what the role phase finds.
  lemma ReadyReconcile(e: Env, s: State) returns (x: Objects)
    requires NoFaults(e) && !s.saved.deleting && ReadyNow(e, s)
    requires RefManifests(e, s.saved.name, s.saved.cluster).Some?
    requires RefManifests(e, s.saved.name, s.saved.status.cluster).Some?
    requires ClusterShaped(e, s.saved.name, s.saved.cluster) && ClusterShaped(e, s.saved.name, s.saved.status.cluster)
    ensures forall k: Key :: !ClusterScoped(k) ==> At(x, k) == At(s.objs, k)
    ensures var r := Reconcile(e, s).0;
      && r.objs == StampAll(e, x, Upkeep(e, x, s.saved), InnerLabels(s.saved.name)) && SameSpec(s.saved, r.saved)
      && Recorded(e, x, r.saved)
      && (Recorded(e, s.objs, s.saved) ==> x == s.objs && r.saved == s.saved)
  {
    var s0 := Tick(Fetched(s));
    var s1 := AddFinalizer(e, s0).0;
    ClusterPhaseInStep(e, s1);
    var s2 := ClusterPhase(e, s1).0;
    x := s2.objs;
    forall k: Key | !ClusterScoped(k) ensures At(x, k) == At(s.objs, k) { ClusterPhaseScope(e, s1, k); }
    ThenNamespacesInStep(e, s2, Owned(x, s.saved.name));
    RecordedSoFar(s2.saved, ThenNamespaces(e, s2).0.saved);
  }

  lemma RecordedSoFar(t: NSTemplateSet, t': NSTemplateSet)
    requires ClusterRecorded(t) && SameSpec(t, t')
    requires t'.status.cluster == t.status.cluster && t'.status.features == t.status.features
    ensures ClusterRecorded(t')
  {
    FeatureDrift(t);
    FeatureDrift(t');
  }

  lemma {:induction false} NamesOfListing(objs: Objects, names: seq<string>)
    requires forall x :: x in names ==> NsKey(x) in objs
    ensures NamesOf(Listing(objs, names)) == names
  {
    if names != [] { NamesOfListing(objs, names[1..]); }
  }

  lemma RecordedByNames(e: Env, objs: Objects, objs': Objects, t: NSTemplateSet)
    requires Recorded(e, objs, t) && OwnedNames(objs, t.name) == OwnedNames(objs', t.name)
    ensures Recorded(e, objs', t)
  {
    NamesOfListing(objs, SortedNames(OwnedNames(objs, t.name)));
    NamesOfListing(objs', SortedNames(OwnedNames(objs', t.name)));
  }

  lemma SameNames(objs: Objects, objs': Objects, space: string)
    requires forall x :: At(objs', NsKey(x)) == At(objs, NsKey(x))
    ensures OwnedNames(objs', space) == OwnedNames(objs, space)
  {
    forall x ensures Owns(objs', space, x) <==> Owns(objs, space, x) {
      assert At(objs', NsKey(x)) == At(objs, NsKey(x));
    }
  }

  lemma SettledNamesSame(objs: Objects, space: string)
    requires forall x :: NsKey(x) in objs ==> !objs[NsKey(x)].terminating
    ensures OwnedNames(DR.Settle(objs), space) == OwnedNames(objs, space)
  {
    forall x ensures Owns(DR.Settle(objs), space, x) <==> Owns(objs, space, x) { SettleLabels(objs, space, x); }
  }

  lemma UpkeepLocal(e: Env, objs: Objects, t: NSTemplateSet, rr: set<string>)
    requires GoodTemplates(e, t, rr)
    ensures forall m :: m in Upkeep(e, objs, t) ==> m.key.ns != "" && !m.key.gvk.kind.Namespace?
  {
    OwnedAreNamed(objs, t.name);
    AllNewsAreLocal(e, Owned(objs, t.name), t.roles, rr);
  }

  lemma UpkeepKeepsNamespaces(e: Env, objs: Objects, t: NSTemplateSet, x: Objects, labels: Labels, rr: set<string>)
    requires GoodTemplates(e, t, rr)
    ensures forall y :: At(StampAll(e, x, Upkeep(e, objs, t), labels), NsKey(y)) == At(x, NsKey(y))
  {
    UpkeepLocal(e, objs, t, rr);
    forall y ensures At(StampAll(e, x, Upkeep(e, objs, t), labels), NsKey(y)) == At(x, NsKey(y)) {
      StampAllElsewhere(e, x, Upkeep(e, objs, t), labels, NsKey(y));
    }
  }

  // After a Ready round each object applied is what applying makes of the one found, whatever the environment does.
  lemma AppliedSurvives(e: Env, x: Objects, ms: seq<Manifest>, labels: Labels, k: Key)
    requires Clean(x) && forall m :: m in ms ==> m.key.ns != "" && !m.key.gvk.kind.Namespace?
    requires k in AvailableKeys(e, ms)
    ensures var r := DR.Settle(StampAll(e, x, ms, labels)); k in r && At(r, k) == Fold(e, ms, labels, k, At(x, k))
  {
    var r := StampAll(e, x, ms, labels);
    StampAllIsFold(e, x, ms, labels, k);
    StampAllLiveIff(e, x, ms, labels, k);
    StampAllElsewhere(e, x, ms, labels, NsKey(k.ns));
    assert At(r, NsKey(k.ns)) == At(x, NsKey(k.ns));
    SettleAt(r, k);
  }

  lemma CleanSame(objs: Objects, x: Objects)
    requires Clean(objs) && forall k: Key :: !ClusterScoped(k) ==> At(x, k) == At(objs, k)
    ensures Clean(x)
  {
    forall k | k in x && !ClusterScoped(k) ensures !x[k].terminating { assert At(x, k) == At(objs, k); }
  }

  // The first Ready round.
  lemma ReadyRound(e: Env, s: State, rr: set<string>)
    requires NoFaults(e) && Good(e, s, rr) && ReadyNow(e, s)
    ensures var s', ms := DR.Round(e, s), Upkeep(e, s.objs, s.saved);
      && Rested(s'.objs) && Recorded(e, s'.objs, s'.saved) && SameSpec(s.saved, s'.saved)
      && Upkeep(e, s'.objs, s'.saved) == ms
      && forall k :: k in AvailableKeys(e, ms) ==>
           k in s'.objs && At(s'.objs, k) == Fold(e, ms, InnerLabels(s.saved.name), k, At(s.objs, k))
  {
    var x := ReadyReconcile(e, s);
    var t, labels, ms := s.saved, InnerLabels(s.saved.name), Upkeep(e, s.objs, s.saved);
    CleanSame(s.objs, x);
    SameNames(s.objs, x, t.name);
    UpkeepByNames(e, s.objs, x, t, t);
    UpkeepLocal(e, s.objs, t, rr);
    var r := StampAll(e, x, ms, labels);
    var s' := DR.Round(e, s);
    SettleRests(r);
    UpkeepKeepsNamespaces(e, s.objs, t, x, labels, rr);
    SameNames(x, r, t.name);
    forall y | NsKey(y) in r ensures !r[NsKey(y)].terminating { assert At(r, NsKey(y)) == At(x, NsKey(y)); }
    SettledNamesSame(r, t.name);
    RecordedByNames(e, x, s'.objs, s'.saved);
    UpkeepByNames(e, s.objs, s'.objs, t, s'.saved);
    forall k | k in AvailableKeys(e, ms)
      ensures k in s'.objs && At(s'.objs, k) == Fold(e, ms, labels, k, At(s.objs, k))
    {
      AppliedSurvives(e, x, ms, labels, k);
      assert !ClusterScoped(k);
    }
  }

  // A ready space after its first Ready round.
  ghost predicate Settled(e: Env, s: State, rr: set<string>) {
    Good(e, s, rr) && ReadyNow(e, s) && Rested(s.objs) && Recorded(e, s.objs, s.saved)
  }

  // The rounds after it only apply the role objects again.
  lemma SettledRound(e: Env, s: State, rr: set<string>)
    requires NoFaults(e) && Settled(e, s, rr)
    ensures var s' := DR.Round(e, s);
      && Settled(e, s', rr) && s'.saved == s.saved && Upkeep(e, s'.objs, s'.saved) == Upkeep(e, s.objs, s.saved)
      && s'.objs == StampAll(e, s.objs, Upkeep(e, s.objs, s.saved), InnerLabels(s.saved.name))
  {
    var x := ReadyReconcile(e, s);
    var ms, labels := Upkeep(e, s.objs, s.saved), InnerLabels(s.saved.name);
    UpkeepLocal(e, s.objs, s.saved, rr);
    StampAllRests(e, s.objs, ms, labels);
    RestedStays(StampAll(e, s.objs, ms, labels));
    ReadyNext(e, s, DR.Round(e, s), rr);
    ReadyRound(e, s, rr);
  }

  ghost predicate Present(e: Env, objs: Objects, ms: seq<Manifest>) {
    forall k :: k in AvailableKeys(e, ms) ==> k in objs
  }

  lemma FoldElsewhere(e: Env, ms: seq<Manifest>, labels: Labels, k: Key, o: Option<Object>)
    requires k !in AvailableKeys(e, ms)
    ensures Fold(e, ms, labels, k, o) == o
    decreases |ms|
  {
    if ms != [] {
      assert ms[0] in ms;
      FoldElsewhere(e, ms[1..], labels, k, o);
    }
  }

  lemma AppliedTwice(e: Env, objs: Objects, ms: seq<Manifest>, labels: Labels)
    requires Present(e, objs, ms)
    ensures var r := StampAll(e, objs, ms, labels); StampAll(e, r, ms, labels) == r && Present(e, r, ms)
  {
    var r := StampAll(e, objs, ms, labels);
    forall k ensures At(StampAll(e, r, ms, labels), k) == At(r, k) {
      StampAllIsFold(e, objs, ms, labels, k);
      StampAllIsFold(e, r, ms, labels, k);
      if k in AvailableKeys(e, ms) {
        FoldTwice(e, ms, labels, k, At(objs, k));
      } else {
        FoldElsewhere(e, ms, labels, k, At(r, k));
      }
    }
    SameAt(StampAll(e, r, ms, labels), r);
    forall k | k in AvailableKeys(e, ms) ensures k in r { StampAllKeeps(e, objs, ms, labels, k); }
  }

  // Objects that are missing before the first Ready round are created by it in their final form.
  ghost predicate CreatesFinal(e: Env, s: State) {
    forall m :: m in Upkeep(e, s.objs, s.saved) && Available(e, m) && m.key !in s.objs ==>
      Agrees(m, InnerLabels(s.saved.name))
  }

  lemma SecondRound(e: Env, s: State, rr: set<string>)
    requires NoFaults(e) && Good(e, s, rr) && ReadyNow(e, s)
    ensures var s1 := DR.Round(e, s); var s2 := DR.Round(e, s1); var ms := Upkeep(e, s.objs, s.saved);
      && Settled(e, s1, rr) && s2.saved == s1.saved && Present(e, s1.objs, ms) && Upkeep(e, s1.objs, s1.saved) == ms
      && s2.objs == StampAll(e, s1.objs, ms, InnerLabels(s.saved.name))
      && (CreatesFinal(e, s) ==> s2.objs == s1.objs)
  {
    var s1 := DR.Round(e, s);
    ReadyRound(e, s, rr);
    ReadyNext(e, s, s1, rr);
    SettledRound(e, s1, rr);
    if CreatesFinal(e, s) { SecondRoundSame(e, s, s1, Upkeep(e, s.objs, s.saved), InnerLabels(s.saved.name)); }
  }

  lemma SecondRoundSame(e: Env, s: State, s1: State, ms: seq<Manifest>, labels: Labels)
    requires forall m :: m in ms && Available(e, m) && m.key !in s.objs ==> Agrees(m, labels)
    requires forall k :: k in AvailableKeys(e, ms) ==> At(s1.objs, k) == Fold(e, ms, labels, k, At(s.objs, k))
    ensures StampAll(e, s1.objs, ms, labels) == s1.objs
  {
    var r := StampAll(e, s1.objs, ms, labels);
    forall k ensures At(r, k) == At(s1.objs, k) {
      StampAllIsFold(e, s1.objs, ms, labels, k);
      if k in AvailableKeys(e, ms) {
        FoldTwice(e, ms, labels, k, At(s.objs, k));
      } else {
        FoldElsewhere(e, ms, labels, k, At(s1.objs, k));
      }
    }
    SameAt(r, s1.objs);
  }

  // With one manifest per object the second Ready round changes something exactly if the first one creates an
  // account whose labels the template and the operator dispute.
  lemma SecondRoundIff(e: Env, s: State, rr: set<string>)
    requires NoFaults(e) && Good(e, s, rr) && ReadyNow(e, s) && DistinctKeys(Upkeep(e, s.objs, s.saved))
    ensures var s1 := DR.Round(e, s); DR.Round(e, s1).objs == s1.objs <==> CreatesFinal(e, s)
  {
    SecondRound(e, s, rr);
    ReadyRound(e, s, rr);
    var s1, ms, labels := DR.Round(e, s), Upkeep(e, s.objs, s.saved), InnerLabels(s.saved.name);
    if !CreatesFinal(e, s) {
      var m :| m in ms && Available(e, m) && m.key !in s.objs && !Agrees(m, labels);
      DisputedChanges(e, s.objs, s1.objs, ms, labels, m);
    }
  }

  lemma DisputedChanges(e: Env, objs: Objects, objs1: Objects, ms: seq<Manifest>, labels: Labels, m: Manifest)
    requires DistinctKeys(ms) && m in ms && Available(e, m) && m.key !in objs && !Agrees(m, labels)
    requires At(objs1, m.key) == Fold(e, ms, labels, m.key, At(objs, m.key))
    ensures At(StampAll(e, objs1, ms, labels), m.key) != At(objs1, m.key)
  {
    var i :| 0 <= i < |ms| && ms[i] == m;
    StampAllAt(e, objs, ms, labels, i);
    StampAllIsFold(e, objs, ms, labels, m.key);
    StampAllAt(e, objs1, ms, labels, i);
    AppliedAgainIff(e, m, labels);
  }

  // Every state from the one after the first Ready round on.
  lemma {:induction false} SettledFrom(e: Env, h: seq<State>, i: nat, rr: set<string>)
    requires NoFaults(e) && History(e, h) && 0 < i < |h| && Good(e, h[0], rr) && ReadyNow(e, h[0])
    ensures var ms := Upkeep(e, h[0].objs, h[0].saved);
      && Settled(e, h[i], rr) && Upkeep(e, h[i].objs, h[i].saved) == ms && Present(e, h[i].objs, ms)
      && h[i].saved.name == h[0].saved.name
      && (i > 1 ==>
          h[i].objs == StampAll(e, h[i - 1].objs, ms, InnerLabels(h[0].saved.name)) && Present(e, h[i - 1].objs, ms))
    decreases i
  {
    var ms, labels := Upkeep(e, h[0].objs, h[0].saved), InnerLabels(h[0].saved.name);
    if i == 1 {
      assert Follows(e, h[0], h[0 + 1]);
      SecondRound(e, h[0], rr);
      ReadyRound(e, h[0], rr);
    } else {
      SettledFrom(e, h, i - 1, rr);
      assert Follows(e, h[i - 1], h[i - 1 + 1]);
      SettledRound(e, h[i - 1], rr);
      AppliedTwice(e, h[i - 1].objs, ms, labels);
    }
  }

  // From the first Ready round on the condition is Provisioned and the NSTemplateSet does not change any more;
  // nor does the store from the second one on, or the third if the first one creates disputed accounts.
  lemma ReadyIsFixpoint(e: Env, h: seq<State>, i: nat, rr: set<string>)
    requires NoFaults(e) && History(e, h) && 0 < i && i + 1 < |h| && Good(e, h[0], rr) && ReadyNow(e, h[0])
    ensures h[i].saved.status.ready == Some(Provisioned) && h[i + 1].saved == h[i].saved
    ensures i > 1 || CreatesFinal(e, h[0]) ==> h[i + 1].objs == h[i].objs
  {
    var ms, labels := Upkeep(e, h[0].objs, h[0].saved), InnerLabels(h[0].saved.name);
    SettledFrom(e, h, i, rr);
    assert Follows(e, h[i], h[i + 1]);
    SettledRound(e, h[i], rr);
    if i > 1 {
      AppliedTwice(e, h[i - 1].objs, ms, labels);
    } else {
      assert Follows(e, h[0], h[0 + 1]);
      SecondRound(e, h[0], rr);
    }
  }
}
