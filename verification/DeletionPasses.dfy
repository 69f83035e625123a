// What one reconcile of a deleted NSTemplateSet does, under any failures.
module DeletionPasses {
  import opened Names
  import opened Cluster
  import opened Statuses
  import opened ClusterPasses
  import opened ClusterRecovery
  import opened Reconciler
  import CR = ClusterResources
  import NS = Namespaces

  // `objs'` differs from `objs` only by deletions of the given keys.
  ghost predicate OnlyDeleted(objs: Objects, objs': Objects, keys: set<Key>) {
    forall k :: At(objs', k) == At(objs, k) || (k in keys && At(objs', k) == Remains(k, At(objs, k)))
  }

  lemma OnlyDeletedTransitive(a: Objects, b: Objects, c: Objects, keys: set<Key>)
    requires OnlyDeleted(a, b, keys) && OnlyDeleted(b, c, keys)
    ensures OnlyDeleted(a, c, keys)
  {
    forall k ensures At(c, k) == At(a, k) || (k in keys && At(c, k) == Remains(k, At(a, k))) {
      assert At(b, k) == At(a, k) || (k in keys && At(b, k) == Remains(k, At(a, k)));
      assert At(c, k) == At(b, k) || (k in keys && At(c, k) == Remains(k, At(b, k)));
    }
  }

  lemma DeleteOneEffect(e: Env, s: State, k: Key)
    requires Live(s.objs, k)
    ensures var (s1, r) := Delete(e, s, k);
      && OnlyDeleted(s.objs, s1.objs, {k}) && s1.cur == s.cur && s1.saved == s.saved
      && (!r.DeleteFailed? ==> !Live(s1.objs, k))
  {}

  lemma {:induction false} DeleteAllEffect(e: Env, s: State, ms: seq<Manifest>)
    requires Synced(s)
    ensures var r := CR.DeleteAll(e, s, ms);
      && Steady(s, r.0) && OnlyDeleted(s.objs, r.0.objs, Keys(ms))
      && (r.1 ==> forall m :: m in ms ==> !Live(r.0.objs, m.key))
    decreases |ms|
  {
    if ms != [] {
      var k := ms[0].key;
      assert Keys(ms) == {k} + Keys(ms[1..]);
      var (s1, ok) := Read(e, s);
      SetFailedSteady(e, s1, TerminatingFailed);
      if ok {
        if !Live(s1.objs, k) {
          DeleteAllEffect(e, s1, ms[1..]);
          StaysDead(s1.objs, CR.DeleteAll(e, s1, ms[1..]).0.objs, Keys(ms), k);
        } else {
          DeleteOneEffect(e, s1, k);
          var (s2, r) := Delete(e, s1, k);
          SetFailedSteady(e, s2, TerminatingFailed);
          if !r.DeleteFailed? {
            DeleteAllEffect(e, s2, ms[1..]);
            OnlyDeletedTransitive(s.objs, s2.objs, CR.DeleteAll(e, s2, ms[1..]).0.objs, Keys(ms));
            StaysDead(s2.objs, CR.DeleteAll(e, s2, ms[1..]).0.objs, Keys(ms), k);
          }
        }
      }
    }
  }

  lemma StaysDead(objs: Objects, objs': Objects, keys: set<Key>, k: Key)
    requires OnlyDeleted(objs, objs', keys) && !Live(objs, k)
    ensures !Live(objs', k)
  {
    assert At(objs', k) == At(objs, k) || At(objs', k) == Remains(k, At(objs, k));
  }

  lemma DeleteResourcesEffect(e: Env, s: State)
    requires Synced(s)
    ensures var r := CR.DeleteResources(e, s); var ms := RefManifests(e, s.cur.name, s.cur.status.cluster);
      && Steady(s, r.0)
      && OnlyDeleted(s.objs, r.0.objs, if ms.Some? then Keys(ms.value) else {})
      && (r.1 ==> ms.Some? && forall m :: m in ms.value ==> !Live(r.0.objs, m.key))
  {
    if s.cur.status.cluster.Some? {
      ProcessRefSame(e, s, s.cur.status.cluster);
      var (s1, old_) := CR.ProcessRef(e, s, s.cur.status.cluster);
      if old_.Some? {
        DeleteAllEffect(e, s1, old_.value.1);
      } else {
        SetFailedSteady(e, s1, FailureReason(s1, UnableToProvisionClusterResources));
      }
    }
  }

  lemma FirstIsThere(objs: Objects, space: string)
    requires Owned(objs, space) != []
    ensures var n := Owned(objs, space)[0]; NsKey(n.name) in objs && objs[NsKey(n.name)] == n.obj
  {
    OwnedMembers(objs, space);
    assert Owned(objs, space)[0] in Owned(objs, space);
  }

  lemma DeleteFirstEffect(e: Env, s: State, nss: seq<Ns>)
    requires Synced(s) && (nss != [] ==> NsKey(nss[0].name) in s.objs && s.objs[NsKey(nss[0].name)] == nss[0].obj)
    ensures var r := NS.DeleteFirst(e, s, nss);
      && Steady(s, r.0)
      && (r.0.objs == s.objs
          || (nss != [] && !nss[0].obj.terminating
              && var k := NsKey(nss[0].name); r.0.objs == Put(s.objs, k, Remains(k, At(s.objs, k)))))
      && (r.1 == Some(true) ==> nss == [] && r.0.objs == s.objs)
      && (r.1 == Some(false) ==> nss != [] && (!nss[0].obj.terminating ==> r.0.objs != s.objs))
  {
    if nss != [] && !nss[0].obj.terminating {
      SetFailedSteady(e, Delete(e, s, NsKey(nss[0].name)).0, TerminatingFailed);
    }
  }

  lemma EnsureDeletedEffect(e: Env, s: State)
    requires Synced(s)
    ensures var r := NS.EnsureDeleted(e, s); var nss := Owned(s.objs, s.cur.name);
      && Steady(s, r.0)
      && (r.0.objs == s.objs
          || (nss != [] && !nss[0].obj.terminating
              && var k := NsKey(nss[0].name); r.0.objs == Put(s.objs, k, Remains(k, At(s.objs, k)))))
      && (r.1 == Some(true) ==> nss == [] && r.0.objs == s.objs)
      && (r.1 == Some(false) ==> nss != [] && (!nss[0].obj.terminating ==> r.0.objs != s.objs))
  {
    var (s1, ok) := Read(e, s);
    SetFailedSteady(e, s1, TerminatingFailed);
    var nss := Owned(s.objs, s.cur.name);
    if nss != [] { FirstIsThere(s.objs, s.cur.name); }
    DeleteFirstEffect(e, s1, nss);
  }

  // ---- The whole reconcile ----

  function Recorded(e: Env, t: NSTemplateSet): seq<Manifest> {
    var ms := RefManifests(e, t.name, t.status.cluster); if ms.Some? then ms.value else []
  }

  ghost predicate AllGone(objs: Objects, ms: seq<Manifest>) { forall m :: m in ms ==> !Live(objs, m.key) }

  function MarkFirst(objs: Objects, space: string): Objects { MarkFirstOf(objs, Owned(objs, space)) }

  function MarkFirstOf(objs: Objects, nss: seq<Ns>): Objects {
    if nss == [] || nss[0].obj.terminating then objs
    else Put(objs, NsKey(nss[0].name), Remains(NsKey(nss[0].name), At(objs, NsKey(nss[0].name))))
  }

  lemma MarkFirstOfAt(objs: Objects, nss: seq<Ns>, k: Key)
    requires nss != [] ==> NsKey(nss[0].name) in objs
    ensures var o := At(MarkFirstOf(objs, nss), k);
      o == At(objs, k) || (k.gvk.kind.Namespace? && o.Some? && o == Remains(k, At(objs, k)))
  {}

  lemma MarkFirstAt(objs: Objects, space: string, k: Key)
    ensures var o := At(MarkFirst(objs, space), k);
      o == At(objs, k) || (k.gvk.kind.Namespace? && o.Some? && o == Remains(k, At(objs, k)))
  {
    OwnedMembers(objs, space);
    var nss := Owned(objs, space);
    assert nss != [] ==> nss[0] in nss;
    MarkFirstOfAt(objs, nss, k);
  }

  // How a deletion pass may leave the NSTemplateSet: the reference of the cluster resources is dropped only
  // once they are gone, the finalizer only when no namespace is left either.
  ghost predicate Released(e: Env, t: NSTemplateSet, t': NSTemplateSet, mid: Objects) {
    && SameSpec(t, t')
    && (t'.status.cluster == t.status.cluster || (t'.status.cluster == None && AllGone(mid, Recorded(e, t))))
    && (!t'.finalizer ==> AllGone(mid, Recorded(e, t)) && Owned(mid, t.name) == [])
  }

  lemma ClearClusterEffect(e: Env, s: State)
    requires Synced(s)
    ensures var r := ClearCluster(e, s);
      && r.0.objs == s.objs && (Shining(r.0) ==> Shining(s))
      && SameSpec(s.saved, r.0.saved) && r.0.saved.finalizer == s.saved.finalizer
      && (r.0.saved.status.cluster == s.saved.status.cluster || r.0.saved.status.cluster == None)
      && (r.1 ==> Synced(r.0) && r.0.cur.name == s.cur.name)
  {
    assert Core(s.cur).status.cluster == Core(s.saved).status.cluster;
  }

  lemma FinishEffect(e: Env, s: State) returns (s': State, done: bool)
    requires Synced(s) && s.saved.finalizer
    ensures s' == (var (s5, ok5) := PutFinalizer(e, s, false); if ok5 then s5 else SetFailed(e, s5, TerminatingFailed))
    ensures done == PutFinalizer(e, s, false).1
    ensures s'.objs == s.objs && (Shining(s') ==> Shining(s))
    ensures SameSpec(s.saved, s'.saved)
    ensures s'.saved.status.cluster == s.saved.status.cluster && (done ==> !s'.saved.finalizer)
  {
    assert Core(s.cur).status.cluster == Core(s.saved).status.cluster;
    var (s5, ok5) := PutFinalizer(e, s, false);
    s', done := if ok5 then s5 else SetFailed(e, s5, TerminatingFailed), ok5;
  }

  // After the cluster resources are gone.
  lemma TearNamespaces(e: Env, s: State, t: NSTemplateSet) returns (s': State, r: Result)
    requires Synced(s) && s.saved.finalizer && SameSpec(t, s.saved)
    requires AllGone(s.objs, Recorded(e, t))
    requires s.saved.status.cluster == t.status.cluster || s.saved.status.cluster == None
    ensures (s', r) == (
      var (s4, all) := NS.EnsureDeleted(e, s);
      if all.None? then (SetFailed(e, s4, TerminatingFailed), Error)
      else if !all.value then (s4, Waiting)
      else
        var (s5, ok5) := PutFinalizer(e, s4, false);
        if ok5 then (s5, Finished) else (SetFailed(e, s5, TerminatingFailed), Error))
    ensures Released(e, t, s'.saved, s.objs) && (Shining(s') ==> Shining(s))
    ensures s'.objs == s.objs || s'.objs == MarkFirst(s.objs, t.name)
    ensures r.Finished? ==> !s'.saved.finalizer
    ensures r.Waiting? ==> Owned(s.objs, t.name) != [] && s'.objs == MarkFirst(s.objs, t.name)
  {
    assert Core(s.cur).name == Core(s.saved).name;
    EnsureDeletedEffect(e, s);
    var (s4, all) := NS.EnsureDeleted(e, s);
    assert Core(s4.saved).finalizer && Core(s4.saved).status.cluster == Core(s.saved).status.cluster;
    assert SameSpec(s.saved, Core(s4.saved));
    if all.None? {
      s', r := SetFailed(e, s4, TerminatingFailed), Error;
      SetFailedSteady(e, s4, TerminatingFailed);
      assert Core(s'.saved).finalizer && Core(s'.saved).status.cluster == Core(s.saved).status.cluster;
      assert SameSpec(s.saved, Core(s'.saved));
    } else if !all.value {
      s', r := s4, Waiting;
    } else {
      var done;
      s', done := FinishEffect(e, s4);
      r := if done then Finished else Error;
    }
  }

  // A deletion pass first deletes recorded cluster resources, leaving `mid`, then marks at most the first
  // owned namespace, and releases the NSTemplateSet only as far as that allows.
  lemma TearEffect(e: Env, s: State) returns (mid: Objects)
    requires s.saved == s.cur && s.saved.finalizer
    ensures var (s', r) := Tear(e, s);
      && OnlyDeleted(s.objs, mid, Keys(Recorded(e, s.saved)))
      && (s'.objs == mid || s'.objs == MarkFirst(mid, s.saved.name))
      && Released(e, s.saved, s'.saved, mid) && (Shining(s') ==> Shining(s))
      && (r.Finished? ==> !s'.saved.finalizer)
      && (r.Waiting? ==> Owned(mid, s.saved.name) != [] && s'.objs == MarkFirst(mid, s.saved.name))
  {
    mid := s.objs;
    var t := s.saved;
    var (s1, ok1) := SetReady(e, s, Terminating);
    SetFailedSteady(e, s1, TerminatingFailed);
    if ok1 {
      DeleteResourcesEffect(e, s1);
      var (s2, ok2) := CR.DeleteResources(e, s1);
      mid := s2.objs;
      assert Core(s2.saved).finalizer && Core(s2.saved).status.cluster == t.status.cluster;
      assert SameSpec(t, Core(s2.saved));
      if ok2 {
        ClearClusterEffect(e, s2);
        var (s3, ok3) := ClearCluster(e, s2);
        if ok3 {
          var s', r := TearNamespaces(e, s3, t);
        }
      }
    } else {
      var s' := SetFailed(e, s1, TerminatingFailed);
      assert Core(s'.saved).finalizer && Core(s'.saved).status.cluster == t.status.cluster;
    }
  }
}
