// Deleting an NSTemplateSet, over whole runs.
module DeletionRuns {
  import opened Names
  import opened Cluster
  import opened Statuses
  import opened ClusterPasses
  import opened ClusterRecovery
  import opened NamespacePasses
  import opened DeletionPasses
  import opened CommitMarker
  import opened ClusterRuns
  import opened Reconciler
  import CR = ClusterResources
  import NS = Namespaces

  // ---- The finalizer goes last ----

  // `ms`: the objects of the template that was recorded when the deletion began.
  ghost predicate Inv(e: Env, s: State, c0: Option<string>, ms: seq<Manifest>) {
    && s.saved.deleting && RefManifests(e, s.saved.name, c0) == Some(ms)
    && (s.saved.status.cluster == c0 || (s.saved.status.cluster == None && AllGone(s.objs, ms)))
    && (!s.saved.finalizer ==> AllGone(s.objs, ms) && !HasOwned(s.objs, s.saved.name))
  }

  predicate HasOwned(objs: Objects, space: string) { Owned(objs, space) != [] }

  // Others bring nothing back: neither a recorded object nor a namespace of the space.
  ghost predicate NothingRevived(s: State, ev: Event, ms: seq<Manifest>) {
    match ev
    case Pass(_) => true
    case Outside(objs) =>
      && (forall m :: m in ms && !Live(s.objs, m.key) ==> !Live(objs, m.key))
      && (forall x :: Owns(objs, s.saved.name, x) ==> Owns(s.objs, s.saved.name, x))
    case _ => false
  }

  ghost predicate Dying(e: Env, s: State, evs: seq<Event>, ms: seq<Manifest>)
    decreases |evs|
  {
    evs == [] || (NothingRevived(s, evs[0], ms) && Dying(e, Next(e, s, evs[0]), evs[1..], ms))
  }

  lemma OwnedEmpty(objs: Objects, space: string)
    ensures Owned(objs, space) == [] <==> OwnedNames(objs, space) == {}
    ensures Owned(objs, space) == [] <==> forall x :: !Owns(objs, space, x)
  {
    assert |Owned(objs, space)| == |OwnedNames(objs, space)|;
    if x :| Owns(objs, space, x) { assert x in OwnedNames(objs, space); }
  }

  lemma FirstOwned(objs: Objects, space: string)
    requires Owned(objs, space) != []
    ensures var n := Owned(objs, space)[0]; IsLeast(n.name, OwnedNames(objs, space)) && IsOwned(objs, space, n)
  {
    var names := SortedNames(OwnedNames(objs, space));
    assert names[0] == Owned(objs, space)[0].name;
    forall x | x in OwnedNames(objs, space) ensures Leq(names[0], x) {
      var i :| 0 <= i < |names| && names[i] == x;
      if i == 0 { LeqReflexive(x); }
    }
  }

  lemma FirstIsMarked(objs: Objects, space: string, k: Key)
    ensures var o := At(objs, k);
      At(MarkFirst(objs, space), k) == o
      || (At(MarkFirst(objs, space), k) == Remains(k, o) && k == NsKey(k.name) && Owns(objs, space, k.name)
          && IsLeast(k.name, OwnedNames(objs, space)))
  {
    if Owned(objs, space) != [] { FirstOwned(objs, space); }
  }

  lemma MarkFirstOwns(objs: Objects, space: string, x: string)
    ensures Owns(MarkFirst(objs, space), space, x) <==> Owns(objs, space, x)
  {
    FirstIsMarked(objs, space, NsKey(x));
  }

  // What is gone stays gone in a deletion pass.
  lemma PassLeavesGone(s: State, mid: Objects, objs: Objects, keys: set<Key>, space: string, ms: seq<Manifest>)
    requires OnlyDeleted(s.objs, mid, keys) && (objs == mid || objs == MarkFirst(mid, space))
    ensures AllGone(s.objs, ms) || AllGone(mid, ms) ==> AllGone(objs, ms)
  {
    forall m | m in ms && (!Live(s.objs, m.key) || !Live(mid, m.key)) ensures !Live(objs, m.key) {
      if !Live(s.objs, m.key) { StaysDead(s.objs, mid, keys, m.key); }
      FirstIsMarked(mid, space, m.key);
    }
  }

  lemma PassInv(e: Env, s: State, c0: Option<string>, ms: seq<Manifest>)
    requires Inv(e, s, c0, ms)
    ensures Inv(e, Reconcile(e, s).0, c0, ms)
  {
    var (s0, ok) := Read(e, Fetched(s));
    if ok && s0.cur.finalizer {
      var mid := TearEffect(e, s0);
      var s' := Tear(e, s0).0;
      PassLeavesGone(s, mid, s'.objs, Keys(Recorded(e, s.saved)), s.saved.name, ms);
      OwnedEmpty(mid, s.saved.name);
      OwnedEmpty(s'.objs, s.saved.name);
    }
  }

  // In every run, failures included: once the finalizer is off, no namespace of the space is left, and every
  // object of the template recorded at the start is gone or marked.
  lemma {:induction false} FinalizerGoesLast(e: Env, s: State, evs: seq<Event>, c0: Option<string>, ms: seq<Manifest>)
    requires Inv(e, s, c0, ms) && Dying(e, s, evs, ms)
    ensures Inv(e, Run(e, s, evs), c0, ms)
    ensures !Run(e, s, evs).saved.finalizer ==>
      AllGone(Run(e, s, evs).objs, ms) && Owned(Run(e, s, evs).objs, Run(e, s, evs).saved.name) == []
    decreases |evs|
  {
    if evs != [] {
      var s1 := Next(e, s, evs[0]);
      if evs[0].Pass? {
        var e' := e.(fate := evs[0].fate);
        assert RefManifests(e', s.saved.name, c0) == Some(ms);
        PassInv(e', s, c0, ms);
      } else {
        OwnedEmpty(s.objs, s.saved.name);
        OwnedEmpty(s1.objs, s.saved.name);
      }
      FinalizerGoesLast(e, s1, evs[1..], c0, ms);
    }
  }

  // ---- One namespace at a time, in name order ----

  // Only the alphabetically first namespace of the space may be terminating.
  ghost predicate OneAtATime(objs: Objects, space: string) {
    forall x :: Owns(objs, space, x) && objs[NsKey(x)].terminating ==> IsLeast(x, OwnedNames(objs, space))
  }

  // Others may finish deletions but start none.
  ghost predicate NoneMarked(s: State, ev: Event) {
    match ev
    case Pass(_) => true
    case Outside(objs) => forall x :: Owns(objs, s.saved.name, x) ==>
      Owns(s.objs, s.saved.name, x) && (objs[NsKey(x)].terminating ==> s.objs[NsKey(x)].terminating)
    case _ => false
  }

  ghost predicate Orderly(e: Env, s: State, evs: seq<Event>)
    decreases |evs|
  {
    evs == [] || (NoneMarked(s, evs[0]) && Orderly(e, Next(e, s, evs[0]), evs[1..]))
  }

  lemma MarkFirstOrderly(objs: Objects, space: string)
    requires OneAtATime(objs, space)
    ensures OneAtATime(MarkFirst(objs, space), space)
  {
    var objs' := MarkFirst(objs, space);
    forall x ensures Owns(objs', space, x) <==> Owns(objs, space, x) { MarkFirstOwns(objs, space, x); }
    assert OwnedNames(objs', space) == OwnedNames(objs, space);
    forall x | Owns(objs', space, x) && objs'[NsKey(x)].terminating ensures IsLeast(x, OwnedNames(objs', space)) {
      FirstIsMarked(objs, space, NsKey(x));
    }
  }

  lemma PassOrderly(e: Env, s: State)
    requires s.saved.deleting && OneAtATime(s.objs, s.saved.name)
    requires ClusterShaped(e, s.saved.name, s.saved.status.cluster)
    ensures OneAtATime(Reconcile(e, s).0.objs, s.saved.name)
  {
    var (s0, ok) := Read(e, Fetched(s));
    if ok && s0.cur.finalizer {
      var mid := TearEffect(e, s0);
      var space := s.saved.name;
      forall x ensures At(mid, NsKey(x)) == At(s.objs, NsKey(x)) {
        assert NsKey(x) !in Keys(Recorded(e, s.saved));
      }
      UntouchedOrderly(s.objs, mid, space);
      MarkFirstOrderly(mid, space);
    }
  }

  lemma UntouchedOrderly(objs: Objects, mid: Objects, space: string)
    requires OneAtATime(objs, space) && forall x :: At(mid, NsKey(x)) == At(objs, NsKey(x))
    ensures OneAtATime(mid, space)
  {
    forall x ensures Owns(mid, space, x) <==> Owns(objs, space, x) { assert At(mid, NsKey(x)) == At(objs, NsKey(x)); }
    assert OwnedNames(mid, space) == OwnedNames(objs, space);
    forall x | Owns(mid, space, x) && mid[NsKey(x)].terminating ensures IsLeast(x, OwnedNames(mid, space)) {
      assert At(mid, NsKey(x)) == At(objs, NsKey(x));
    }
  }

  lemma OutsideOrderly(s: State, objs: Objects)
    requires OneAtATime(s.objs, s.saved.name) && NoneMarked(s, Outside(objs))
    ensures OneAtATime(objs, s.saved.name)
  {
    forall x | Owns(objs, s.saved.name, x) && objs[NsKey(x)].terminating
      ensures IsLeast(x, OwnedNames(objs, s.saved.name))
    {
      assert IsLeast(x, OwnedNames(s.objs, s.saved.name));
    }
  }

  // In every run of the deletion: if the space starts with at most its first namespace terminating, then at
  // any time no other namespace of the space is terminating than the first one left.
  lemma {:induction false} NamespacesGoOneByOne(e: Env, s: State, evs: seq<Event>)
    requires s.saved.deleting && OneAtATime(s.objs, s.saved.name) && Orderly(e, s, evs)
    requires ClusterShaped(e, s.saved.name, s.saved.status.cluster)
    ensures OneAtATime(Run(e, s, evs).objs, s.saved.name)
    decreases |evs|
  {
    if evs != [] {
      var s1 := Next(e, s, evs[0]);
      match evs[0] {
        case Pass(fate) =>
          var e' := e.(fate := fate);
          PassOrderly(e', s);
          var (s0, ok) := Read(e', Fetched(s));
          if ok && s0.cur.finalizer { var mid := TearEffect(e', s0); }
          assert RefManifests(e, s.saved.name, None) == Some([]);
        case Outside(objs) =>
          OutsideOrderly(s, objs);
      }
      NamespacesGoOneByOne(e, s1, evs[1..]);
    }
  }

  // ---- It ends ----

  // An environment that completes deletions, with the content of the namespaces, and activates new namespaces.
  predicate Stays(objs: Objects, k: Key) {
    k in objs && !objs[k].terminating && !(k.ns != "" && NsKey(k.ns) in objs && objs[NsKey(k.ns)].terminating)
  }

  function Woken(k: Key, o: Object): Object { if k.gvk.kind.Namespace? then o.(active := true) else o }

  function Settle(objs: Objects): Objects { map k | k in objs && Stays(objs, k) :: Woken(k, objs[k]) }

  // A reconcile without failures, then the environment.
  function Round(e: Env, s: State): State { var s' := Reconcile(e, s).0; s'.(objs := Settle(s'.objs)) }

  function Rounds(e: Env, s: State, n: nat): State
    decreases n
  {
    if n == 0 then s else Rounds(e, Round(e, s), n - 1)
  }

  lemma {:induction false} DeleteAllWorks(e: Env, s: State, ms: seq<Manifest>)
    requires NoFaults(e)
    ensures CR.DeleteAll(e, s, ms).1
    decreases |ms|
  {
    if ms != [] {
      var s1 := Tick(s);
      DeleteAllWorks(e, s1, ms[1..]);
      DeleteAllWorks(e, Delete(e, s1, ms[0].key).0, ms[1..]);
    }
  }

  lemma DeleteResourcesWorks(e: Env, s: State)
    requires NoFaults(e) && RefManifests(e, s.cur.name, s.cur.status.cluster).Some?
    ensures CR.DeleteResources(e, s).1
  {
    if s.cur.status.cluster.Some? {
      var (s', ms) := CR.ProcessRef(e, s, s.cur.status.cluster);
      DeleteAllWorks(e, s', ms.value.1);
    }
  }

  lemma EnsureDeletedWorks(e: Env, s: State)
    requires NoFaults(e)
    ensures NS.EnsureDeleted(e, s).1.Some?
  {
    if Owned(s.objs, s.cur.name) != [] { FirstOwned(s.objs, s.cur.name); }
  }

  lemma TearWorks(e: Env, s: State)
    requires NoFaults(e) && s.saved == s.cur && s.saved.finalizer
    requires RefManifests(e, s.saved.name, s.saved.status.cluster).Some?
    ensures !Tear(e, s).1.Error?
  {
    var (s1, ok1) := SetReady(e, s, Terminating);
    DeleteResourcesWorks(e, s1);
    var (s2, ok2) := CR.DeleteResources(e, s1);
    var (s3, ok3) := ClearCluster(e, s2);
    EnsureDeletedWorks(e, s3);
  }

  // The first namespace of the space, marked, is gone when the environment has settled.
  lemma SettledShrinks(objs: Objects, mid: Objects, keys: set<Key>, space: string)
    requires OnlyDeleted(objs, mid, keys) && Owned(mid, space) != []
    ensures |OwnedNames(Settle(MarkFirst(mid, space)), space)| < |OwnedNames(objs, space)|
  {
    FirstOwned(mid, space);
    var first := Owned(mid, space)[0].name;
    var after := MarkFirst(mid, space);
    FirstIsMarked(mid, space, NsKey(first));
    assert after[NsKey(first)].terminating;
    forall x | Owns(Settle(after), space, x) || x == first ensures Owns(objs, space, x) {
      MarkFirstOwns(mid, space, x);
      DeletedOwns(objs, mid, keys, space, x);
    }
    SmallerSet(OwnedNames(Settle(after), space), OwnedNames(objs, space), first);
  }

  lemma DeletedOwns(objs: Objects, mid: Objects, keys: set<Key>, space: string, x: string)
    requires OnlyDeleted(objs, mid, keys)
    ensures Owns(mid, space, x) ==> Owns(objs, space, x)
  {
    var k := NsKey(x);
    assert At(mid, k) == At(objs, k) || At(mid, k) == Remains(k, At(objs, k));
  }

  lemma RoundShrinks(e: Env, s: State)
    requires NoFaults(e) && s.saved.deleting && s.saved.finalizer
    requires RefManifests(e, s.saved.name, s.saved.status.cluster).Some?
    ensures var s' := Round(e, s);
      && SameSpec(s.saved, s'.saved) && RefManifests(e, s.saved.name, s'.saved.status.cluster).Some?
      && (s'.saved.finalizer ==> |OwnedNames(s'.objs, s.saved.name)| < |OwnedNames(s.objs, s.saved.name)|)
  {
    var (s0, ok) := Read(e, Fetched(s));
    TearWorks(e, s0);
    var mid := TearEffect(e, s0);
    assert RefManifests(e, s.saved.name, None) == Some([]);
    if Tear(e, s0).1.Waiting? {
      SettledShrinks(s.objs, mid, Keys(Recorded(e, s.saved)), s.saved.name);
    }
  }

  lemma SmallerSet(a: set<string>, b: set<string>, x: string)
    requires a <= b && x in b && x !in a
    ensures |a| < |b|
  {
    var c := b - {x};
    assert a <= c;
    CardinalityMonotone(a, c);
  }

  lemma {:induction false} CardinalityMonotone(a: set<string>, b: set<string>)
    requires a <= b
    ensures |a| <= |b|
  {
    if a != {} {
      var x :| x in a;
      CardinalityMonotone(a - {x}, b - {x});
    }
  }

  lemma {:induction false} FinishedStays(e: Env, s: State, n: nat)
    requires s.saved.deleting && !s.saved.finalizer
    ensures !Rounds(e, s, n).saved.finalizer
    decreases n
  {
    if n > 0 { FinishedStays(e, Round(e, s), n - 1); }
  }

  // Without failures, and with deletions completed between reconciles, the finalizer is off after one round
  // more than there are namespaces.
  lemma {:induction false} DeletionEnds(e: Env, s: State, n: nat)
    requires NoFaults(e) && s.saved.deleting
    requires s.saved.finalizer ==>
      RefManifests(e, s.saved.name, s.saved.status.cluster).Some? && n > |OwnedNames(s.objs, s.saved.name)|
    ensures !Rounds(e, s, n).saved.finalizer
    decreases n
  {
    if !s.saved.finalizer {
      FinishedStays(e, s, n);
    } else {
      RoundShrinks(e, s);
      DeletionEnds(e, Round(e, s), n - 1);
    }
  }
}
