// Any number of failed passes followed by one that gets through equals one clean pass.
module ClusterRecovery {
  import opened Names
  import opened Cluster
  import opened Applying
  import opened Statuses
  import opened ClusterResources
  import opened Passes
  import opened ClusterPasses

  // The manifest that determines a key, if any.
  function Writer(e: Env, ms: seq<Manifest>, k: Key): (w: Option<Manifest>)
    ensures w.Some? ==> w.value in ms && w.value.key == k && Available(e, w.value)
    ensures w.None? ==> forall m :: m in ms && Available(e, m) ==> m.key != k
  {
    if ms == [] then None
    else if Available(e, ms[0]) && ms[0].key == k then Some(ms[0]) else Writer(e, ms[1..], k)
  }

  // What a whole pass makes of the object at a key.
  function Final(e: Env, news: seq<Manifest>, rest: seq<Manifest>, labels: Labels, k: Key,
                 o: Option<Object>): Option<Object> {
    var w := Writer(e, news, k);
    if w.Some? then Some(Stamped(e, w.value, labels, o))
    else if k in Keys(rest) then Remains(k, o)
    else o
  }

  ghost predicate AgreeingAccounts(ms: seq<Manifest>, labels: Labels) {
    forall m, l :: m in ms && m.key.gvk.kind.ServiceAccount? && l in m.labels && l in labels ==>
      m.labels[l] == labels[l]
  }

  // One manifest per key, none of them also on the deletion list.
  ghost predicate Separate(news: seq<Manifest>, rest: seq<Manifest>) {
    DistinctKeys(news) && Keys(news) !! Keys(rest)
  }

  lemma {:induction false} StampAllPrefixAt(e: Env, objs: Objects, ms: seq<Manifest>, labels: Labels, i: nat, k: Key)
    requires i <= |ms| && DistinctKeys(ms)
    ensures var w := Writer(e, ms, k); var r := At(StampAll(e, objs, ms[..i], labels), k); var o := At(objs, k);
      if w.None? then r == o
      else
        var last := Some(Stamped(e, w.value, labels, o));
        (r == o || r == last) && (i == |ms| ==> r == last)
  {
    var w := Writer(e, ms, k);
    if j :| 0 <= j < i && ms[j].key == k && Available(e, ms[j]) {
      assert w.value == ms[j];
      StampAllAt(e, objs, ms[..i], labels, j);
    } else {
      StampAllElsewhere(e, objs, ms[..i], labels, k);
      assert i == |ms| ==> w.None?;
    }
  }

  // Pointwise, a cut pass has done all of its work on a key or none of it.
  lemma CutPassAt(e: Env, objs: Objects, news: seq<Manifest>, rest: seq<Manifest>, labels: Labels, c: Cut, k: Key)
    requires Separate(news, rest) && c.applied <= |news| && c.deleted <= |rest|
    ensures var r := At(CutPass(e, objs, news, rest, labels, c), k); var o := At(objs, k);
      var f := Final(e, news, rest, labels, k, o);
      (r == o || r == f) && (c == Cut(|news|, |rest|) ==> r == f)
  {
    var mid := StampAll(e, objs, news[..c.applied], labels);
    StampAllPrefixAt(e, objs, news, labels, c.applied, k);
    SweepAt(mid, rest[..c.deleted], k);
    assert rest[..|rest|] == rest;
    assert Keys(rest[..c.deleted]) <= Keys(rest);
    if Writer(e, news, k).Some? {
      assert k in Keys(news);
    }
  }

  lemma FinalIdempotent(e: Env, news: seq<Manifest>, rest: seq<Manifest>, labels: Labels, k: Key, o: Option<Object>)
    requires AgreeingAccounts(news, labels)
    ensures Final(e, news, rest, labels, k, Final(e, news, rest, labels, k, o)) == Final(e, news, rest, labels, k, o)
  {
    var w := Writer(e, news, k);
    if w.Some? {
      StampedIdempotent(e, w.value, labels, o);
    }
  }

  lemma StampedIdempotent(e: Env, m: Manifest, labels: Labels, o: Option<Object>)
    requires m.key.gvk.kind.ServiceAccount? ==> forall l :: l in m.labels && l in labels ==> m.labels[l] == labels[l]
    ensures Stamped(e, m, labels, Some(Stamped(e, m, labels, o))) == Stamped(e, m, labels, o)
  {
    var x := Stamped(e, m, labels, o);
    var y := Stamped(e, m, labels, Some(x));
    if m.key.gvk.kind.ServiceAccount? {
      assert y.labels == x.labels;
    }
    assert y.notes == x.notes;
  }

  // A clean pass absorbs any cut pass before it.
  lemma CleanAfterCut(e: Env, e': Env, objs: Objects, news: seq<Manifest>, rest: seq<Manifest>, labels: Labels, c: Cut)
    requires Separate(news, rest) && AgreeingAccounts(news, labels) && SameCluster(e, e')
    requires c.applied <= |news| && c.deleted <= |rest|
    ensures CleanPass(e, CutPass(e', objs, news, rest, labels, c), news, rest, labels)
      == CleanPass(e, objs, news, rest, labels)
  {
    var cut := CutPass(e', objs, news, rest, labels, c);
    var whole := Cut(|news|, |rest|);
    assert news[..|news|] == news && rest[..|rest|] == rest;
    var a, b := CleanPass(e, cut, news, rest, labels), CleanPass(e, objs, news, rest, labels);
    forall k ensures At(a, k) == At(b, k) {
      CutPassAt(e', objs, news, rest, labels, c, k);
      FinalSame(e, e', news, rest, labels, k, At(objs, k));
      CutPassAt(e, cut, news, rest, labels, whole, k);
      CutPassAt(e, objs, news, rest, labels, whole, k);
      FinalIdempotent(e, news, rest, labels, k, At(objs, k));
    }
    SameAt(a, b);
  }

  lemma SameAt(a: Objects, b: Objects)
    requires forall k :: At(a, k) == At(b, k)
    ensures a == b
  {
    forall k ensures k in a <==> k in b { assert At(a, k) == At(b, k); }
    forall k | k in a ensures a[k] == b[k] { assert At(a, k) == At(b, k); }
  }

  // Two attempts meet the same host, API groups and library, with other failures.
  ghost predicate SameCluster(e: Env, e': Env) {
    e.tiers == e'.tiers && e.groups == e'.groups && e.keepNotes == e'.keepNotes
  }

  lemma {:induction false} WriterSame(e: Env, e': Env, ms: seq<Manifest>, k: Key)
    requires SameCluster(e, e')
    ensures Writer(e, ms, k) == Writer(e', ms, k)
  {
    if ms != [] { WriterSame(e, e', ms[1..], k); }
  }

  lemma FinalSame(e: Env, e': Env, news: seq<Manifest>, rest: seq<Manifest>, labels: Labels, k: Key, o: Option<Object>)
    requires SameCluster(e, e')
    ensures Final(e, news, rest, labels, k, o) == Final(e', news, rest, labels, k, o)
  {
    WriterSame(e, e', news, k);
  }

  // ---- Runs of attempts ----

  // The next reconcile starts from the NSTemplateSet as saved.
  function Refetched(s: State): State { s.(cur := s.saved, calls := 0) }

  function Attempts(es: seq<Env>, s: State): State {
    if es == [] then s else Attempts(es[1..], Ensure(es[0], Refetched(s)).0)
  }

  // The requirements on the templates: in the new one no key twice, in the old one no kind and name twice.
  ghost predicate Recoverable(e: Env, t: NSTemplateSet) {
    && ClusterChanged(t)
    && DistinctKeys(NewOf(e, t))
    && (RefManifests(e, t.name, t.status.cluster).Some? ==>
        DistinctIds(RefManifests(e, t.name, t.status.cluster).value))
    && AgreeingAccounts(NewOf(e, t), RefLabels(e, t.name, t.cluster))
  }

  lemma RecoverableSeparate(e: Env, t: NSTemplateSet)
    requires Recoverable(e, t)
    ensures Separate(NewOf(e, t), RestOf(e, t))
  {
    if RefManifests(e, t.name, t.status.cluster).Some? {
      var current := RefManifests(e, t.name, t.status.cluster).value;
      forall c | c in RestOf(e, t) ensures c.key !in Keys(NewOf(e, t)) {
        RestIsUnmatched(current, NewOf(e, t), c);
        assert forall n :: n in NewOf(e, t) && n.key == c.key ==> SameGvkAndName(c, n);
      }
    }
  }

  lemma ListsSame(e: Env, e': Env, t: NSTemplateSet, t': NSTemplateSet)
    requires SameCluster(e, e') && Core(t) == Core(t')
    ensures NewOf(e, t) == NewOf(e', t') && RestOf(e, t) == RestOf(e', t')
    ensures RefLabels(e, t.name, t.cluster) == RefLabels(e', t'.name, t'.cluster)
    ensures ClusterChanged(t) == ClusterChanged(t')
    ensures RefManifests(e, t.name, t.status.cluster) == RefManifests(e', t'.name, t'.status.cluster)
  {
    if RefManifests(e, t.name, t.cluster).Some? {
      EnabledSame(RefManifests(e, t.name, t.cluster).value, t, t');
    }
    assert CleanFeatures(t) == CleanFeatures(t');
  }

  // Crash recovery: whatever the attempts before it managed to do, the attempt that succeeds leaves the
  // very objects that one undisturbed pass would have left.
  lemma {:induction false} CrashRecovery(e: Env, es: seq<Env>, s: State)
    requires Core(s.saved) == Core(s.cur) && Recoverable(e, s.saved)
    requires forall x :: x in es ==> SameCluster(e, x)
    requires Ensure(e, Refetched(Attempts(es, s))).1
    ensures Ensure(e, Refetched(Attempts(es, s))).0.objs
         == CleanPass(e, s.objs, NewOf(e, s.saved), RestOf(e, s.saved), RefLabels(e, s.saved.name, s.saved.cluster))
  {
    var t := s.saved;
    if es == [] {
      var c := EnsureCut(e, Refetched(s));
      assert NewOf(e, t)[..|NewOf(e, t)|] == NewOf(e, t) && RestOf(e, t)[..|RestOf(e, t)|] == RestOf(e, t);
    } else {
      var s1 := Ensure(es[0], Refetched(s)).0;
      ListsSame(e, es[0], t, t);
      var c := EnsureCut(es[0], Refetched(s));
      ListsSame(e, e, t, s1.saved);
      CrashRecovery(e, es[1..], s1);
      RecoverableSeparate(e, t);
      CleanAfterCut(e, es[0], s.objs, NewOf(e, t), RestOf(e, t), RefLabels(e, t.name, t.cluster), c);
    }
  }

  // ---- The store after a pass as a set expression ----

  predicate Live(objs: Objects, k: Key) { k in objs && !objs[k].terminating }

  function AvailableKeys(e: Env, ms: seq<Manifest>): set<Key> { set m | m in ms && Available(e, m) :: m.key }

  ghost predicate Obsolete(current: seq<Manifest>, news: seq<Manifest>, k: Key) {
    exists c :: c in current && c.key == k && !Matches(c, news)
  }

  lemma RestIsObsolete(current: seq<Manifest>, news: seq<Manifest>, k: Key)
    requires DistinctIds(current)
    ensures k in Keys(DropAll(current, news)) <==> Obsolete(current, news, k)
    ensures Keys(news) !! Keys(DropAll(current, news))
  {
    var rest := DropAll(current, news);
    forall c ensures c in rest <==> c in current && !Matches(c, news) { RestIsUnmatched(current, news, c); }
    assert forall c, n :: c in rest && n in news && n.key == c.key ==> SameGvkAndName(c, n);
  }

  // (S + enabled(new)) - (current - enabled(new)), for live objects.
  lemma PassSetExpression(e: Env, objs: Objects, current: seq<Manifest>, news: seq<Manifest>, labels: Labels, k: Key)
    requires DistinctKeys(news) && DistinctIds(current)
    requires k in objs ==> !objs[k].terminating
    ensures Live(CleanPass(e, objs, news, DropAll(current, news), labels), k)
      <==> (k in objs || k in AvailableKeys(e, news)) && !Obsolete(current, news, k)
  {
    var rest := DropAll(current, news);
    RestIsObsolete(current, news, k);
    assert news[..|news|] == news && rest[..|rest|] == rest;
    CutPassAt(e, objs, news, rest, labels, Cut(|news|, |rest|), k);
  }

  lemma {:induction false} StampAllLive(e: Env, objs: Objects, ms: seq<Manifest>, labels: Labels, k: Key)
    requires Live(objs, k) || (k !in objs && exists m :: m in ms && Available(e, m) && m.key == k)
    ensures Live(StampAll(e, objs, ms, labels), k)
    decreases |ms|
  {
    if ms != [] {
      StampAllLive(e, if Available(e, ms[0]) then StampIn(e, objs, ms[0], labels) else objs, ms[1..], labels, k);
    }
  }

  lemma MatchIsKey(rest: seq<Manifest>, n: Manifest)
    requires forall m :: m in rest ==> m.key.ns == n.key.ns
    ensures Matches(n, rest) <==> n.key in Keys(rest)
  {
    if r :| r in rest && SameGvkAndName(n, r) { assert r.key == n.key; }
    if n.key in Keys(rest) {
      var r :| r in rest && r.key == n.key;
      assert SameGvkAndName(n, r);
    }
  }

  // Without the condition on the old template the pass can delete what it has just applied: a new object
  // is alive afterwards exactly when the old template does not name it more often than the new one.
  lemma SurvivesIff(e: Env, objs: Objects, current: seq<Manifest>, news: seq<Manifest>, labels: Labels, n: Manifest)
    requires n in news && Available(e, n) && (n.key in objs ==> !objs[n.key].terminating)
    requires forall m :: m in current ==> m.key.ns == n.key.ns
    ensures Live(CleanPass(e, objs, news, DropAll(current, news), labels), n.key)
      <==> Ids(current)[IdOf(n)] <= Ids(news)[IdOf(n)]
  {
    var rest := DropAll(current, news);
    StampAllLive(e, objs, news, labels, n.key);
    SweepAt(StampAll(e, objs, news, labels), rest, n.key);
    LeftoverIff(current, news, n);
    DropAllIds(current, news);
    MatchIsKey(rest, n);
  }

  // The smallest such template: one object listed twice, then once.
  lemma ListedTwiceIsDeleted(e: Env, objs: Objects, labels: Labels, m: Manifest)
    requires Available(e, m) && (m.key in objs ==> !objs[m.key].terminating)
    ensures !Live(CleanPass(e, objs, [m], DropAll([m, m], [m]), labels), m.key)
  {
    SurvivesIff(e, objs, [m, m], [m], labels, m);
    assert Ids([m]) == multiset{IdOf(m)} + Ids([m][1..]);
    assert Ids([m, m]) == multiset{IdOf(m)} + Ids([m, m][1..]);
    assert [m, m][1..] == [m];
  }
}
