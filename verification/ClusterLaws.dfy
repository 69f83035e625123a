// What a successful pass over the cluster resources does to each object, told by templates and features alone.
module ClusterLaws {
  import opened Names
  import opened Cluster
  import opened Applying
  import opened Statuses
  import opened Passes
  import opened ClusterPasses
  import opened ClusterRecovery
  import opened Plain
  import CR = ClusterResources

  // The features annotation, as a set.
  function Features(t: NSTemplateSet): set<string> { if t.features.Some? then Elements(t.features.value) else {} }

  // Without a toggle, or with one that is among the features.
  predicate SwitchedOn(m: Manifest, t: NSTemplateSet) {
    FeatureToggle !in m.notes || (m.notes[FeatureToggle].Text? && m.notes[FeatureToggle].text in Features(t))
  }

  function NewObjects(e: Env, t: NSTemplateSet): seq<Manifest> { ByRef(e, t.cluster, Params(t.name, "", "")) }

  function OldObjects(e: Env, t: NSTemplateSet): seq<Manifest> { ByRef(e, t.status.cluster, Params(t.name, "", "")) }

  // The labels of a cluster-scoped object.
  function Marks(e: Env, t: NSTemplateSet): Labels {
    if t.cluster.None? || e.tiers(t.cluster.value).None? then map[]
    else map[Space := t.name, Type := "clusterresources", TemplateRef := t.cluster.value,
             TierName := e.tiers(t.cluster.value).value.tierName, Provider := "codeready-toolchain"]
  }

  function OrEmpty(ref: Option<string>): string { match ref case None => "" case Some(r) => r }

  // Something changed: the template, a missing one being the same as an empty one, or the features.
  predicate Due(t: NSTemplateSet) {
    || OrEmpty(t.cluster) != OrEmpty(t.status.cluster)
    || Features(t) != Elements(t.status.features)
  }

  predicate Replaced(m: Manifest, news: seq<Manifest>, t: NSTemplateSet) {
    exists n :: n in news && SwitchedOn(n, t) && SameId(m, n)
  }

  lemma DueIff(t: NSTemplateSet)
    ensures ClusterChanged(t) <==> Due(t)
  {
    FeatureDrift(t);
    assert Features(t) == Elements(FeatureList(t));
  }

  // ---- The two lists ----

  lemma {:induction false} OnceEachIds(ms: seq<Manifest>, id: Id)
    requires OnceEach(ms)
    ensures Ids(ms)[id] <= 1 && (Ids(ms)[id] == 1 ==> exists m :: m in ms && IdOf(m) == id)
  {
    if ms != [] {
      OnceEachIds(ms[1..], id);
      forall m | m in ms[1..] ensures IdOf(m) != IdOf(ms[0]) {
        var j :| 0 <= j < |ms| - 1 && ms[1..][j] == m;
        assert !SameId(ms[0], ms[j + 1]);
      }
      assert forall m :: m in ms[1..] ==> m in ms;
      assert ms[0] in ms;
    }
  }

  lemma OnceEachSame(ms: seq<Manifest>, a: Manifest, b: Manifest)
    requires OnceEach(ms) && a in ms && b in ms && SameId(a, b)
    ensures a == b
  {
    var i, j :| 0 <= i < |ms| && ms[i] == a && 0 <= j < |ms| && ms[j] == b;
    assert !(i < j) && !(j < i);
  }

  lemma OnceEachDistinct(ms: seq<Manifest>)
    requires OnceEach(ms)
    ensures DistinctIds(ms)
  {
    forall id ensures Ids(ms)[id] <= 1 { OnceEachIds(ms, id); }
  }

  lemma {:induction false} EnabledOnce(ms: seq<Manifest>, t: NSTemplateSet)
    requires OnceEach(ms)
    ensures DistinctKeys(CR.Enabled(ms, t))
  {
    if ms != [] {
      EnabledOnce(ms[1..], t);
      var rest := CR.Enabled(ms[1..], t);
      forall i | 0 <= i < |rest| ensures rest[i].key != ms[0].key {
        assert rest[i] in ms[1..];
        var j :| 0 <= j < |ms| - 1 && ms[1..][j] == rest[i];
        assert !SameId(ms[0], ms[j + 1]);
      }
    }
  }

  lemma EnabledIff(ms: seq<Manifest>, t: NSTemplateSet, m: Manifest)
    ensures m in CR.Enabled(ms, t) <==> m in ms && SwitchedOn(m, t)
  {}

  lemma ListsMean(e: Env, t: NSTemplateSet)
    requires RefManifests(e, t.name, t.cluster).Some? && RefManifests(e, t.name, t.status.cluster).Some?
    ensures NewOf(e, t) == CR.Enabled(NewObjects(e, t), t)
    ensures RestOf(e, t) == CR.DropAll(OldObjects(e, t), NewOf(e, t))
    ensures NewObjects(e, t) != [] ==> RefLabels(e, t.name, t.cluster) == Marks(e, t)
  {}

  lemma RestIff(e: Env, t: NSTemplateSet, m: Manifest)
    requires RefManifests(e, t.name, t.cluster).Some? && RefManifests(e, t.name, t.status.cluster).Some?
    requires OnceEach(OldObjects(e, t))
    ensures m in RestOf(e, t) <==> m in OldObjects(e, t) && !Replaced(m, NewObjects(e, t), t)
  {
    ListsMean(e, t);
    OnceEachDistinct(OldObjects(e, t));
    RestIsUnmatched(OldObjects(e, t), NewOf(e, t), m);
    if n :| n in NewOf(e, t) && SameGvkAndName(m, n) {
      EnabledIff(NewObjects(e, t), t, n);
      assert SameId(m, n);
    }
    if n :| n in NewObjects(e, t) && SwitchedOn(n, t) && SameId(m, n) {
      EnabledIff(NewObjects(e, t), t, n);
      assert SameGvkAndName(m, n);
    }
  }

  lemma ListsSeparate(e: Env, t: NSTemplateSet)
    requires RefManifests(e, t.name, t.cluster).Some? && RefManifests(e, t.name, t.status.cluster).Some?
    requires OnceEach(NewObjects(e, t)) && OnceEach(OldObjects(e, t))
    ensures Separate(NewOf(e, t), RestOf(e, t))
  {
    ListsMean(e, t);
    EnabledOnce(NewObjects(e, t), t);
    forall n, c | n in NewOf(e, t) && c in RestOf(e, t) ensures n.key != c.key {
      RestIff(e, t, c);
      EnabledIff(NewObjects(e, t), t, n);
      assert n.key == c.key ==> SameId(c, n);
    }
  }

  // ---- The law ----

  // What the pass makes of the object of a manifest that is switched on.
  ghost predicate InUse(e: Env, objs: Objects, objs': Objects, t: NSTemplateSet, m: Manifest) {
    Alive(objs', m.key) && AppliedOver(At(objs, m.key), m, Marks(e, t), objs'[m.key])
  }

  lemma PassAt(e: Env, s: State, k: Key)
    requires Synced(s) && Due(s.cur) && CR.Ensure(e, s).1
    requires OnceEach(NewObjects(e, s.cur)) && OnceEach(OldObjects(e, s.cur))
    ensures RefManifests(e, s.cur.name, s.cur.cluster).Some? && RefManifests(e, s.cur.name, s.cur.status.cluster).Some?
    ensures At(CR.Ensure(e, s).0.objs, k)
      == Final(e, NewOf(e, s.cur), RestOf(e, s.cur), RefLabels(e, s.cur.name, s.cur.cluster), k, At(s.objs, k))
  {
    DueIff(s.cur);
    var c := EnsureCut(e, s);
    ListsSeparate(e, s.cur);
    CutPassAt(e, s.objs, NewOf(e, s.cur), RestOf(e, s.cur), RefLabels(e, s.cur.name, s.cur.cluster), c, k);
  }

  lemma WriterIs(e: Env, ms: seq<Manifest>, m: Manifest)
    requires DistinctKeys(ms) && m in ms && Available(e, m)
    ensures Writer(e, ms, m.key) == Some(m)
  {
    var w := Writer(e, ms, m.key);
    var i, j :| 0 <= i < |ms| && ms[i] == m && 0 <= j < |ms| && ms[j] == w.value;
  }

  lemma StampedMeans(e: Env, m: Manifest, labels: Labels, o: Option<Object>)
    requires o.Some? ==> !o.value.terminating
    ensures !Stamped(e, m, labels, o).terminating && AppliedOver(o, m, labels, Stamped(e, m, labels, o))
  {}

  // Objects of the new template that are switched on, and whose API is there, are applied.
  lemma SwitchedOnIsApplied(e: Env, s: State, m: Manifest)
    requires Synced(s) && Due(s.cur) && CR.Ensure(e, s).1
    requires OnceEach(NewObjects(e, s.cur)) && OnceEach(OldObjects(e, s.cur))
    requires m in NewObjects(e, s.cur) && SwitchedOn(m, s.cur) && Held(e, m)
    requires m.key in s.objs ==> Alive(s.objs, m.key)
    ensures InUse(e, s.objs, CR.Ensure(e, s).0.objs, s.cur, m)
  {
    PassAt(e, s, m.key);
    ListsMean(e, s.cur);
    ListsSeparate(e, s.cur);
    EnabledIff(NewObjects(e, s.cur), s.cur, m);
    WriterIs(e, NewOf(e, s.cur), m);
    StampedMeans(e, m, Marks(e, s.cur), At(s.objs, m.key));
  }

  // Objects of the old template without a switched-on counterpart in the new one are gone, or on their way out.
  lemma SwitchedOffIsGone(e: Env, s: State, m: Manifest)
    requires Synced(s) && Due(s.cur) && CR.Ensure(e, s).1
    requires OnceEach(NewObjects(e, s.cur)) && OnceEach(OldObjects(e, s.cur))
    requires m in OldObjects(e, s.cur) && !Replaced(m, NewObjects(e, s.cur), s.cur)
    ensures !Alive(CR.Ensure(e, s).0.objs, m.key)
  {
    PassAt(e, s, m.key);
    RestIff(e, s.cur, m);
    ListsSeparate(e, s.cur);
    var w := Writer(e, NewOf(e, s.cur), m.key);
    assert m.key in Keys(RestOf(e, s.cur));
  }

  // Every other object stays as it is, those of the new template that are switched off included.
  lemma OthersStay(e: Env, s: State, k: Key)
    requires Synced(s) && Due(s.cur) && CR.Ensure(e, s).1
    requires OnceEach(NewObjects(e, s.cur)) && OnceEach(OldObjects(e, s.cur))
    requires forall n :: n in NewObjects(e, s.cur) && n.key == k ==> !(SwitchedOn(n, s.cur) && Held(e, n))
    requires forall o :: o in OldObjects(e, s.cur) && o.key == k ==> Replaced(o, NewObjects(e, s.cur), s.cur)
    ensures At(CR.Ensure(e, s).0.objs, k) == At(s.objs, k)
  {
    PassAt(e, s, k);
    ListsMean(e, s.cur);
    var w := Writer(e, NewOf(e, s.cur), k);
    if w.Some? { EnabledIff(NewObjects(e, s.cur), s.cur, w.value); }
    if k in Keys(RestOf(e, s.cur)) {
      var o :| o in RestOf(e, s.cur) && o.key == k;
      RestIff(e, s.cur, o);
    }
  }

  // When nothing changed, nothing is touched.
  lemma NothingDue(e: Env, s: State)
    requires !Due(s.cur)
    ensures CR.Ensure(e, s) == (s, true)
  {
    DueIff(s.cur);
  }

  // What is switched off is not applied, and gone if the old template had it.
  lemma SwitchedOffIsOut(e: Env, s: State, m: Manifest)
    requires Synced(s) && Due(s.cur) && CR.Ensure(e, s).1
    requires OnceEach(NewObjects(e, s.cur)) && OnceEach(OldObjects(e, s.cur))
    requires m in NewObjects(e, s.cur) && !SwitchedOn(m, s.cur)
    ensures if exists o :: o in OldObjects(e, s.cur) && o.key == m.key then !Alive(CR.Ensure(e, s).0.objs, m.key)
            else At(CR.Ensure(e, s).0.objs, m.key) == At(s.objs, m.key)
  {
    var news := NewObjects(e, s.cur);
    forall n | n in news && SameId(n, m) ensures n == m { OnceEachSame(news, n, m); }
    if o :| o in OldObjects(e, s.cur) && o.key == m.key {
      assert !Replaced(o, news, s.cur);
      SwitchedOffIsGone(e, s, o);
    } else {
      OthersStay(e, s, m.key);
    }
  }

  // Together, under any failures that the pass survives: exactly the objects that are switched on are in use.
  lemma FeaturesDecide(e: Env, s: State)
    requires Synced(s) && Due(s.cur) && CR.Ensure(e, s).1
    requires OnceEach(NewObjects(e, s.cur)) && OnceEach(OldObjects(e, s.cur))
    requires forall m :: m in NewObjects(e, s.cur) && m.key in s.objs ==> Alive(s.objs, m.key)
    ensures var objs', news, olds := CR.Ensure(e, s).0.objs, NewObjects(e, s.cur), OldObjects(e, s.cur);
      && (forall m :: m in news && SwitchedOn(m, s.cur) && Held(e, m) ==> InUse(e, s.objs, objs', s.cur, m))
      && (forall m :: m in olds && !Replaced(m, news, s.cur) ==> !Alive(objs', m.key))
      && (forall m :: m in news && !SwitchedOn(m, s.cur) ==>
            if exists o :: o in olds && o.key == m.key then !Alive(objs', m.key)
            else At(objs', m.key) == At(s.objs, m.key))
  {
    var objs', news, olds := CR.Ensure(e, s).0.objs, NewObjects(e, s.cur), OldObjects(e, s.cur);
    forall m | m in news && SwitchedOn(m, s.cur) && Held(e, m) ensures InUse(e, s.objs, objs', s.cur, m) {
      SwitchedOnIsApplied(e, s, m);
    }
    forall m | m in olds && !Replaced(m, news, s.cur) ensures !Alive(objs', m.key) { SwitchedOffIsGone(e, s, m); }
    forall m | m in news && !SwitchedOn(m, s.cur)
      ensures if exists o :: o in olds && o.key == m.key then !Alive(objs', m.key)
              else At(objs', m.key) == At(s.objs, m.key)
    {
      SwitchedOffIsOut(e, s, m);
    }
  }
}
