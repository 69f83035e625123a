// What one pass over the cluster resources does, whole or cut short, and recovery from passes cut short.
module ClusterPasses {
  import opened Names
  import opened Cluster
  import opened Applying
  import opened Statuses
  import opened ClusterResources
  import opened Passes

  // ---- The bookkeeping of the objects still to be deleted ----

  type Id = (Gvk, string)

  function IdOf(m: Manifest): Id { (m.key.gvk, m.key.name) }

  function Ids(ms: seq<Manifest>): multiset<Id> {
    if ms == [] then multiset{} else multiset{IdOf(ms[0])} + Ids(ms[1..])
  }

  lemma IdsCons(ms: seq<Manifest>)
    requires ms != []
    ensures Ids(ms) == multiset{IdOf(ms[0])} + Ids(ms[1..])
  {}

  lemma TakeOther(ids: multiset<Id>, x: Id, y: Id)
    requires x != y
    ensures multiset{x} + (ids - multiset{y}) == multiset{x} + ids - multiset{y}
  {}

  lemma {:induction false} DropFirstMembers(rest: seq<Manifest>, m: Manifest)
    ensures forall x :: x in DropFirst(rest, m) ==> x in rest
  {
    if rest != [] { DropFirstMembers(rest[1..], m); }
  }

  lemma {:induction false} DropFirstIds(rest: seq<Manifest>, m: Manifest)
    ensures Ids(DropFirst(rest, m)) == Ids(rest) - multiset{IdOf(m)}
  {
    if rest != [] {
      IdsCons(rest);
      if SameGvkAndName(rest[0], m) {
        assert IdOf(rest[0]) == IdOf(m);
      } else {
        DropFirstIds(rest[1..], m);
        var kept := [rest[0]] + DropFirst(rest[1..], m);
        IdsCons(kept);
        assert kept[1..] == DropFirst(rest[1..], m);
        TakeOther(Ids(rest[1..]), IdOf(rest[0]), IdOf(m));
      }
    }
  }

  // Claiming the new objects one by one, first match only, leaves the difference of the two collections.
  lemma {:induction false} DropAllIds(rest: seq<Manifest>, ms: seq<Manifest>)
    ensures Ids(DropAll(rest, ms)) == Ids(rest) - Ids(ms)
    ensures forall x :: x in DropAll(rest, ms) ==> x in rest
    decreases |ms|
  {
    if ms != [] {
      DropFirstIds(rest, ms[0]);
      DropFirstMembers(rest, ms[0]);
      DropAllIds(DropFirst(rest, ms[0]), ms[1..]);
    }
  }

  lemma {:induction false} DropFirstKeeps(rest: seq<Manifest>, m: Manifest, x: Manifest)
    requires x in rest && !SameGvkAndName(x, m)
    ensures x in DropFirst(rest, m)
  {
    if !SameGvkAndName(rest[0], m) && x != rest[0] { DropFirstKeeps(rest[1..], m, x); }
  }

  lemma {:induction false} DropAllKeeps(rest: seq<Manifest>, ms: seq<Manifest>, x: Manifest)
    requires x in rest && !Matches(x, ms)
    ensures x in DropAll(rest, ms)
    decreases |ms|
  {
    if ms != [] {
      assert ms[0] in ms;
      DropFirstKeeps(rest, ms[0], x);
      DropAllKeeps(DropFirst(rest, ms[0]), ms[1..], x);
    }
  }

  lemma {:induction false} IdsCount(ms: seq<Manifest>, m: Manifest)
    ensures m in ms ==> Ids(ms)[IdOf(m)] > 0
    ensures Ids(ms)[IdOf(m)] > 0 <==> Matches(m, ms)
  {
    if ms != [] {
      IdsCount(ms[1..], m);
      assert forall n :: n in ms <==> n == ms[0] || n in ms[1..];
      assert SameGvkAndName(m, ms[0]) <==> IdOf(m) == IdOf(ms[0]);
    }
  }

  ghost predicate DistinctIds(ms: seq<Manifest>) {
    forall id :: Ids(ms)[id] <= 1
  }

  // So with one object per kind and name, exactly the objects without a new counterpart are left.
  lemma RestIsUnmatched(current: seq<Manifest>, new_: seq<Manifest>, c: Manifest)
    requires DistinctIds(current)
    ensures c in DropAll(current, new_) <==> c in current && !Matches(c, new_)
  {
    if c in current && !Matches(c, new_) { DropAllKeeps(current, new_, c); }
    DropAllIds(current, new_);
    var rest := DropAll(current, new_);
    IdsCount(rest, c);
    IdsCount(current, c);
    IdsCount(new_, c);
  }

  // A new object survives its own pass exactly when the current template does not list its kind and
  // name more often than the new one does: otherwise a second copy stays in the deletion list.
  lemma LeftoverIff(current: seq<Manifest>, new_: seq<Manifest>, n: Manifest)
    ensures Matches(n, DropAll(current, new_)) <==> Ids(current)[IdOf(n)] > Ids(new_)[IdOf(n)]
  {
    DropAllIds(current, new_);
    IdsCount(DropAll(current, new_), n);
  }

  // ---- The effect of a pass ----

  // `saved` and `cur` agree but for the Ready condition.
  function Core(t: NSTemplateSet): NSTemplateSet { t.(status := t.status.(ready := None)) }

  predicate Synced(s: State) { Core(s.saved) == Core(s.cur) }

  predicate SameSpec(t: NSTemplateSet, t': NSTemplateSet) {
    t'.name == t.name && t'.cluster == t.cluster && t'.namespaces == t.namespaces && t'.roles == t.roles
    && t'.features == t.features && t'.deleting == t.deleting
  }

  predicate Shining(s: State) {
    s.saved.status.ready == Some(Provisioned) || s.cur.status.ready == Some(Provisioned)
  }

  // Nothing but the Ready condition moved, and not to Provisioned.
  predicate Steady(s: State, s': State) {
    Core(s'.cur) == Core(s.cur) && Core(s'.saved) == Core(s.saved) && (Shining(s') ==> Shining(s))
  }

  lemma ApplyOneEffect(e: Env, s: State, m: Manifest, labels: Labels)
    ensures var r := ApplyOne(e, s, m, labels);
      var stamped := if Available(e, m) then StampIn(e, s.objs, m, labels) else s.objs;
      && r.0.cur == s.cur && r.0.saved == s.saved
      && (r.0.objs == s.objs || r.0.objs == stamped)
      && (r.1 ==> r.0.objs == stamped)
  {}

  lemma SetFailedSteady(e: Env, s: State, r: Reason)
    requires Synced(s) && !r.Provisioned?
    ensures Steady(s, SetFailed(e, s, r)) && SetFailed(e, s, r).objs == s.objs
  {}

  lemma FlagSteady(e: Env, a: Applier)
    requires Synced(a.s)
    ensures Steady(a.s, Flag(e, a).0.s) && Flag(e, a).0.s.objs == a.s.objs && Flag(e, a).0.rest == a.rest
  {}

  lemma ApplyNewCut(e: Env, a: Applier, m: Manifest, labels: Labels)
    requires Synced(a.s) && ShouldCreate(m, a.s.cur)
    ensures var r := ApplyNew(e, a, m, labels);
      var stamped := if Available(e, m) then StampIn(e, a.s.objs, m, labels) else a.s.objs;
      && Steady(a.s, r.0.s)
      && (r.0.s.objs == a.s.objs || r.0.s.objs == stamped)
      && (r.1 ==> r.0.rest == DropFirst(a.rest, m) && r.0.s.objs == stamped)
  {
    var a0 := a.(rest := DropFirst(a.rest, m));
    FlagSteady(e, a0);
    var (a1, flagged) := Flag(e, a0);
    if flagged {
      ApplyOneEffect(e, a1.s, m, labels);
      var (s2, ok) := ApplyOne(e, a1.s, m, labels);
      SetFailedSteady(e, s2, ApplyFailure(s2.cur));
    }
  }

  // What is left behind after `i` of the enabled manifests were applied.
  ghost predicate NewsDone(e: Env, a: Applier, news: seq<Manifest>, labels: Labels, i: nat, r: (Applier, bool)) {
    && i <= |news| && (r.1 ==> i == |news|)
    && r.0.s.objs == StampAll(e, a.s.objs, news[..i], labels)
    && (r.1 ==> r.0.rest == DropAll(a.rest, news))
  }

  lemma NewsMore(e: Env, a: Applier, a1: Applier, m: Manifest, more: seq<Manifest>, labels: Labels, i: nat,
                 r: (Applier, bool))
    requires NewsDone(e, a1, more, labels, i, r) && a1.rest == DropFirst(a.rest, m)
    requires a1.s.objs == if Available(e, m) then StampIn(e, a.s.objs, m, labels) else a.s.objs
    ensures NewsDone(e, a, [m] + more, labels, i + 1, r)
  {
    StampPrefix(e, a.s.objs, m, more, i, labels);
    assert ([m] + more)[1..] == more;
  }

  lemma {:induction false} ApplyNewsCut(e: Env, a: Applier, ms: seq<Manifest>, labels: Labels) returns (i: nat)
    requires Synced(a.s)
    ensures var r := ApplyNews(e, a, ms, labels);
      NewsDone(e, a, Enabled(ms, a.s.cur), labels, i, r) && Steady(a.s, r.0.s)
    decreases |ms|
  {
    i := 0;
    if ms != [] {
      if !ShouldCreate(ms[0], a.s.cur) {
        assert Enabled(ms, a.s.cur) == Enabled(ms[1..], a.s.cur);
        i := ApplyNewsCut(e, a, ms[1..], labels);
      } else {
        ApplyNewCut(e, a, ms[0], labels);
        var (a1, ok) := ApplyNew(e, a, ms[0], labels);
        EnabledSame(ms[1..], a.s.cur, a1.s.cur);
        var more := Enabled(ms[1..], a.s.cur);
        assert Enabled(ms, a.s.cur) == [ms[0]] + more;
        if ok {
          var j := ApplyNewsCut(e, a1, ms[1..], labels);
          NewsMore(e, a, a1, ms[0], more, labels, j, ApplyNews(e, a1, ms[1..], labels));
          i := j + 1;
        } else if a1.s.objs != a.s.objs {
          i := 1;
          StampPrefix(e, a.s.objs, ms[0], more, 0, labels);
        }
      }
    }
  }

  lemma StampPrefix(e: Env, objs: Objects, m: Manifest, more: seq<Manifest>, j: nat, labels: Labels)
    requires j <= |more|
    ensures StampAll(e, objs, ([m] + more)[..j + 1], labels) ==
      StampAll(e, if Available(e, m) then StampIn(e, objs, m, labels) else objs, more[..j], labels)
  {
    var ms := ([m] + more)[..j + 1];
    assert ms[0] == m && ms[1..] == more[..j];
  }

  lemma EnabledSame(ms: seq<Manifest>, t: NSTemplateSet, t': NSTemplateSet)
    requires Core(t) == Core(t')
    ensures Enabled(ms, t) == Enabled(ms, t')
  {}

  lemma CleanupCut(e: Env, a: Applier) returns (j: nat)
    requires Synced(a.s)
    ensures var r := Cleanup(e, a);
      && j <= |a.rest| && (r.1 ==> j == |a.rest|)
      && r.0.objs == Sweep(a.s.objs, a.rest[..j]) && Steady(a.s, r.0)
  {
    FlagSteady(e, a);
    var (a1, flagged) := if a.rest != [] then Flag(e, a) else (a, true);
    j := 0;
    if flagged {
      UnmatchedByNothing(a.rest);
      j := DeleteObsoleteCut(e, a1.s, a.rest, []);
    }
  }

  lemma UnmatchedByNothing(ms: seq<Manifest>)
    ensures Unmatched(ms, []) == ms
  {}

  // ---- The whole phase ----

  // The manifests of a reference, as far as the host has them.
  function RefManifests(e: Env, space: string, c: Option<string>): Option<seq<Manifest>> {
    if RefOf(c) == "" then Some([])
    else match TierAt(e, c.value)
      case None => None
      case Some(t) => t.process(Params(space, "", ""))
  }

  function RefLabels(e: Env, space: string, c: Option<string>): Labels {
    if RefOf(c) == "" then map[] else TierLabels(space, TierAt(e, c.value))
  }

  // A pass that gets through: apply what is enabled and available, then delete the rest of the old template.
  function CleanPass(e: Env, objs: Objects, new_: seq<Manifest>, rest: seq<Manifest>, labels: Labels): Objects {
    Sweep(StampAll(e, objs, new_, labels), rest)
  }

  // Where a pass may be cut: after some applications, or after all of them and some deletions.
  datatype Cut = Cut(applied: nat, deleted: nat)

  function CutPass(e: Env, objs: Objects, new_: seq<Manifest>, rest: seq<Manifest>, labels: Labels, c: Cut): Objects
    requires c.applied <= |new_| && c.deleted <= |rest|
  {
    Sweep(StampAll(e, objs, new_[..c.applied], labels), rest[..c.deleted])
  }

  // The two lists a pass works through.
  function NewOf(e: Env, t: NSTemplateSet): seq<Manifest> {
    match RefManifests(e, t.name, t.cluster) case None => [] case Some(ms) => Enabled(ms, t)
  }

  function RestOf(e: Env, t: NSTemplateSet): seq<Manifest> {
    match RefManifests(e, t.name, t.status.cluster) case None => [] case Some(ms) => DropAll(ms, NewOf(e, t))
  }

  lemma ProcessRefSame(e: Env, s: State, c: Option<string>)
    ensures var r := ProcessRef(e, s, c);
      && r.0 == s.(calls := r.0.calls)
      && (r.1.Some? ==> RefManifests(e, s.cur.name, c) == Some(r.1.value.1))
      && (r.1.Some? ==> TierLabels(s.cur.name, r.1.value.0) == RefLabels(e, s.cur.name, c))
  {}

  // Every outcome of the phase, under any failures, is a cut pass over the same two lists; success is a whole one.
  lemma EnsureCut(e: Env, s: State) returns (c: Cut)
    requires Synced(s) && ClusterChanged(s.cur)
    ensures var r := Ensure(e, s);
      var news, rest, labels := NewOf(e, s.cur), RestOf(e, s.cur), RefLabels(e, s.cur.name, s.cur.cluster);
      && c.applied <= |news| && c.deleted <= |rest| && (c.deleted > 0 ==> c.applied == |news|)
      && r.0.objs == CutPass(e, s.objs, news, rest, labels, c)
      && (r.1 ==> c == Cut(|news|, |rest|))
      && (r.1 ==>
          RefManifests(e, s.cur.name, s.cur.cluster).Some? && RefManifests(e, s.cur.name, s.cur.status.cluster).Some?)
      && Steady(s, r.0)
  {
    c := Cut(0, 0);
    var (s1, new_) := ProcessRef(e, s, s.cur.cluster);
    ProcessRefSame(e, s, s.cur.cluster);
    if new_.Some? {
      var (s2, old_) := ProcessRef(e, s1, s.cur.status.cluster);
      ProcessRefSame(e, s1, s.cur.status.cluster);
      if old_.Some? {
        var a0 := Applier(s2, old_.value.1, false);
        var labels := TierLabels(s.cur.name, new_.value.0);
        var (a, ok) := ApplyNews(e, a0, new_.value.1, labels);
        var i := ApplyNewsCut(e, a0, new_.value.1, labels);
        c := Cut(i, 0);
        if ok {
          var j := CleanupCut(e, a);
          c := Cut(i, j);
        }
      }
    }
  }
}
