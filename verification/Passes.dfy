// What a pass over a list of objects leaves in the store, wherever it is cut short.
module Passes {
  import opened Names
  import opened Cluster
  import opened Applying

  lemma {:induction false} ApplyAllCut(e: Env, s: State, ms: seq<Manifest>, labels: Labels) returns (i: nat)
    ensures var r := ApplyAll(e, s, ms, labels);
      && i <= |ms| && (r.1 ==> i == |ms|)
      && r.0.objs == StampAll(e, s.objs, ms[..i], labels) && r.0.cur == s.cur && r.0.saved == s.saved
    decreases |ms|
  {
    i := 0;
    if ms != [] {
      var (s1, ok) := ApplyOne(e, s, ms[0], labels);
      var objs1 := if Available(e, ms[0]) then StampIn(e, s.objs, ms[0], labels) else s.objs;
      if ok {
        var j := ApplyAllCut(e, s1, ms[1..], labels);
        i := j + 1;
        assert ms[..i][1..] == ms[1..][..j];
      } else if s1.objs != s.objs {
        i := 1;
        StampFirst(e, s.objs, ms, labels);
      }
    }
  }

  lemma StampFirst(e: Env, objs: Objects, ms: seq<Manifest>, labels: Labels)
    requires ms != []
    ensures StampAll(e, objs, ms[..1], labels) == if Available(e, ms[0]) then StampIn(e, objs, ms[0], labels) else objs
  {
    assert ms[..1][1..] == [];
  }

  lemma {:induction false} DeleteObsoleteCut(e: Env, s: State, current: seq<Manifest>, new_: seq<Manifest>)
    returns (i: nat)
    ensures var r := DeleteObsolete(e, s, current, new_); var gone := Unmatched(current, new_);
      && i <= |gone| && (r.1 ==> i == |gone|)
      && r.0.objs == Sweep(s.objs, gone[..i]) && r.0.cur == s.cur && r.0.saved == s.saved
    decreases |current|
  {
    i := 0;
    if current != [] {
      var gone, rest := Unmatched(current, new_), Unmatched(current[1..], new_);
      if Matches(current[0], new_) {
        assert gone == rest;
        i := DeleteObsoleteCut(e, s, current[1..], new_);
      } else {
        assert gone == [current[0]] + rest;
        var (s1, r) := Delete(e, s, current[0].key);
        if !r.DeleteFailed? {
          var j := DeleteObsoleteCut(e, s1, current[1..], new_);
          i := j + 1;
          SweepOne(s.objs, gone, j);
        } else if s1.objs != s.objs {
          i := 1;
          SweepOne(s.objs, gone, 0);
        }
      }
    }
  }

  lemma SweepOne(objs: Objects, ms: seq<Manifest>, j: nat)
    requires j < |ms|
    ensures Sweep(objs, ms[..j + 1])
      == Sweep(Put(objs, ms[0].key, Remains(ms[0].key, At(objs, ms[0].key))), ms[1..][..j])
  {
    assert ms[..j + 1][1..] == ms[1..][..j];
  }

  lemma UpdateEffect(e: Env, s: State, k: Key, was: Object, o: Object) returns (written: bool)
    ensures var r := Update(e, s, k, was, o);
      && r.0.cur == s.cur && r.0.saved == s.saved && r.0.objs == (if written then s.objs[k := o] else s.objs)
      && (written ==> At(s.objs, k) == Some(was)) && (r.1 ==> written)
  {
    written := At(s.objs, k) == Some(was) && !e.fate(s.calls).Refused?;
  }

  // ---- Pointwise reading of StampAll and Sweep ----

  predicate DistinctKeys(ms: seq<Manifest>) {
    forall i, j :: 0 <= i < j < |ms| ==> ms[i].key != ms[j].key
  }

  lemma {:induction false} SweepAt(objs: Objects, ms: seq<Manifest>, k: Key)
    ensures At(Sweep(objs, ms), k) == if k in Keys(ms) then Remains(k, At(objs, k)) else At(objs, k)
    decreases |ms|
  {
    if ms != [] {
      SweepAt(Put(objs, ms[0].key, Remains(ms[0].key, At(objs, ms[0].key))), ms[1..], k);
      assert Keys(ms) == {ms[0].key} + Keys(ms[1..]);
    }
  }

  lemma {:induction false} StampAllElsewhere(e: Env, objs: Objects, ms: seq<Manifest>, labels: Labels, k: Key)
    requires forall m :: m in ms && Available(e, m) ==> m.key != k
    ensures At(StampAll(e, objs, ms, labels), k) == At(objs, k)
    decreases |ms|
  {
    if ms != [] {
      StampAllElsewhere(e, if Available(e, ms[0]) then StampIn(e, objs, ms[0], labels) else objs, ms[1..], labels, k);
    }
  }

  lemma {:induction false} StampAllAt(e: Env, objs: Objects, ms: seq<Manifest>, labels: Labels, i: nat)
    requires i < |ms| && DistinctKeys(ms) && Available(e, ms[i])
    ensures At(StampAll(e, objs, ms, labels), ms[i].key) == Some(Stamped(e, ms[i], labels, At(objs, ms[i].key)))
    decreases |ms|
  {
    var next := if Available(e, ms[0]) then StampIn(e, objs, ms[0], labels) else objs;
    if i == 0 {
      StampAllElsewhere(e, next, ms[1..], labels, ms[0].key);
    } else {
      StampAllAt(e, next, ms[1..], labels, i - 1);
    }
  }

  // Whatever is applied, and in whatever order, an applied object ends up present and carries the labels.
  lemma {:induction false} StampAllLabels(e: Env, objs: Objects, ms: seq<Manifest>, labels: Labels, m: Manifest,
                                          l: Label)
    requires m in ms && Available(e, m) && l in labels && !m.key.gvk.kind.ServiceAccount?
    ensures Labelled(StampAll(e, objs, ms, labels), m.key, l, labels[l])
    decreases |ms|
  {
    var next := if Available(e, ms[0]) then StampIn(e, objs, ms[0], labels) else objs;
    if m in ms[1..] {
      StampAllLabels(e, next, ms[1..], labels, m, l);
    } else {
      StampAllKeepsLabel(e, next, ms[1..], labels, m.key, l);
    }
  }

  predicate Labelled(objs: Objects, k: Key, l: Label, v: string) {
    k in objs && l in objs[k].labels && objs[k].labels[l] == v
  }

  lemma {:induction false} StampAllKeepsLabel(e: Env, objs: Objects, ms: seq<Manifest>, labels: Labels, k: Key,
                                              l: Label)
    requires l in labels && Labelled(objs, k, l, labels[l]) && !k.gvk.kind.ServiceAccount?
    ensures Labelled(StampAll(e, objs, ms, labels), k, l, labels[l])
    decreases |ms|
  {
    if ms != [] {
      StampAllKeepsLabel(e, if Available(e, ms[0]) then StampIn(e, objs, ms[0], labels) else objs, ms[1..], labels, k,
                         l);
    }
  }
}
