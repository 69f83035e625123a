// ApplyToolchainObjects: optional objects, ServiceAccounts, create-or-replace of everything else.
module Applying {
  import opened Names
  import opened Cluster

  predicate GroupPresent(groups: seq<ApiGroup>, gvk: Gvk) {
    exists g :: g in groups && g.name == gvk.group && gvk.version in g.versions
  }

  predicate Available(e: Env, m: Manifest) {
    OptionalResource in m.notes ==> GroupPresent(e.groups, m.key.gvk)
  }

  predicate AnyAvailable(e: Env, ms: seq<Manifest>) { exists m :: m in ms && Available(e, m) }

  lemma OneMore(e: Env, ms: seq<Manifest>, i: nat)
    requires i < |ms|
    ensures ms[i..][0] == ms[i] && ms[i..][1..] == ms[i + 1..]
    ensures AnyAvailable(e, ms[..i + 1]) <==> AnyAvailable(e, ms[..i]) || Available(e, ms[i])
  {
    assert ms[..i + 1] == ms[..i] + [ms[i]];
    assert ms[i] in ms[..i + 1];
  }

  function Fresh(m: Manifest, labels: Labels): Object {
    Object(m.labels + labels, m.notes, m.body, m.held, false, false)
  }

  // An existing ServiceAccount keeps its body; the template's labels win over the operator's.
  function Stamped(e: Env, m: Manifest, labels: Labels, o: Option<Object>): Object {
    match o
    case None => Fresh(m, labels)
    case Some(was) =>
      if m.key.gvk.kind.ServiceAccount?
      then was.(labels := was.labels + labels + m.labels, notes := was.notes + m.notes)
      else was.(labels := m.labels + labels,
                notes := if e.keepNotes then was.notes + m.notes else m.notes,
                body := m.body)
  }

  function StampIn(e: Env, objs: Objects, m: Manifest, labels: Labels): Objects {
    objs[m.key := Stamped(e, m, labels, At(objs, m.key))]
  }

  function ApplyOne(e: Env, s: State, m: Manifest, labels: Labels): (State, bool) {
    if !Available(e, m) then (s, true)
    else if m.key.gvk.kind.ServiceAccount? then
      var (s1, ok) := Read(e, s);
      if !ok then (s1, false) else Write(e, s1, StampIn(e, s1.objs, m, labels))
    else Write(e, s, StampIn(e, s.objs, m, labels))
  }

  function ApplyAll(e: Env, s: State, ms: seq<Manifest>, labels: Labels): (State, bool)
    decreases |ms|
  {
    if ms == [] then (s, true)
    else
      var (s1, ok) := ApplyOne(e, s, ms[0], labels);
      if !ok then (s1, false) else ApplyAll(e, s1, ms[1..], labels)
  }

  // How many manifests were dealt with before the pass ended.
  function Completed(e: Env, s: State, ms: seq<Manifest>, labels: Labels): (n: nat)
    ensures n <= |ms| && (ApplyAll(e, s, ms, labels).1 <==> n == |ms|)
    decreases |ms|
  {
    if ms == [] then 0
    else
      var (s1, ok) := ApplyOne(e, s, ms[0], labels);
      if ok then 1 + Completed(e, s1, ms[1..], labels) else 0
  }

  // deleteObsoleteObjects: delete the current manifests that no new one matches, missing ones being fine.
  function DeleteObsolete(e: Env, s: State, current: seq<Manifest>, new_: seq<Manifest>): (State, bool)
    decreases |current|
  {
    if current == [] then (s, true)
    else if Matches(current[0], new_) then DeleteObsolete(e, s, current[1..], new_)
    else
      var (s1, r) := Delete(e, s, current[0].key);
      if r.DeleteFailed? then (s1, false) else DeleteObsolete(e, s1, current[1..], new_)
  }

  // ---- What these passes do to the objects, call results aside ----

  function StampAll(e: Env, objs: Objects, ms: seq<Manifest>, labels: Labels): Objects
    decreases |ms|
  {
    if ms == [] then objs
    else StampAll(e, if Available(e, ms[0]) then StampIn(e, objs, ms[0], labels) else objs, ms[1..], labels)
  }

  function Sweep(objs: Objects, ms: seq<Manifest>): Objects {
    if ms == [] then objs
    else Sweep(Put(objs, ms[0].key, Remains(ms[0].key, At(objs, ms[0].key))), ms[1..])
  }

  function Unmatched(ms: seq<Manifest>, new_: seq<Manifest>): (r: seq<Manifest>)
    ensures forall m :: m in r <==> m in ms && !Matches(m, new_)
  {
    if ms == [] then []
    else (if Matches(ms[0], new_) then [] else [ms[0]]) + Unmatched(ms[1..], new_)
  }
}
