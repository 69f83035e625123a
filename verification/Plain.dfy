// What a template asks for and what an applied object looks like, in the words of templates, labels and annotations.
module Plain {
  import opened Names
  import opened Cluster

  predicate Alive(objs: Objects, k: Key) { k in objs && !objs[k].terminating }

  // An optional object needs its API group.
  predicate Held(e: Env, m: Manifest) {
    OptionalResource in m.notes ==>
      exists g :: g in e.groups && g.name == m.key.gvk.group && m.key.gvk.version in g.versions
  }

  // What the template under a reference generates; nothing without one.
  function Generated(e: Env, ref: string, p: Params): seq<Manifest> {
    match e.tiers(ref)
    case None => []
    case Some(t) => match t.process(p) case None => [] case Some(ms) => ms
  }

  function ByRef(e: Env, ref: Option<string>, p: Params): seq<Manifest> {
    if ref.None? || ref.value == "" then [] else Generated(e, ref.value, p)
  }

  predicate SameId(a: Manifest, b: Manifest) { a.key.gvk == b.key.gvk && a.key.name == b.key.name }

  predicate OnceEach(ms: seq<Manifest>) { forall i, j :: 0 <= i < j < |ms| ==> !SameId(ms[i], ms[j]) }

  // The object `o` (if any) after the manifest has been applied with these labels. The body of an existing
  // ServiceAccount stays, and there the template's labels win.
  predicate AppliedOver(o: Option<Object>, m: Manifest, labels: Labels, r: Object) {
    && (forall k :: k in m.notes ==> k in r.notes && r.notes[k] == m.notes[k])
    && if o.Some? && m.key.gvk.kind.ServiceAccount?
       then r.body == o.value.body && r.labels == o.value.labels + labels + m.labels
       else r.body == m.body && r.labels == m.labels + labels
  }
}
