// Namespaces: one is deprovisioned, created, refreshed or filled per reconcile.
module Namespaces {
  import opened Names
  import opened Cluster
  import opened Applying
  import opened Statuses

  datatype Progress = Changed | Unchanged | Failed

  predicate MapContains(actual: Labels, wanted: Labels) {
    forall l :: l in wanted ==> l in actual && actual[l] == wanted[l]
  }

  // template.RetainNamespaces and template.RetainAllButNamespaces
  function NamespacesOnly(ms: seq<Manifest>): (r: seq<Manifest>)
    ensures forall m :: m in r <==> m in ms && m.key.gvk.kind.Namespace?
  {
    if ms == [] then [] else (if ms[0].key.gvk.kind.Namespace? then [ms[0]] else []) + NamespacesOnly(ms[1..])
  }

  function AllButNamespaces(ms: seq<Manifest>): (r: seq<Manifest>)
    ensures forall m :: m in r <==> m in ms && !m.key.gvk.kind.Namespace?
  {
    if ms == [] then [] else (if ms[0].key.gvk.kind.Namespace? then [] else [ms[0]]) + AllButNamespaces(ms[1..])
  }

  function GetTiers(e: Env, s: State, refs: seq<string>): (State, Option<seq<Tier>>)
    decreases |refs|
  {
    if refs == [] then (s, Some([]))
    else
      var (s1, t) := GetTier(e, s, refs[0]);
      if t.None? then (s1, None)
      else
        var (s2, rest) := GetTiers(e, s1, refs[1..]);
        (s2, if rest.None? then None else Some([t.value] + rest.value))
  }

  predicate HasType(tiers: seq<Tier>, typeName: string) {
    exists i :: 0 <= i < |tiers| && tiers[i].typeName == typeName
  }

  function TypeOf(n: Ns): string { LabelOf(n.obj.labels, Type) }

  // The first namespace whose type no tier of the spec has.
  function NextToDeprovision(tiers: seq<Tier>, nss: seq<Ns>): (r: Option<Ns>)
    ensures r.Some? ==> r.value in nss && !HasType(tiers, TypeOf(r.value))
    ensures r.Some? ==>
      exists i :: 0 <= i < |nss| && nss[i] == r.value && forall j :: 0 <= j < i ==> HasType(tiers, TypeOf(nss[j]))
    ensures r.None? ==> forall n :: n in nss ==> HasType(tiers, TypeOf(n))
  {
    if nss == [] then None
    else if HasType(tiers, TypeOf(nss[0])) then
      var r := NextToDeprovision(tiers, nss[1..]);
      assert r.Some? ==> forall i :: 0 <= i < |nss| - 1 ==> nss[1..][i] == nss[i + 1];
      r
    else Some(nss[0])
  }

  // The first namespace of a type.
  function FindNamespace(nss: seq<Ns>, typeName: string): (r: Option<Ns>)
    ensures r.Some? ==> r.value in nss && LabelOf(r.value.obj.labels, Type) == typeName
    ensures r.Some? ==>
      exists i :: 0 <= i < |nss| && nss[i] == r.value && forall j :: 0 <= j < i ==> TypeOf(nss[j]) != typeName
    ensures r.None? ==> forall n :: n in nss ==> LabelOf(n.obj.labels, Type) != typeName
  {
    if nss == [] then None
    else if LabelOf(nss[0].obj.labels, Type) == typeName then Some(nss[0])
    else FindNamespace(nss[1..], typeName)
  }

  // Whether the namespace holds the object of this key, labelled with the space.
  predicate Contains(objs: Objects, k: Key, space: string) {
    k in objs && Space in objs[k].labels && objs[k].labels[Space] == space
  }

  // The key under which the typed list finds a Role or RoleBinding of the template.
  function ListedKey(n: string, m: Manifest): Key {
    Key(if m.key.gvk.kind.Role? then ROLE_GVK else ROLE_BINDING_GVK, n, m.key.name)
  }

  predicate RolesPresent(objs: Objects, n: string, ms: seq<Manifest>, space: string) {
    forall m :: m in ms && (m.key.gvk.kind.Role? || m.key.gvk.kind.RoleBinding?) ==>
      Contains(objs, ListedKey(n, m), space)
  }

  predicate MarkedFor(n: Ns, t: Tier) {
    LabelOf(n.obj.labels, TierName) == t.tierName && LabelOf(n.obj.labels, TemplateRef) == t.templateRef
  }

  // None is an error.
  function UpToDate(e: Env, s: State, n: Ns, t: Tier): (State, Option<bool>) {
    if !MarkedFor(n, t) then (s, Some(false))
    else
      var space := LabelOf(n.obj.labels, Space);
      var objs := t.process(Params(space, space, ""));
      if objs.None? || Space !in n.obj.labels then (s, None)
      else
        var (s1, ok1) := Read(e, s);
        if !ok1 then (s1, None)
        else
          var (s2, ok2) := Read(e, s1);
          (s2, if !ok2 then None else Some(RolesPresent(s.objs, n.name, AllButNamespaces(objs.value), space)))
  }

  datatype Next = Nothing | Broken | Todo(tier: Tier, ns: Option<Ns>)

  function NextToProvision(e: Env, s: State, tiers: seq<Tier>, nss: seq<Ns>): (State, Next)
    decreases |tiers|
  {
    if tiers == [] then (s, Nothing)
    else
      var n := FindNamespace(nss, tiers[0].typeName);
      if n.None? then (s, Todo(tiers[0], None))
      else if !n.value.obj.active then NextToProvision(e, s, tiers[1..], nss)
      else
        var (s1, fine) := UpToDate(e, s, n.value, tiers[0]);
        if fine.None? then (s1, Broken)
        else if !fine.value then (s1, Todo(tiers[0], n))
        else NextToProvision(e, s1, tiers[1..], nss)
  }

  function LastNamed(ms: seq<Manifest>, name: string): (r: Option<Manifest>)
    ensures r.Some? ==> r.value in ms && r.value.key.name == name
    ensures r.None? ==> forall m :: m in ms ==> m.key.name != name
    decreases |ms|
  {
    if ms == [] then None
    else if ms[|ms| - 1].key.name == name then Some(ms[|ms| - 1])
    else LastNamed(ms[..|ms| - 1], name)
  }

  // None is an error.
  function HasExpectedLabels(t: Tier, n: Ns): Option<bool> {
    var objs := t.process(Params(LabelOf(n.obj.labels, Space), "", ""));
    if objs.None? then None
    else
      var m := LastNamed(NamespacesOnly(objs.value), n.name);
      if m.None? then None else Some(MapContains(n.obj.labels, m.value.labels))
  }

  function NsLabels(space: string, t: Tier): Labels {
    map[Space := space, Type := t.typeName, Provider := PROVIDER]
  }

  function InnerLabels(space: string): Labels { map[Provider := PROVIDER, Space := space] }

  // A result, and the failure condition of this phase if it is one.
  function Outcome(e: Env, r: (State, bool)): (State, Progress) {
    if r.1 then (r.0, Changed) else (SetFailed(e, r.0, UnableToProvisionNamespace), Failed)
  }

  function EnsureNsResource(e: Env, s: State, t: Tier): (State, Progress) {
    var objs := t.process(Params(s.cur.name, "", ""));
    Outcome(e, if objs.None? then (s, false)
               else ApplyAll(e, s, NamespacesOnly(objs.value), NsLabels(s.cur.name, t)))
  }

  function Marked(o: Object, t: Tier): Object {
    o.(labels := o.labels[TemplateRef := t.templateRef][TierName := t.tierName])
  }

  // Deletes what the template of another reference generates and the new one does not.
  function DropFrom(e: Env, s: State, ref: string, news: seq<Manifest>): (State, bool) {
    var (s2, tier) := GetTier(e, s, ref);
    if tier.None? then (SetFailed(e, s2, UpdateFailed), false)
    else
      var objs := tier.value.process(Params(s.cur.name, "", ""));
      if objs.None? then (SetFailed(e, s2, UpdateFailed), false)
      else
        var (s3, swept) := DeleteObsolete(e, s2, AllButNamespaces(objs.value), news);
        (if swept then s3 else SetFailed(e, s3, UpdateFailed), swept)
  }

  // The objects of the template the namespace was last filled from, if it was another one.
  function DropOld(e: Env, s: State, n: Ns, t: Tier, news: seq<Manifest>): (State, bool) {
    var old_ := LabelOf(n.obj.labels, TemplateRef);
    if old_ == "" || old_ == t.templateRef then (s, true)
    else
      var (s1, ok) := SetUpdatingIfNotProvisioning(e, s);
      if !ok then (s1, false) else DropFrom(e, s1, old_, news)
  }

  function EnsureInner(e: Env, s: State, t: Tier, n: Ns): (State, Progress) {
    var objs := t.process(Params(s.cur.name, "", ""));
    if objs.None? then Outcome(e, (s, false))
    else
      var news := AllButNamespaces(objs.value);
      var (s1, swept) := DropOld(e, s, n, t, news);
      if !swept then (s1, Failed)
      else
        var (s2, applied) := ApplyAll(e, s1, news, InnerLabels(s.cur.name));
        Outcome(e, if !applied then (s2, false) else Update(e, s2, NsKey(n.name), n.obj, Marked(n.obj, t)))
  }

  function EnsureNamespace(e: Env, s: State, t: Tier, n: Option<Ns>): (State, Progress) {
    if n.None? then EnsureNsResource(e, s, t)
    else
      match HasExpectedLabels(t, n.value)
      case None => Outcome(e, (s, false))
      case Some(true) => EnsureInner(e, s, t, n.value)
      case Some(false) => EnsureNsResource(e, s, t)
  }

  function Deprovision(e: Env, s: State, n: Ns): (State, Progress) {
    var (s1, ok) := SetUpdatingIfNotProvisioning(e, s);
    if !ok then (s1, Failed)
    else
      var (s2, r) := Delete(e, s1, NsKey(n.name));
      if r.Deleted? then (s2, Changed) else (SetFailed(e, s2, UpdateFailed), Failed)
  }

  function Provision(e: Env, s: State, t: Tier, n: Option<Ns>, nss: seq<Ns>): (State, Progress) {
    var (s1, ok) := if nss != [] then SetUpdatingIfNotProvisioning(e, s) else SetProvisioningIfNotUpdating(e, s);
    if !ok then (s1, Failed) else EnsureNamespace(e, s1, t, n)
  }

  // The one action of this reconcile.
  function Act(e: Env, s: State, tiers: seq<Tier>, nss: seq<Ns>): (State, Progress) {
    var gone := NextToDeprovision(tiers, nss);
    if gone.Some? then Deprovision(e, s, gone.value)
    else
      var (s3, next) := NextToProvision(e, s, tiers, nss);
      match next
      case Broken => (s3, Failed)
      case Nothing => (s3, Unchanged)
      case Todo(t, n) => Provision(e, s3, t, n, nss)
  }

  function EnsureOver(e: Env, s: State, nss: seq<Ns>): (State, Progress) {
    var (s2, tiers) := GetTiers(e, s, s.cur.namespaces);
    if tiers.None? then (SetFailed(e, s2, UnableToProvisionNamespace), Failed)
    else Act(e, s2, tiers.value, nss)
  }

  function Ensure(e: Env, s: State): (State, Progress) {
    var (s1, ok) := Read(e, s);
    if !ok then (SetFailed(e, s1, UnableToProvision), Failed) else EnsureOver(e, s1, Owned(s.objs, s.cur.name))
  }

  // updateStatusNamespacesRevisions; the order of the references does not count.
  function UpdateRevision(e: Env, s: State): (State, bool) {
    if multiset(s.cur.namespaces) == multiset(s.cur.status.namespaces) then (s, true)
    else PutStatus(e, s.(cur := s.cur.(status := s.cur.status.(namespaces := s.cur.namespaces))))
  }

  function NamesOf(nss: seq<Ns>): seq<string> {
    if nss == [] then [] else [nss[0].name] + NamesOf(nss[1..])
  }

  // setProvisionedNamespaceList; the first name is the default namespace.
  function RecordNames(e: Env, s: State, nss: seq<Ns>): (State, bool) {
    if nss == [] then (s, true)
    else PutStatus(e, s.(cur := s.cur.(status := s.cur.status.(provisioned := NamesOf(nss)))))
  }

  function UpdateProvisioned(e: Env, s: State): (State, bool) {
    var (s1, ok) := Read(e, s);
    if !ok then (s1, false) else RecordNames(e, s1, Owned(s.objs, s.cur.name))
  }

  // ---- ensureDeleted: one namespace at a time, in name order; Some(true) when none is left ----

  function DeleteFirst(e: Env, s: State, nss: seq<Ns>): (State, Option<bool>) {
    if nss == [] then (s, Some(true))
    else if nss[0].obj.terminating then (s, Some(false))
    else
      var (s2, r) := Delete(e, s, NsKey(nss[0].name));
      if r.Deleted? then (s2, Some(false)) else (SetFailed(e, s2, TerminatingFailed), None)
  }

  function EnsureDeleted(e: Env, s: State): (State, Option<bool>) {
    var (s1, ok) := Read(e, s);
    if !ok then (SetFailed(e, s1, TerminatingFailed), None) else DeleteFirst(e, s1, Owned(s.objs, s.cur.name))
  }
}
