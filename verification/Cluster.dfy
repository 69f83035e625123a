// The API server the operator talks to: objects, templates, and calls that can fail.
module Cluster {
  import opened Names

  datatype Kind = Namespace | ServiceAccount | Role | RoleBinding | OtherKind(name: string)
  datatype Gvk = Gvk(group: string, version: string, kind: Kind)
  datatype Key = Key(gvk: Gvk, ns: string, name: string)

  // The labels the operator gives a meaning to, and all the others.
  datatype Label = Space | Type | TemplateRef | TierName | Provider | OtherLabel(name: string)
  type Labels = map<Label, string>

  datatype SpaceRole = SpaceRole(templateRef: string, usernames: seq<string>)

  // Annotations. The last-applied space roles are JSON of a list that may be nil.
  datatype Note = FeatureToggle | OptionalResource | LastAppliedSpaceRoles | OtherNote(name: string)
  datatype NoteText = Text(text: string) | RolesJson(roles: Option<seq<SpaceRole>>)
  type Notes = map<Note, NoteText>

  // `held`: finalizers keep a deleted object around, marked, until the environment lets it go.
  datatype Object = Object(labels: Labels, notes: Notes, body: string, held: bool, terminating: bool, active: bool)
  type Objects = map<Key, Object>

  // An object as a processed template produces it.
  datatype Manifest = Manifest(key: Key, labels: Labels, notes: Notes, body: string, held: bool)

  // The parameters SPACE_NAME, USERNAME and NAMESPACE; "" when not passed.
  datatype Params = Params(space: string, user: string, ns: string)
  datatype Tier = Tier(templateRef: string, tierName: string, typeName: string,
                       process: Params -> Option<seq<Manifest>>)

  datatype ApiGroup = ApiGroup(name: string, versions: seq<string>)

  // What becomes of one call: done; refused without effect; or done while the caller sees an error.
  datatype Fate = Done | Refused | LostReply

  // `tiers`: TierTemplates on the host cluster. `keepNotes`: whether applying an existing object
  // keeps the annotations the manifest does not mention (the library decides, both are covered).
  // `order`: the positions in which sort.Slice puts roles that carry these references; the outcome of
  // the comparisons is all it goes by, and what it does with equal references is its own affair.
  datatype Env = Env(tiers: string -> Option<Tier>, groups: seq<ApiGroup>, keepNotes: bool,
                     order: seq<string> -> seq<nat>, fate: nat -> Fate)

  datatype Reason =
    | Provisioning | Updating | Provisioned | Terminating
    | UnableToProvision | UnableToProvisionNamespace | UnableToProvisionClusterResources
    | UnableToProvisionSpaceRoles | UpdateFailed | TerminatingFailed

  datatype Status = Status(cluster: Option<string>, features: seq<string>, namespaces: seq<string>,
                           roles: Option<seq<SpaceRole>>, provisioned: seq<string>, ready: Option<Reason>)

  // `cluster`, `namespaces`: template refs of the spec. `features`: the feature annotation, split at commas.
  datatype NSTemplateSet = NSTemplateSet(
    name: string, cluster: Option<string>, namespaces: seq<string>, roles: Option<seq<SpaceRole>>,
    features: Option<seq<string>>, finalizer: bool, deleting: bool, status: Status)

  // `saved` is the NSTemplateSet in the API server, `cur` the copy a reconcile works on.
  datatype State = State(objs: Objects, saved: NSTemplateSet, cur: NSTemplateSet, calls: nat)

  const NS_GVK := Gvk("", "v1", Namespace)
  const ROLE_GVK := Gvk("rbac.authorization.k8s.io", "v1", Role)
  const ROLE_BINDING_GVK := Gvk("rbac.authorization.k8s.io", "v1", RoleBinding)
  const CLUSTER_RESOURCES := "clusterresources"
  const PROVIDER := "codeready-toolchain"

  function NsKey(name: string): Key { Key(NS_GVK, "", name) }

  predicate SameGvkAndName(a: Manifest, b: Manifest) {
    a.key.gvk == b.key.gvk && a.key.name == b.key.name
  }

  predicate Matches(m: Manifest, ms: seq<Manifest>) {
    exists n :: n in ms && SameGvkAndName(m, n)
  }

  function Keys(ms: seq<Manifest>): set<Key> { set m | m in ms :: m.key }

  function LabelOf(labels: Labels, l: Label): string { if l in labels then labels[l] else "" }

  function At(objs: Objects, k: Key): Option<Object> { if k in objs then Some(objs[k]) else None }

  function Put(objs: Objects, k: Key, o: Option<Object>): Objects {
    if o.Some? then objs[k := o.value] else objs - {k}
  }

  function Tick(s: State): State { s.(calls := s.calls + 1) }

  function Read(e: Env, s: State): (State, bool) { (Tick(s), e.fate(s.calls).Done?) }

  // A call that leaves `objs` behind unless it is refused.
  function Write(e: Env, s: State, objs: Objects): (State, bool) {
    (Tick(s).(objs := if e.fate(s.calls).Refused? then s.objs else objs), e.fate(s.calls).Done?)
  }

  // What the host cluster has under a reference; the tier it yields carries that reference.
  function TierAt(e: Env, ref: string): Option<Tier> {
    match e.tiers(ref) case None => None case Some(t) => Some(t.(templateRef := ref))
  }

  // Get on the host cluster; an empty reference fails before any call.
  function GetTier(e: Env, s: State, ref: string): (State, Option<Tier>) {
    if ref == "" then (s, None)
    else (Tick(s), if e.fate(s.calls).Done? then TierAt(e, ref) else None)
  }

  // What a delete leaves: namespaces and held objects are only marked.
  function Remains(k: Key, o: Option<Object>): Option<Object> {
    if o.Some? && (k.gvk.kind.Namespace? || o.value.held)
    then Some(o.value.(terminating := true, active := false))
    else None
  }

  datatype DeleteResult = Deleted | NotFound | DeleteFailed

  function Delete(e: Env, s: State, k: Key): (State, DeleteResult) {
    var (s1, ok) := Write(e, s, Put(s.objs, k, Remains(k, At(s.objs, k))));
    (s1, if !ok then DeleteFailed else if k in s.objs then Deleted else NotFound)
  }

  // Update carries the resource version of the object read, so it fails on a changed object.
  function Update(e: Env, s: State, k: Key, was: Object, o: Object): (State, bool) {
    if At(s.objs, k) == Some(was) then Write(e, s, s.objs[k := o]) else (Tick(s), false)
  }

  // Namespaces that carry the space label, in name order. No object has an empty name.
  datatype Ns = Ns(name: string, obj: Object)

  predicate Owns(objs: Objects, space: string, name: string) {
    && name != ""
    && NsKey(name) in objs && Space in objs[NsKey(name)].labels && objs[NsKey(name)].labels[Space] == space
  }

  function OwnedNames(objs: Objects, space: string): (names: set<string>)
    ensures forall x :: x in names <==> Owns(objs, space, x)
  {
    var names := set k | k in objs && k == NsKey(k.name) && Owns(objs, space, k.name) :: k.name;
    assert forall x :: Owns(objs, space, x) ==> NsKey(x).name == x;
    names
  }

  function Listing(objs: Objects, names: seq<string>): (nss: seq<Ns>)
    requires forall x :: x in names ==> NsKey(x) in objs
    ensures |nss| == |names|
    ensures forall i :: 0 <= i < |nss| ==> nss[i] == Ns(names[i], objs[NsKey(names[i])])
  {
    if names == [] then []
    else [Ns(names[0], objs[NsKey(names[0])])] + Listing(objs, names[1..])
  }

  function Owned(objs: Objects, space: string): seq<Ns> {
    Listing(objs, SortedNames(OwnedNames(objs, space)))
  }

  predicate IsOwned(objs: Objects, space: string, n: Ns) {
    Owns(objs, space, n.name) && objs[NsKey(n.name)] == n.obj
  }

  lemma OwnedMembers(objs: Objects, space: string)
    ensures forall n :: n in Owned(objs, space) <==> IsOwned(objs, space, n)
  {
    var names := SortedNames(OwnedNames(objs, space));
    forall n ensures n in Owned(objs, space) <==> IsOwned(objs, space, n) {
      if IsOwned(objs, space, n) {
        var i :| 0 <= i < |names| && names[i] == n.name;
        assert Owned(objs, space)[i] == n;
      }
    }
  }
}
