// Space roles: the objects each user gets in each namespace, with the last-applied list kept as an annotation.
module SpaceRoles {
  import opened Names
  import opened Cluster
  import opened Applying
  import opened Statuses
  import opened Namespaces

  type Roles = Option<seq<SpaceRole>>

  // The last-applied roles; an absent or empty annotation reads as nil, other text does not decode.
  function LastApplied(o: Object): Option<Roles> {
    if LastAppliedSpaceRoles !in o.notes then Some(None)
    else match o.notes[LastAppliedSpaceRoles]
      case RolesJson(roles) => Some(roles)
      case Text(text) => if text == "" then Some(None) else None
  }

  function Annotated(o: Object, roles: Roles): Object {
    o.(notes := o.notes[LastAppliedSpaceRoles := RolesJson(roles)])
  }

  function Items(roles: Roles): seq<SpaceRole> { if roles.Some? then roles.value else [] }

  function UserObjects(t: Tier, n: string, users: seq<string>): Option<seq<Manifest>> {
    if users == [] then Some([])
    else
      var objs := t.process(Params("", users[0], n));
      var rest := UserObjects(t, n, users[1..]);
      if objs.None? || rest.None? then None else Some(objs.value + rest.value)
  }

  // What the template generates for one of the users.
  predicate ForSome(t: Tier, n: string, users: seq<string>, m: Manifest) {
    exists u :: u in users && t.process(Params("", u, n)).Some? && m in t.process(Params("", u, n)).value
  }

  // Everything for each of the users, and nothing if the template cannot be processed for one of them.
  lemma {:induction false} UserObjectsAre(t: Tier, n: string, users: seq<string>)
    ensures UserObjects(t, n, users).Some? <==> forall u :: u in users ==> t.process(Params("", u, n)).Some?
    ensures UserObjects(t, n, users).Some? ==>
      forall m :: m in UserObjects(t, n, users).value <==> ForSome(t, n, users, m)
  {
    if users != [] {
      var u, rest := users[0], users[1..];
      UserObjectsAre(t, n, rest);
      assert users == [u] + rest;
      if UserObjects(t, n, users).Some? {
        forall m ensures m in UserObjects(t, n, users).value <==> ForSome(t, n, users, m) {
          assert ForSome(t, n, users, m) <==> m in t.process(Params("", u, n)).value || ForSome(t, n, rest, m);
        }
      }
    }
  }

  function RoleObjects(e: Env, s: State, n: string, roles: seq<SpaceRole>): (State, Option<seq<Manifest>>)
    decreases |roles|
  {
    if roles == [] then (s, Some([]))
    else
      var (s1, t) := GetTier(e, s, roles[0].templateRef);
      if t.None? then (s1, None)
      else
        var objs := UserObjects(t.value, n, roles[0].usernames);
        if objs.None? then (s1, None)
        else
          var (s2, rest) := RoleObjects(e, s1, n, roles[1..]);
          (s2, if rest.None? then None else Some(objs.value + rest.value))
  }

  // Apply the new objects, drop the old ones no longer generated, record what was applied.
  function Switch(e: Env, s: State, n: Ns, last: Roles, olds: seq<Manifest>, news: seq<Manifest>): (State, Progress) {
    var (s1, applied) := ApplyAll(e, s, news, InnerLabels(s.cur.name));
    if !applied then (SetFailed(e, s1, UnableToProvisionNamespace), Failed)
    else
      var (s2, swept) := DeleteObsolete(e, s1, olds, news);
      if !swept then (SetFailed(e, s2, UpdateFailed), Failed)
      else if s.cur.roles == last then (s2, Unchanged)
      else
        var (s3, ok) := Update(e, s2, NsKey(n.name), n.obj, Annotated(n.obj, s.cur.roles));
        if ok then (s3, Changed) else (SetFailed(e, s3, UnableToProvision), Failed)
  }

  function Exchange(e: Env, s: State, n: Ns, last: Roles): (State, Progress) {
    var (s1, olds) := RoleObjects(e, s, n.name, Items(last));
    if olds.None? then (SetRolesFailed(e, s1), Failed)
    else
      var (s2, news) := RoleObjects(e, s1, n.name, Items(s.cur.roles));
      if news.None? then (SetRolesFailed(e, s2), Failed)
      else Switch(e, s2, n, last, olds.value, news.value)
  }

  function EnsureIn(e: Env, s: State, n: Ns): (State, Progress) {
    var last := LastApplied(n.obj);
    if last.None? then (s, Failed)
    else
      var (s1, ok) := if s.cur.roles != last.value then SetUpdatingIfNotProvisioning(e, s) else (s, true);
      if !ok then (s1, Failed) else Exchange(e, s1, n, last.value)
  }

  function EnsureEach(e: Env, s: State, nss: seq<Ns>): (State, Progress)
    decreases |nss|
  {
    if nss == [] then (s, Unchanged)
    else
      var (s1, p) := EnsureIn(e, s, nss[0]);
      if !p.Unchanged? then (s1, p) else EnsureEach(e, s1, nss[1..])
  }

  function Ensure(e: Env, s: State): (State, Progress) {
    var (s1, ok) := Read(e, s);
    if !ok then (SetFailed(e, s1, UnableToProvision), Failed)
    else EnsureEach(e, s1, Owned(s.objs, s.cur.name))
  }

  // ---- updateStatusSpaceRolesRevisions ----

  function RefsOf(roles: seq<SpaceRole>): (refs: seq<string>)
    ensures |refs| == |roles| && forall i :: 0 <= i < |refs| ==> refs[i] == roles[i].templateRef
  {
    if roles == [] then [] else [roles[0].templateRef] + RefsOf(roles[1..])
  }

  function UpTo(n: nat): seq<nat> { seq(n, i => i) }

  predicate Below(p: seq<nat>, n: nat) { forall i :: 0 <= i < |p| ==> p[i] < n }

  predicate Permutes(p: seq<nat>, n: nat) { |p| == n && Below(p, n) && multiset(p) == multiset(UpTo(n)) }

  function Picked(roles: seq<SpaceRole>, p: seq<nat>): (r: seq<SpaceRole>)
    requires Below(p, |roles|)
    ensures |r| == |p| && forall i :: 0 <= i < |r| ==> r[i] == roles[p[i]]
  {
    if p == [] then [] else [roles[p[0]]] + Picked(roles, p[1..])
  }

  // sort.Slice by template reference.
  function Arrange(e: Env, roles: seq<SpaceRole>): seq<SpaceRole> {
    var p := e.order(RefsOf(roles));
    if Permutes(p, |roles|) then Picked(roles, p) else roles
  }

  function SortedUsers(roles: seq<SpaceRole>): seq<SpaceRole> {
    if roles == [] then []
    else [SpaceRole(roles[0].templateRef, SortedList(roles[0].usernames))] + SortedUsers(roles[1..])
  }

  // The comparison: both lists sorted by reference, and the usernames of each entry sorted.
  predicate Alike(e: Env, a: Roles, b: Roles) {
    SortedUsers(Arrange(e, Items(a))) == SortedUsers(Arrange(e, Items(b)))
  }

  function SortedRoles(roles: Roles): Roles { if roles.Some? then Some(SortedUsers(roles.value)) else None }

  // The usernames reach the status sorted, because the comparison sorts them in place.
  function UpdateRevision(e: Env, s: State): (State, bool) {
    RecordRoles(e, s, SortedRoles(s.cur.roles), SortedRoles(s.cur.status.roles),
                Alike(e, s.cur.roles, s.cur.status.roles))
  }

  function RecordRoles(e: Env, s: State, spec: Roles, status: Roles, same: bool): (State, bool) {
    var t := s.cur.(roles := spec, status := s.cur.status.(roles := status));
    if same then (s.(cur := t), true) else PutStatus(e, s.(cur := t.(status := t.status.(roles := t.roles))))
  }
}
