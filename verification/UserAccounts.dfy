// A UserAccount and what it stands for on the member cluster: one User, the Identities that map to it, and the
// console settings OpenShift keeps for the User.
module UserAccounts {
  import opened Names
  import Cluster

  datatype Tag = Provider | Owner | OtherTag(name: string)
  datatype Note = Email | UserId | AccountId | OtherNote(name: string)

  // Annotations that are None are nil.
  datatype User = User(uid: string, labels: map<Tag, string>, notes: Option<map<Note, string>>, identities: seq<string>)
  datatype UserRef = UserRef(name: string, uid: string)
  datatype Identity = Identity(labels: map<Tag, string>, user: UserRef)

  // Console settings are named after the UID of their User: user-settings-<uid>, -role and -rolebinding added.
  datatype Setting = ConfigMap(uid: string) | Role(uid: string) | RoleBinding(uid: string)

  datatype Reason =
    | Provisioning | Updating | Provisioned | Disabling | Disabled | Terminating
    | UnableToCreateUser | UnableToCreateIdentity | UnableToCreateMapping

  datatype Claims = Claims(sub: string, originalSub: string, userId: string, accountId: string, email: string)
  datatype Account = Account(name: string, claims: Claims, disabled: bool, deleting: bool, finalizer: bool,
                             ready: Option<Reason>)

  // `saved` is the UserAccount in the API server, `cur` the copy a reconcile works on.
  datatype State = State(users: map<string, User>, identities: map<string, Identity>, settings: set<Setting>,
                         saved: Account, cur: Account, calls: nat)

  // `identityName` encodes a subject for the configured provider; `newUid` is what a User created now gets;
  // `first` is the head of an unsorted list; `recent`: the Ready condition changed within the last second.
  datatype Env = Env(identityName: string -> string, skipUserCreation: bool, newUid: string,
                     first: set<string> -> string, recent: bool, fate: nat -> Cluster.Fate)

  datatype Progress = Changed | Unchanged | Failed
  datatype Result = Error | Acted | Settled | Postponed

  // ---- Calls ----

  function Tick(s: State): State { s.(calls := s.calls + 1) }

  function Read(e: Env, s: State): (State, bool) { (Tick(s), e.fate(s.calls).Done?) }

  function PutUsers(e: Env, s: State, users: map<string, User>): (State, bool) {
    (Tick(s).(users := if e.fate(s.calls).Refused? then s.users else users), e.fate(s.calls).Done?)
  }

  function PutIdentities(e: Env, s: State, identities: map<string, Identity>): (State, bool) {
    (Tick(s).(identities := if e.fate(s.calls).Refused? then s.identities else identities), e.fate(s.calls).Done?)
  }

  function UserAt(s: State, name: string): Option<User> { if name in s.users then Some(s.users[name]) else None }

  function IdentityAt(s: State, name: string): Option<Identity> {
    if name in s.identities then Some(s.identities[name]) else None
  }

  // Create and Update fail when the object is no longer the one the caller has seen (None: no object).
  function SaveUser(e: Env, s: State, name: string, was: Option<User>, u: User): (State, bool) {
    if UserAt(s, name) == was then PutUsers(e, s, s.users[name := u]) else (Tick(s), false)
  }

  function SaveIdentity(e: Env, s: State, name: string, was: Option<Identity>, i: Identity): (State, bool) {
    if IdentityAt(s, name) == was then PutIdentities(e, s, s.identities[name := i]) else (Tick(s), false)
  }

  function DropSetting(e: Env, s: State, x: Setting): (State, bool) {
    (Tick(s).(settings := if e.fate(s.calls).Refused? then s.settings else s.settings - {x}), e.fate(s.calls).Done?)
  }

  function PutFinalizer(e: Env, s: State, present: bool): (State, bool) {
    (Tick(s).(cur := s.cur.(finalizer := present),
              saved := if e.fate(s.calls).Refused? then s.saved else s.saved.(finalizer := present)),
     e.fate(s.calls).Done?)
  }

  function PutStatus(e: Env, s: State): (State, bool) {
    (Tick(s).(saved := if e.fate(s.calls).Refused? then s.saved else s.saved.(ready := s.cur.ready)),
     e.fate(s.calls).Done?)
  }

  // No call when the condition is already there.
  function SetStatus(e: Env, s: State, r: Reason): (State, bool) {
    if s.cur.ready == Some(r) then (s, true) else PutStatus(e, s.(cur := s.cur.(ready := Some(r))))
  }

  // A failure condition carries the error; whether its own update works is only logged.
  function SetFailed(e: Env, s: State, r: Reason): State { PutStatus(e, s.(cur := s.cur.(ready := Some(r)))).0 }

  // ---- What the objects should look like ----

  // The subjects that need an identity, in the order of the User's list.
  function Subjects(c: Claims): seq<string> {
    [c.sub] + (if c.originalSub != "" then [c.originalSub] else [])
    + (if c.userId != "" && c.userId != c.sub then [c.userId] else [])
  }

  function IdentityNames(e: Env, subjects: seq<string>): (r: seq<string>)
    ensures |r| == |subjects| && forall i :: 0 <= i < |r| ==> r[i] == e.identityName(subjects[i])
  {
    if subjects == [] then [] else [e.identityName(subjects[0])] + IdentityNames(e, subjects[1..])
  }

  function Expected(e: Env, a: Account): seq<string> { IdentityNames(e, Subjects(a.claims)) }

  // Labels and annotations that exist already win, except the two SSO ids, which follow the claims.
  function Tagged(labels: map<Tag, string>, a: Account): map<Tag, string> {
    map[Provider := Cluster.PROVIDER, Owner := a.name] + labels
  }

  function NotesOf(notes: Option<map<Note, string>>): map<Note, string> { if notes.Some? then notes.value else map[] }

  function Noted(notes: Option<map<Note, string>>, a: Account): map<Note, string> {
    var all := map[Email := a.claims.email] + NotesOf(notes);
    if a.claims.userId != "" && a.claims.accountId != ""
    then all[UserId := a.claims.userId][AccountId := a.claims.accountId]
    else all - {UserId, AccountId}
  }

  function Labelled(u: User, a: Account): User { u.(labels := Tagged(u.labels, a), notes := Some(Noted(u.notes, a))) }

  function NewUser(e: Env, a: Account, uid: string): User { Labelled(User(uid, map[], None, Expected(e, a)), a) }

  function RefTo(a: Account, u: User): UserRef { UserRef(a.name, u.uid) }

  // ---- ensureUser ----

  datatype Found = Found(user: Option<User>, progress: Progress)

  // Writes the User between two status updates.
  function WriteUser(e: Env, s: State, was: Option<User>, u: User, failure: Reason): (State, Found) {
    var (s1, ok1) := SetStatus(e, s, Provisioning);
    if !ok1 then (s1, Found(None, Failed))
    else
      var (s2, ok2) := SaveUser(e, s1, s.cur.name, was, u);
      if !ok2 then (SetFailed(e, s2, failure), Found(None, Failed))
      else
        var (s3, ok3) := SetStatus(e, s2, Provisioning);
        (s3, Found(None, if ok3 then Changed else Failed))
  }

  function CreateUser(e: Env, s: State): (State, Found) {
    WriteUser(e, s, None, NewUser(e, s.cur, e.newUid), UnableToCreateUser)
  }

  function RefreshUser(e: Env, s: State, was: User): (State, Found) {
    var u := Labelled(was, s.cur);
    var (s1, saved) := SaveUser(e, s, s.cur.name, Some(was), u);
    if u.identities == Expected(e, s.cur) then (s1, Found(Some(u), Unchanged))
    else WriteUser(e, s1, Some(if saved then u else was), u.(identities := Expected(e, s.cur)), UnableToCreateMapping)
  }

  // An existing User is always written back with its labels and annotations; a failure of that is only logged.
  function EnsureUser(e: Env, s: State): (State, Found) {
    var (s1, ok) := Read(e, s);
    if !ok then (SetFailed(e, s1, UnableToCreateUser), Found(None, Failed))
    else if s.cur.name !in s.users then CreateUser(e, s1)
    else
      RefreshUser(e, s1, s.users[s.cur.name])
  }

  // ---- ensureIdentity ----

  // Writes one identity between two status updates.
  function WriteIdentity(e: Env, s: State, name: string, was: Option<Identity>, i: Identity, failure: Reason)
    : (State, Progress)
  {
    var (s1, ok1) := SetStatus(e, s, Provisioning);
    if !ok1 then (s1, Failed)
    else
      var (s2, ok2) := SaveIdentity(e, s1, name, was, i);
      if !ok2 then (SetFailed(e, s2, failure), Failed)
      else
        var (s3, ok3) := SetStatus(e, s2, Provisioning);
        (s3, if ok3 then Changed else Failed)
  }

  function RefreshIdentity(e: Env, s: State, name: string, was: Identity, ref: UserRef): (State, Progress) {
    var i := was.(labels := Tagged(was.labels, s.cur));
    var (s1, saved) := if i == was then (s, true) else SaveIdentity(e, s, name, Some(was), i);
    if i.user == ref then (s1, Unchanged)
    else WriteIdentity(e, s1, name, Some(if saved then i else was), i.(user := ref), UnableToCreateMapping)
  }

  function EnsureMapping(e: Env, s: State, subject: string, u: User): (State, Progress) {
    var name := e.identityName(subject);
    var (s1, ok) := Read(e, s);
    if !ok then (SetFailed(e, s1, UnableToCreateIdentity), Failed)
    else if name !in s.identities then
      WriteIdentity(e, s1, name, None, Identity(Tagged(map[], s.cur), RefTo(s.cur, u)), UnableToCreateIdentity)
    else
      RefreshIdentity(e, s1, name, s.identities[name], RefTo(s.cur, u))
  }

  function EnsureMappings(e: Env, s: State, subjects: seq<string>, u: User): (State, Progress)
    decreases |subjects|
  {
    if subjects == [] then (s, Unchanged)
    else
      var (s1, p) := EnsureMapping(e, s, subjects[0], u);
      if p.Unchanged? then EnsureMappings(e, s1, subjects[1..], u) else (s1, p)
  }

  // ---- deleteIdentityAndUser ----

  function OwnedIdentities(s: State): set<string> {
    set k | k in s.identities && Owner in s.identities[k].labels && s.identities[k].labels[Owner] == s.cur.name
  }

  function OwnedUsers(s: State): set<string> {
    set k | k in s.users && Owner in s.users[k].labels && s.users[k].labels[Owner] == s.cur.name
  }

  function FirstOf(e: Env, names: set<string>): (x: string)
    requires names != {}
    ensures x in names
  {
    if e.first(names) in names then e.first(names) else Least(names)
  }

  function SettingsOf(uid: string): seq<Setting> {
    [ConfigMap(uid), Role(uid), RoleBinding(uid)]
  }

  function DropSettings(e: Env, s: State, xs: seq<Setting>): (State, bool)
    decreases |xs|
  {
    if xs == [] then (s, true)
    else
      var (s1, ok) := DropSetting(e, s, xs[0]);
      if ok then DropSettings(e, s1, xs[1..]) else (s1, false)
  }

  function DeleteIdentity(e: Env, s: State): (State, Progress) {
    var (s1, ok) := Read(e, s);
    if !ok then (s1, Failed)
    else if OwnedIdentities(s) == {} then (s1, Unchanged)
    else
      var (s2, deleted) := PutIdentities(e, s1, s1.identities - {FirstOf(e, OwnedIdentities(s))});
      (s2, if deleted then Changed else Failed)
  }

  function DeleteUser(e: Env, s: State): (State, Progress) {
    var (s1, ok) := Read(e, s);
    if !ok then (s1, Failed)
    else if OwnedUsers(s) == {} then (s1, Unchanged)
    else
      var name := FirstOf(e, OwnedUsers(s));
      var (s2, dropped) := DropSettings(e, s1, SettingsOf(s.users[name].uid));
      if !dropped then (s2, Failed)
      else
        var (s3, deleted) := PutUsers(e, s2, s2.users - {name});
        (s3, if deleted then Changed else Failed)
  }

  function DeleteIdentityAndUser(e: Env, s: State): (State, Progress) {
    var (s1, p) := DeleteIdentity(e, s);
    if p.Unchanged? then DeleteUser(e, s1) else (s1, p)
  }

  // ---- Reconcile ----

  function ResultOf(ok: bool, r: Result): Result { if ok then r else Error }

  function AfterRedundant(e: Env, s: State, p: Progress): (State, Progress) {
    match p
    case Failed => (SetFailed(e, s, UnableToCreateUser), Failed)
    case Unchanged => (s, Unchanged)
    case Changed => var (s1, ok) := SetStatus(e, s, Provisioning); (s1, if ok then Changed else Failed)
  }

  function EnsureUserAndIdentity(e: Env, s: State): (State, Progress) {
    if !e.skipUserCreation then
      var (s1, f) := EnsureUser(e, s);
      if f.user.None? then (s1, f.progress) else EnsureMappings(e, s1, Subjects(s.cur.claims), f.user.value)
    else
      var (s1, p) := DeleteIdentityAndUser(e, s);
      AfterRedundant(e, s1, p)
  }

  function Conclude(e: Env, s: State, p: Progress): (State, Result) {
    match p
    case Failed => (s, Error)
    case Changed => (s, Acted)
    case Unchanged =>
      if s.cur.ready == Some(Updating) && e.recent then (s, Postponed)
      else var (s1, ok) := SetStatus(e, s, Provisioned); (s1, ResultOf(ok, Settled))
  }

  function Provide(e: Env, s: State): (State, Result) {
    var (s1, p) := EnsureUserAndIdentity(e, s);
    Conclude(e, s1, p)
  }

  function AfterDisabling(e: Env, s: State, p: Progress): (State, Result) {
    match p
    case Failed => (SetFailed(e, s, Disabling), Error)
    case Changed => (s, Acted)
    case Unchanged => var (s1, ok) := SetStatus(e, s, Disabled); (s1, ResultOf(ok, Settled))
  }

  function Disable(e: Env, s: State): (State, Result) {
    var (s1, ok1) := SetStatus(e, s, Disabling);
    if !ok1 then (s1, Error)
    else
      var (s2, p) := DeleteIdentityAndUser(e, s1);
      AfterDisabling(e, s2, p)
  }

  function AfterDeletion(e: Env, s: State, p: Progress): (State, Result) {
    match p
    case Failed => (SetFailed(e, s, Terminating), Error)
    case Changed => var (s1, ok) := SetStatus(e, s, Terminating); (s1, ResultOf(ok, Acted))
    case Unchanged =>
      var (s1, ok) := PutFinalizer(e, s, false);
      if ok then (s1, Settled) else (SetFailed(e, s1, Terminating), Error)
  }

  function Tear(e: Env, s: State): (State, Result) {
    if !s.cur.finalizer then (s, Settled)
    else
      var (s1, p) := DeleteIdentityAndUser(e, s);
      AfterDeletion(e, s1, p)
  }

  function AddFinalizer(e: Env, s: State): (State, bool) {
    if s.cur.finalizer then (s, true) else PutFinalizer(e, s, true)
  }

  function Serve(e: Env, s: State): (State, Result) {
    var (s1, ok) := AddFinalizer(e, s);
    if !ok then (s1, Error) else if s.cur.disabled then Disable(e, s1) else Provide(e, s1)
  }

  function Start(s: State): State { s.(cur := s.saved, calls := 0) }

  function Reconcile(e: Env, s: State): (State, Result) {
    var (s1, ok) := Read(e, Start(s));
    if !ok then (s1, Error) else if s1.cur.deleting then Tear(e, s1) else Serve(e, s1)
  }
}
