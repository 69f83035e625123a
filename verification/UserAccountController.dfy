// The UserAccount controller as the program it is; each method is proved to do what its specification function says.
module UserAccountController {
  import opened Names
  import opened U = UserAccounts
  import Cluster

  class Reconciler {
    const e: Env
    var users: map<string, User>
    var identities: map<string, Identity>
    var settings: set<Setting>
    var saved: Account
    var cur: Account
    var calls: nat

    function View(): State
      reads this
    {
      State(users, identities, settings, saved, cur, calls)
    }

    constructor (e: Env, s: State)
      ensures this.e == e && View() == s
    {
      this.e, users, identities, settings := e, s.users, s.identities, s.settings;
      saved, cur, calls := s.saved, s.cur, s.calls;
    }

    // ---- Calls to the API server ----

    method Read() returns (ok: bool)
      modifies this`calls
      ensures (View(), ok) == U.Read(e, old(View()))
    {
      ok := e.fate(calls).Done?;
      calls := calls + 1;
    }

    method StoreUsers(changed: map<string, User>) returns (ok: bool)
      modifies this`users, this`calls
      ensures (View(), ok) == PutUsers(e, old(View()), changed)
    {
      if !e.fate(calls).Refused? { users := changed; }
      ok := e.fate(calls).Done?;
      calls := calls + 1;
    }

    method StoreIdentities(changed: map<string, Identity>) returns (ok: bool)
      modifies this`identities, this`calls
      ensures (View(), ok) == PutIdentities(e, old(View()), changed)
    {
      if !e.fate(calls).Refused? { identities := changed; }
      ok := e.fate(calls).Done?;
      calls := calls + 1;
    }

    method SaveUser(name: string, was: Option<User>, u: User) returns (ok: bool)
      modifies this`users, this`calls
      ensures (View(), ok) == U.SaveUser(e, old(View()), name, was, u)
    {
      if (if name in users then was == Some(users[name]) else was.None?) {
        ok := StoreUsers(users[name := u]);
      } else {
        calls := calls + 1;
        ok := false;
      }
    }

    method SaveIdentity(name: string, was: Option<Identity>, i: Identity) returns (ok: bool)
      modifies this`identities, this`calls
      ensures (View(), ok) == U.SaveIdentity(e, old(View()), name, was, i)
    {
      if (if name in identities then was == Some(identities[name]) else was.None?) {
        ok := StoreIdentities(identities[name := i]);
      } else {
        calls := calls + 1;
        ok := false;
      }
    }

    // console_usersettings.go: a resource that is not there counts as deleted.
    method DeleteResource(x: Setting) returns (ok: bool)
      modifies this`settings, this`calls
      ensures (View(), ok) == DropSetting(e, old(View()), x)
    {
      assert x !in settings ==> settings - {x} == settings;
      if x in settings && !e.fate(calls).Refused? { settings := settings - {x}; }
      ok := e.fate(calls).Done?;
      calls := calls + 1;
    }

    method SaveFinalizer(present: bool) returns (ok: bool)
      modifies this`saved, this`cur, this`calls
      ensures (View(), ok) == PutFinalizer(e, old(View()), present)
    {
      cur := cur.(finalizer := present);
      if !e.fate(calls).Refused? { saved := saved.(finalizer := present); }
      ok := e.fate(calls).Done?;
      calls := calls + 1;
    }

    method UpdateStatusConditions(r: Reason) returns (ok: bool)
      modifies this`saved, this`cur, this`calls
      ensures (View(), ok) == SetStatus(e, old(View()), r)
      ensures cur == old(cur).(ready := Some(r))
    {
      if cur.ready == Some(r) { return true; }
      ok := SaveStatus(r);
    }

    method SaveStatus(r: Reason) returns (ok: bool)
      modifies this`saved, this`cur, this`calls
      ensures (View(), ok) == PutStatus(e, old(View()).(cur := old(cur).(ready := Some(r))))
    {
      cur := cur.(ready := Some(r));
      if !e.fate(calls).Refused? { saved := saved.(ready := Some(r)); }
      ok := e.fate(calls).Done?;
      calls := calls + 1;
    }

    method WrapErrorWithStatusUpdate(r: Reason)
      modifies this`saved, this`cur, this`calls
      ensures View() == SetFailed(e, old(View()), r)
      ensures cur == old(cur).(ready := Some(r))
    {
      var _ := SaveStatus(r);
    }

    // ---- Labels, annotations, new objects ----

    // Reports a change for every User, because its annotations are never nil by then.
    method SetLabelsAndAnnotations(was: map<Tag, string>, wasNotes: Option<map<Note, string>>, a: Account, isUser: bool)
      returns (labels: map<Tag, string>, notes: Option<map<Note, string>>, changed: bool)
      ensures labels == Tagged(was, a)
      ensures isUser ==> notes == Some(Noted(wasNotes, a)) && changed
      ensures !isUser ==> notes == wasNotes && (changed <==> labels != was)
    {
      labels, notes, changed := was, wasNotes, false;
      if Provider !in labels { labels, changed := labels[Provider := Cluster.PROVIDER], true; }
      if Owner !in labels { labels, changed := labels[Owner := a.name], true; }
      if isUser {
        var all := NotesOf(notes);
        if Email !in all {
          all := all[Email := a.claims.email];
          notes, changed := Some(all), true;
        }
        var set_ := false;
        if a.claims.userId != "" && a.claims.accountId != "" {
          set_ := true;
          all := all[UserId := a.claims.userId][AccountId := a.claims.accountId];
          notes, changed := Some(all), true;
        }
        if !set_ && notes.Some? {
          all := all - {UserId, AccountId};
          notes, changed := Some(all), true;
        }
        assert notes.value == Noted(wasNotes, a);
      }
      assert labels == Tagged(was, a);
    }

    // The list newUser builds and the one ensureUser expects are built the same way.
    method IdentitiesOf(c: Claims) returns (names: seq<string>)
      ensures names == IdentityNames(e, Subjects(c))
    {
      names := [e.identityName(c.sub)];
      ghost var subjects := [c.sub];
      if c.originalSub != "" {
        NamesAppend(e, subjects, c.originalSub);
        names, subjects := names + [e.identityName(c.originalSub)], subjects + [c.originalSub];
      }
      if c.userId != "" && c.userId != c.sub {
        NamesAppend(e, subjects, c.userId);
        names, subjects := names + [e.identityName(c.userId)], subjects + [c.userId];
      }
      assert subjects == Subjects(c);
    }

    method NewUser(a: Account) returns (u: User)
      ensures u == U.NewUser(e, a, e.newUid)
    {
      var names := IdentitiesOf(a.claims);
      var labels, notes, _ := SetLabelsAndAnnotations(map[], None, a, true);
      u := User(e.newUid, labels, notes, names);
    }

    // ---- ensureUser ----

    method WriteUser(was: Option<User>, u: User, failure: Reason) returns (f: Found)
      modifies this
      ensures (View(), f) == U.WriteUser(e, old(View()), was, u, failure)
      ensures cur == old(cur).(ready := cur.ready)
    {
      var ok := UpdateStatusConditions(Provisioning);
      if !ok { return Found(None, Failed); }
      ok := SaveUser(cur.name, was, u);
      if !ok { WrapErrorWithStatusUpdate(failure); return Found(None, Failed); }
      ok := UpdateStatusConditions(Provisioning);
      f := Found(None, if ok then Changed else Failed);
    }

    method EnsureUser() returns (f: Found)
      modifies this
      ensures (View(), f) == U.EnsureUser(e, old(View()))
      ensures cur == old(cur).(ready := cur.ready)
    {
      var ok := Read();
      if !ok { WrapErrorWithStatusUpdate(UnableToCreateUser); return Found(None, Failed); }
      if cur.name !in users {
        var u := NewUser(cur);
        f := WriteUser(None, u, UnableToCreateUser);
        return;
      }
      f := RefreshUser(users[cur.name]);
    }

    method RefreshUser(was: User) returns (f: Found)
      modifies this
      ensures (View(), f) == U.RefreshUser(e, old(View()), was)
      ensures cur == old(cur).(ready := cur.ready)
    {
      var labels, notes, changed := SetLabelsAndAnnotations(was.labels, was.notes, cur, true);
      var u := was.(labels := labels, notes := notes);
      assert u == Labelled(was, cur) && changed;
      var saved := SaveUser(cur.name, Some(was), u);
      assert (View(), saved) == U.SaveUser(e, old(View()), old(cur).name, Some(was), u);
      var expected := IdentitiesOf(cur.claims);
      assert expected == Expected(e, cur);
      if expected == u.identities { return Found(Some(u), Unchanged); }
      f := WriteUser(Some(if saved then u else was), u.(identities := expected), UnableToCreateMapping);
    }

    // ---- ensureIdentity ----

    method WriteIdentity(name: string, was: Option<Identity>, i: Identity, failure: Reason) returns (p: Progress)
      modifies this
      ensures (View(), p) == U.WriteIdentity(e, old(View()), name, was, i, failure)
      ensures !p.Failed? ==> name in identities && identities[name] == i
      ensures cur == old(cur).(ready := cur.ready)
    {
      var ok := UpdateStatusConditions(Provisioning);
      if !ok { return Failed; }
      ghost var s1 := View();
      ok := SaveIdentity(name, was, i);
      assert (View(), ok) == U.SaveIdentity(e, s1, name, was, i);
      if !ok { WrapErrorWithStatusUpdate(failure); return Failed; }
      ok := UpdateStatusConditions(Provisioning);
      p := if ok then Changed else Failed;
    }

    method LoadIdentityAndEnsureMapping(subject: string, u: User) returns (p: Progress)
      modifies this
      ensures (View(), p) == EnsureMapping(e, old(View()), subject, u)
      ensures cur == old(cur).(ready := cur.ready)
      ensures !p.Failed? ==> var x := e.identityName(subject);
        x in identities && identities[x].user.name == cur.name && identities[x].user.uid == u.uid
    {
      var name := e.identityName(subject);
      var ok := Read();
      if !ok { WrapErrorWithStatusUpdate(UnableToCreateIdentity); return Failed; }
      if name !in identities {
        var labels, _, _ := SetLabelsAndAnnotations(map[], None, cur, false);
        p := WriteIdentity(name, None, Identity(labels, UserRef(cur.name, u.uid)), UnableToCreateIdentity);
        return;
      }
      p := RefreshIdentity(name, identities[name], UserRef(cur.name, u.uid));
    }

    method RefreshIdentity(name: string, was: Identity, ref: UserRef) returns (p: Progress)
      requires name in identities && identities[name] == was
      modifies this
      ensures (View(), p) == U.RefreshIdentity(e, old(View()), name, was, ref)
      ensures !p.Failed? ==> name in identities && identities[name].user == ref
      ensures cur == old(cur).(ready := cur.ready)
    {
      var labels, _, changed := SetLabelsAndAnnotations(was.labels, None, cur, false);
      var i, saved := was.(labels := labels), true;
      assert changed <==> i != was;
      if changed { saved := SaveIdentity(name, Some(was), i); }
      if i.user == ref { return Unchanged; }
      p := WriteIdentity(name, Some(if saved then i else was), i.(user := ref), UnableToCreateMapping);
    }

    method EnsureIdentity(u: User) returns (p: Progress)
      modifies this
      ensures (View(), p) == EnsureMappings(e, old(View()), Subjects(old(cur).claims), u)
    {
      var c := cur.claims;
      ghost var third := if c.userId != "" && c.userId != c.sub then [c.userId] else [];
      ghost var second := if c.originalSub != "" then [c.originalSub] + third else third;
      ghost var s0 := View();
      assert Subjects(c) == [c.sub] + second;
      FirstMapping(e, s0, c.sub, second, u);
      p := LoadIdentityAndEnsureMapping(c.sub, u);
      if !p.Unchanged? { return; }
      assert EnsureMappings(e, s0, Subjects(c), u) == EnsureMappings(e, View(), second, u);
      if c.originalSub != "" {
        FirstMapping(e, View(), c.originalSub, third, u);
        p := LoadIdentityAndEnsureMapping(c.originalSub, u);
        if !p.Unchanged? { return; }
      }
      assert EnsureMappings(e, s0, Subjects(c), u) == EnsureMappings(e, View(), third, u);
      if c.userId != "" && c.userId != c.sub {
        FirstMapping(e, View(), c.userId, [], u);
        p := LoadIdentityAndEnsureMapping(c.userId, u);
      }
    }

    // ---- deleteIdentityAndUser ----

    method DeleteIdentity() returns (p: Progress)
      modifies this
      ensures (View(), p) == U.DeleteIdentity(e, old(View()))
    {
      var owned := OwnedIdentities(View());
      var ok := Read();
      if !ok { return Failed; }
      if owned == {} { return Unchanged; }
      ok := StoreIdentities(identities - {FirstOf(e, owned)});
      p := if ok then Changed else Failed;
    }

    method DeleteUserResources(uid: string) returns (ok: bool)
      modifies this`settings, this`calls
      ensures (View(), ok) == DropSettings(e, old(View()), SettingsOf(uid))
    {
      assert SettingsOf(uid) == [ConfigMap(uid)] + [Role(uid), RoleBinding(uid)];
      FirstSetting(e, View(), ConfigMap(uid), [Role(uid), RoleBinding(uid)]);
      ok := DeleteResource(ConfigMap(uid));
      if !ok { return; }
      assert [Role(uid), RoleBinding(uid)] == [Role(uid)] + [RoleBinding(uid)];
      FirstSetting(e, View(), Role(uid), [RoleBinding(uid)]);
      ok := DeleteResource(Role(uid));
      if !ok { return; }
      assert [RoleBinding(uid)] == [RoleBinding(uid)] + [];
      FirstSetting(e, View(), RoleBinding(uid), []);
      ok := DeleteResource(RoleBinding(uid));
    }

    method DeleteUser() returns (p: Progress)
      modifies this
      ensures (View(), p) == U.DeleteUser(e, old(View()))
    {
      var owned := OwnedUsers(View());
      var ok := Read();
      if !ok { return Failed; }
      if owned == {} { return Unchanged; }
      var name := FirstOf(e, owned);
      ok := DeleteUserResources(users[name].uid);
      if !ok { return Failed; }
      ok := StoreUsers(users - {name});
      p := if ok then Changed else Failed;
    }

    method DeleteIdentityAndUser() returns (p: Progress)
      modifies this
      ensures (View(), p) == U.DeleteIdentityAndUser(e, old(View()))
    {
      p := DeleteIdentity();
      if p.Unchanged? { p := DeleteUser(); }
    }

    // ---- Reconcile ----

    method EnsureUserAndIdentity() returns (p: Progress)
      modifies this
      ensures (View(), p) == U.EnsureUserAndIdentity(e, old(View()))
    {
      if !e.skipUserCreation {
        var f := EnsureUser();
        p := f.progress;
        if f.user.Some? { p := EnsureIdentity(f.user.value); }
        return;
      }
      p := DeleteIdentityAndUser();
      p := AfterRedundant(p);
    }

    method AfterRedundant(q: Progress) returns (p: Progress)
      modifies this
      ensures (View(), p) == U.AfterRedundant(e, old(View()), q)
    {
      p := q;
      if q.Failed? { WrapErrorWithStatusUpdate(UnableToCreateUser); }
      if q.Changed? {
        var ok := UpdateStatusConditions(Provisioning);
        p := if ok then Changed else Failed;
      }
    }

    method Provide() returns (r: Result)
      modifies this
      ensures (View(), r) == U.Provide(e, old(View()))
    {
      var p := EnsureUserAndIdentity();
      if p.Failed? { return Error; }
      if p.Changed? { return Acted; }
      if cur.ready == Some(Updating) && e.recent { return Postponed; }
      var ok := UpdateStatusConditions(Provisioned);
      r := if ok then Settled else Error;
    }

    method Disable() returns (r: Result)
      modifies this
      ensures (View(), r) == U.Disable(e, old(View()))
    {
      var ok := UpdateStatusConditions(Disabling);
      if !ok { return Error; }
      var p := DeleteIdentityAndUser();
      if p.Failed? { WrapErrorWithStatusUpdate(Disabling); return Error; }
      if p.Changed? { return Acted; }
      ok := UpdateStatusConditions(Disabled);
      r := if ok then Settled else Error;
    }

    method EnsureUserAccountDeletion() returns (r: Result)
      modifies this
      ensures (View(), r) == Tear(e, old(View()))
    {
      if !cur.finalizer { return Settled; }
      var p := DeleteIdentityAndUser();
      r := AfterDeletion(p);
    }

    method AfterDeletion(p: Progress) returns (r: Result)
      modifies this
      ensures (View(), r) == U.AfterDeletion(e, old(View()), p)
    {
      if p.Failed? { WrapErrorWithStatusUpdate(Terminating); return Error; }
      if p.Changed? {
        var updated := UpdateStatusConditions(Terminating);
        return if updated then Acted else Error;
      }
      var ok := SaveFinalizer(false);
      if !ok { WrapErrorWithStatusUpdate(Terminating); return Error; }
      r := Settled;
    }

    method Reconcile() returns (r: Result)
      modifies this
      ensures (View(), r) == U.Reconcile(e, old(View()))
    {
      cur, calls := saved, 0;
      var ok := Read();
      if !ok { return Error; }
      if cur.deleting { r := EnsureUserAccountDeletion(); return; }
      if !cur.finalizer {
        ok := SaveFinalizer(true);
        if !ok { return Error; }
      }
      if cur.disabled { r := Disable(); } else { r := Provide(); }
    }
  }

  lemma FirstMapping(e: Env, s: State, subject: string, rest: seq<string>, u: User)
    ensures EnsureMappings(e, s, [subject] + rest, u) ==
      var (s1, p) := EnsureMapping(e, s, subject, u);
      if p.Unchanged? then EnsureMappings(e, s1, rest, u) else (s1, p)
  {
    assert ([subject] + rest)[0] == subject && ([subject] + rest)[1..] == rest;
  }

  lemma FirstSetting(e: Env, s: State, x: Setting, rest: seq<Setting>)
    ensures DropSettings(e, s, [x] + rest) ==
      var (s1, ok) := DropSetting(e, s, x);
      if ok then DropSettings(e, s1, rest) else (s1, false)
  {
    assert ([x] + rest)[0] == x && ([x] + rest)[1..] == rest;
  }

  lemma {:induction false} NamesAppend(e: Env, subjects: seq<string>, x: string)
    ensures IdentityNames(e, subjects + [x]) == IdentityNames(e, subjects) + [e.identityName(x)]
  {
    var names := IdentityNames(e, subjects + [x]);
    forall i | 0 <= i < |names| ensures names[i] == (IdentityNames(e, subjects) + [e.identityName(x)])[i] {
      assert i < |subjects| ==> (subjects + [x])[i] == subjects[i];
    }
  }
}
