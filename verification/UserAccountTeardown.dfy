// Deleting what belongs to a UserAccount: Identities first, then Users, then the finalizer; one object per reconcile.
module UserAccountTeardown {
  import opened Names
  import opened UserAccounts
  import opened UserAccountRuns

  predicate OwnedBy(labels: map<Tag, string>, a: Account) { Owner in labels && labels[Owner] == a.name }

  function Remaining(s: State): nat { |OwnedIdentities(s)| + |OwnedUsers(s)| }

  // ---- What any reconcile may delete, whatever fails ----

  // From s to s1 no object without the owner label went, and a User only if no owned Identity was left.
  ghost predicate Orderly(s: State, s1: State) {
    && s1.cur.name == s.cur.name && s1.cur.claims == s.cur.claims
    && (forall k :: k in s.identities && k !in s1.identities ==> OwnedBy(s.identities[k].labels, s.cur))
    && (forall k :: k in s.users && k !in s1.users ==>
        && OwnedBy(s.users[k].labels, s.cur) && OwnedIdentities(s) == {}
        && forall x :: x in SettingsOf(s.users[k].uid) ==> x !in s1.settings)
  }

  // The finalizer and the Disabled status: only once nothing is left.
  ghost predicate Closed(s: State, s1: State) {
    && (s.saved.finalizer && !s1.saved.finalizer ==> Remaining(s1) == 0)
    && (s.saved.ready != Some(Disabled) && s1.saved.ready == Some(Disabled) ==> Remaining(s1) == 0)
  }

  lemma {:induction false} DropSettingsFacts(e: Env, s: State, xs: seq<Setting>)
    ensures var (s1, ok) := DropSettings(e, s, xs);
      && s1 == s.(settings := s1.settings, calls := s1.calls) && s1.settings <= s.settings
      && (ok ==> forall x :: x in xs ==> x !in s1.settings)
      && (NoFaults(e) ==> ok)
    decreases |xs|
  {
    if xs != [] {
      DropSettingsFacts(e, DropSetting(e, s, xs[0]).0, xs[1..]);
    }
  }

  // What one round of deletion does to the stores.
  lemma DeletionFacts(e: Env, s: State)
    ensures var (s1, p) := DeleteIdentityAndUser(e, s);
      && s1.saved == s.saved && s1.cur == s.cur && Orderly(s, s1)
      && (p.Unchanged? ==> Remaining(s1) == 0)
      && (forall k :: k in s1.identities ==> k in s.identities && s1.identities[k] == s.identities[k])
      && (forall k :: k in s1.users ==> k in s.users && s1.users[k] == s.users[k])
  {
    var (s1, p) := DeleteIdentity(e, s);
    if p.Unchanged? {
      assert OwnedIdentities(s1) == OwnedIdentities(s) == {} && OwnedUsers(s1) == OwnedUsers(s);
      if OwnedUsers(s1) != {} {
        var name := FirstOf(e, OwnedUsers(s1));
        DropSettingsFacts(e, Tick(s1), SettingsOf(s1.users[name].uid));
        var s2 := DropSettings(e, Tick(s1), SettingsOf(s1.users[name].uid)).0;
        PutUsersFacts(e, s2, name);
      } else {
        var s2 := DeleteUser(e, s1).0;
        assert OwnedIdentities(s2) == {} && OwnedUsers(s2) == {};
      }
    }
  }

  lemma PutUsersFacts(e: Env, s: State, name: string)
    ensures var s1 := PutUsers(e, s, s.users - {name}).0;
      && s1.settings == s.settings && s1.identities == s.identities && s1.saved == s.saved && s1.cur == s.cur
      && (forall k :: k in s.users && k !in s1.users ==> k == name)
      && (forall k :: k in s1.users ==> k in s.users && s1.users[k] == s.users[k])
  {}

  // ---- Writes of Users, Identities and conditions never delete any ----

  // Nothing gone, and neither the finalizer nor a Disabled condition newly written.
  ghost predicate Grown(s: State, s1: State) {
    && (forall k :: k in s.identities ==> k in s1.identities)
    && (forall k :: k in s.users ==> k in s1.users)
    && s1.settings == s.settings
    && s1.cur == s.cur.(ready := s1.cur.ready)
    && s1.saved == s.saved.(ready := s1.saved.ready)
    && (s1.cur.ready == Some(Disabled) ==> s.cur.ready == Some(Disabled))
    && (s1.saved.ready == Some(Disabled) ==> s.saved.ready == Some(Disabled) || s.cur.ready == Some(Disabled))
  }

  lemma GrownTwice(s: State, s1: State, s2: State)
    requires Grown(s, s1) && Grown(s1, s2)
    ensures Grown(s, s2)
  {}

  lemma StatusKeeps(e: Env, s: State, r: Reason)
    requires r != Disabled
    ensures Grown(s, SetStatus(e, s, r).0) && Grown(s, SetFailed(e, s, r))
  {}

  lemma WriteIdentityKeeps(e: Env, s: State, name: string, was: Option<Identity>, i: Identity, failure: Reason)
    requires failure != Disabled
    ensures Grown(s, WriteIdentity(e, s, name, was, i, failure).0)
  {
    var s1 := SetStatus(e, s, Provisioning).0;
    var s2 := SaveIdentity(e, s1, name, was, i).0;
    StatusKeeps(e, s, Provisioning);
    assert Grown(s1, s2);
    GrownTwice(s, s1, s2);
    AfterWrite(e, s, s2, failure);
  }

  lemma WriteUserKeeps(e: Env, s: State, was: Option<User>, u: User, failure: Reason)
    requires failure != Disabled
    ensures Grown(s, WriteUser(e, s, was, u, failure).0)
  {
    var s1 := SetStatus(e, s, Provisioning).0;
    var s2 := SaveUser(e, s1, s.cur.name, was, u).0;
    StatusKeeps(e, s, Provisioning);
    assert Grown(s1, s2);
    GrownTwice(s, s1, s2);
    AfterWrite(e, s, s2, failure);
  }

  lemma AfterWrite(e: Env, s: State, s2: State, failure: Reason)
    requires failure != Disabled && Grown(s, s2)
    ensures Grown(s, SetStatus(e, s2, Provisioning).0) && Grown(s, SetFailed(e, s2, failure))
  {
    StatusKeeps(e, s2, Provisioning);
    StatusKeeps(e, s2, failure);
    GrownTwice(s, s2, SetStatus(e, s2, Provisioning).0);
    GrownTwice(s, s2, SetFailed(e, s2, failure));
  }

  lemma MappingKeeps(e: Env, s: State, subject: string, u: User)
    ensures Grown(s, EnsureMapping(e, s, subject, u).0)
  {
    var name, s1 := e.identityName(subject), Tick(s);
    StatusKeeps(e, s1, UnableToCreateIdentity);
    if name !in s.identities {
      WriteIdentityKeeps(e, s1, name, None, Identity(Tagged(map[], s.cur), RefTo(s.cur, u)), UnableToCreateIdentity);
    } else {
      RefreshIdentityKeeps(e, s1, name, s.identities[name], RefTo(s.cur, u));
    }
  }

  lemma RefreshIdentityKeeps(e: Env, s: State, name: string, was: Identity, ref: UserRef)
    ensures Grown(s, RefreshIdentity(e, s, name, was, ref).0)
  {
    var i := was.(labels := Tagged(was.labels, s.cur));
    var (s1, saved) := if i == was then (s, true) else SaveIdentity(e, s, name, Some(was), i);
    assert Grown(s, s1);
    if i.user != ref {
      WriteIdentityKeeps(e, s1, name, Some(if saved then i else was), i.(user := ref), UnableToCreateMapping);
      GrownTwice(s, s1, RefreshIdentity(e, s, name, was, ref).0);
    }
  }

  lemma UserKeeps(e: Env, s: State)
    ensures Grown(s, EnsureUser(e, s).0)
  {
    var name, s1 := s.cur.name, Tick(s);
    StatusKeeps(e, s1, UnableToCreateUser);
    if name !in s.users {
      WriteUserKeeps(e, s1, None, NewUser(e, s.cur, e.newUid), UnableToCreateUser);
    } else {
      RefreshUserKeeps(e, s1, s.users[name]);
    }
  }

  lemma RefreshUserKeeps(e: Env, s: State, was: User)
    ensures Grown(s, RefreshUser(e, s, was).0)
  {
    var u := Labelled(was, s.cur);
    var (s1, saved) := SaveUser(e, s, s.cur.name, Some(was), u);
    assert Grown(s, s1);
    if u.identities != Expected(e, s.cur) {
      WriteUserKeeps(e, s1, Some(if saved then u else was), u.(identities := Expected(e, s.cur)),
                     UnableToCreateMapping);
      GrownTwice(s, s1, RefreshUser(e, s, was).0);
    }
  }

  lemma {:induction false} MappingsKeep(e: Env, s: State, subjects: seq<string>, u: User)
    ensures Grown(s, EnsureMappings(e, s, subjects, u).0)
    decreases |subjects|
  {
    if subjects != [] {
      var s1 := EnsureMapping(e, s, subjects[0], u).0;
      MappingKeeps(e, s, subjects[0], u);
      MappingsKeep(e, s1, subjects[1..], u);
      GrownTwice(s, s1, EnsureMappings(e, s1, subjects[1..], u).0);
    }
  }

  // ---- Any reconcile, whatever fails ----

  // Same objects, for the same account.
  ghost predicate SameObjects(s: State, s1: State) {
    && s1.users == s.users && s1.identities == s.identities && s1.settings == s.settings
    && s1.cur.name == s.cur.name && s1.cur.claims == s.cur.claims
  }

  lemma SameRemaining(s: State, s1: State)
    requires SameObjects(s, s1)
    ensures OwnedIdentities(s1) == OwnedIdentities(s) && OwnedUsers(s1) == OwnedUsers(s)
  {}

  lemma StillOrderly(s: State, s1: State, s2: State, s3: State)
    requires SameObjects(s, s1) && Orderly(s1, s2) && SameObjects(s2, s3)
    ensures Orderly(s, s3) && Remaining(s3) == Remaining(s2)
  {
    SameRemaining(s, s1);
    SameRemaining(s2, s3);
  }

  // From any state and with any faults: only owned objects are deleted, no User while an owned Identity remains,
  // its console settings before it; the finalizer goes, and Disabled is written, only when nothing owned is left.
  lemma ReconcileIsOrderly(e: Env, s: State)
    ensures var s1 := Reconcile(e, s).0; Orderly(Start(s), s1) && Closed(s, s1)
  {
    var s0 := Tick(Start(s));
    if s.saved.deleting {
      TearIsOrderly(e, s0);
    } else {
      var (s1, ok) := AddFinalizer(e, s0);
      SameRemaining(s0, s1);
      if s.saved.disabled { DisableIsOrderly(e, s1); } else { ProvideIsOrderly(e, s1); }
    }
  }

  lemma TearIsOrderly(e: Env, s: State)
    requires s.cur.ready == s.saved.ready
    ensures var s1 := Tear(e, s).0; Orderly(s, s1) && Closed(s, s1)
  {
    if s.cur.finalizer {
      var (s1, p) := DeleteIdentityAndUser(e, s);
      DeletionFacts(e, s);
      ThenTear(e, s, s1, p);
    }
  }

  lemma ThenTear(e: Env, s: State, s1: State, p: Progress)
    requires Orderly(s, s1) && s1.saved == s.saved && s1.cur == s.cur && s.cur.ready == s.saved.ready
    requires p.Unchanged? ==> Remaining(s1) == 0
    ensures var s2 := AfterDeletion(e, s1, p).0; Orderly(s, s2) && Closed(s, s2)
  {
    StillOrderly(s, s, s1, AfterDeletion(e, s1, p).0);
    StatusKeeps(e, s1, Terminating);
  }

  lemma DisableIsOrderly(e: Env, s: State)
    ensures var s1 := Disable(e, s).0; Orderly(s, s1) && Closed(s, s1)
  {
    var (s1, ok) := SetStatus(e, s, Disabling);
    StatusKeeps(e, s, Disabling);
    if ok {
      var (s2, p) := DeleteIdentityAndUser(e, s1);
      DeletionFacts(e, s1);
      ThenDisable(e, s, s1, s2, p);
    }
  }

  lemma ThenDisable(e: Env, s: State, s1: State, s2: State, p: Progress)
    requires SameObjects(s, s1) && s1.saved == s.saved.(ready := s1.saved.ready) && s1.cur.ready == Some(Disabling)
    requires Orderly(s1, s2) && s2.saved == s1.saved && s2.cur == s1.cur
    requires s1.saved.ready == Some(Disabled) ==> s.saved.ready == Some(Disabled)
    requires p.Unchanged? ==> Remaining(s2) == 0
    ensures var s3 := AfterDisabling(e, s2, p).0; Orderly(s, s3) && Closed(s, s3)
  {
    StatusKeeps(e, s2, Disabling);
    StillOrderly(s, s1, s2, AfterDisabling(e, s2, p).0);
  }

  lemma ProvideIsOrderly(e: Env, s: State)
    requires s.cur.ready == s.saved.ready
    ensures var s1 := Provide(e, s).0; Orderly(s, s1) && Closed(s, s1)
  {
    var (s2, p) := EnsureUserAndIdentity(e, s);
    if e.skipUserCreation {
      var (s1, q) := DeleteIdentityAndUser(e, s);
      DeletionFacts(e, s);
      ThenRedundant(e, s, s1, q);
    } else {
      UserKeeps(e, s);
      var (s1, f) := EnsureUser(e, s);
      if f.user.Some? {
        MappingsKeep(e, s1, Subjects(s.cur.claims), f.user.value);
        GrownTwice(s, s1, s2);
      }
      ThenConclude(e, s, s2, p);
    }
  }

  lemma AfterRedundantKeeps(e: Env, s: State, q: Progress)
    ensures Grown(s, AfterRedundant(e, s, q).0)
  {
    StatusKeeps(e, s, UnableToCreateUser);
    StatusKeeps(e, s, Provisioning);
  }

  lemma ConcludeKeeps(e: Env, s: State, p: Progress)
    ensures Grown(s, Conclude(e, s, p).0)
  {
    StatusKeeps(e, s, Provisioned);
  }

  lemma ThenRedundant(e: Env, s: State, s1: State, q: Progress)
    requires Orderly(s, s1) && s1.saved == s.saved && s1.cur == s.cur && s.cur.ready == s.saved.ready
    ensures var (s2, p) := AfterRedundant(e, s1, q); var s3 := Conclude(e, s2, p).0; Orderly(s, s3) && Closed(s, s3)
  {
    var (s2, p) := AfterRedundant(e, s1, q);
    AfterRedundantKeeps(e, s1, q);
    ConcludeKeeps(e, s2, p);
    StillOrderly(s, s, s1, Conclude(e, s2, p).0);
  }

  lemma ThenConclude(e: Env, s: State, s1: State, p: Progress)
    requires Grown(s, s1) && s.cur.ready == s.saved.ready
    ensures var s2 := Conclude(e, s1, p).0; Orderly(s, s2) && Closed(s, s2)
  {
    ConcludeKeeps(e, s1, p);
    GrownTwice(s, s1, Conclude(e, s1, p).0);
  }

  // ---- How many reconciles it takes ----

  // Without faults, one round deletes exactly one owned object as long as there is one.
  lemma DeletionStep(e: Env, s: State)
    requires NoFaults(e)
    ensures var (s1, p) := DeleteIdentityAndUser(e, s);
      && !p.Failed? && (p.Unchanged? <==> Remaining(s) == 0)
      && Remaining(s1) == (if Remaining(s) == 0 then 0 else Remaining(s) - 1)
      && s1.saved == s.saved && s1.cur == s.cur
  {
    DeletionFacts(e, s);
    var ids, users := OwnedIdentities(s), OwnedUsers(s);
    if ids != {} {
      var s1 := DeleteIdentity(e, s).0;
      assert OwnedIdentities(s1) == ids - {FirstOf(e, ids)} && OwnedUsers(s1) == users;
    } else {
      UserDeletionStep(e, Tick(s));
      assert OwnedIdentities(Tick(s)) == ids && OwnedUsers(Tick(s)) == users;
    }
  }

  lemma UserDeletionStep(e: Env, s: State)
    requires NoFaults(e)
    ensures var (s1, p) := DeleteUser(e, s);
      && !p.Failed? && (p.Unchanged? <==> OwnedUsers(s) == {})
      && |OwnedUsers(s1)| == (if OwnedUsers(s) == {} then 0 else |OwnedUsers(s)| - 1)
      && OwnedIdentities(s1) == OwnedIdentities(s)
  {
    var users, s1 := OwnedUsers(s), DeleteUser(e, s).0;
    if users != {} {
      var name := FirstOf(e, users);
      var s2 := DropSettings(e, Tick(s), SettingsOf(s.users[name].uid)).0;
      DropSettingsFacts(e, Tick(s), SettingsOf(s.users[name].uid));
      assert s1.users == s.users - {name};
      assert OwnedUsers(s1) == users - {name};
    } else {
      assert OwnedUsers(s1) == {};
    }
  }

  // Without faults, a reconcile of a deleted account deletes exactly one owned object, or removes the finalizer.
  lemma TeardownStep(e: Env, s: State)
    requires NoFaults(e) && s.saved.deleting && s.saved.finalizer
    ensures var (s1, r) := Reconcile(e, s);
      && s1.saved.deleting && s1.saved.name == s.saved.name && !r.Error?
      && (Remaining(Start(s)) > 0 ==> s1.saved.finalizer && Remaining(Start(s1)) == Remaining(Start(s)) - 1)
      && (Remaining(Start(s)) == 0 ==> !s1.saved.finalizer && Remaining(Start(s1)) == 0)
  {
    var s0 := Tick(Start(s));
    assert OwnedIdentities(s0) == OwnedIdentities(Start(s)) && OwnedUsers(s0) == OwnedUsers(Start(s));
    DeletionStep(e, s0);
    var (s1, p) := DeleteIdentityAndUser(e, s0);
    AfterDeletionStep(e, s1, p);
  }

  lemma AfterDeletionStep(e: Env, s: State, p: Progress)
    requires NoFaults(e) && !p.Failed? && s.cur.name == s.saved.name && s.cur.finalizer && s.saved.finalizer
    ensures var (s1, r) := AfterDeletion(e, s, p);
      && !r.Error? && s1.saved.deleting == s.saved.deleting && s1.saved.name == s.saved.name
      && s1.saved.finalizer == p.Changed? && Remaining(Start(s1)) == Remaining(s)
  {
    var s1 := AfterDeletion(e, s, p).0;
    assert OwnedIdentities(Start(s1)) == OwnedIdentities(s) && OwnedUsers(Start(s1)) == OwnedUsers(s);
  }

  // With n owned Identities and m owned Users the finalizer stays through n + m reconciles and goes with the next.
  lemma {:induction false} FinalizerGoesExactly(es: seq<Env>, ss: seq<State>, k: nat)
    requires History(es, ss) && k <= |es|
    requires forall i :: 0 <= i < |es| ==> NoFaults(es[i])
    requires ss[0].saved.deleting && ss[0].saved.finalizer
    ensures k <= Remaining(Start(ss[0])) ==>
      ss[k].saved.finalizer && Remaining(Start(ss[k])) == Remaining(Start(ss[0])) - k
    ensures k == Remaining(Start(ss[0])) + 1 ==> !ss[k].saved.finalizer && Remaining(Start(ss[k])) == 0
    ensures k <= Remaining(Start(ss[0])) + 1 ==> ss[k].saved.deleting
  {
    if 0 < k <= Remaining(Start(ss[0])) + 1 {
      FinalizerGoesExactly(es, ss, k - 1);
      assert ss[k - 1 + 1] == Reconcile(es[k - 1], ss[k - 1]).0;
      TeardownStep(es[k - 1], ss[k - 1]);
    }
  }
}
