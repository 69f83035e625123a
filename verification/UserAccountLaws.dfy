// What the reconciles of a UserAccount leave, told on the fields of Users and Identities.
module UserAccountLaws {
  import opened Names
  import opened UserAccounts
  import opened UserAccountRuns
  import opened UserAccountTeardown

  // ---- The mapping ----

  // One identity for sub, one for the original sub, and one for the user id if that differs from sub.
  function ExpectedNames(e: Env, c: Claims): seq<string> {
    [e.identityName(c.sub)]
    + (if c.originalSub == "" then [] else [e.identityName(c.originalSub)])
    + (if c.userId == "" || c.userId == c.sub then [] else [e.identityName(c.userId)])
  }

  // The User of the account's name lists these, and each refers to that name and to the User's UID.
  ghost predicate Mapped(e: Env, s: State) {
    var name := s.saved.name;
    && name in s.users && s.users[name].identities == ExpectedNames(e, s.saved.claims)
    && forall x :: x in s.users[name].identities ==>
         x in s.identities && s.identities[x].user.name == name && s.identities[x].user.uid == s.users[name].uid
  }

  lemma ExpectedIs(e: Env, a: Account)
    ensures Expected(e, a) == ExpectedNames(e, a.claims)
  {
    var c := a.claims;
    var third := if c.userId != "" && c.userId != c.sub then [c.userId] else [];
    var second := if c.originalSub != "" then [c.originalSub] else [];
    assert Subjects(c) == [c.sub] + second + third;
    assert IdentityNames(e, second) == if c.originalSub == "" then [] else [e.identityName(c.originalSub)];
    assert IdentityNames(e, third) == if third == [] then [] else [e.identityName(c.userId)];
    NamesOfBoth(e, [c.sub], second);
    NamesOfBoth(e, [c.sub] + second, third);
  }

  lemma NamesOfBoth(e: Env, a: seq<string>, b: seq<string>)
    ensures IdentityNames(e, a + b) == IdentityNames(e, a) + IdentityNames(e, b)
  {}

  lemma MappedIff(e: Env, s: State)
    ensures Mapped(e, s) <==> MutuallyMapped(e, s)
  {
    ExpectedIs(e, s.saved);
  }

  // From any state, after four reconciles without failures.
  lemma FourReconciles(e: Env, es: seq<Env>, ss: seq<State>, n: nat)
    requires History(es, ss) && SameNaming(es, e) && Wanted(ss[0].saved) && 4 <= n <= |es|
    ensures Mapped(e, ss[n])
  {
    Converges(e, es, ss, n);
    MappedIff(e, ss[n]);
  }

  // What a look at one identity that reports no change leaves, whatever fails.
  lemma MappingUnchanged(e: Env, s: State, subject: string, u: User)
    requires EnsureMapping(e, s, subject, u).1.Unchanged?
    ensures var s1, x := EnsureMapping(e, s, subject, u).0, e.identityName(subject);
      && s1.users == s.users && s1.saved == s.saved && s1.cur == s.cur
      && x in s1.identities && s1.identities[x].user.name == s.cur.name && s1.identities[x].user.uid == u.uid
      && forall y :: y in s.identities ==> y in s1.identities && s1.identities[y].user == s.identities[y].user
  {}

  lemma {:induction false} MappingsUnchanged(e: Env, s: State, subjects: seq<string>, u: User)
    requires EnsureMappings(e, s, subjects, u).1.Unchanged?
    ensures var s1 := EnsureMappings(e, s, subjects, u).0;
      && s1.users == s.users && s1.saved == s.saved && s1.cur == s.cur
      && (forall y :: y in s.identities ==> y in s1.identities && s1.identities[y].user == s.identities[y].user)
      && forall x :: x in IdentityNames(e, subjects) ==>
           x in s1.identities && s1.identities[x].user.name == s.cur.name && s1.identities[x].user.uid == u.uid
    decreases |subjects|
  {
    if subjects != [] {
      MappingUnchanged(e, s, subjects[0], u);
      MappingsUnchanged(e, EnsureMapping(e, s, subjects[0], u).0, subjects[1..], u);
    }
  }

  lemma UserFound(e: Env, s: State)
    requires EnsureUser(e, s).1.user.Some?
    ensures var (s1, f) := EnsureUser(e, s);
      && s1.saved == s.saved && s1.cur == s.cur && s1.identities == s.identities
      && s.cur.name in s1.users && s1.users[s.cur.name].identities == Expected(e, s.cur)
      && s1.users[s.cur.name].uid == f.user.value.uid
  {}

  // Whatever fails: a wanted account is only reported settled, or put off for a moment, when it is mapped; and
  // settled only with Provisioned stored.
  lemma SettledIsMapped(e: Env, s: State)
    requires Wanted(s.saved) && !e.skipUserCreation
    requires Reconcile(e, s).1.Settled? || Reconcile(e, s).1.Postponed?
    ensures Mapped(e, Reconcile(e, s).0)
    ensures Reconcile(e, s).1.Settled? ==> Reconcile(e, s).0.saved.ready == Some(Provisioned)
    ensures Reconcile(e, s).1.Postponed? ==> s.saved.ready == Some(Updating) && e.recent
  {
    var (s1, ok) := AddFinalizer(e, Tick(Start(s)));
    var (s2, f) := EnsureUser(e, s1);
    UserFound(e, s1);
    var u := f.user.value;
    MappingsUnchanged(e, s2, Subjects(s2.cur.claims), u);
    ExpectedIs(e, s.saved);
    var s3 := EnsureMappings(e, s2, Subjects(s2.cur.claims), u).0;
    ConcludeSame(e, s3);
  }

  lemma ConcludeSame(e: Env, s: State)
    requires s.cur.ready == s.saved.ready
    ensures var (s1, r) := Conclude(e, s, Unchanged);
      && s1.users == s.users && s1.identities == s.identities && s1.saved == s.saved.(ready := s1.saved.ready)
      && (r.Settled? ==> s1.saved.ready == Some(Provisioned))
      && (r.Postponed? ==> s.saved.ready == Some(Updating) && e.recent)
  {}

  // ---- Labels and annotations ----

  // What is there stays; the owner is the account, the provider is this operator.
  lemma LabelsMean(labels: map<Tag, string>, a: Account)
    ensures var r := Tagged(labels, a);
      && r.Keys == labels.Keys + {Provider, Owner} && (forall l :: l in labels ==> r[l] == labels[l])
      && (Owner !in labels ==> r[Owner] == a.name) && (Provider !in labels ==> r[Provider] == "codeready-toolchain")
  {}

  // The e-mail stays if there is one; the two SSO ids are those of the claims if both are set there, and removed
  // otherwise.
  lemma NotesMean(notes: Option<map<Note, string>>, a: Account)
    ensures var was, r, both := NotesOf(notes), Noted(notes, a), a.claims.userId != "" && a.claims.accountId != "";
      && (forall n :: n in was && n != UserId && n != AccountId ==> n in r && r[n] == was[n])
      && Email in r && (Email !in was ==> r[Email] == a.claims.email)
      && (forall n :: n in r ==> n in was || n in {Email, UserId, AccountId})
      && (both ==> UserId in r && r[UserId] == a.claims.userId)
      && (both ==> AccountId in r && r[AccountId] == a.claims.accountId)
      && (!both ==> UserId !in r && AccountId !in r)
  {}

  predicate Of(labels: map<Tag, string>, name: string) { Owner in labels && labels[Owner] == name }

  // Whatever fails: a User or Identity that a reconcile creates belongs to the account.
  ghost predicate NewOnesBelong(s: State, s1: State) {
    && (forall k :: k in s1.users && k !in s.users ==> Of(s1.users[k].labels, s.cur.name))
    && (forall k :: k in s1.identities && k !in s.identities ==> Of(s1.identities[k].labels, s.cur.name))
  }

  // What a call, and a write between two status updates, may leave of the stores.
  lemma StatusOnly(e: Env, s: State, r: Reason)
    ensures SetStatus(e, s, r).0.users == s.users && SetStatus(e, s, r).0.identities == s.identities
    ensures SetStatus(e, s, r).0.cur == s.cur.(ready := Some(r))
    ensures SetFailed(e, s, r).users == s.users && SetFailed(e, s, r).identities == s.identities
    ensures SetFailed(e, s, r).cur == s.cur.(ready := Some(r))
  {}

  lemma SaveUserOr(e: Env, s: State, name: string, was: Option<User>, u: User)
    ensures var s1 := SaveUser(e, s, name, was, u).0;
      s1.users in {s.users, s.users[name := u]} && s1.identities == s.identities && s1.cur == s.cur
  {}

  lemma SaveIdentityOr(e: Env, s: State, name: string, was: Option<Identity>, i: Identity)
    ensures var s1 := SaveIdentity(e, s, name, was, i).0;
      s1.identities in {s.identities, s.identities[name := i]} && s1.users == s.users && s1.cur == s.cur
  {}

  lemma WriteUserOr(e: Env, s: State, was: Option<User>, u: User, failure: Reason)
    ensures var s1 := WriteUser(e, s, was, u, failure).0;
      s1.users in {s.users, s.users[s.cur.name := u]} && s1.identities == s.identities && s1.cur.name == s.cur.name
  {
    StatusOnly(e, s, Provisioning);
    var s1 := SetStatus(e, s, Provisioning).0;
    SaveUserOr(e, s1, s.cur.name, was, u);
    var s2 := SaveUser(e, s1, s.cur.name, was, u).0;
    StatusOnly(e, s2, Provisioning);
    StatusOnly(e, s2, failure);
  }

  lemma WriteIdentityOr(e: Env, s: State, name: string, was: Option<Identity>, i: Identity, failure: Reason)
    ensures var s1 := WriteIdentity(e, s, name, was, i, failure).0;
      s1.identities in {s.identities, s.identities[name := i]} && s1.users == s.users && s1.cur.name == s.cur.name
  {
    StatusOnly(e, s, Provisioning);
    var s1 := SetStatus(e, s, Provisioning).0;
    SaveIdentityOr(e, s1, name, was, i);
    var s2 := SaveIdentity(e, s1, name, was, i).0;
    StatusOnly(e, s2, Provisioning);
    StatusOnly(e, s2, failure);
  }

  lemma UserBelongs(e: Env, s: State)
    ensures var s1 := EnsureUser(e, s).0;
      NewOnesBelong(s, s1) && s1.cur.name == s.cur.name && s1.identities == s.identities
  {
    var name, s1 := s.cur.name, Tick(s);
    StatusOnly(e, s1, UnableToCreateUser);
    if name !in s.users {
      LabelsMean(map[], s.cur);
      WriteUserOr(e, s1, None, NewUser(e, s.cur, e.newUid), UnableToCreateUser);
    } else {
      RefreshKeepsUsers(e, s1, s.users[name]);
    }
  }

  lemma RefreshKeepsUsers(e: Env, s: State, was: User)
    requires s.cur.name in s.users
    ensures var s1 := RefreshUser(e, s, was).0;
      s1.users.Keys == s.users.Keys && s1.identities == s.identities && s1.cur.name == s.cur.name
  {
    var u := Labelled(was, s.cur);
    SaveUserOr(e, s, s.cur.name, Some(was), u);
    var (s1, saved) := SaveUser(e, s, s.cur.name, Some(was), u);
    WriteUserOr(e, s1, Some(if saved then u else was), u.(identities := Expected(e, s.cur)), UnableToCreateMapping);
  }

  lemma MappingBelongs(e: Env, s: State, subject: string, u: User)
    ensures var s1 := EnsureMapping(e, s, subject, u).0;
      && NewOnesBelong(s, s1) && s1.cur.name == s.cur.name && s1.users == s.users
      && s.identities.Keys <= s1.identities.Keys
  {
    var name, s1 := e.identityName(subject), Tick(s);
    StatusOnly(e, s1, UnableToCreateIdentity);
    if name !in s.identities {
      LabelsMean(map[], s.cur);
      WriteIdentityOr(e, s1, name, None, Identity(Tagged(map[], s.cur), RefTo(s.cur, u)), UnableToCreateIdentity);
    } else {
      RefreshKeepsIdentities(e, s1, name, s.identities[name], RefTo(s.cur, u));
    }
  }

  lemma RefreshKeepsIdentities(e: Env, s: State, name: string, was: Identity, ref: UserRef)
    requires name in s.identities
    ensures var s1 := RefreshIdentity(e, s, name, was, ref).0;
      s1.identities.Keys == s.identities.Keys && s1.users == s.users && s1.cur.name == s.cur.name
  {
    var i := was.(labels := Tagged(was.labels, s.cur));
    SaveIdentityOr(e, s, name, Some(was), i);
    var (s1, saved) := if i == was then (s, true) else SaveIdentity(e, s, name, Some(was), i);
    WriteIdentityOr(e, s1, name, Some(if saved then i else was), i.(user := ref), UnableToCreateMapping);
  }

  lemma {:induction false} MappingsBelong(e: Env, s: State, subjects: seq<string>, u: User)
    ensures var s1 := EnsureMappings(e, s, subjects, u).0; NewOnesBelong(s, s1) && s1.users == s.users
    decreases |subjects|
  {
    if subjects != [] {
      MappingBelongs(e, s, subjects[0], u);
      var (s1, p) := EnsureMapping(e, s, subjects[0], u);
      if p.Unchanged? { MappingsBelong(e, s1, subjects[1..], u); }
    }
  }

  lemma DeletionAddsNone(e: Env, s: State)
    ensures var s1 := DeleteIdentityAndUser(e, s).0;
      s1.users.Keys <= s.users.Keys && s1.identities.Keys <= s.identities.Keys && s1.cur == s.cur
  {
    DeletionFacts(e, s);
  }

  lemma ProvideBelongs(e: Env, s: State)
    ensures NewOnesBelong(s, EnsureUserAndIdentity(e, s).0)
  {
    if e.skipUserCreation {
      DeletionAddsNone(e, s);
      var (s1, p) := DeleteIdentityAndUser(e, s);
      StatusOnly(e, s1, UnableToCreateUser);
      StatusOnly(e, s1, Provisioning);
    } else {
      UserBelongs(e, s);
      var (s1, f) := EnsureUser(e, s);
      if f.user.Some? { MappingsBelong(e, s1, Subjects(s.cur.claims), f.user.value); }
    }
  }

  lemma TearAddsNone(e: Env, s: State)
    ensures Tear(e, s).0.users.Keys <= s.users.Keys && Tear(e, s).0.identities.Keys <= s.identities.Keys
  {
    DeletionAddsNone(e, s);
    var s1 := DeleteIdentityAndUser(e, s).0;
    StatusOnly(e, s1, Terminating);
    StatusOnly(e, PutFinalizer(e, s1, false).0, Terminating);
  }

  lemma DisableAddsNone(e: Env, s: State)
    ensures Disable(e, s).0.users.Keys <= s.users.Keys && Disable(e, s).0.identities.Keys <= s.identities.Keys
  {
    StatusOnly(e, s, Disabling);
    var s0 := SetStatus(e, s, Disabling).0;
    DeletionAddsNone(e, s0);
    var s1 := DeleteIdentityAndUser(e, s0).0;
    StatusOnly(e, s1, Disabling);
    StatusOnly(e, s1, Disabled);
  }

  lemma ConcludedBelongs(e: Env, s: State)
    ensures NewOnesBelong(s, Provide(e, s).0)
  {
    ProvideBelongs(e, s);
    var (s1, p) := EnsureUserAndIdentity(e, s);
    StatusOnly(e, s1, Provisioned);
  }

  lemma ServedBelongs(e: Env, s: State)
    ensures NewOnesBelong(s, Serve(e, s).0)
  {
    var s1 := AddFinalizer(e, s).0;
    DisableAddsNone(e, s1);
    ConcludedBelongs(e, s1);
  }

  lemma CreatedBelongs(e: Env, s: State)
    ensures NewOnesBelong(Start(s), Reconcile(e, s).0)
  {
    var s0 := Tick(Start(s));
    if s0.cur.deleting { TearAddsNone(e, s0); } else { ServedBelongs(e, s0); }
  }

  // ---- Deletion ----

  // Whatever fails: once the finalizer of a deleted account goes, or it turns Disabled, nothing belongs to it.
  lemma NothingBelongs(e: Env, s: State)
    ensures var s1 := Reconcile(e, s).0;
      (s.saved.finalizer && !s1.saved.finalizer)
      || (s.saved.ready != Some(Disabled) && s1.saved.ready == Some(Disabled)) ==>
        && (forall k :: k in s1.users ==> !Of(s1.users[k].labels, s.saved.name))
        && (forall k :: k in s1.identities ==> !Of(s1.identities[k].labels, s.saved.name))
  {
    ReconcileIsOrderly(e, s);
    var s1 := Reconcile(e, s).0;
    if Remaining(s1) == 0 {
      forall k | k in s1.users ensures !Of(s1.users[k].labels, s.saved.name) { assert k !in OwnedUsers(s1); }
      forall k | k in s1.identities ensures !Of(s1.identities[k].labels, s.saved.name) {
        assert k !in OwnedIdentities(s1);
      }
    }
  }

  // Whatever fails: only what belongs to the account goes, a User after all Identities and its console settings.
  lemma OnlyOwnGoes(e: Env, s: State)
    ensures var s1 := Reconcile(e, s).0;
      && (forall k :: k in s.identities && k !in s1.identities ==> Of(s.identities[k].labels, s.saved.name))
      && (forall k :: k in s.users && k !in s1.users ==>
            && Of(s.users[k].labels, s.saved.name)
            && (forall i :: i in s.identities ==> !Of(s.identities[i].labels, s.saved.name))
            && {ConfigMap(s.users[k].uid), Role(s.users[k].uid), RoleBinding(s.users[k].uid)} !! s1.settings)
  {
    ReconcileIsOrderly(e, s);
    var s1 := Reconcile(e, s).0;
    forall k | k in s.users && k !in s1.users
      ensures forall i :: i in s.identities ==> !Of(s.identities[i].labels, s.saved.name)
      ensures {ConfigMap(s.users[k].uid), Role(s.users[k].uid), RoleBinding(s.users[k].uid)} !! s1.settings
    {
      assert OwnedIdentities(Start(s)) == {};
      forall i | i in s.identities ensures !Of(s.identities[i].labels, s.saved.name) {
        assert i !in OwnedIdentities(Start(s));
      }
    }
  }

  // ---- Disabled accounts, and clusters without Users of their own ----

  // How many Users and Identities belong to the account.
  function Belongings(s: State): nat {
    |set k | k in s.identities && Of(s.identities[k].labels, s.saved.name)|
    + |set k | k in s.users && Of(s.users[k].labels, s.saved.name)|
  }

  lemma BelongingsAre(s: State)
    ensures Belongings(s) == Remaining(Start(s))
  {
    assert (set k | k in s.identities && Of(s.identities[k].labels, s.saved.name)) == OwnedIdentities(Start(s));
    assert (set k | k in s.users && Of(s.users[k].labels, s.saved.name)) == OwnedUsers(Start(s));
  }

  predicate Unwanted(e: Env, a: Account) { !a.deleting && (a.disabled || e.skipUserCreation) }

  lemma SameRemainingHere(s: State, s1: State)
    requires s1.users == s.users && s1.identities == s.identities && s1.cur.name == s.cur.name
    ensures Remaining(s1) == Remaining(s)
  {
    assert OwnedIdentities(s1) == OwnedIdentities(s) && OwnedUsers(s1) == OwnedUsers(s);
  }

  // Without failures each reconcile deletes one of them as long as there is one, and then settles.
  lemma UnwantedStep(e: Env, s: State)
    requires NoFaults(e) && Unwanted(e, s.saved)
    ensures var (s1, r) := Reconcile(e, s);
      && s1.saved == s.saved.(finalizer := true, ready := s1.saved.ready)
      && Belongings(s1) == (if Belongings(s) == 0 then 0 else Belongings(s) - 1)
      && (r.Acted? <==> Belongings(s) > 0) && !r.Error?
      && (r.Settled? ==> s1.saved.ready == Some(if s.saved.disabled then Disabled else Provisioned))
      && (s.saved.disabled ==> !r.Postponed?)
  {
    var s0 := AddFinalizer(e, Tick(Start(s))).0;
    BelongingsAre(s);
    SameRemainingHere(Start(s), s0);
    BelongingsAre(Reconcile(e, s).0);
    if s.saved.disabled { DisableStep(e, s0); } else { SkipStep(e, s0); }
  }

  lemma DisableStep(e: Env, s: State)
    requires NoFaults(e) && s.saved == s.cur
    ensures var (s1, r) := Disable(e, s);
      && s1.saved == s.saved.(ready := s1.saved.ready) && s1.cur.name == s.cur.name
      && Remaining(Start(s1)) == (if Remaining(s) == 0 then 0 else Remaining(s) - 1)
      && (if Remaining(s) > 0 then r.Acted? else r.Settled? && s1.saved.ready == Some(Disabled))
  {
    var s0 := SetStatus(e, s, Disabling).0;
    SameRemainingHere(s, s0);
    DeletionStep(e, s0);
    SameRemainingHere(DeleteIdentityAndUser(e, s0).0, Start(Disable(e, s).0));
  }

  lemma AfterRedundantStep(e: Env, s: State, p: Progress)
    requires NoFaults(e) && s.saved == s.cur && !p.Failed?
    ensures var (s1, q) := AfterRedundant(e, s, p); var (s2, r) := Conclude(e, s1, q);
      && s2.users == s.users && s2.identities == s.identities && s2.cur.name == s.cur.name
      && s2.saved == s.saved.(ready := s2.saved.ready)
      && if p.Changed? then r.Acted? else r.Postponed? || (r.Settled? && s2.saved.ready == Some(Provisioned))
  {}

  lemma SkipStep(e: Env, s: State)
    requires NoFaults(e) && s.saved == s.cur && e.skipUserCreation
    ensures var (s1, r) := Provide(e, s);
      && s1.saved == s.saved.(ready := s1.saved.ready) && s1.cur.name == s.cur.name
      && Remaining(Start(s1)) == (if Remaining(s) == 0 then 0 else Remaining(s) - 1)
      && (if Remaining(s) > 0 then r.Acted? else r.Postponed? || (r.Settled? && s1.saved.ready == Some(Provisioned)))
  {
    DeletionStep(e, s);
    var (s1, p) := DeleteIdentityAndUser(e, s);
    AfterRedundantStep(e, s1, p);
    SameRemainingHere(s1, Start(Provide(e, s).0));
  }

  // With n Users and Identities, nothing is left after n reconciles, and a disabled account is Disabled with the next.
  lemma {:induction false} UnwantedEnds(es: seq<Env>, ss: seq<State>, k: nat)
    requires History(es, ss) && k <= |es|
    requires !ss[0].saved.deleting
    requires forall i :: 0 <= i < |es| ==> NoFaults(es[i]) && (ss[0].saved.disabled || es[i].skipUserCreation)
    ensures ss[k].saved.name == ss[0].saved.name && ss[k].saved.disabled == ss[0].saved.disabled
    ensures !ss[k].saved.deleting
    ensures Belongings(ss[k]) == if k >= Belongings(ss[0]) then 0 else Belongings(ss[0]) - k
    ensures k > Belongings(ss[0]) && ss[0].saved.disabled ==> ss[k].saved.ready == Some(Disabled)
  {
    if k > 0 {
      UnwantedEnds(es, ss, k - 1);
      assert ss[k - 1 + 1] == Reconcile(es[k - 1], ss[k - 1]).0;
      UnwantedStep(es[k - 1], ss[k - 1]);
    }
  }

  // ---- The finalizer ----

  // Whatever fails: nothing is created or changed for an account before its finalizer is stored.
  lemma FinalizerFirst(e: Env, s: State)
    requires !s.saved.deleting
    ensures var s1 := Reconcile(e, s).0;
      s1.users != s.users || s1.identities != s.identities || s1.settings != s.settings ==> s1.saved.finalizer
  {
    var (s1, ok) := AddFinalizer(e, Tick(Start(s)));
    if ok { ServedKeepsFinalizer(e, s1); }
  }

  lemma DisableKeepsFinalizer(e: Env, s: State)
    requires s.saved.finalizer
    ensures Disable(e, s).0.saved.finalizer
  {
    DeletionFacts(e, SetStatus(e, s, Disabling).0);
  }

  lemma ServedKeepsFinalizer(e: Env, s: State)
    requires s.saved.finalizer && s.cur.finalizer
    ensures Disable(e, s).0.saved.finalizer && Provide(e, s).0.saved.finalizer
  {
    DisableKeepsFinalizer(e, s);
    if e.skipUserCreation {
      DeletionFacts(e, s);
      var (s1, p) := DeleteIdentityAndUser(e, s);
      AfterRedundantKeeps(e, s1, p);
    } else {
      UserKeeps(e, s);
      var (s1, f) := EnsureUser(e, s);
      if f.user.Some? { MappingsKeep(e, s1, Subjects(s.cur.claims), f.user.value); }
    }
    var (s1, p) := EnsureUserAndIdentity(e, s);
    ConcludeKeeps(e, s1, p);
  }

  // ---- Failures ----

  // The reason the reconcile writes last, whether or not that write works: Provisioning when no failure could be
  // written down.
  predicate FailsWith(s: State, reason: Reason) { s.cur.ready in {Some(reason), Some(Provisioning)} }

  lemma WriteUserFails(e: Env, s: State, was: Option<User>, u: User, failure: Reason)
    ensures var (s1, f) := WriteUser(e, s, was, u, failure); f.progress.Failed? ==> FailsWith(s1, failure)
    ensures !WriteUser(e, s, was, u, failure).1.progress.Unchanged?
  {}

  lemma RefreshFails(e: Env, s: State, was: User)
    ensures var (s1, f) := RefreshUser(e, s, was); f.progress.Failed? ==> FailsWith(s1, UnableToCreateMapping)
  {
    var u := Labelled(was, s.cur);
    var (s1, saved) := SaveUser(e, s, s.cur.name, Some(was), u);
    var repaired := u.(identities := Expected(e, s.cur));
    WriteUserFails(e, s1, Some(if saved then u else was), repaired, UnableToCreateMapping);
  }

  // A User that is missing cannot be created; one that is there cannot be read, or its list cannot be repaired.
  lemma UserFailureIsShown(e: Env, s: State)
    requires EnsureUser(e, s).1.progress.Failed?
    ensures var s1 := EnsureUser(e, s).0;
      if s.cur.name !in s.users || !e.fate(s.calls).Done? then FailsWith(s1, UnableToCreateUser)
      else FailsWith(s1, UnableToCreateMapping)
  {
    var s1 := Tick(s);
    if s.cur.name in s.users {
      RefreshFails(e, s1, s.users[s.cur.name]);
    } else {
      WriteUserFails(e, s1, None, NewUser(e, s.cur, e.newUid), UnableToCreateUser);
    }
  }

  lemma WriteIdentityFails(e: Env, s: State, name: string, was: Option<Identity>, i: Identity, failure: Reason)
    ensures var (s1, p) := WriteIdentity(e, s, name, was, i, failure); p.Failed? ==> FailsWith(s1, failure)
  {}

  // Likewise an Identity, and its reference to the User.
  lemma IdentityFailureIsShown(e: Env, s: State, subject: string, u: User)
    requires EnsureMapping(e, s, subject, u).1.Failed?
    ensures var s1 := EnsureMapping(e, s, subject, u).0;
      if e.identityName(subject) !in s.identities || !e.fate(s.calls).Done? then FailsWith(s1, UnableToCreateIdentity)
      else FailsWith(s1, UnableToCreateMapping)
  {
    var s1, name, ref := Tick(s), e.identityName(subject), RefTo(s.cur, u);
    if name in s.identities {
      var was := s.identities[name];
      var i := was.(labels := Tagged(was.labels, s.cur));
      var (s2, saved) := if i == was then (s1, true) else SaveIdentity(e, s1, name, Some(was), i);
      WriteIdentityFails(e, s2, name, Some(if saved then i else was), i.(user := ref), UnableToCreateMapping);
    } else {
      WriteIdentityFails(e, s1, name, None, Identity(Tagged(map[], s.cur), ref), UnableToCreateIdentity);
    }
  }

  // A deletion that fails is Terminating, one of a disabled account Disabling, and one on a cluster without Users of
  // its own cannot create the User.
  lemma DeletionFailureIsShown(e: Env, s: State)
    requires Reconcile(e, s).1.Error? && e.fate(0).Done? && s.saved.finalizer
    ensures var now := Reconcile(e, s).0.cur.ready;
      && (s.saved.deleting ==> now == Some(Terminating))
      && (!s.saved.deleting && s.saved.disabled ==> now in {Some(Disabling), Some(Disabled)})
      && (!s.saved.deleting && !s.saved.disabled && e.skipUserCreation ==>
            now in {Some(UnableToCreateUser), Some(Provisioning), Some(Provisioned)})
  {}
}
