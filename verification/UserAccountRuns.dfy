// What the reconciles of a UserAccount add up to: they converge, and they tear down in order.
module UserAccountRuns {
  import opened Names
  import opened UserAccounts

  ghost predicate NoFaults(e: Env) { forall i :: e.fate(i).Done? }

  predicate Wanted(a: Account) { !a.deleting && !a.disabled }

  // ---- Convergence ----

  predicate MapsTo(s: State, name: string, ref: UserRef) { name in s.identities && s.identities[name].user == ref }

  predicate Listed(e: Env, s: State) {
    s.saved.name in s.users && s.users[s.saved.name].identities == Expected(e, s.saved)
  }

  function Ref(s: State): UserRef
    requires s.saved.name in s.users
  {
    RefTo(s.saved, s.users[s.saved.name])
  }

  // The User lists exactly the expected identities, and each of them refers back to its name and UID.
  predicate MutuallyMapped(e: Env, s: State) {
    && Listed(e, s)
    && (forall x :: x in s.users[s.saved.name].identities ==> MapsTo(s, x, Ref(s)))
  }

  function Unmapped(e: Env, s: State, subjects: seq<string>, ref: UserRef): nat {
    if subjects == [] then 0
    else (if MapsTo(s, e.identityName(subjects[0]), ref) then 0 else 1) + Unmapped(e, s, subjects[1..], ref)
  }

  // How much is left to do: at most four writes.
  function Work(e: Env, s: State): nat {
    if !Listed(e, s) then 4 else Unmapped(e, s, Subjects(s.saved.claims), Ref(s))
  }

  lemma {:induction false} UnmappedBound(e: Env, s: State, subjects: seq<string>, ref: UserRef)
    ensures Unmapped(e, s, subjects, ref) <= |subjects|
    ensures Unmapped(e, s, subjects, ref) == 0 <==>
      forall i :: 0 <= i < |subjects| ==> MapsTo(s, e.identityName(subjects[i]), ref)
  {
    if subjects != [] {
      UnmappedBound(e, s, subjects[1..], ref);
      assert subjects == [subjects[0]] + subjects[1..];
      if Unmapped(e, s, subjects, ref) == 0 {
        forall i | 0 <= i < |subjects| ensures MapsTo(s, e.identityName(subjects[i]), ref) {
          if i > 0 { assert subjects[1..][i - 1] == subjects[i]; }
        }
      }
      if forall i :: 0 <= i < |subjects| ==> MapsTo(s, e.identityName(subjects[i]), ref) {
        forall i | 0 <= i < |subjects[1..]| ensures MapsTo(s, e.identityName(subjects[1..][i]), ref) {
          assert subjects[1..][i] == subjects[i + 1];
        }
        assert MapsTo(s, e.identityName(subjects[0]), ref);
      }
    }
  }

  // Mapping one more identity takes nothing away.
  lemma {:induction false} UnmappedShrinks(e: Env, s: State, s1: State, subjects: seq<string>, ref: UserRef,
                                           name: string)
    requires MapsTo(s1, name, ref) && forall x :: MapsTo(s, x, ref) ==> MapsTo(s1, x, ref)
    ensures Unmapped(e, s1, subjects, ref) <= Unmapped(e, s, subjects, ref)
    ensures !MapsTo(s, name, ref) && (exists i :: 0 <= i < |subjects| && e.identityName(subjects[i]) == name)
      ==> Unmapped(e, s1, subjects, ref) < Unmapped(e, s, subjects, ref)
  {
    if subjects != [] {
      UnmappedShrinks(e, s, s1, subjects[1..], ref, name);
      if i :| 0 <= i < |subjects| && e.identityName(subjects[i]) == name {
        assert i > 0 ==> subjects[1..][i - 1] == subjects[i];
      }
    }
  }

  lemma WriteIdentityStep(e: Env, s: State, name: string, was: Option<Identity>, i: Identity, failure: Reason)
    requires NoFaults(e) && IdentityAt(s, name) == was
    ensures var (s1, p) := WriteIdentity(e, s, name, was, i, failure);
      && p.Changed? && s1.identities == s.identities[name := i]
      && s1.users == s.users && s1.settings == s.settings && s1.saved == s.saved.(ready := s1.saved.ready)
      && s1.cur == s.cur.(ready := s1.cur.ready)
  {}

  lemma WriteUserStep(e: Env, s: State, was: Option<User>, u: User, failure: Reason)
    requires NoFaults(e) && UserAt(s, s.cur.name) == was
    ensures var (s1, f) := WriteUser(e, s, was, u, failure);
      && f == Found(None, Changed) && s1.users == s.users[s.cur.name := u]
      && s1.identities == s.identities && s1.settings == s.settings && s1.saved == s.saved.(ready := s1.saved.ready)
      && s1.cur == s.cur.(ready := s1.cur.ready)
  {}

  // What EnsureMapping does without faults: the identity refers to the user afterwards, nothing else changes.
  lemma MappingStep(e: Env, s: State, subject: string, u: User)
    requires NoFaults(e)
    ensures var (s1, p) := EnsureMapping(e, s, subject, u);
      var name, ref := e.identityName(subject), RefTo(s.cur, u);
      && !p.Failed? && (p.Changed? <==> !MapsTo(s, name, ref))
      && MapsTo(s1, name, ref) && name in s1.identities
      && s1.identities[name].labels == Tagged(if name in s.identities then s.identities[name].labels else map[], s.cur)
      && s1.identities == s.identities[name := s1.identities[name]]
      && s1.users == s.users && s1.settings == s.settings && s1.saved == s.saved.(ready := s1.saved.ready)
      && s1.cur == s.cur.(ready := s1.cur.ready)
      && (p.Unchanged? ==> s1.cur == s.cur && s1.saved == s.saved)
  {
    var name, ref, s1 := e.identityName(subject), RefTo(s.cur, u), Tick(s);
    if name !in s.identities {
      WriteIdentityStep(e, s1, name, None, Identity(Tagged(map[], s.cur), ref), UnableToCreateIdentity);
    } else {
      var was := s.identities[name];
      var i := was.(labels := Tagged(was.labels, s.cur));
      var s2 := if i == was then s1 else SaveIdentity(e, s1, name, Some(was), i).0;
      assert IdentityAt(s2, name) == Some(i);
      WriteIdentityStep(e, s2, name, Some(i), i.(user := ref), UnableToCreateMapping);
    }
  }

  lemma {:induction false} MappingsStep(e: Env, s: State, subjects: seq<string>, u: User)
    requires NoFaults(e)
    ensures var (s1, p) := EnsureMappings(e, s, subjects, u);
      var ref := RefTo(s.cur, u);
      && !p.Failed? && s1.users == s.users && s1.settings == s.settings
      && s1.cur == s.cur.(ready := s1.cur.ready) && s1.saved == s.saved.(ready := s1.saved.ready)
      && (forall x :: MapsTo(s, x, ref) ==> MapsTo(s1, x, ref))
      && (p.Unchanged? <==> Unmapped(e, s, subjects, ref) == 0)
      && (p.Unchanged? ==> s1.cur == s.cur && s1.saved == s.saved)
      && Unmapped(e, s1, subjects, ref) <= Unmapped(e, s, subjects, ref)
      && (p.Changed? ==> Unmapped(e, s1, subjects, ref) < Unmapped(e, s, subjects, ref))
    decreases |subjects|
  {
    if subjects != [] {
      var ref, name := RefTo(s.cur, u), e.identityName(subjects[0]);
      MappingStep(e, s, subjects[0], u);
      var (s1, p) := EnsureMapping(e, s, subjects[0], u);
      assert forall x :: MapsTo(s, x, ref) ==> MapsTo(s1, x, ref);
      UnmappedShrinks(e, s, s1, subjects, ref, name);
      if p.Unchanged? {
        MappingsStep(e, s1, subjects[1..], u);
        UnmappedShrinks(e, s, s1, subjects[1..], ref, name);
        SameUnmapped(e, s, s1, subjects[1..], ref);
      }
    }
  }

  lemma {:induction false} SameUnmapped(e: Env, s: State, s1: State, subjects: seq<string>, ref: UserRef)
    requires forall x :: MapsTo(s, x, ref) <==> MapsTo(s1, x, ref)
    ensures Unmapped(e, s1, subjects, ref) == Unmapped(e, s, subjects, ref)
  {
    if subjects != [] { SameUnmapped(e, s, s1, subjects[1..], ref); }
  }

  // What EnsureUser does without faults.
  lemma UserStep(e: Env, s: State)
    requires NoFaults(e)
    ensures var (s1, f) := EnsureUser(e, s);
      var name := s.cur.name;
      && name in s1.users && s1.users[name].identities == Expected(e, s.cur)
      && s1.users == s.users[name := s1.users[name]]
      && !f.progress.Failed? && (f.user.Some? <==> f.progress.Unchanged?)
      && (f.progress.Unchanged? <==> name in s.users && s.users[name].identities == Expected(e, s.cur))
      && (f.user.Some? ==> f.user.value == s1.users[name] && s1.users[name] == Labelled(s.users[name], s.cur))
      && (f.user.Some? ==> s1.cur == s.cur && s1.saved == s.saved)
      && s1.identities == s.identities && s1.settings == s.settings
      && s1.cur == s.cur.(ready := s1.cur.ready) && s1.saved == s.saved.(ready := s1.saved.ready)
  {
    var name, s1 := s.cur.name, Tick(s);
    if name !in s.users {
      WriteUserStep(e, s1, None, NewUser(e, s.cur, e.newUid), UnableToCreateUser);
    } else {
      var u := Labelled(s.users[name], s.cur);
      var s2 := SaveUser(e, s1, name, Some(s.users[name]), u).0;
      assert UserAt(s2, name) == Some(u);
      WriteUserStep(e, s2, Some(u), u.(identities := Expected(e, s.cur)), UnableToCreateMapping);
    }
  }

  // Without faults a reconcile of a wanted account comes to providing for it.
  lemma Served(e: Env, s: State) returns (s0: State)
    requires NoFaults(e) && Wanted(s.saved)
    ensures Reconcile(e, s) == Provide(e, s0) && s0.saved == s0.cur && s0.saved == s.saved.(finalizer := true)
    ensures s0.users == s.users && s0.identities == s.identities && s0.settings == s.settings
  {
    s0 := AddFinalizer(e, Tick(Start(s))).0;
  }

  lemma SameWorkHere(e: Env, s: State, s1: State)
    requires s1.users == s.users && s1.identities == s.identities
    requires s1.saved.name == s.saved.name && s1.saved.claims == s.saved.claims
    ensures Work(e, s1) == Work(e, s)
  {
    if Listed(e, s) { SameUnmapped(e, s, s1, Subjects(s.saved.claims), Ref(s)); }
  }

  // What one step of providing does without faults.
  ghost predicate Provides(e: Env, s: State, s1: State, p: Progress) {
    && !p.Failed? && s1.settings == s.settings
    && s1.saved == s.saved.(ready := s1.saved.ready) && s1.cur == s.cur.(ready := s1.cur.ready)
    && (p.Changed? ==> Work(e, s1) < Work(e, s))
    && (p.Unchanged? ==> Work(e, s) == 0 && Work(e, s1) == 0 && s1.saved == s.saved && s1.cur == s.cur)
  }

  lemma MappingsProvide(e: Env, s: State, s1: State, u: User)
    requires NoFaults(e) && s.saved == s.cur && s1.cur == s.cur && s1.saved == s.saved && s1.settings == s.settings
    requires s1.identities == s.identities && Listed(e, s) && Listed(e, s1) && u == s1.users[s.saved.name]
    requires Ref(s1) == Ref(s)
    ensures var (s2, p) := EnsureMappings(e, s1, Subjects(s.cur.claims), u); Provides(e, s, s2, p)
  {
    MappingsStep(e, s1, Subjects(s.cur.claims), u);
    SameUnmapped(e, s, s1, Subjects(s.saved.claims), Ref(s));
  }

  lemma ProvideStep(e: Env, s: State)
    requires NoFaults(e) && !e.skipUserCreation && s.saved == s.cur
    ensures var (s1, p) := EnsureUserAndIdentity(e, s); Provides(e, s, s1, p)
  {
    UserStep(e, s);
    var (s1, f) := EnsureUser(e, s);
    var subjects := Subjects(s.saved.claims);
    assert |subjects| <= 3;
    if f.user.Some? {
      MappingsProvide(e, s, s1, f.user.value);
    } else {
      UnmappedBound(e, s1, subjects, RefTo(s.cur, s1.users[s.saved.name]));
    }
  }

  // Without faults every reconcile that does not settle does some of the work, and one that settles leaves none.
  lemma Progresses(e: Env, s: State)
    requires NoFaults(e) && !e.skipUserCreation && Wanted(s.saved)
    ensures var (s1, r) := Reconcile(e, s);
      && !r.Error? && Wanted(s1.saved) && s1.saved == s.saved.(finalizer := true, ready := s1.saved.ready)
      && (r.Acted? ==> Work(e, s1) < Work(e, s))
      && (!r.Acted? ==> Work(e, s) == 0 && Work(e, s1) == 0)
      && s1.settings == s.settings
  {
    var s0 := Served(e, s);
    SameWorkHere(e, s, s0);
    ProvideStep(e, s0);
    var (s1, p) := EnsureUserAndIdentity(e, s0);
    SameWorkHere(e, s1, Conclude(e, s1, p).0);
  }

  // No work left is exactly the mutual mapping.
  lemma WorkDone(e: Env, s: State)
    ensures Work(e, s) == 0 <==> MutuallyMapped(e, s)
    ensures Work(e, s) <= 4
  {
    if Listed(e, s) {
      var subjects := Subjects(s.saved.claims);
      UnmappedBound(e, s, subjects, Ref(s));
      var names := s.users[s.saved.name].identities;
      assert names == IdentityNames(e, subjects);
      if forall x :: x in names ==> MapsTo(s, x, Ref(s)) {
        forall i | 0 <= i < |subjects| ensures MapsTo(s, e.identityName(subjects[i]), Ref(s)) {
          assert names[i] in names;
        }
      }
    }
  }

  // A run of reconciles: state i + 1 is what reconcile i leaves; faults and configuration may differ each time.
  ghost predicate History(es: seq<Env>, ss: seq<State>) {
    |ss| == |es| + 1 && forall i :: 0 <= i < |es| ==> ss[i + 1] == Reconcile(es[i], ss[i]).0
  }

  ghost predicate SameNaming(es: seq<Env>, e: Env) {
    forall i :: 0 <= i < |es| ==> NoFaults(es[i]) && !es[i].skipUserCreation && es[i].identityName == e.identityName
  }

  lemma {:induction false} SameNames(e: Env, e1: Env, subjects: seq<string>)
    requires e.identityName == e1.identityName
    ensures IdentityNames(e, subjects) == IdentityNames(e1, subjects)
  {
    if subjects != [] { SameNames(e, e1, subjects[1..]); }
  }

  lemma {:induction false} SameNamesUnmapped(e: Env, e1: Env, s: State, subjects: seq<string>, ref: UserRef)
    requires e.identityName == e1.identityName
    ensures Unmapped(e, s, subjects, ref) == Unmapped(e1, s, subjects, ref)
  {
    if subjects != [] { SameNamesUnmapped(e, e1, s, subjects[1..], ref); }
  }

  lemma SameWork(e: Env, e1: Env, s: State)
    requires e.identityName == e1.identityName
    ensures Work(e, s) == Work(e1, s)
  {
    SameNames(e, e1, Subjects(s.saved.claims));
    if Listed(e, s) { SameNamesUnmapped(e, e1, s, Subjects(s.saved.claims), Ref(s)); }
  }

  // From any state, at most four reconciles act; every later one settles (or is postponed) on the mutual mapping.
  lemma {:induction false} Converges(e: Env, es: seq<Env>, ss: seq<State>, n: nat)
    requires History(es, ss) && SameNaming(es, e) && Wanted(ss[0].saved) && n <= |es|
    ensures Wanted(ss[n].saved)
    ensures Work(e, ss[n]) <= (if n >= Work(e, ss[0]) then 0 else Work(e, ss[0]) - n)
    ensures n >= 4 ==> MutuallyMapped(e, ss[n])
    ensures n < |es| && n >= 4 ==> var r := Reconcile(es[n], ss[n]).1; r.Settled? || r.Postponed?
  {
    if n > 0 {
      Converges(e, es, ss, n - 1);
      assert ss[n - 1 + 1] == Reconcile(es[n - 1], ss[n - 1]).0;
      SameWork(e, es[n - 1], ss[n - 1]);
      SameWork(e, es[n - 1], ss[n]);
      Progresses(es[n - 1], ss[n - 1]);
    }
    WorkDone(e, ss[0]);
    WorkDone(e, ss[n]);
    if n < |es| {
      SameWork(e, es[n], ss[n]);
      Progresses(es[n], ss[n]);
    }
  }

  // ---- Labels and annotations ----

  // Setting them a second time changes nothing, though the source reports a change each time for a User.
  lemma LabellingIsIdempotent(u: User, a: Account)
    ensures Labelled(Labelled(u, a), a) == Labelled(u, a)
    ensures Tagged(Tagged(u.labels, a), a) == Tagged(u.labels, a)
  {
    assert Tagged(Tagged(u.labels, a), a) == Tagged(u.labels, a);
    assert Noted(Some(Noted(u.notes, a)), a) == Noted(u.notes, a);
  }

  // A User that has just been created needs no repair and no new labels.
  lemma NewUserNeedsNoRepair(e: Env, a: Account)
    ensures NewUser(e, a, e.newUid).identities == Expected(e, a)
    ensures Labelled(NewUser(e, a, e.newUid), a) == NewUser(e, a, e.newUid)
  {
    LabellingIsIdempotent(User(e.newUid, map[], None, Expected(e, a)), a);
  }

  // A settled account stays as it is: the next reconcile without faults settles again and changes nothing.
  lemma SettledStays(e: Env, e1: Env, s: State)
    requires NoFaults(e) && NoFaults(e1) && e.identityName == e1.identityName
    requires !e.skipUserCreation && !e1.skipUserCreation && Wanted(s.saved)
    requires Reconcile(e, s).1.Settled?
    ensures var (s1, r1) := Reconcile(e, s);
      var (s2, r2) := Reconcile(e1, s1);
      r2.Settled? && s2.users == s1.users && s2.identities == s1.identities && s2.settings == s1.settings
      && s2.saved == s1.saved
  {
    var (s1, r1) := Reconcile(e, s);
    Progresses(e, s);
    SettledShape(e, s);
    Progresses(e1, s1);
    SameWork(e, e1, s1);
    LabelledStays(e1, s1);
  }

  // What a settled account looks like.
  predicate Shaped(e: Env, s: State) {
    && s.saved.finalizer && s.saved.ready == Some(Provisioned)
    && s.saved.name in s.users && Labelled(s.users[s.saved.name], s.saved) == s.users[s.saved.name]
    && (forall x :: x in Expected(e, s.saved) ==>
        x in s.identities && Tagged(s.identities[x].labels, s.saved) == s.identities[x].labels)
  }

  lemma SettledShape(e: Env, s: State)
    requires NoFaults(e) && !e.skipUserCreation && Wanted(s.saved) && Reconcile(e, s).1.Settled?
    ensures Shaped(e, Reconcile(e, s).0)
  {
    var s0 := Served(e, s);
    UserStep(e, s0);
    var (s1, f) := EnsureUser(e, s0);
    MappedShape(e, s0, s1, f.user.value);
  }

  lemma MappedShape(e: Env, s: State, s1: State, u: User)
    requires NoFaults(e) && s.saved == s.cur && s.cur.finalizer && s1.cur == s.cur && s1.saved == s.saved
    requires s.cur.name in s.users && s1.users == s.users[s.cur.name := u] && u == Labelled(s.users[s.cur.name], s.cur)
    requires var (s2, p) := EnsureMappings(e, s1, Subjects(s.cur.claims), u); Conclude(e, s2, p).1.Settled?
    ensures var (s2, p) := EnsureMappings(e, s1, Subjects(s.cur.claims), u); Shaped(e, Conclude(e, s2, p).0)
  {
    var subjects := Subjects(s.cur.claims);
    MappingsLabel(e, s1, subjects, u);
    MappingsStep(e, s1, subjects, u);
    var (s2, p) := EnsureMappings(e, s1, subjects, u);
    var s9 := Conclude(e, s2, p).0;
    LabellingDependsOnSpec(s.users[s.cur.name], s.cur, s9.saved);
    LabellingDependsOnSpec(u, s.cur, s9.saved);
    LabellingIsIdempotent(s.users[s.cur.name], s.cur);
    forall x | x in Expected(e, s9.saved)
      ensures x in s9.identities && Tagged(s9.identities[x].labels, s9.saved) == s9.identities[x].labels
    {
      var i :| 0 <= i < |subjects| && x == e.identityName(subjects[i]);
    }
  }

  // Labels and annotations depend on the name and the claims only.
  lemma LabellingDependsOnSpec(u: User, a: Account, b: Account)
    requires a.name == b.name && a.claims == b.claims
    ensures Labelled(u, a) == Labelled(u, b)
  {}

  lemma {:induction false} MappingsLabel(e: Env, s: State, subjects: seq<string>, u: User)
    requires NoFaults(e) && EnsureMappings(e, s, subjects, u).1.Unchanged?
    ensures var s1 := EnsureMappings(e, s, subjects, u).0;
      && (forall x :: x in s.identities ==> x in s1.identities)
      && (forall x :: (x in s.identities && Tagged(s.identities[x].labels, s.cur) == s.identities[x].labels) ==>
          s1.identities[x].labels == s.identities[x].labels)
      && (forall i :: 0 <= i < |subjects| ==> var x := e.identityName(subjects[i]);
          x in s1.identities && Tagged(s1.identities[x].labels, s.cur) == s1.identities[x].labels)
    decreases |subjects|
  {
    if subjects != [] {
      MappingStep(e, s, subjects[0], u);
      var (s1, p) := EnsureMapping(e, s, subjects[0], u);
      MappingsLabel(e, s1, subjects[1..], u);
      var s2 := EnsureMappings(e, s, subjects, u).0;
      var name := e.identityName(subjects[0]);
      assert Tagged(s1.identities[name].labels, s.cur) == s1.identities[name].labels;
      forall i | 0 <= i < |subjects|
        ensures var x := e.identityName(subjects[i]);
          x in s2.identities && Tagged(s2.identities[x].labels, s.cur) == s2.identities[x].labels
      {
        assert i > 0 ==> subjects[1..][i - 1] == subjects[i];
      }
    }
  }

  lemma {:induction false} MappingsStay(e: Env, s: State, subjects: seq<string>, u: User)
    requires NoFaults(e)
    requires forall i :: 0 <= i < |subjects| ==> var x := e.identityName(subjects[i]);
      MapsTo(s, x, RefTo(s.cur, u)) && Tagged(s.identities[x].labels, s.cur) == s.identities[x].labels
    ensures var (s1, p) := EnsureMappings(e, s, subjects, u);
      p.Unchanged? && s1.(calls := s.calls) == s
    decreases |subjects|
  {
    if subjects != [] {
      assert MapsTo(s, e.identityName(subjects[0]), RefTo(s.cur, u));
      var s1 := EnsureMapping(e, s, subjects[0], u).0;
      forall i | 0 <= i < |subjects[1..]| ensures var x := e.identityName(subjects[1..][i]);
        MapsTo(s1, x, RefTo(s1.cur, u)) && Tagged(s1.identities[x].labels, s1.cur) == s1.identities[x].labels
      {
        assert subjects[1..][i] == subjects[i + 1];
      }
      MappingsStay(e, s1, subjects[1..], u);
    }
  }

  lemma LabelledStays(e: Env, s: State)
    requires NoFaults(e) && !e.skipUserCreation && Wanted(s.saved) && Shaped(e, s) && Work(e, s) == 0
    ensures var (s1, r) := Reconcile(e, s);
      && r.Settled? && s1.users == s.users && s1.identities == s.identities && s1.settings == s.settings
      && s1.saved == s.saved
  {
    var s0 := Tick(Start(s));
    var u := s.users[s.saved.name];
    WorkDone(e, s);
    var (s1, f) := EnsureUser(e, s0);
    assert f.user == Some(u) && s1.users == s.users;
    var subjects := Subjects(s.saved.claims);
    forall i | 0 <= i < |subjects| ensures var x := e.identityName(subjects[i]);
      MapsTo(s1, x, RefTo(s1.cur, u)) && Tagged(s1.identities[x].labels, s1.cur) == s1.identities[x].labels
    {
      var x := e.identityName(subjects[i]);
      assert Expected(e, s.saved)[i] == x && x in Expected(e, s.saved);
      assert MapsTo(s, x, Ref(s)) && s1.identities == s.identities;
    }
    MappingsStay(e, s1, subjects, u);
  }
}
