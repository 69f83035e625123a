// The comparisons of spec and status sort copies of the lists; what they decide.
module StatusComparison {
  import opened Names
  import opened Cluster
  import opened SpaceRoles

  // Namespace entries are template references, so sorting and comparing decides equality as collections.
  lemma NamespacesComparison(spec: seq<string>, status: seq<string>)
    ensures SortedList(spec) == SortedList(status) <==> multiset(spec) == multiset(status)
  {
    SortedListSorts(spec);
    SortedListSorts(status);
    if multiset(spec) == multiset(status) { SortedEqual(SortedList(spec), SortedList(status)); }
  }

  // ---- Space roles ----

  // A role as the comparison is meant to see it: its template and who has it.
  datatype Entry = Entry(templateRef: string, users: multiset<string>)

  function EntryOf(r: SpaceRole): Entry { Entry(r.templateRef, multiset(r.usernames)) }

  function Entries(roles: seq<SpaceRole>): (r: seq<Entry>)
    ensures |r| == |roles| && forall i :: 0 <= i < |r| ==> r[i] == EntryOf(roles[i])
  {
    if roles == [] then [] else [EntryOf(roles[0])] + Entries(roles[1..])
  }

  function RoleBag(roles: seq<SpaceRole>): multiset<Entry> { multiset(Entries(roles)) }

  // Equal up to the order of roles and of usernames: what the comparison is there to decide.
  predicate SameRoles(a: seq<SpaceRole>, b: seq<SpaceRole>) { RoleBag(a) == RoleBag(b) }

  // What sort.Slice may return for a list of roles: a permutation, in order of template references.
  ghost predicate Arranged(x: seq<SpaceRole>, a: seq<SpaceRole>) {
    && multiset(x) == multiset(a)
    && forall i, j :: 0 <= i < j < |x| ==> Leq(x[i].templateRef, x[j].templateRef)
  }

  // Entries that repeat a reference repeat its usernames as well.
  ghost predicate Uniform(a: seq<SpaceRole>) {
    forall r, q :: r in a && q in a && r.templateRef == q.templateRef ==> EntryOf(r) == EntryOf(q)
  }

  function Drop<T>(q: seq<T>, i: nat): seq<T>
    requires i < |q|
  {
    q[..i] + q[i + 1..]
  }

  lemma DropBag<T>(q: seq<T>, i: nat)
    requires i < |q|
    ensures multiset(Drop(q, i)) == multiset(q) - multiset{q[i]} && multiset(q) == multiset(Drop(q, i)) + multiset{q[i]}
  {
    assert q == q[..i] + [q[i]] + q[i + 1..];
  }

  lemma EntriesDrop(b: seq<SpaceRole>, i: nat)
    requires i < |b|
    ensures Entries(Drop(b, i)) == Drop(Entries(b), i)
  {
    var es, ds := Entries(b), Entries(Drop(b, i));
    assert |ds| == |Drop(es, i)|;
    forall k | 0 <= k < |ds| ensures ds[k] == Drop(es, i)[k] {
      assert Drop(b, i)[k] == if k < i then b[k] else b[k + 1];
    }
  }

  lemma Without(b: seq<SpaceRole>, i: nat)
    requires i < |b|
    ensures RoleBag(Drop(b, i)) == RoleBag(b) - multiset{EntryOf(b[i])}
  {
    EntriesDrop(b, i);
    DropBag(Entries(b), i);
  }

  lemma EntriesMember(b: seq<SpaceRole>, r: SpaceRole)
    requires r in b
    ensures EntryOf(r) in RoleBag(b)
  {
    var i :| 0 <= i < |b| && b[i] == r;
    assert Entries(b)[i] == EntryOf(r);
  }

  lemma {:induction false} RoleBagPermutes(a: seq<SpaceRole>, b: seq<SpaceRole>)
    requires multiset(a) == multiset(b)
    ensures RoleBag(a) == RoleBag(b)
    decreases |a|
  {
    SameBagSameSize(a, b);
    if a != [] {
      assert a[0] in a && a[0] in b;
      var i :| 0 <= i < |b| && b[i] == a[0];
      Without(b, i);
      DropBag(b, i);
      TailBag(a);
      RoleBagPermutes(a[1..], Drop(b, i));
      RoleBagTail(a);
      EntriesMember(b, b[i]);
    }
  }

  lemma RoleBagTail(a: seq<SpaceRole>)
    requires a != []
    ensures RoleBag(a) == multiset{EntryOf(a[0])} + RoleBag(a[1..])
  {
    assert Entries(a) == [EntryOf(a[0])] + Entries(a[1..]);
  }

  // Sorting the usernames of each role, in place in the source, keeps who is in which role.
  lemma {:induction false} SortedUsersKeep(a: seq<SpaceRole>)
    ensures RoleBag(SortedUsers(a)) == RoleBag(a) && |SortedUsers(a)| == |a|
  {
    if a != [] {
      SortedUsersKeep(a[1..]);
      SortedListSorts(a[0].usernames);
      var head := SpaceRole(a[0].templateRef, SortedList(a[0].usernames));
      assert SortedUsers(a)[1..] == SortedUsers(a[1..]) && SortedUsers(a)[0] == head;
      RoleBagTail(a);
      RoleBagTail(SortedUsers(a));
    }
  }

  lemma {:induction false} SortedUsersAt(a: seq<SpaceRole>, i: nat)
    requires i < |a|
    ensures |SortedUsers(a)| == |a|
    ensures SortedUsers(a)[i] == SpaceRole(a[i].templateRef, SortedList(a[i].usernames))
  {
    SortedUsersKeep(a);
    if i > 0 { SortedUsersAt(a[1..], i - 1); }
  }

  lemma Origin(a: seq<SpaceRole>, b: seq<SpaceRole>, r: SpaceRole) returns (q: SpaceRole)
    requires RoleBag(a) == RoleBag(b) && r in b
    ensures q in a && EntryOf(q) == EntryOf(r)
  {
    EntriesMember(b, r);
    assert EntryOf(r) in Entries(a);
    var k :| 0 <= k < |a| && Entries(a)[k] == EntryOf(r);
    q := a[k];
  }

  lemma UniformByBag(a: seq<SpaceRole>, b: seq<SpaceRole>)
    requires RoleBag(a) == RoleBag(b) && Uniform(a)
    ensures Uniform(b)
  {
    forall r, q | r in b && q in b && r.templateRef == q.templateRef ensures EntryOf(r) == EntryOf(q) {
      var r' := Origin(a, b, r);
      var q' := Origin(a, b, q);
    }
  }

  // Both lists start with the least reference, and under it there is only one entry to find.
  lemma SameHead(x: seq<SpaceRole>, y: seq<SpaceRole>)
    requires Arranged(x, x) && Arranged(y, y) && Uniform(y) && RoleBag(x) == RoleBag(y) && x != []
    ensures y != [] && EntryOf(x[0]) == EntryOf(y[0]) && RoleBag(x[1..]) == RoleBag(y[1..])
  {
    var a, b := Entries(x), Entries(y);
    SameBagSameSize(a, b);
    assert a[0] in a && b[0] in b;
    var i :| 0 <= i < |b| && b[i] == a[0];
    var j :| 0 <= j < |a| && a[j] == b[0];
    LeqReflexive(x[0].templateRef);
    LeqReflexive(y[0].templateRef);
    LeqAntisymmetric(x[0].templateRef, y[0].templateRef);
    assert y[i] in y && y[0] in y;
    RoleBagTail(x);
    RoleBagTail(y);
    TakeOut(RoleBag(x[1..]), RoleBag(y[1..]), EntryOf(x[0]));
  }

  lemma TakeOut(a: multiset<Entry>, b: multiset<Entry>, x: Entry)
    requires multiset{x} + a == multiset{x} + b
    ensures a == b
  {
    assert a == multiset{x} + a - multiset{x} && b == multiset{x} + b - multiset{x};
  }

  lemma TailsFit(x: seq<SpaceRole>, y: seq<SpaceRole>)
    requires Arranged(x, x) && Arranged(y, y) && Uniform(y) && x != [] && y != []
    ensures Arranged(x[1..], x[1..]) && Arranged(y[1..], y[1..]) && Uniform(y[1..])
  {}

  lemma {:induction false} UniformAgree(x: seq<SpaceRole>, y: seq<SpaceRole>)
    requires Arranged(x, x) && Arranged(y, y) && Uniform(y) && RoleBag(x) == RoleBag(y)
    ensures SortedUsers(x) == SortedUsers(y)
  {
    SameBagSameSize(Entries(x), Entries(y));
    if x != [] {
      SameHead(x, y);
      TailsFit(x, y);
      UniformAgree(x[1..], y[1..]);
      NamespacesComparison(x[0].usernames, y[0].usernames);
    }
  }

  // Equal after sorting means equal up to order; and when one of the lists is uniform, also the other way
  // round, whatever arrangements the sort picks.
  lemma RolesComparison(spec: seq<SpaceRole>, status: seq<SpaceRole>, x: seq<SpaceRole>, y: seq<SpaceRole>)
    requires Arranged(x, spec) && Arranged(y, status)
    ensures SortedUsers(x) == SortedUsers(y) ==> SameRoles(spec, status)
    ensures Uniform(spec) || Uniform(status) ==> (SortedUsers(x) == SortedUsers(y) <==> SameRoles(spec, status))
  {
    RoleBagPermutes(x, spec);
    RoleBagPermutes(y, status);
    SortedUsersKeep(x);
    SortedUsersKeep(y);
    if SameRoles(spec, status) && (Uniform(spec) || Uniform(status)) {
      if Uniform(spec) { UniformByBag(spec, y); } else { UniformByBag(status, y); }
      UniformAgree(x, y);
    }
  }

  // ---- When the arrangement matters ----

  function ByRef(a: seq<SpaceRole>): seq<SpaceRole> { if a == [] then [] else PutByRef(a[0], ByRef(a[1..])) }

  function PutByRef(r: SpaceRole, x: seq<SpaceRole>): seq<SpaceRole> {
    if x == [] || Leq(r.templateRef, x[0].templateRef) then [r] + x else [x[0]] + PutByRef(r, x[1..])
  }

  lemma PrependArranges(r: SpaceRole, x: seq<SpaceRole>)
    requires Arranged(x, x) && forall q :: q in x ==> Leq(r.templateRef, q.templateRef)
    ensures Arranged([r] + x, [r] + x)
  {
    var y := [r] + x;
    forall i, j | 0 <= i < j < |y| ensures Leq(y[i].templateRef, y[j].templateRef) {
      assert y[j] == x[j - 1];
      if i > 0 { assert y[i] == x[i - 1]; }
    }
  }

  lemma FirstIsLeast(x: seq<SpaceRole>, q: SpaceRole)
    requires Arranged(x, x) && q in x
    ensures Leq(x[0].templateRef, q.templateRef)
  {
    LeqReflexive(q.templateRef);
  }

  lemma {:induction false} PutByRefArranges(r: SpaceRole, x: seq<SpaceRole>)
    requires Arranged(x, x)
    ensures Arranged(PutByRef(r, x), [r] + x)
  {
    if x == [] {
    } else if Leq(r.templateRef, x[0].templateRef) {
      forall q | q in x ensures Leq(r.templateRef, q.templateRef) {
        FirstIsLeast(x, q);
        LeqTransitive(r.templateRef, x[0].templateRef, q.templateRef);
      }
      PrependArranges(r, x);
    } else {
      LeqTotal(r.templateRef, x[0].templateRef);
      PutByRefArranges(r, x[1..]);
      assert x == [x[0]] + x[1..];
      var rest := PutByRef(r, x[1..]);
      SameBagSameSize(rest, [r] + x[1..]);
      forall q | q in rest ensures Leq(x[0].templateRef, q.templateRef) {
        if q != r { FirstIsLeast(x, q); }
      }
      PrependArranges(x[0], rest);
    }
  }

  lemma {:induction false} ByRefArranges(a: seq<SpaceRole>)
    ensures Arranged(ByRef(a), a)
  {
    if a != [] {
      ByRefArranges(a[1..]);
      PutByRefArranges(a[0], ByRef(a[1..]));
      assert a == [a[0]] + a[1..];
    }
  }

  function Swapped(x: seq<SpaceRole>, i: nat, j: nat): (r: seq<SpaceRole>)
    requires i < j < |x|
    ensures |r| == |x| && multiset(r) == multiset(x)
  {
    assert x == x[..i] + [x[i]] + x[i + 1..j] + [x[j]] + x[j + 1..];
    assert x[i := x[j]][j := x[i]] == x[..i] + [x[j]] + x[i + 1..j] + [x[i]] + x[j + 1..];
    x[i := x[j]][j := x[i]]
  }

  lemma SwappedArranges(x: seq<SpaceRole>, a: seq<SpaceRole>, i: nat, j: nat)
    requires i < j < |x| && x[i].templateRef == x[j].templateRef && Arranged(x, a)
    ensures Arranged(Swapped(x, i, j), a)
  {
    var z := Swapped(x, i, j);
    assert forall k :: 0 <= k < |x| ==> z[k].templateRef == x[k].templateRef;
  }

  lemma Clash(x: seq<SpaceRole>) returns (i: nat, j: nat)
    requires !Uniform(x)
    ensures i < j < |x| && x[i].templateRef == x[j].templateRef && EntryOf(x[i]) != EntryOf(x[j])
  {
    var r, q :| r in x && q in x && r.templateRef == q.templateRef && EntryOf(r) != EntryOf(q);
    i :| 0 <= i < |x| && x[i] == r;
    j :| 0 <= j < |x| && x[j] == q;
    if i > j { i, j := j, i; }
  }

  // Two different entries under one reference: some two arrangements differ.
  lemma ArrangementsDiffer(a: seq<SpaceRole>) returns (x: seq<SpaceRole>, z: seq<SpaceRole>)
    requires !Uniform(a)
    ensures Arranged(x, a) && Arranged(z, a) && SortedUsers(x) != SortedUsers(z)
  {
    x := ByRef(a);
    ByRefArranges(a);
    RoleBagPermutes(x, a);
    if Uniform(x) { UniformByBag(x, a); }
    var i, j := Clash(x);
    z := Swapped(x, i, j);
    SwappedArranges(x, a, i, j);
    SortedUsersAt(x, i);
    SortedUsersAt(z, i);
    NamespacesComparison(x[i].usernames, z[i].usernames);
    assert z[i] == x[j];
  }

  // Of two lists that are equal up to order, every pair of arrangements compares equal exactly when entries
  // with equal references have equal users.
  lemma ArrangementsAgreeIff(a: seq<SpaceRole>, b: seq<SpaceRole>)
    requires SameRoles(a, b)
    ensures (forall x, y :: Arranged(x, a) && Arranged(y, b) ==> SortedUsers(x) == SortedUsers(y)) <==> Uniform(a)
  {
    if Uniform(a) {
      forall x, y | Arranged(x, a) && Arranged(y, b) ensures SortedUsers(x) == SortedUsers(y) {
        RolesComparison(a, b, x, y);
      }
    } else {
      var x, z := ArrangementsDiffer(a);
      ByRefArranges(b);
      var y := ByRef(b);
      assert Arranged(y, b) && (SortedUsers(x) != SortedUsers(y) || SortedUsers(z) != SortedUsers(y));
    }
  }

  // ---- The comparison the operator makes: sort.Slice goes by the references alone ----

  ghost predicate Orders(p: seq<nat>, refs: seq<string>) {
    && Permutes(p, |refs|)
    && forall i, j :: 0 <= i < j < |p| ==> Leq(refs[p[i]], refs[p[j]])
  }

  // sort.Slice sorts.
  ghost predicate Sorts(e: Env) { forall refs :: Orders(e.order(refs), refs) }

  lemma PickedDrop(roles: seq<SpaceRole>, q: seq<nat>, i: nat)
    requires Below(q, |roles|) && i < |q|
    ensures Below(Drop(q, i), |roles|) && Picked(roles, Drop(q, i)) == Drop(Picked(roles, q), i)
  {}

  lemma {:induction false} PickedBag(roles: seq<SpaceRole>, p: seq<nat>, q: seq<nat>)
    requires multiset(p) == multiset(q) && Below(p, |roles|) && Below(q, |roles|)
    ensures multiset(Picked(roles, p)) == multiset(Picked(roles, q))
    decreases |p|
  {
    SameBagSameSize(p, q);
    if p != [] {
      assert p[0] in q;
      var i :| 0 <= i < |q| && q[i] == p[0];
      PickedDrop(roles, p, 0);
      PickedDrop(roles, q, i);
      DropBag(p, 0);
      DropBag(q, i);
      DropBag(Picked(roles, p), 0);
      DropBag(Picked(roles, q), i);
      PickedBag(roles, Drop(p, 0), Drop(q, i));
    }
  }

  lemma ArrangeArranges(e: Env, a: seq<SpaceRole>)
    requires Sorts(e)
    ensures Arranged(Arrange(e, a), a)
  {
    var refs := RefsOf(a);
    var p := e.order(refs);
    assert Orders(p, refs);
    PickedBag(a, p, UpTo(|a|));
    assert Picked(a, UpTo(|a|)) == a;
  }

  // Lists the comparison finds equal are equal up to order; the converse holds when entries with equal
  // references have equal users.
  lemma AlikeMeans(e: Env, a: Roles, b: Roles)
    requires Sorts(e)
    ensures Alike(e, a, b) ==> SameRoles(Items(a), Items(b))
    ensures Uniform(Items(a)) ==> (Alike(e, a, b) <==> SameRoles(Items(a), Items(b)))
  {
    ArrangeArranges(e, Items(a));
    ArrangeArranges(e, Items(b));
    RolesComparison(Items(a), Items(b), Arrange(e, Items(a)), Arrange(e, Items(b)));
  }

  lemma ArrangedAlikeDiffer(e: Env, x: seq<SpaceRole>, i: nat, j: nat)
    requires Sorts(e) && i < j < |x| && x[i].templateRef == x[j].templateRef && EntryOf(x[i]) != EntryOf(x[j])
    ensures !Alike(e, Some(x), Some(Swapped(x, i, j)))
  {
    var z := Swapped(x, i, j);
    assert RefsOf(x) == RefsOf(z);
    var p := e.order(RefsOf(x));
    assert Orders(p, RefsOf(x));
    SameBagSameSize(p, UpTo(|x|));
    assert UpTo(|x|)[i] in p;
    var k :| 0 <= k < |p| && p[k] == i;
    SortedUsersAt(Picked(x, p), k);
    SortedUsersAt(Picked(z, p), k);
    NamespacesComparison(x[i].usernames, x[j].usernames);
  }

  // Whatever sort.Slice does with equal references: the comparison ignores the order of the roles of a list
  // exactly when entries with equal references have equal users.
  lemma OrderIgnoredIff(e: Env, a: seq<SpaceRole>)
    requires Sorts(e)
    ensures (forall b :: SameRoles(a, b) ==> Alike(e, Some(a), Some(b))) <==> Uniform(a)
  {
    if Uniform(a) {
      forall b | SameRoles(a, b) ensures Alike(e, Some(a), Some(b)) { AlikeMeans(e, Some(a), Some(b)); }
    } else {
      var i, j := Clash(a);
      var b := Swapped(a, i, j);
      RoleBagPermutes(a, b);
      ArrangedAlikeDiffer(e, a, i, j);
      assert SameRoles(a, b);
    }
  }

  // A reference listed twice, for one user each: with the two entries the other way round in the status, no
  // sort brings the lists together, and the status is written although nothing but order differs.
  lemma RepeatedRefs(e: Env, s: State, ref: string, u: string, v: string)
    requires Sorts(e) && u != v
    requires s.cur.roles == Some([SpaceRole(ref, [u]), SpaceRole(ref, [v])])
    requires s.cur.status.roles == Some([SpaceRole(ref, [v]), SpaceRole(ref, [u])])
    ensures SameRoles(Items(s.cur.roles), Items(s.cur.status.roles))
    ensures !Alike(e, s.cur.roles, s.cur.status.roles)
    ensures UpdateRevision(e, s).0.calls == s.calls + 1
  {
    var a := Items(s.cur.roles);
    assert Swapped(a, 0, 1) == Items(s.cur.status.roles);
    RoleBagPermutes(a, Swapped(a, 0, 1));
    assert u in EntryOf(a[0]).users && u !in EntryOf(a[1]).users;
    ArrangedAlikeDiffer(e, a, 0, 1);
  }

  // ---- Once written, the comparison finds no difference ----

  lemma {:induction false} SortedListFixed(xs: seq<string>)
    ensures SortedList(SortedList(xs)) == SortedList(xs)
  {
    SortedListSorts(xs);
    SortedIs(SortedList(xs), xs);
    SortedIs(SortedList(xs), SortedList(xs));
  }

  lemma RefsOfSorted(a: seq<SpaceRole>)
    ensures |SortedUsers(a)| == |a| && RefsOf(SortedUsers(a)) == RefsOf(a)
  {
    SortedUsersKeep(a);
    forall i | 0 <= i < |a| ensures SortedUsers(a)[i].templateRef == a[i].templateRef { SortedUsersAt(a, i); }
  }

  lemma SortedUsersPicked(a: seq<SpaceRole>, p: seq<nat>)
    requires Below(p, |a|) && |SortedUsers(a)| == |a|
    ensures SortedUsers(Picked(SortedUsers(a), p)) == SortedUsers(Picked(a, p))
  {
    var x, y := Picked(a, p), Picked(SortedUsers(a), p);
    SortedUsersKeep(x);
    SortedUsersKeep(y);
    forall i | 0 <= i < |p| ensures SortedUsers(x)[i] == SortedUsers(y)[i] {
      SortedUsersAt(x, i);
      SortedUsersAt(y, i);
      SortedUsersAt(a, p[i]);
      SortedListFixed(x[i].usernames);
    }
  }

  lemma SortedUsersFixed(a: seq<SpaceRole>)
    ensures SortedUsers(SortedUsers(a)) == SortedUsers(a)
  {
    SortedUsersKeep(a);
    SortedUsersKeep(SortedUsers(a));
    forall i | 0 <= i < |a| ensures SortedUsers(SortedUsers(a))[i] == SortedUsers(a)[i] {
      SortedUsersAt(a, i);
      SortedUsersAt(SortedUsers(a), i);
      SortedListFixed(a[i].usernames);
    }
  }

  // Sorting usernames changes neither the references, so not the arrangement, nor the outcome.
  lemma ArrangeSortedUsers(e: Env, a: seq<SpaceRole>)
    ensures SortedUsers(Arrange(e, SortedUsers(a))) == SortedUsers(Arrange(e, a))
  {
    RefsOfSorted(a);
    SortedUsersFixed(a);
    var p := e.order(RefsOf(a));
    if Permutes(p, |a|) { SortedUsersPicked(a, p); }
  }

  // A status update reaches its fixpoint at once.
  lemma RolesCaughtUp(e: Env, s: State)
    ensures var s' := UpdateRevision(e, s).0; Alike(e, s'.cur.roles, s'.cur.status.roles)
    ensures Sorts(e) ==> var s' := UpdateRevision(e, s).0; SameRoles(Items(s'.cur.roles), Items(s'.cur.status.roles))
  {
    ArrangeSortedUsers(e, Items(s.cur.roles));
    ArrangeSortedUsers(e, Items(s.cur.status.roles));
    var s' := UpdateRevision(e, s).0;
    if Sorts(e) { AlikeMeans(e, s'.cur.roles, s'.cur.status.roles); }
  }
}
