// Object names, the order `sort.Slice` puts them in, and lists sorted by it.
module Names {
  datatype Option<+T> = None | Some(value: T)

  // Go's `<=` on strings: the lexicographic order.
  predicate Leq(a: string, b: string) {
    a == [] || (b != [] && (a[0] < b[0] || (a[0] == b[0] && Leq(a[1..], b[1..]))))
  }

  // Byte by byte: a prefix comes first, otherwise the first difference decides.
  lemma {:induction false} LeqIsLexicographic(a: string, b: string)
    ensures Leq(a, b) <==> a <= b || exists i :: 0 <= i < |a| && i < |b| && a[..i] == b[..i] && a[i] < b[i]
  {
    if a != [] && b != [] && a[0] == b[0] {
      var c, d := a[1..], b[1..];
      LeqIsLexicographic(c, d);
      assert a == [a[0]] + c && b == [b[0]] + d;
      assert a <= b <==> c <= d;
      if i :| 0 <= i < |c| && i < |d| && c[..i] == d[..i] && c[i] < d[i] {
        assert a[..i + 1] == [a[0]] + c[..i] && b[..i + 1] == [b[0]] + d[..i] && a[i + 1] < b[i + 1];
      }
      if i :| 0 <= i < |a| && i < |b| && a[..i] == b[..i] && a[i] < b[i] {
        assert i > 0 && c[..i - 1] == a[1..i] && d[..i - 1] == b[1..i] && a[1..i] == a[..i][1..];
      }
    } else if a != [] && b != [] && a[0] < b[0] {
      assert a[..0] == b[..0];
    }
  }

  lemma LeqReflexive(a: string)
    ensures Leq(a, a)
  {}

  lemma LeqTotal(a: string, b: string)
    ensures Leq(a, b) || Leq(b, a)
  {}

  lemma {:induction false} LeqAntisymmetric(a: string, b: string)
    requires Leq(a, b) && Leq(b, a)
    ensures a == b
  {
    if a != [] {
      LeqAntisymmetric(a[1..], b[1..]);
      assert a == [a[0]] + a[1..] && b == [b[0]] + b[1..];
    }
  }

  lemma {:induction false} LeqTransitive(a: string, b: string, c: string)
    requires Leq(a, b) && Leq(b, c)
    ensures Leq(a, c)
  {
    if a != [] && a[0] == b[0] && b[0] == c[0] {
      LeqTransitive(a[1..], b[1..], c[1..]);
    }
  }

  predicate IsLeast(m: string, s: set<string>) {
    m in s && forall x :: x in s ==> Leq(m, x)
  }

  lemma {:induction false} LeastExists(s: set<string>) returns (m: string)
    requires s != {}
    ensures IsLeast(m, s)
  {
    m :| m in s;
    LeqReflexive(m);
    if s != {m} {
      var n := LeastExists(s - {m});
      LeqTotal(m, n);
      if Leq(m, n) {
        forall x | x in s - {m} ensures Leq(m, x) { LeqTransitive(m, n, x); }
      } else {
        m := n;
      }
    }
  }

  lemma LeastUnique(m: string, n: string, s: set<string>)
    requires IsLeast(m, s) && IsLeast(n, s)
    ensures m == n
  {
    LeqAntisymmetric(m, n);
  }

  // The alphabetically first name of a set.
  function Least(s: set<string>): (m: string)
    requires s != {}
    ensures IsLeast(m, s)
  {
    assert exists m :: IsLeast(m, s) by { var w := LeastExists(s); }
    assert forall a, b :: IsLeast(a, s) && IsLeast(b, s) ==> a == b by {
      forall a, b | IsLeast(a, s) && IsLeast(b, s) ensures a == b { LeastUnique(a, b, s); }
    }
    var m :| m in s && IsLeast(m, s);
    m
  }

  // The names of a set in ascending order.
  function SortedNames(s: set<string>): (names: seq<string>)
    ensures forall x :: x in names <==> x in s
    ensures |names| == |s|
    ensures Ascending(names)
  {
    if s == {} then [] else
      var m := Least(s);
      [m] + SortedNames(s - {m})
  }

  ghost predicate Ascending(names: seq<string>) {
    forall i, j :: 0 <= i < j < |names| ==> Leq(names[i], names[j]) && names[i] != names[j]
  }

  function Elements(xs: seq<string>): set<string> { set x | x in xs }

  // ---- Sorting and compacting a list ----

  // Ascending, duplicates allowed.
  ghost predicate Sorted(xs: seq<string>) { forall i, j :: 0 <= i < j < |xs| ==> Leq(xs[i], xs[j]) }

  function SortedList(xs: seq<string>): seq<string> {
    if xs == [] then [] else Insert(xs[0], SortedList(xs[1..]))
  }

  function Insert(x: string, xs: seq<string>): seq<string> {
    if xs == [] || Leq(x, xs[0]) then [x] + xs else [xs[0]] + Insert(x, xs[1..])
  }

  // slices.Compact: of equal neighbours one is kept.
  function Compact(xs: seq<string>): seq<string> {
    if |xs| <= 1 then xs
    else if xs[0] == xs[1] then Compact(xs[1..])
    else [xs[0]] + Compact(xs[1..])
  }

  lemma {:induction false} InsertSorts(x: string, xs: seq<string>)
    requires Sorted(xs)
    ensures Sorted(Insert(x, xs)) && multiset(Insert(x, xs)) == multiset{x} + multiset(xs)
  {
    if xs != [] && !Leq(x, xs[0]) {
      LeqTotal(x, xs[0]);
      InsertSorts(x, xs[1..]);
      assert xs == [xs[0]] + xs[1..];
      var r := Insert(x, xs[1..]);
      forall y | y in r ensures Leq(xs[0], y) {
        assert y in multiset(r);
        if y != x { assert y in xs[1..]; }
      }
      PrependSorts(xs[0], r);
    } else if xs != [] {
      forall y | y in xs ensures Leq(x, y) {
        var i :| 0 <= i < |xs| && xs[i] == y;
        if i > 0 { LeqTransitive(x, xs[0], y); }
      }
      PrependSorts(x, xs);
    }
  }

  lemma PrependSorts(x: string, xs: seq<string>)
    requires Sorted(xs) && forall y :: y in xs ==> Leq(x, y)
    ensures Sorted([x] + xs)
  {}

  lemma {:induction false} SortedListSorts(xs: seq<string>)
    ensures Sorted(SortedList(xs)) && multiset(SortedList(xs)) == multiset(xs)
  {
    if xs != [] {
      SortedListSorts(xs[1..]);
      InsertSorts(xs[0], SortedList(xs[1..]));
      assert xs == [xs[0]] + xs[1..];
    }
  }

  lemma HeadsEqual(a: seq<string>, b: seq<string>)
    requires Sorted(a) && Sorted(b) && a != [] && b != [] && a[0] in b && b[0] in a
    ensures a[0] == b[0]
  {
    LeqReflexive(a[0]);
    LeqReflexive(b[0]);
    LeqAntisymmetric(a[0], b[0]);
  }

  lemma TailBag<T>(a: seq<T>)
    requires a != []
    ensures multiset(a[1..]) == multiset(a) - multiset{a[0]}
  {
    assert a == [a[0]] + a[1..];
  }

  lemma SameBagSameSize<T>(a: seq<T>, b: seq<T>)
    requires multiset(a) == multiset(b)
    ensures |a| == |b| && forall x :: x in a <==> x in b
  {
    assert |multiset(a)| == |a| && |multiset(b)| == |b|;
    forall x ensures x in a <==> x in b { assert x in a <==> x in multiset(a); }
  }

  // Two sorted lists are equal exactly when they are permutations of each other.
  lemma {:induction false} SortedEqual(a: seq<string>, b: seq<string>)
    requires Sorted(a) && Sorted(b) && multiset(a) == multiset(b)
    ensures a == b
  {
    SameBagSameSize(a, b);
    if a != [] {
      HeadsEqual(a, b);
      TailBag(a);
      TailBag(b);
      SortedEqual(a[1..], b[1..]);
      assert a == [a[0]] + a[1..] && b == [b[0]] + b[1..];
    }
  }

  // Whatever sorts a list yields the same list.
  lemma SortedIs(r: seq<string>, xs: seq<string>)
    requires Sorted(r) && multiset(r) == multiset(xs)
    ensures r == SortedList(xs)
  {
    SortedListSorts(xs);
    SortedEqual(r, SortedList(xs));
  }

  lemma {:induction false} CompactAscends(xs: seq<string>)
    requires Sorted(xs)
    ensures Ascending(Compact(xs)) && Elements(Compact(xs)) == Elements(xs)
  {
    if |xs| > 1 {
      CompactAscends(xs[1..]);
      var r := Compact(xs[1..]);
      assert Elements(xs) == {xs[0]} + Elements(xs[1..]);
      if xs[0] != xs[1] {
        forall y | y in r ensures Leq(xs[0], y) && xs[0] != y {
          assert y in Elements(r);
          var i :| 1 <= i < |xs| && xs[i] == y;
          LeqReflexive(xs[1]);
          if y == xs[0] { LeqAntisymmetric(xs[0], xs[1]); }
        }
        assert Elements([xs[0]] + r) == {xs[0]} + Elements(r);
      }
    }
  }

  lemma AscendingIsDistinctTail(a: seq<string>)
    requires a != [] && Ascending(a)
    ensures Elements(a[1..]) == Elements(a) - {a[0]}
  {
    assert a == [a[0]] + a[1..];
  }

  lemma {:induction false} AscendingUnique(a: seq<string>, b: seq<string>)
    requires Ascending(a) && Ascending(b) && Elements(a) == Elements(b)
    ensures a == b
  {
    if a == [] {
      assert forall i :: 0 <= i < |b| ==> b[i] in Elements(b);
    } else {
      assert a[0] in Elements(b) && b != [] && b[0] in Elements(a);
      HeadsEqual(a, b);
      AscendingIsDistinctTail(a);
      AscendingIsDistinctTail(b);
      AscendingUnique(a[1..], b[1..]);
      assert a == [a[0]] + a[1..] && b == [b[0]] + b[1..];
    }
  }

  // Sorting and dropping equal neighbours lists each element once, in order: no neighbour but an equal one
  // stands between two equal elements of a sorted list.
  lemma CompactIsSortedNames(xs: seq<string>)
    ensures Compact(SortedList(xs)) == SortedNames(Elements(xs))
  {
    var sorted := SortedList(xs);
    SortedListSorts(xs);
    SameBagSameSize(sorted, xs);
    CompactAscends(sorted);
    assert Elements(sorted) == Elements(xs);
    assert Elements(SortedNames(Elements(xs))) == Elements(xs);
    AscendingUnique(Compact(sorted), SortedNames(Elements(xs)));
  }
}
