// Sorting by a comparison function, and why the result does not depend on the input order.
module Order {

  ghost predicate Transitive<T(!new)>(less: (T, T) -> bool) {
    forall x, y, z :: less(x, y) && less(y, z) ==> less(x, z)
  }

  // Different elements of s compare, and never both ways.
  ghost predicate TotalOn<T>(less: (T, T) -> bool, s: seq<T>) {
    forall x, y :: x in s && y in s && x != y ==> less(x, y) != less(y, x)
  }

  // No element comes after one it is less than.
  ghost predicate Sorted<T(!new)>(less: (T, T) -> bool, s: seq<T>) {
    s == [] || ((forall x :: x in s[1..] ==> !less(x, s[0])) && Sorted(less, s[1..]))
  }

  // Insertion behind everything that is not greater, which keeps equal elements in order.
  function Insert<T>(less: (T, T) -> bool, x: T, s: seq<T>): (r: seq<T>)
    ensures |r| == |s| + 1
  {
    if s == [] then [x]
    else if less(x, s[0]) then [x] + s
    else [s[0]] + Insert(less, x, s[1..])
  }

  // The library's stable sort.
  function SortBy<T>(less: (T, T) -> bool, s: seq<T>): (r: seq<T>)
    ensures |r| == |s|
  {
    if s == [] then [] else Insert(less, s[|s| - 1], SortBy(less, s[..|s| - 1]))
  }

  lemma {:induction false} InsertElements<T>(less: (T, T) -> bool, x: T, s: seq<T>)
    ensures multiset(Insert(less, x, s)) == multiset(s) + multiset{x}
  {
    if s != [] {
      assert s == [s[0]] + s[1..];
      InsertElements(less, x, s[1..]);
    }
  }

  lemma {:induction false} SortElements<T>(less: (T, T) -> bool, s: seq<T>)
    ensures multiset(SortBy(less, s)) == multiset(s)
  {
    if s != [] {
      assert s == s[..|s| - 1] + [s[|s| - 1]];
      SortElements(less, s[..|s| - 1]);
      InsertElements(less, s[|s| - 1], SortBy(less, s[..|s| - 1]));
    }
  }

  lemma SameMembers<T>(s: seq<T>, t: seq<T>)
    requires multiset(s) == multiset(t)
    ensures |s| == |t|
    ensures forall x :: x in s <==> x in t
  {
    assert |multiset(s)| == |s| && |multiset(t)| == |t|;
    forall x
      ensures x in s <==> x in t
    {
      assert x in s <==> x in multiset(s);
      assert x in t <==> x in multiset(t);
    }
  }

  lemma {:induction false} InsertSorted<T(!new)>(less: (T, T) -> bool, x: T, s: seq<T>)
    requires Transitive(less) && Sorted(less, s)
    requires forall y :: !less(y, y)
    ensures Sorted(less, Insert(less, x, s))
  {
    if s != [] {
      if less(x, s[0]) {
        assert ([x] + s)[1..] == s;
        forall y | y in s
          ensures !less(y, x)
        {
          if y != s[0] {
            assert s == [s[0]] + s[1..];
            assert y in s[1..];
          }
        }
      } else {
        var rest := Insert(less, x, s[1..]);
        InsertSorted(less, x, s[1..]);
        InsertElements(less, x, s[1..]);
        assert ([s[0]] + rest)[1..] == rest;
        forall y | y in rest
          ensures !less(y, s[0])
        {
          assert y in multiset(rest);
          assert y == x || y in multiset(s[1..]);
        }
      }
    }
  }

  lemma {:induction false} SortSorted<T(!new)>(less: (T, T) -> bool, s: seq<T>)
    requires Transitive(less) && forall y :: !less(y, y)
    ensures Sorted(less, SortBy(less, s))
  {
    if s != [] {
      SortSorted(less, s[..|s| - 1]);
      InsertSorted(less, s[|s| - 1], SortBy(less, s[..|s| - 1]));
    }
  }

  lemma SameHead<T(!new)>(less: (T, T) -> bool, a: seq<T>, b: seq<T>)
    requires multiset(a) == multiset(b) && a != [] && b != []
    requires Sorted(less, a) && Sorted(less, b) && TotalOn(less, a)
    ensures a[0] == b[0]
  {
    SameMembers(a, b);
    assert a == [a[0]] + a[1..] && b == [b[0]] + b[1..];
    assert b[0] in a && a[0] in b;
    assert forall x :: x in a ==> x == a[0] || x in a[1..];
    assert forall x :: x in b ==> x == b[0] || x in b[1..];
  }

  lemma SameRest<T>(a: seq<T>, b: seq<T>)
    requires multiset(a) == multiset(b) && a != [] && b != [] && a[0] == b[0]
    ensures multiset(a[1..]) == multiset(b[1..])
  {
    assert a == [a[0]] + a[1..] && b == [b[0]] + b[1..];
    assert multiset(a[1..]) == multiset(a) - multiset{a[0]};
    assert multiset(b[1..]) == multiset(b) - multiset{b[0]};
  }

  // Two sorted arrangements of the same elements are the same list.
  lemma {:induction false} SortedIsUnique<T(!new)>(less: (T, T) -> bool, a: seq<T>, b: seq<T>)
    requires multiset(a) == multiset(b)
    requires Sorted(less, a) && Sorted(less, b) && TotalOn(less, a)
    ensures a == b
    decreases |a|
  {
    SameMembers(a, b);
    if a != [] {
      SameHead(less, a, b);
      SameRest(a, b);
      assert forall x :: x in a[1..] ==> x in a;
      SortedIsUnique(less, a[1..], b[1..]);
      assert a == [a[0]] + a[1..] && b == [b[0]] + b[1..];
    }
  }

  // Sorting forgets the order its input came in.
  lemma SortForgetsOrder<T(!new)>(less: (T, T) -> bool, s: seq<T>, t: seq<T>)
    requires Transitive(less) && forall y :: !less(y, y)
    requires multiset(s) == multiset(t) && TotalOn(less, s)
    ensures SortBy(less, s) == SortBy(less, t)
  {
    SortElements(less, s);
    SortElements(less, t);
    SortSorted(less, s);
    SortSorted(less, t);
    SameMembers(SortBy(less, s), s);
    SortedIsUnique(less, SortBy(less, s), SortBy(less, t));
  }

  ghost predicate Distinct<T>(s: seq<T>) {
    forall i, j :: 0 <= i < j < |s| ==> s[i] != s[j]
  }

  lemma {:induction false} DistinctOnce<T>(s: seq<T>)
    requires Distinct(s)
    ensures forall x :: multiset(s)[x] == if x in s then 1 else 0
  {
    if s != [] {
      var front, last := s[..|s| - 1], s[|s| - 1];
      DistinctOnce(front);
      assert s == front + [last];
      assert multiset(s) == multiset(front) + multiset{last};
    }
  }

  // Two lists without repetitions that hold the same elements are permutations of each other.
  lemma DistinctSameElements<T>(s: seq<T>, t: seq<T>)
    requires Distinct(s) && Distinct(t) && forall x :: x in s <==> x in t
    ensures multiset(s) == multiset(t)
  {
    DistinctOnce(s);
    DistinctOnce(t);
  }
}
