/** Sorting and string order, as the sort package and Go's string comparison provide them. */
module Ordering {
  // Byte-wise order of strings; a proper prefix comes first.
  predicate StrLe(a: string, b: string) {
    if a == "" then true
    else if b == "" then false
    else a[0] < b[0] || (a[0] == b[0] && StrLe(a[1..], b[1..]))
  }

  predicate StrLess(a: string, b: string) {
    a != b && StrLe(a, b)
  }

  // The texts first differ at `i`, where `a` has the smaller character.
  predicate SmallerAt(a: string, b: string, i: nat) {
    i < |a| && i < |b| && a[..i] == b[..i] && a[i] < b[i]
  }

  // A proper prefix, or smaller where they first differ.
  ghost predicate Earlier(a: string, b: string) {
    (a <= b && a != b) || exists i: nat :: SmallerAt(a, b, i)
  }

  /** One text comes before another exactly when it is a prefix of it or smaller where they first differ. */
  lemma {:induction false} StrLeExactly(a: string, b: string)
    ensures StrLe(a, b) <==> a == b || Earlier(a, b)
  {
    if a != "" && b != "" {
      if a[0] == b[0] {
        StrLeExactly(a[1..], b[1..]);
        assert a <= b <==> a[1..] <= b[1..];
        if i: nat :| SmallerAt(a[1..], b[1..], i) {
          assert a[..i + 1] == [a[0]] + a[1..][..i] && b[..i + 1] == [b[0]] + b[1..][..i];
          assert SmallerAt(a, b, i + 1);
        }
        if i: nat :| SmallerAt(a, b, i) {
          assert a[1..][..i - 1] == a[..i][1..] && b[1..][..i - 1] == b[..i][1..];
          assert SmallerAt(a[1..], b[1..], i - 1);
        }
      } else {
        if a[0] < b[0] { assert SmallerAt(a, b, 0); }
        if i: nat :| SmallerAt(a, b, i) { assert i > 0 ==> a[..i][0] == b[..i][0]; }
      }
    }
  }

  lemma {:induction false} StrLeTotal(a: string, b: string)
    ensures StrLe(a, b) || StrLe(b, a)
    ensures StrLe(a, b) && StrLe(b, a) ==> a == b
  {
    if a != "" && b != "" && a[0] == b[0] {
      StrLeTotal(a[1..], b[1..]);
      assert a == [a[0]] + a[1..] && b == [b[0]] + b[1..];
    }
  }

  lemma {:induction false} StrLeTransitive(a: string, b: string, c: string)
    requires StrLe(a, b) && StrLe(b, c)
    ensures StrLe(a, c)
  {
    if a != "" && b != "" && c != "" && a[0] == b[0] == c[0] {
      StrLeTransitive(a[1..], b[1..], c[1..]);
    }
  }

  // `le` is a total order on the elements of `s`: total, antisymmetric, transitive.
  ghost predicate TotalOrder<T(!new)>(le: (T, T) -> bool, s: set<T>) {
    && (forall x, y :: x in s && y in s ==> le(x, y) || le(y, x))
    && (forall x, y :: x in s && y in s && le(x, y) && le(y, x) ==> x == y)
    && (forall x, y, z :: x in s && y in s && z in s && le(x, y) && le(y, z) ==> le(x, z))
  }

  ghost predicate Sorted<T>(le: (T, T) -> bool, s: seq<T>) {
    forall i, j :: 0 <= i < j < |s| ==> le(s[i], s[j])
  }

  function Insert<T>(le: (T, T) -> bool, x: T, s: seq<T>): (r: seq<T>)
    ensures multiset(r) == multiset{x} + multiset(s)
    ensures |r| == |s| + 1
  {
    if s == [] || le(x, s[0]) then [x] + s
    else
      assert s == [s[0]] + s[1..];
      [s[0]] + Insert(le, x, s[1..])
  }

  function Sort<T>(le: (T, T) -> bool, s: seq<T>): (r: seq<T>)
    ensures multiset(r) == multiset(s)
    ensures |r| == |s|
  {
    if s == [] then []
    else
      assert s == [s[0]] + s[1..];
      Insert(le, s[0], Sort(le, s[1..]))
  }

  function Map<T, U>(f: T -> U, s: seq<T>): (r: seq<U>)
    ensures |r| == |s| && forall i :: 0 <= i < |s| ==> r[i] == f(s[i])
  {
    seq(|s|, i requires 0 <= i < |s| => f(s[i]))
  }

  lemma MapFirst<T, U>(f: T -> U, x: T, s: seq<T>)
    ensures Map(f, [x] + s) == [f(x)] + Map(f, s)
  {
  }

  // Sorting images by what their preimages are sorted by.
  lemma {:induction false} InsertMap<T(!new), U>(f: T -> U, le: (T, T) -> bool, le': (U, U) -> bool, x: T, s: seq<T>)
    requires forall a, b :: le'(f(a), f(b)) == le(a, b)
    ensures Insert(le', f(x), Map(f, s)) == Map(f, Insert(le, x, s))
    decreases |s|
  {
    if s == [] || le(x, s[0]) {
      MapFirst(f, x, s);
    } else {
      InsertMap(f, le, le', x, s[1..]);
      assert Map(f, s)[1..] == Map(f, s[1..]);
      MapFirst(f, s[0], Insert(le, x, s[1..]));
    }
  }

  lemma {:induction false} SortMap<T(!new), U>(f: T -> U, le: (T, T) -> bool, le': (U, U) -> bool, s: seq<T>)
    requires forall a, b :: le'(f(a), f(b)) == le(a, b)
    ensures Sort(le', Map(f, s)) == Map(f, Sort(le, s))
    decreases |s|
  {
    if s != [] {
      SortMap(f, le, le', s[1..]);
      assert Map(f, s)[1..] == Map(f, s[1..]);
      InsertMap(f, le, le', s[0], Sort(le, s[1..]));
    }
  }

  lemma SameElements<T>(r: seq<T>, s: seq<T>)
    requires multiset(r) == multiset(s)
    ensures forall x :: x in r <==> x in s
  {
    forall x ensures x in r <==> x in s {
      assert x in r <==> x in multiset(r);
      assert x in s <==> x in multiset(s);
    }
  }

  lemma {:induction false} InsertSorted<T(!new)>(le: (T, T) -> bool, x: T, s: seq<T>, u: set<T>)
    requires TotalOrder(le, u) && Sorted(le, s) && x in u && forall y :: y in s ==> y in u
    ensures Sorted(le, Insert(le, x, s))
  {
    if s == [] || le(x, s[0]) {
      var r := [x] + s;
      forall i, j | 0 <= i < j < |r| ensures le(r[i], r[j]) {
        if i == 0 { assert le(s[0], s[j - 1]) || j == 1; }
      }
    } else {
      InsertSorted(le, x, s[1..], u);
      var t := Insert(le, x, s[1..]);
      var r := [s[0]] + t;
      forall j | 0 <= j < |t| ensures le(s[0], t[j]) {
        assert t[j] in multiset(t);
        if t[j] != x { assert t[j] in s[1..]; }
      }
      forall i, j | 0 <= i < j < |r| ensures le(r[i], r[j]) {
        if i > 0 { assert r[i] == t[i - 1] && r[j] == t[j - 1]; }
      }
    }
  }

  lemma {:induction false} SortSorts<T(!new)>(le: (T, T) -> bool, s: seq<T>, u: set<T>)
    requires TotalOrder(le, u) && forall y :: y in s ==> y in u
    ensures Sorted(le, Sort(le, s))
  {
    if s != [] {
      SortSorts(le, s[1..], u);
      SameElements(Sort(le, s[1..]), s[1..]);
      InsertSorted(le, s[0], Sort(le, s[1..]), u);
    }
  }

  lemma HeadIsLeast<T(!new)>(le: (T, T) -> bool, s: seq<T>, u: set<T>, x: T)
    requires TotalOrder(le, u) && (forall y :: y in s ==> y in u) && Sorted(le, s) && x in s
    ensures le(s[0], x)
  {
    var i :| 0 <= i < |s| && s[i] == x;
    if i == 0 { assert le(x, x); }
  }

  lemma TailMultiset<T>(s: seq<T>)
    requires s != []
    ensures multiset(s[1..]) == multiset(s) - multiset{s[0]}
  {
    assert s == [s[0]] + s[1..];
  }

  lemma SameHead<T(!new)>(le: (T, T) -> bool, r: seq<T>, s: seq<T>, u: set<T>)
    requires TotalOrder(le, u) && (forall y :: y in s ==> y in u)
    requires Sorted(le, r) && Sorted(le, s) && multiset(r) == multiset(s) && r != []
    ensures s != [] && r[0] == s[0] && (forall y :: y in r ==> y in u)
  {
    SameElements(r, s);
    assert r[0] in s && s[0] in r;
    HeadIsLeast(le, r, u, s[0]);
    HeadIsLeast(le, s, u, r[0]);
  }

  /** Sorting by a total order has one result, whatever order the elements came in. */
  lemma {:induction false} SortedUnique<T(!new)>(le: (T, T) -> bool, r: seq<T>, s: seq<T>, u: set<T>)
    requires TotalOrder(le, u) && (forall y :: y in s ==> y in u)
    requires Sorted(le, r) && Sorted(le, s) && multiset(r) == multiset(s)
    ensures r == s
  {
    if r == [] {
      assert |multiset(s)| == |s|;
    } else {
      SameHead(le, r, s, u);
      TailMultiset(r);
      TailMultiset(s);
      SortedUnique(le, r[1..], s[1..], u);
      assert r == [r[0]] + r[1..] && s == [s[0]] + s[1..];
    }
  }

  lemma SortIgnoresOrder<T(!new)>(le: (T, T) -> bool, r: seq<T>, s: seq<T>, u: set<T>)
    requires TotalOrder(le, u) && (forall y :: y in s ==> y in u) && multiset(r) == multiset(s)
    ensures Sort(le, r) == Sort(le, s)
  {
    SameElements(r, s);
    SameElements(Sort(le, s), s);
    SortSorts(le, r, u);
    SortSorts(le, s, u);
    SortedUnique(le, Sort(le, r), Sort(le, s), u);
  }

  ghost predicate Distinct<T>(s: seq<T>) {
    forall i, j :: 0 <= i < j < |s| ==> s[i] != s[j]
  }

  lemma {:induction false} DistinctByMultiset<T>(s: seq<T>)
    ensures Distinct(s) <==> forall x :: multiset(s)[x] <= 1
  {
    if s != [] {
      assert s == [s[0]] + s[1..];
      DistinctByMultiset(s[1..]);
      assert multiset(s) == multiset{s[0]} + multiset(s[1..]);
      assert s[0] in s[1..] <==> multiset(s[1..])[s[0]] >= 1;
      if Distinct(s) {
        assert Distinct(s[1..]);
        assert s[0] !in s[1..];
      } else if Distinct(s[1..]) {
        var i, j :| 0 <= i < j < |s| && s[i] == s[j];
        assert i == 0 by { assert forall a, b :: 0 <= a < b < |s[1..]| ==> s[1..][a] == s[a + 1] && s[1..][b] == s[b + 1]; }
        assert s[0] == s[1..][j - 1];
        assert multiset(s)[s[0]] > 1;
      } else {
        var x :| multiset(s[1..])[x] > 1;
        assert multiset(s)[x] > 1;
      }
    }
  }

  lemma SortKeepsDistinct<T>(le: (T, T) -> bool, s: seq<T>)
    ensures Distinct(Sort(le, s)) <==> Distinct(s)
  {
    DistinctByMultiset(s);
    DistinctByMultiset(Sort(le, s));
  }

  lemma StringOrder(s: set<string>)
    ensures TotalOrder(StrLe, s)
  {
    forall x, y | x in s && y in s
      ensures StrLe(x, y) || StrLe(y, x)
      ensures StrLe(x, y) && StrLe(y, x) ==> x == y
    {
      StrLeTotal(x, y);
    }
    forall x, y, z | x in s && y in s && z in s && StrLe(x, y) && StrLe(y, z) ensures StrLe(x, z) {
      StrLeTransitive(x, y, z);
    }
  }

  /** The elements of a set, sorted; the iteration order of the set does not matter. */
  method SortedStrings(s: set<string>) returns (r: seq<string>)
    ensures forall i, j :: 0 <= i < j < |r| ==> StrLess(r[i], r[j])
    ensures forall x :: x in r <==> x in s
  {
    r := [];
    var todo := s;
    while todo != {}
      invariant todo <= s && Distinct(r)
      invariant forall x :: x in r <==> x in s && x !in todo
      decreases todo
    {
      var x :| x in todo;
      r := r + [x];
      todo := todo - {x};
    }
    StringOrder(s);
    SortSorts(StrLe, r, s);
    SortKeepsDistinct(StrLe, r);
    SameElements(Sort(StrLe, r), r);
    r := Sort(StrLe, r);
  }
}
