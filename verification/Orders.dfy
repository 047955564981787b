/** String order, and the stable sort behind `list.sort`. */
module Orders {

  /** Strings compared by their characters, a proper prefix first. */
  predicate StringBefore(a: string, b: string) {
    if b == "" then false
    else if a == "" then true
    else a[0] < b[0] || (a[0] == b[0] && StringBefore(a[1..], b[1..]))
  }

  lemma {:induction false} StringOrderTotal(a: string, b: string)
    ensures StringBefore(a, b) || StringBefore(b, a) || a == b
    ensures !(StringBefore(a, b) && StringBefore(b, a))
    decreases |a|
  {
    if a != "" && b != "" {
      StringOrderTotal(a[1..], b[1..]);
      if a[0] == b[0] && a[1..] == b[1..] {
        assert a == [a[0]] + a[1..] && b == [b[0]] + b[1..];
      }
    }
  }

  lemma {:induction false} StringOrderTransitive(a: string, b: string, c: string)
    requires StringBefore(a, b) && StringBefore(b, c)
    ensures StringBefore(a, c)
    decreases |a|
  {
    if a != "" && a[0] == b[0] && b[0] == c[0] {
      StringOrderTransitive(a[1..], b[1..], c[1..]);
    }
  }

  // ---- Stable sort ----

  /** Neither order of two elements is forbidden in both directions, and "not after" is transitive. */
  ghost predicate WeakOrder<T(!new)>(before: (T, T) -> bool) {
    && (forall a, b :: before(a, b) ==> !before(b, a))
    && (forall a, b, c :: !before(b, a) && !before(c, b) ==> !before(c, a))
  }

  /** Insert after every element that `x` does not come before. */
  function Insert<T>(x: T, s: seq<T>, before: (T, T) -> bool): seq<T> {
    if s == [] then [x]
    else if before(x, s[|s| - 1]) then Insert(x, s[..|s| - 1], before) + [s[|s| - 1]]
    else s + [x]
  }

  function Sort<T>(s: seq<T>, before: (T, T) -> bool): seq<T> {
    if s == [] then [] else Insert(s[|s| - 1], Sort(s[..|s| - 1], before), before)
  }

  predicate Sorted<T>(s: seq<T>, before: (T, T) -> bool) {
    forall i, j :: 0 <= i < j < |s| ==> !before(s[j], s[i])
  }

  lemma {:induction false} InsertElements<T>(x: T, s: seq<T>, before: (T, T) -> bool)
    ensures multiset(Insert(x, s, before)) == multiset(s) + multiset{x}
  {
    if s != [] && before(x, s[|s| - 1]) {
      InsertElements(x, s[..|s| - 1], before);
      assert s == s[..|s| - 1] + [s[|s| - 1]];
    }
  }

  lemma {:induction false} SortElements<T>(s: seq<T>, before: (T, T) -> bool)
    ensures multiset(Sort(s, before)) == multiset(s)
  {
    if s != [] {
      SortElements(s[..|s| - 1], before);
      InsertElements(s[|s| - 1], Sort(s[..|s| - 1], before), before);
      assert s == s[..|s| - 1] + [s[|s| - 1]];
    }
  }

  lemma SortMembers<T>(s: seq<T>, before: (T, T) -> bool)
    ensures |Sort(s, before)| == |s|
    ensures forall x :: x in Sort(s, before) <==> x in s
  {
    SortElements(s, before);
    assert |multiset(s)| == |s|;
    assert |multiset(Sort(s, before))| == |Sort(s, before)|;
    forall x ensures x in Sort(s, before) <==> x in s {
      assert x in multiset(Sort(s, before)) <==> x in multiset(s);
    }
  }

  lemma {:induction false} InsertSorted<T(!new)>(x: T, s: seq<T>, before: (T, T) -> bool)
    requires WeakOrder(before) && Sorted(s, before)
    ensures Sorted(Insert(x, s, before), before)
  {
    if s != [] {
      var last, init := s[|s| - 1], s[..|s| - 1];
      if before(x, last) {
        InsertSorted(x, init, before);
        InsertElements(x, init, before);
        var r := Insert(x, init, before);
        forall i | 0 <= i < |r| ensures !before(last, r[i]) {
          assert r[i] in multiset(r);
          assert r[i] in init || r[i] == x;
        }
      }
    }
  }

  lemma {:induction false} SortSorts<T(!new)>(s: seq<T>, before: (T, T) -> bool)
    requires WeakOrder(before)
    ensures Sorted(Sort(s, before), before)
  {
    if s != [] {
      SortSorts(s[..|s| - 1], before);
      InsertSorted(s[|s| - 1], Sort(s[..|s| - 1], before), before);
    }
  }

  // ---- Duplicates ----

  predicate Distinct<T(==)>(s: seq<T>) {
    forall i, j :: 0 <= i < j < |s| ==> s[i] != s[j]
  }

  /** The elements of a sequence, each at its first position: `dict.fromkeys`. */
  function Dedup<T(==,!new)>(s: seq<T>): (r: seq<T>)
    ensures Distinct(r)
    ensures forall x :: x in r <==> x in s
  {
    if s == [] then []
    else
      var r := Dedup(s[..|s| - 1]);
      assert s == s[..|s| - 1] + [s[|s| - 1]];
      if s[|s| - 1] in r then r else r + [s[|s| - 1]]
  }

  lemma {:induction false} DistinctMultiset<T>(s: seq<T>)
    requires Distinct(s)
    ensures forall x :: multiset(s)[x] <= 1
  {
    if s != [] {
      var last, init := s[|s| - 1], s[..|s| - 1];
      assert s == init + [last];
      DistinctMultiset(init);
      assert last !in init;
      assert multiset(init)[last] == 0;
    }
  }

  lemma {:induction false} MultisetDistinct<T>(s: seq<T>)
    requires forall x :: multiset(s)[x] <= 1
    ensures Distinct(s)
  {
    if s != [] {
      var last, init := s[|s| - 1], s[..|s| - 1];
      assert s == init + [last];
      assert multiset(s) == multiset(init) + multiset{last};
      forall x ensures multiset(init)[x] <= 1 {
        assert multiset(s)[x] <= 1;
      }
      MultisetDistinct(init);
      assert multiset(s)[last] <= 1;
      assert last !in multiset(init);
    }
  }

  /** Two sequences of distinct elements with the same members have the same length. */
  lemma DistinctSameLength<T(!new)>(a: seq<T>, b: seq<T>)
    requires Distinct(a) && Distinct(b) && forall x :: x in a <==> x in b
    ensures |a| == |b|
  {
    DistinctMultiset(a);
    DistinctMultiset(b);
    forall x: T ensures multiset(a)[x] == multiset(b)[x] {
      assert x in multiset(a) <==> x in a;
      assert x in multiset(b) <==> x in b;
    }
    assert multiset(a) == multiset(b);
    assert |a| == |multiset(a)| && |b| == |multiset(b)|;
  }

  /** Sorting keeps elements distinct. */
  lemma SortDistinct<T>(s: seq<T>, before: (T, T) -> bool)
    requires Distinct(s)
    ensures Distinct(Sort(s, before))
  {
    DistinctMultiset(s);
    SortElements(s, before);
    MultisetDistinct(Sort(s, before));
  }

  /** Two sequences sorted by an order that ranks their distinct elements strictly, with the same elements,
      are the same sequence. */
  lemma {:induction false} SortedUnique<T>(a: seq<T>, b: seq<T>, before: (T, T) -> bool)
    requires Distinct(a) && Distinct(b)
    requires Sorted(a, before) && Sorted(b, before)
    requires forall x :: x in a <==> x in b
    requires forall x, y :: x in a && y in a && x != y ==> before(x, y) || before(y, x)
    ensures a == b
    decreases |a|
  {
    assert a != [] ==> a[0] in a;
    assert b != [] ==> b[0] in b;
    if a != [] && b != [] {
      var i :| 0 <= i < |a| && a[i] == b[0];
      var j :| 0 <= j < |b| && b[j] == a[0];
      assert a[0] == b[0];
      forall x ensures x in a[1..] <==> x in b[1..] {
        assert a == [a[0]] + a[1..] && b == [b[0]] + b[1..];
        assert a[0] !in a[1..] && b[0] !in b[1..];
        assert x in a <==> x in b;
      }
      SortedUnique(a[1..], b[1..], before);
      assert a == [a[0]] + a[1..] && b == [b[0]] + b[1..];
    }
  }

  /** `x` stands somewhere before `y`. */
  predicate Precedes<T(==)>(s: seq<T>, x: T, y: T) {
    exists i, j :: 0 <= i < j < |s| && s[i] == x && s[j] == y
  }

  lemma SortedPrecedes<T>(s: seq<T>, before: (T, T) -> bool, x: T, y: T)
    requires Distinct(s) && Sorted(s, before) && x in s && y in s && x != y
    requires before(x, y) || before(y, x)
    requires !(before(x, y) && before(y, x))
    ensures Precedes(s, x, y) <==> before(x, y)
  {
    var i :| 0 <= i < |s| && s[i] == x;
    var j :| 0 <= j < |s| && s[j] == y;
  }

  // ---- List surgery ----

  /** `list.remove`: drop the first occurrence. */
  function Remove<T(==,!new)>(s: seq<T>, x: T): (r: seq<T>)
    requires x in s
    ensures |r| == |s| - 1
    ensures Distinct(s) ==> Distinct(r) && x !in r
    ensures Distinct(s) ==> forall y :: y in r <==> y in s && y != x
    ensures multiset(s) == multiset(r) + multiset{x}
  {
    if s[0] == x then
      assert s == [x] + s[1..];
      s[1..]
    else
      assert s == [s[0]] + s[1..];
      var rest := Remove(s[1..], x);
      assert Distinct(s) ==> s[0] !in s[1..] && s[0] !in rest;
      [s[0]] + rest
  }

  /** `list.insert`. */
  function InsertAt<T(==,!new)>(s: seq<T>, i: nat, x: T): (r: seq<T>)
    requires i <= |s|
    ensures |r| == |s| + 1 && r[i] == x
    ensures Distinct(s) && x !in s ==> Distinct(r)
    ensures forall y :: y in r <==> y in s || y == x
    ensures multiset(r) == multiset(s) + multiset{x}
  {
    assert s == s[..i] + s[i..];
    s[..i] + [x] + s[i..]
  }

  /** `list[k:] + list[:k]`. */
  function Rotate<T(==,!new)>(s: seq<T>, k: nat): (r: seq<T>)
    requires k <= |s|
    ensures |r| == |s|
    ensures Distinct(s) ==> Distinct(r)
    ensures forall y :: y in r <==> y in s
    ensures multiset(r) == multiset(s)
  {
    assert s == s[..k] + s[k..];
    s[k..] + s[..k]
  }

  /** A comprehension's filter. */
  function Filter<T(==,!new)>(s: seq<T>, keep: T -> bool): (r: seq<T>)
    ensures forall y :: y in r <==> y in s && keep(y)
    ensures Distinct(s) ==> Distinct(r)
    ensures |r| <= |s|
  {
    if s == [] then []
    else
      assert s == s[..|s| - 1] + [s[|s| - 1]];
      Filter(s[..|s| - 1], keep) + (if keep(s[|s| - 1]) then [s[|s| - 1]] else [])
  }

  lemma {:induction false} FilterNone<T(!new)>(s: seq<T>, keep: T -> bool)
    requires forall x :: x in s ==> !keep(x)
    ensures Filter(s, keep) == []
  {
    if s != [] {
      assert s[|s| - 1] in s;
      FilterNone(s[..|s| - 1], keep);
    }
  }
}
