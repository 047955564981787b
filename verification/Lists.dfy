/** Walking a list round from a starting place, and what a filter does to the order. */
module Lists {
  import opened Orders

  /** The element `i` places after the starting one, counted round the list. */
  function Round<T>(s: seq<T>, start: nat, i: nat): T
    requires i < |s|
  {
    var from := start % |s|;
    if from + i < |s| then s[from + i] else s[from + i - |s|]
  }

  lemma RotateIsRound<T(!new)>(s: seq<T>, start: nat, i: nat)
    requires i < |s|
    ensures Rotate(s, start % |s|)[i] == Round(s, start, i)
  {
  }

  /** A filter keeps what it keeps in order: of two kept entries, the earlier comes from an earlier position. */
  lemma {:induction false} FilterInOrder<T(!new)>(s: seq<T>, keep: T -> bool, i: nat, j: nat) returns (k: nat, l: nat)
    requires i < j < |Filter(s, keep)|
    ensures k < l < |s| && s[k] == Filter(s, keep)[i] && s[l] == Filter(s, keep)[j]
    decreases |s|
  {
    var init := s[..|s| - 1];
    if j < |Filter(init, keep)| {
      k, l := FilterInOrder(init, keep, i, j);
    } else {
      l := |s| - 1;
      var x := Filter(init, keep)[i];
      assert x in init;
      k :| 0 <= k < |init| && init[k] == x;
    }
  }

  // ---- Ties ----

  /** Neither stands before the other. */
  predicate Tied<T>(before: (T, T) -> bool, x: T, y: T) {
    !before(x, y) && !before(y, x)
  }

  lemma FilterSnoc<T(!new)>(s: seq<T>, x: T, keep: T -> bool)
    ensures Filter(s + [x], keep) == Filter(s, keep) + if keep(x) then [x] else []
  {
    assert (s + [x])[..|s|] == s;
  }

  lemma TieIsTransitive<T(!new)>(before: (T, T) -> bool, x: T, y: T, z: T)
    requires WeakOrder(before) && Tied(before, x, y) && Tied(before, z, y)
    ensures !before(x, z)
  {
  }

  lemma OneIsEmpty<T>(a: seq<T>, b: seq<T>, c: seq<T>)
    requires b == [] || c == []
    ensures (a + b) + c == (a + c) + b
  {
  }

  lemma InsertUnfolds<T>(x: T, init: seq<T>, last: T, before: (T, T) -> bool)
    ensures Insert(x, init + [last], before)
         == if before(x, last) then Insert(x, init, before) + [last] else init + [last] + [x]
  {
    assert (init + [last])[..|init|] == init;
  }

  /** What is inserted stands behind everything it ties with. */
  lemma {:induction false} InsertKeepsTies<T(!new)>(x: T, s: seq<T>, before: (T, T) -> bool, tied: T -> bool)
    requires tied(x) ==> forall z :: before(x, z) ==> !tied(z)
    ensures Filter(Insert(x, s, before), tied) == Filter(s, tied) + if tied(x) then [x] else []
    decreases |s|
  {
    if s == [] {
      FilterSnoc([], x, tied);
      assert Insert(x, s, before) == [] + [x];
    } else {
      var init, last := s[..|s| - 1], s[|s| - 1];
      assert s == init + [last];
      InsertUnfolds(x, init, last, before);
      FilterSnoc(s, x, tied);
      FilterSnoc(init, last, tied);
      if before(x, last) {
        InsertKeepsTies(x, init, before, tied);
        FilterSnoc(Insert(x, init, before), last, tied);
        OneIsEmpty(Filter(init, tied), if tied(x) then [x] else [], if tied(last) then [last] else []);
      }
    }
  }

  /** Sorting leaves entries that tie in the order they had. */
  lemma {:induction false} SortKeepsTies<T(!new)>(s: seq<T>, before: (T, T) -> bool, tied: T -> bool)
    requires forall x, z :: tied(x) && before(x, z) ==> !tied(z)
    ensures Filter(Sort(s, before), tied) == Filter(s, tied)
    decreases |s|
  {
    if s != [] {
      var init, last := s[..|s| - 1], s[|s| - 1];
      assert s == init + [last];
      SortKeepsTies(init, before, tied);
      InsertKeepsTies(last, Sort(init, before), before, tied);
      FilterSnoc(init, last, tied);
    }
  }

  /** So entries that tie with one another come out of a sort as a filter finds them in its input. */
  lemma SortIsStable<T(!new)>(s: seq<T>, before: (T, T) -> bool, y: T)
    requires WeakOrder(before)
    ensures Filter(Sort(s, before), (z: T) => Tied(before, z, y)) == Filter(s, (z: T) => Tied(before, z, y))
  {
    forall x, z | Tied(before, x, y) && before(x, z) ensures !Tied(before, z, y) {
      if Tied(before, z, y) {
        TieIsTransitive(before, x, y, z);
      }
    }
    SortKeepsTies(s, before, (z: T) => Tied(before, z, y));
  }
}
