/**
 * JavaScript's `Array.prototype.sort(compare)` is stable. With a comparator
 * that is a strict weak order, every stable sort produces the same output, so
 * the insertion sort below models it exactly. `before(a, b)` holds when the
 * comparator puts `a` strictly before `b` (it returns a negative number).
 */
module StableSort {

  /** Places x in front of the first element that does not have to precede it. */
  function Insert<T>(x: T, s: seq<T>, before: (T, T) -> bool): (r: seq<T>)
    ensures |r| == |s| + 1
    ensures multiset(r) == multiset(s) + multiset{x}
  {
    if s == [] then [x]
    else if before(s[0], x) then
      assert s == [s[0]] + s[1..];
      [s[0]] + Insert(x, s[1..], before)
    else [x] + s
  }

  function Sort<T>(s: seq<T>, before: (T, T) -> bool): (r: seq<T>)
    ensures |r| == |s|
    ensures multiset(r) == multiset(s)
  {
    if s == [] then []
    else
      assert s == [s[0]] + s[1..];
      Insert(s[0], Sort(s[1..], before), before)
  }

  /** The comparator behaves as a strict weak order on the elements of s. */
  ghost predicate WeakOrderOn<T>(before: (T, T) -> bool, s: seq<T>)
  {
    && (forall a, b | a in s && b in s :: before(a, b) ==> !before(b, a))
    && (forall a, b, c | a in s && b in s && c in s :: !before(a, b) && !before(b, c) ==> !before(a, c))
  }

  ghost predicate Sorted<T>(s: seq<T>, before: (T, T) -> bool)
  {
    forall i, j | 0 <= i < j < |s| :: !before(s[j], s[i])
  }

  /** Neither element has to precede the other: the comparator returns 0. */
  predicate Tied<T>(before: (T, T) -> bool, a: T, b: T)
  {
    !before(a, b) && !before(b, a)
  }

  /** The elements of s tied with x, in their order in s. */
  function TiedWith<T>(s: seq<T>, x: T, before: (T, T) -> bool): seq<T>
  {
    if s == [] then []
    else (if Tied(before, s[0], x) then [s[0]] else []) + TiedWith(s[1..], x, before)
  }

  /** The two laws of WeakOrderOn, instantiated at given elements. */
  lemma WeakOrderAt<T>(before: (T, T) -> bool, s: seq<T>, a: T, b: T, c: T)
    requires WeakOrderOn(before, s)
    requires a in s && b in s && c in s
    ensures before(a, b) ==> !before(b, a)
    ensures !before(a, b) && !before(b, c) ==> !before(a, c)
  {
  }

  lemma WeakOrderOnSubset<T>(before: (T, T) -> bool, s: seq<T>, t: seq<T>)
    requires WeakOrderOn(before, s)
    requires forall y | y in t :: y in s
    ensures WeakOrderOn(before, t)
  {
  }

  lemma {:induction false} InsertSorted<T>(x: T, s: seq<T>, before: (T, T) -> bool)
    requires WeakOrderOn(before, s + [x])
    requires Sorted(s, before)
    ensures Sorted(Insert(x, s, before), before)
  {
    if s != [] {
      if before(s[0], x) {
        WeakOrderOnSubset(before, s + [x], s[1..] + [x]);
        InsertSorted(x, s[1..], before);
        var r := Insert(x, s[1..], before);
        assert multiset(r) == multiset(s[1..]) + multiset{x};
        forall j | 0 <= j < |r| ensures !before(r[j], s[0]) {
          assert r[j] in multiset(r);
          if r[j] != x {
            assert r[j] in s[1..];
          }
        }
      } else {
        forall j | 0 <= j < |s| ensures !before(s[j], x) {
          if j > 0 {
            assert s[j] in s + [x] && s[0] in s + [x] && x in s + [x];
          }
        }
      }
    }
  }

  lemma {:induction false} SortSorted<T>(s: seq<T>, before: (T, T) -> bool)
    requires WeakOrderOn(before, s)
    ensures Sorted(Sort(s, before), before)
  {
    if s != [] {
      WeakOrderOnSubset(before, s, s[1..]);
      SortSorted(s[1..], before);
      var t := Sort(s[1..], before);
      forall y | y in t + [s[0]] ensures y in s {
        if y != s[0] {
          assert y in multiset(t);
        }
      }
      WeakOrderOnSubset(before, s, t + [s[0]]);
      InsertSorted(s[0], t, before);
    }
  }

  /** Inserting y adds y to its own tie class, in front of the members already present, and leaves every other tie class as it was. */
  lemma {:induction false} InsertTiedWith<T>(y: T, s: seq<T>, x: T, before: (T, T) -> bool)
    requires forall z | z in s :: before(z, y) && Tied(before, y, x) ==> before(z, x)
    ensures TiedWith(Insert(y, s, before), x, before)
         == (if Tied(before, y, x) then [y] else []) + TiedWith(s, x, before)
  {
    var mine: seq<T> := if Tied(before, y, x) then [y] else [];
    if s == [] {
      assert Insert(y, s, before) == [y];
      assert TiedWith([y], x, before) == mine + TiedWith([], x, before);
    } else if before(s[0], y) {
      var rest := Insert(y, s[1..], before);
      InsertTiedWith(y, s[1..], x, before);
      var head: seq<T> := if Tied(before, s[0], x) then [s[0]] else [];
      assert Tied(before, y, x) ==> head == [];
      assert Insert(y, s, before) == [s[0]] + rest;
      assert ([s[0]] + rest)[1..] == rest;
      assert TiedWith([s[0]] + rest, x, before) == head + TiedWith(rest, x, before);
      assert TiedWith(rest, x, before) == mine + TiedWith(s[1..], x, before);
      assert TiedWith(s, x, before) == head + TiedWith(s[1..], x, before);
      assert head + (mine + TiedWith(s[1..], x, before)) == mine + (head + TiedWith(s[1..], x, before));
    } else {
      assert Insert(y, s, before) == [y] + s;
      assert ([y] + s)[1..] == s;
      assert TiedWith([y] + s, x, before) == mine + TiedWith(s, x, before);
    }
  }

  /**
   * Stability: the elements tied with any x appear in the sorted output in
   * exactly the order they had in the input.
   */
  lemma {:induction false} SortStable<T>(s: seq<T>, x: T, before: (T, T) -> bool)
    requires WeakOrderOn(before, s + [x])
    ensures TiedWith(Sort(s, before), x, before) == TiedWith(s, x, before)
  {
    if s != [] {
      WeakOrderOnSubset(before, s + [x], s[1..] + [x]);
      SortStable(s[1..], x, before);
      var t := Sort(s[1..], before);
      forall z | z in t ensures z in s + [x] {
        assert z in multiset(t);
        assert z in s[1..];
      }
      forall z | z in t ensures before(z, s[0]) && Tied(before, s[0], x) ==> before(z, x) {
        WeakOrderAt(before, s + [x], z, x, s[0]);
      }
      InsertTiedWith(s[0], t, x, before);
    }
  }

  /** A stable sort of a sequence that is already in order changes nothing. */
  lemma {:induction false} SortOfSorted<T>(s: seq<T>, before: (T, T) -> bool)
    requires Sorted(s, before)
    ensures Sort(s, before) == s
  {
    if s != [] {
      SortOfSorted(s[1..], before);
      assert Sort(s[1..], before) == s[1..];
      if |s| > 1 {
        assert !before(s[1], s[0]);
      }
      assert [s[0]] + s[1..] == s;
    }
  }
}
