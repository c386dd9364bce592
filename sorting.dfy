/**
 * Python's `sorted(xs, key=key)` on a real-valued key: a stable ascending
 * sort. Specified by an insertion sort, with its defining properties
 * proved: sorted, a permutation, stable, and the only order that is both.
 */
module Sorting {

  predicate SortedBy<T>(key: T -> real, xs: seq<T>) {
    forall i, k :: 0 <= i < k < |xs| ==> key(xs[i]) <= key(xs[k])
  }

  /** The elements whose key is exactly `x`, in their order. */
  function WithKey<T>(key: T -> real, xs: seq<T>, x: real): seq<T> {
    if xs == [] then []
    else (if key(xs[0]) == x then [xs[0]] else []) + WithKey(key, xs[1..], x)
  }

  /** Stability: every group of elements with equal keys is in the same order in both. */
  ghost predicate SameOrderPerKey<T>(key: T -> real, r: seq<T>, s: seq<T>) {
    forall x :: WithKey(key, r, x) == WithKey(key, s, x)
  }

  /** An element is in the group of key `x` exactly when it is in the list and its key is `x`. */
  lemma {:induction false} WithKeyMember<T>(key: T -> real, xs: seq<T>, x: real, y: T)
    ensures y in WithKey(key, xs, x) <==> y in xs && key(y) == x
  {
    if xs != [] {
      WithKeyMember(key, xs[1..], x, y);
      assert xs == [xs[0]] + xs[1..];
    }
  }

  lemma WithKeySingle<T>(key: T -> real, y: T, x: real)
    ensures WithKey(key, [y], x) == if key(y) == x then [y] else []
  {
    assert [y][1..] == [];
  }

  lemma {:induction false} WithKeyAppend<T>(key: T -> real, a: seq<T>, b: seq<T>, x: real)
    ensures WithKey(key, a + b, x) == WithKey(key, a, x) + WithKey(key, b, x)
  {
    if a == [] {
      assert a + b == b;
    } else {
      var head := if key(a[0]) == x then [a[0]] else [];
      assert (a + b)[0] == a[0] && (a + b)[1..] == a[1..] + b;
      assert WithKey(key, a + b, x) == head + WithKey(key, a[1..] + b, x);
      assert WithKey(key, a, x) == head + WithKey(key, a[1..], x);
      WithKeyAppend(key, a[1..], b, x);
    }
  }

  /** Two elements with different keys never both belong to one group, so their groups commute. */
  lemma SwapGroups<T>(key: T -> real, y: T, z: T, tail: seq<T>, x: real)
    requires key(y) != key(z)
    ensures WithKey(key, [z], x) + (WithKey(key, [y], x) + tail) == WithKey(key, [y], x) + (WithKey(key, [z], x) + tail)
  {
    WithKeySingle(key, y, x);
    WithKeySingle(key, z, x);
  }

  /** Puts `y` before the first element whose key is at least `y`'s. */
  function Insert<T>(key: T -> real, y: T, xs: seq<T>): (r: seq<T>)
    ensures multiset(r) == multiset(xs) + multiset{y}
  {
    if xs == [] then [y]
    else if key(y) <= key(xs[0]) then [y] + xs
    else
      assert xs == [xs[0]] + xs[1..];
      [xs[0]] + Insert(key, y, xs[1..])
  }

  /** The stable ascending sort by `key` (earlier element first on ties). */
  function SortBy<T>(key: T -> real, xs: seq<T>): (r: seq<T>)
    ensures multiset(r) == multiset(xs)
  {
    if xs == [] then []
    else
      assert xs == [xs[0]] + xs[1..];
      Insert(key, xs[0], SortBy(key, xs[1..]))
  }

  lemma {:induction false} InsertSorted<T>(key: T -> real, y: T, xs: seq<T>)
    requires SortedBy(key, xs)
    ensures SortedBy(key, Insert(key, y, xs))
  {
    if xs != [] && key(y) > key(xs[0]) {
      var rest := xs[1..];
      InsertSorted(key, y, rest);
      var r := Insert(key, y, xs);
      assert r == [xs[0]] + Insert(key, y, rest);
      forall k | 0 < k < |r| ensures key(r[0]) <= key(r[k]) {
        var z := r[k];
        assert z in multiset(Insert(key, y, rest));
        assert z == y || z in rest;
      }
    }
  }

  lemma {:induction false} InsertKeepsTies<T>(key: T -> real, y: T, xs: seq<T>, x: real)
    ensures WithKey(key, Insert(key, y, xs), x) == WithKey(key, [y] + xs, x)
  {
    if xs != [] && key(y) > key(xs[0]) {
      var head, rest := xs[0], xs[1..];
      var inserted := Insert(key, y, rest);
      assert xs == [head] + rest;
      calc {
        WithKey(key, Insert(key, y, xs), x);
        { assert Insert(key, y, xs) == [head] + inserted; }
        WithKey(key, [head] + inserted, x);
        { WithKeyAppend(key, [head], inserted, x); }
        WithKey(key, [head], x) + WithKey(key, inserted, x);
        { InsertKeepsTies(key, y, rest, x); WithKeyAppend(key, [y], rest, x); }
        WithKey(key, [head], x) + (WithKey(key, [y], x) + WithKey(key, rest, x));
        { SwapGroups(key, y, head, WithKey(key, rest, x), x); }
        WithKey(key, [y], x) + (WithKey(key, [head], x) + WithKey(key, rest, x));
        { WithKeyAppend(key, [head], rest, x); }
        WithKey(key, [y], x) + WithKey(key, xs, x);
        { WithKeyAppend(key, [y], xs, x); }
        WithKey(key, [y] + xs, x);
      }
    }
  }

  /** The result is in ascending order of key. */
  lemma {:induction false} SortIsSorted<T>(key: T -> real, xs: seq<T>)
    ensures SortedBy(key, SortBy(key, xs))
  {
    if xs != [] {
      SortIsSorted(key, xs[1..]);
      InsertSorted(key, xs[0], SortBy(key, xs[1..]));
    }
  }

  /** The result is stable: elements with equal keys keep their input order. */
  lemma {:induction false} SortIsStable<T>(key: T -> real, xs: seq<T>)
    ensures SameOrderPerKey(key, SortBy(key, xs), xs)
  {
    if xs != [] {
      var head, rest := xs[0], xs[1..];
      SortIsStable(key, rest);
      forall x ensures WithKey(key, SortBy(key, xs), x) == WithKey(key, xs, x) {
        InsertKeepsTies(key, head, SortBy(key, rest), x);
        WithKeyAppend(key, [head], SortBy(key, rest), x);
        WithKeyAppend(key, [head], rest, x);
        assert xs == [head] + rest;
      }
    }
  }

  /** Lists that keep every tie group in the same order are both empty or both not. */
  lemma EmptyTogether<T>(key: T -> real, r1: seq<T>, r2: seq<T>)
    requires SameOrderPerKey(key, r1, r2)
    ensures r1 == [] <==> r2 == []
  {
    if r2 != [] {
      WithKeyMember(key, r2, key(r2[0]), r2[0]);
      WithKeyMember(key, r1, key(r2[0]), r2[0]);
    }
    if r1 != [] {
      WithKeyMember(key, r1, key(r1[0]), r1[0]);
      WithKeyMember(key, r2, key(r1[0]), r1[0]);
    }
  }

  /** Two sorted lists that keep every tie group in the same order start with the same element. */
  lemma SameHead<T>(key: T -> real, r1: seq<T>, r2: seq<T>)
    requires r1 != [] && r2 != []
    requires SortedBy(key, r1) && SortedBy(key, r2)
    requires SameOrderPerKey(key, r1, r2)
    ensures r1[0] == r2[0]
  {
    var a, b := r1[0], r2[0];
    WithKeyMember(key, r2, key(b), b);
    WithKeyMember(key, r1, key(b), b);
    WithKeyMember(key, r1, key(a), a);
    WithKeyMember(key, r2, key(a), a);
    assert key(a) <= key(b) by {
      var i :| 0 <= i < |r1| && r1[i] == b;
    }
    assert key(b) <= key(a) by {
      var i :| 0 <= i < |r2| && r2[i] == a;
    }
    var t1, t2 := r1[1..], r2[1..];
    assert r1 == [a] + t1 && r2 == [b] + t2;
    WithKeyAppend(key, [a], t1, key(a));
    WithKeyAppend(key, [b], t2, key(a));
    WithKeySingle(key, a, key(a));
    WithKeySingle(key, b, key(a));
    assert WithKey(key, r1, key(a)) == WithKey(key, r2, key(a));
    assert WithKey(key, r1, key(a))[0] == a;
    assert WithKey(key, r2, key(a))[0] == b;
  }

  /** Dropping a common first element keeps every tie group in the same order. */
  lemma SameOrderOfTails<T>(key: T -> real, a: T, t1: seq<T>, t2: seq<T>)
    requires SameOrderPerKey(key, [a] + t1, [a] + t2)
    ensures SameOrderPerKey(key, t1, t2)
  {
    forall x ensures WithKey(key, t1, x) == WithKey(key, t2, x) {
      WithKeyAppend(key, [a], t1, x);
      WithKeyAppend(key, [a], t2, x);
      var p := WithKey(key, [a], x);
      assert WithKey(key, [a] + t1, x) == WithKey(key, [a] + t2, x);
      assert WithKey(key, t1, x) == (p + WithKey(key, t1, x))[|p|..];
      assert WithKey(key, t2, x) == (p + WithKey(key, t2, x))[|p|..];
    }
  }

  /** Two sorted lists that keep every tie group in the same order are equal. */
  lemma {:induction false} StableSortedOrderIsUnique<T>(key: T -> real, r1: seq<T>, r2: seq<T>)
    requires SortedBy(key, r1) && SortedBy(key, r2)
    requires SameOrderPerKey(key, r1, r2)
    ensures r1 == r2
  {
    EmptyTogether(key, r1, r2);
    if r1 != [] {
      SameHead(key, r1, r2);
      assert r1 == [r1[0]] + r1[1..] && r2 == [r1[0]] + r2[1..];
      SameOrderOfTails(key, r1[0], r1[1..], r2[1..]);
      StableSortedOrderIsUnique(key, r1[1..], r2[1..]);
    }
  }

  /** Any sorted, stable rearrangement of the input is the one SortBy returns. */
  lemma SortIsTheStableSort<T>(key: T -> real, xs: seq<T>, r: seq<T>)
    requires SortedBy(key, r) && SameOrderPerKey(key, r, xs)
    ensures r == SortBy(key, xs)
  {
    SortIsSorted(key, xs);
    SortIsStable(key, xs);
    StableSortedOrderIsUnique(key, r, SortBy(key, xs));
  }

  /** An already sorted list sorts to itself. */
  lemma {:induction false} SortedIsFixpoint<T>(key: T -> real, xs: seq<T>)
    requires SortedBy(key, xs)
    ensures SortBy(key, xs) == xs
  {
    if xs != [] {
      SortedIsFixpoint(key, xs[1..]);
    }
  }

  /** Sorting the sorted list again changes nothing. */
  lemma SortIsIdempotent<T>(key: T -> real, xs: seq<T>)
    ensures SortBy(key, SortBy(key, xs)) == SortBy(key, xs)
  {
    SortIsSorted(key, xs);
    SortedIsFixpoint(key, SortBy(key, xs));
  }
}
