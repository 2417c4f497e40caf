/**
 * Python's stable sort with a key: `sorted(xs, key=key, reverse=descending)`, and `list.sort`
 * with the same arguments. Keys are compared as exact numbers. `reverse=True` does not
 * reverse the order of elements whose keys are equal.
 */
module Sorting {

  /** `a` must come before `b`: its key is strictly smaller (strictly larger when descending). */
  predicate Before<T>(key: T -> real, descending: bool, a: T, b: T) {
    if descending then key(a) > key(b) else key(a) < key(b)
  }

  /** Keys never step backwards: non-decreasing, or non-increasing when descending. */
  predicate Ordered<T>(key: T -> real, descending: bool, s: seq<T>) {
    forall i, j :: 0 <= i < j < |s| ==> !Before(key, descending, s[j], s[i])
  }

  /** The elements whose key is `v`, in the order they appear. */
  function WithKey<T>(key: T -> real, v: real, s: seq<T>): seq<T> {
    if s == [] then [] else (if key(s[0]) == v then [s[0]] else []) + WithKey(key, v, s[1..])
  }

  /** `x` goes in front of the first element it does not have to follow. */
  function Insert<T>(key: T -> real, descending: bool, x: T, s: seq<T>): seq<T> {
    if s == [] then [x]
    else if Before(key, descending, s[0], x) then [s[0]] + Insert(key, descending, x, s[1..])
    else [x] + s
  }

  /** The stable sort, as insertion of each element into the sorted rest. */
  function Sort<T>(key: T -> real, descending: bool, s: seq<T>): seq<T> {
    if s == [] then [] else Insert(key, descending, s[0], Sort(key, descending, s[1..]))
  }

  lemma {:induction false} InsertPermutes<T>(key: T -> real, descending: bool, x: T, s: seq<T>)
    ensures multiset(Insert(key, descending, x, s)) == multiset(s) + multiset{x}
  {
    if s != [] && Before(key, descending, s[0], x) {
      InsertPermutes(key, descending, x, s[1..]);
      assert s == [s[0]] + s[1..];
    }
  }

  /** The result is a permutation of the input. */
  lemma {:induction false} SortPermutes<T>(key: T -> real, descending: bool, s: seq<T>)
    ensures multiset(Sort(key, descending, s)) == multiset(s)
  {
    if s != [] {
      SortPermutes(key, descending, s[1..]);
      InsertPermutes(key, descending, s[0], Sort(key, descending, s[1..]));
      assert s == [s[0]] + s[1..];
    }
  }

  lemma {:induction false} InsertOrdered<T>(key: T -> real, descending: bool, x: T, s: seq<T>)
    requires Ordered(key, descending, s)
    ensures Ordered(key, descending, Insert(key, descending, x, s))
  {
    if s != [] && Before(key, descending, s[0], x) {
      var t := Insert(key, descending, x, s[1..]);
      InsertOrdered(key, descending, x, s[1..]);
      InsertAfterHead(key, descending, x, s);
      OrderedCons(key, descending, s[0], t);
    }
  }

  /** What `x` is inserted among, behind a head it must follow, does not precede that head. */
  lemma InsertAfterHead<T>(key: T -> real, descending: bool, x: T, s: seq<T>)
    requires Ordered(key, descending, s) && s != [] && Before(key, descending, s[0], x)
    ensures forall y :: y in Insert(key, descending, x, s[1..]) ==> !Before(key, descending, y, s[0])
  {
    var t := Insert(key, descending, x, s[1..]);
    InsertPermutes(key, descending, x, s[1..]);
    forall y | y in t
      ensures !Before(key, descending, y, s[0])
    {
      assert y in multiset(t);
      if y != x {
        assert y in multiset(s[1..]);
        var j :| 0 <= j < |s[1..]| && s[1..][j] == y;
        assert s[j + 1] == y;
      }
    }
  }

  lemma OrderedCons<T>(key: T -> real, descending: bool, h: T, t: seq<T>)
    requires Ordered(key, descending, t)
    requires forall y :: y in t ==> !Before(key, descending, y, h)
    ensures Ordered(key, descending, [h] + t)
  {
    var r := [h] + t;
    forall i, j | 0 <= i < j < |r|
      ensures !Before(key, descending, r[j], r[i])
    {
      if i == 0 {
        assert r[j] == t[j - 1] && r[j] in t;
      } else {
        assert r[i] == t[i - 1] && r[j] == t[j - 1];
      }
    }
  }

  /** The result's keys never step backwards. */
  lemma {:induction false} SortOrdered<T>(key: T -> real, descending: bool, s: seq<T>)
    ensures Ordered(key, descending, Sort(key, descending, s))
  {
    if s != [] {
      SortOrdered(key, descending, s[1..]);
      InsertOrdered(key, descending, s[0], Sort(key, descending, s[1..]));
    }
  }

  lemma {:induction false} WithKeyAppend<T>(key: T -> real, v: real, a: seq<T>, b: seq<T>)
    ensures WithKey(key, v, a + b) == WithKey(key, v, a) + WithKey(key, v, b)
  {
    if a != [] {
      WithKeyAppend(key, v, a[1..], b);
      assert (a + b)[1..] == a[1..] + b;
    } else {
      assert a + b == b;
    }
  }

  /** Everything `x` is moved past has a different key, so among equal keys `x` stays first. */
  lemma {:induction false} InsertStable<T>(key: T -> real, descending: bool, x: T, s: seq<T>, v: real)
    ensures WithKey(key, v, Insert(key, descending, x, s))
         == (if key(x) == v then [x] else []) + WithKey(key, v, s)
  {
    if s == [] {
      assert WithKey(key, v, [x]) == (if key(x) == v then [x] else []) + WithKey(key, v, []);
    } else if Before(key, descending, s[0], x) {
      var t := Insert(key, descending, x, s[1..]);
      InsertStable(key, descending, x, s[1..], v);
      WithKeyAppend(key, v, [s[0]], t);
      WithKeyAppend(key, v, [s[0]], s[1..]);
      assert [s[0]] + s[1..] == s;
    } else {
      WithKeyAppend(key, v, [x], s);
    }
  }

  /** Stability: for each key, the elements with that key keep their relative order. */
  lemma {:induction false} SortStable<T>(key: T -> real, descending: bool, s: seq<T>, v: real)
    ensures WithKey(key, v, Sort(key, descending, s)) == WithKey(key, v, s)
  {
    if s != [] {
      SortStable(key, descending, s[1..], v);
      InsertStable(key, descending, s[0], Sort(key, descending, s[1..]), v);
    }
  }

  /** An already ordered sequence is left as it is. */
  lemma {:induction false} SortOrderedIdentity<T>(key: T -> real, descending: bool, s: seq<T>)
    requires Ordered(key, descending, s)
    ensures Sort(key, descending, s) == s
  {
    if s != [] {
      assert Ordered(key, descending, s[1..]) by {
        forall i, j | 0 <= i < j < |s[1..]|
          ensures !Before(key, descending, s[1..][j], s[1..][i])
        {
          assert s[1..][i] == s[i + 1] && s[1..][j] == s[j + 1];
        }
      }
      SortOrderedIdentity(key, descending, s[1..]);
      if |s| > 1 {
        assert !Before(key, descending, s[1], s[0]);
      }
      assert s == [s[0]] + s[1..];
    }
  }
}
