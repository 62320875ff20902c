/**
 * `Array.prototype.sort` with a comparator of the form `(a, b) => key(b) - key(a)`.
 * The ECMAScript specification requires the sort to be stable, so the result is the
 * stable sort of the input into non-increasing key order; it is defined here as a
 * stable insertion sort and its defining properties are proved.
 */
module StableSort {

  /** Every element is at least as large (by key) as every later one. */
  ghost predicate Descending<T>(s: seq<T>, key: T -> real) {
    forall i, j :: 0 <= i < j < |s| ==> key(s[i]) >= key(s[j])
  }

  /** Inserts x after every element whose key is not smaller than x's, which keeps ties in arrival order. */
  function Insert<T>(x: T, s: seq<T>, key: T -> real): (r: seq<T>)
    ensures multiset(r) == multiset(s) + multiset{x}
    ensures |r| == |s| + 1
  {
    if s == [] then [x]
    else if key(s[0]) >= key(x) then
      assert s == [s[0]] + s[1..];
      [s[0]] + Insert(x, s[1..], key)
    else
      [x] + s
  }

  /** Every element of Insert(x, s) is x or an element of s. */
  lemma InsertMembers<T>(x: T, s: seq<T>, key: T -> real, k: int)
    requires 0 <= k < |Insert(x, s, key)|
    ensures Insert(x, s, key)[k] == x || Insert(x, s, key)[k] in s
  {
    var r := Insert(x, s, key);
    assert r[k] in multiset(r);
    assert r[k] in multiset(s) || r[k] == x;
  }

  /** Inserting into a descending sequence keeps it descending. */
  lemma {:induction false} InsertDescending<T>(x: T, s: seq<T>, key: T -> real)
    requires Descending(s, key)
    ensures Descending(Insert(x, s, key), key)
  {
    if s != [] && key(s[0]) >= key(x) {
      var rest := Insert(x, s[1..], key);
      InsertDescending(x, s[1..], key);
      forall k | 0 <= k < |rest|
        ensures key(s[0]) >= key(rest[k])
      {
        InsertMembers(x, s[1..], key, k);
        if rest[k] != x {
          var j :| 0 <= j < |s[1..]| && s[1..][j] == rest[k];
          assert s[j + 1] == rest[k];
        }
      }
      var r := [s[0]] + rest;
      assert r == Insert(x, s, key);
      forall i, j | 0 <= i < j < |r|
        ensures key(r[i]) >= key(r[j])
      {
        if i == 0 {
          assert r[j] == rest[j - 1];
        } else {
          assert r[i] == rest[i - 1] && r[j] == rest[j - 1];
        }
      }
    } else if s != [] {
      var r := [x] + s;
      assert r == Insert(x, s, key);
      forall i, j | 0 <= i < j < |r|
        ensures key(r[i]) >= key(r[j])
      {
        if i == 0 {
          assert key(s[0]) >= key(r[j]);
        }
      }
    }
  }

  /** The order `Array.prototype.sort` leaves the elements in: non-increasing key, ties in input order. */
  function SortDesc<T>(s: seq<T>, key: T -> real): (r: seq<T>)
    ensures multiset(r) == multiset(s)
    ensures |r| == |s|
  {
    if s == [] then []
    else
      assert s == s[..|s| - 1] + [s[|s| - 1]];
      Insert(s[|s| - 1], SortDesc(s[..|s| - 1], key), key)
  }

  /** The sorted sequence is in non-increasing key order. */
  lemma {:induction false} SortDescIsDescending<T>(s: seq<T>, key: T -> real)
    ensures Descending(SortDesc(s, key), key)
  {
    if s != [] {
      SortDescIsDescending(s[..|s| - 1], key);
      InsertDescending(s[|s| - 1], SortDesc(s[..|s| - 1], key), key);
    }
  }

  /** The elements whose key is v, in their order in s. */
  function WithKey<T>(s: seq<T>, key: T -> real, v: real): (r: seq<T>)
    ensures |r| <= |s|
    ensures forall k :: 0 <= k < |r| ==> key(r[k]) == v
  {
    if s == [] then []
    else (if key(s[0]) == v then [s[0]] else []) + WithKey(s[1..], key, v)
  }

  /** The head of a sequence comes first among the kept elements. */
  lemma WithKeyCons<T>(y: T, t: seq<T>, key: T -> real, v: real)
    ensures WithKey([y] + t, key, v) == (if key(y) == v then [y] else []) + WithKey(t, key, v)
  {
    assert ([y] + t)[0] == y && ([y] + t)[1..] == t;
  }

  lemma {:induction false} WithKeyAppend<T>(a: seq<T>, b: seq<T>, key: T -> real, v: real)
    ensures WithKey(a + b, key, v) == WithKey(a, key, v) + WithKey(b, key, v)
  {
    if a == [] {
      assert a + b == b;
    } else {
      assert a + b == [a[0]] + (a[1..] + b);
      assert a == [a[0]] + a[1..];
      WithKeyCons(a[0], a[1..] + b, key, v);
      WithKeyCons(a[0], a[1..], key, v);
      WithKeyAppend(a[1..], b, key, v);
    }
  }

  /** A sequence with no element of key v has nothing to keep. */
  lemma {:induction false} WithKeyNone<T>(s: seq<T>, key: T -> real, v: real)
    requires forall k :: 0 <= k < |s| ==> key(s[k]) < v
    ensures WithKey(s, key, v) == []
  {
    if s != [] {
      assert key(s[0]) < v;
      WithKeyNone(s[1..], key, v);
    }
  }

  /** The tail of a descending sequence is descending. */
  lemma DescendingTail<T>(s: seq<T>, key: T -> real)
    requires Descending(s, key) && s != []
    ensures Descending(s[1..], key)
  {
    forall i, j | 0 <= i < j < |s[1..]|
      ensures key(s[1..][i]) >= key(s[1..][j])
    {
      assert s[1..][i] == s[i + 1] && s[1..][j] == s[j + 1];
    }
  }

  /** An x of larger key than the head of a descending s has no element of its key in s. */
  lemma AheadOfAll<T>(x: T, s: seq<T>, key: T -> real)
    requires Descending(s, key) && s != [] && key(s[0]) < key(x)
    ensures WithKey(s, key, key(x)) == []
  {
    forall k | 0 <= k < |s|
      ensures key(s[k]) < key(x)
    {
      if k > 0 {
        assert key(s[0]) >= key(s[k]);
      }
    }
    WithKeyNone(s, key, key(x));
  }

  /** Putting the same head in front of two sequences keeps a relation between what they keep. */
  lemma ConsKeeps<T>(y: T, r: seq<T>, t: seq<T>, last: seq<T>, key: T -> real, v: real)
    requires WithKey(r, key, v) == WithKey(t, key, v) + last
    ensures WithKey([y] + r, key, v) == WithKey([y] + t, key, v) + last
  {
    WithKeyCons(y, r, key, v);
    WithKeyCons(y, t, key, v);
    var head := if key(y) == v then [y] else [];
    assert head + (WithKey(t, key, v) + last) == (head + WithKey(t, key, v)) + last;
  }

  /** x goes behind a head of no smaller key. */
  lemma InsertBehind<T>(x: T, s: seq<T>, key: T -> real, v: real)
    requires s != [] && key(s[0]) >= key(x)
    requires WithKey(Insert(x, s[1..], key), key, v) == WithKey(s[1..], key, v) + (if key(x) == v then [x] else [])
    ensures WithKey(Insert(x, s, key), key, v) == WithKey(s, key, v) + (if key(x) == v then [x] else [])
  {
    assert Insert(x, s, key) == [s[0]] + Insert(x, s[1..], key);
    ConsKeeps(s[0], Insert(x, s[1..], key), s[1..], if key(x) == v then [x] else [], key, v);
    assert s == [s[0]] + s[1..];
  }

  /** x goes before a head of smaller key. */
  lemma InsertAhead<T>(x: T, s: seq<T>, key: T -> real, v: real)
    requires Descending(s, key) && s != [] && key(s[0]) < key(x)
    ensures WithKey(Insert(x, s, key), key, v) == WithKey(s, key, v) + (if key(x) == v then [x] else [])
  {
    assert Insert(x, s, key) == [x] + s;
    WithKeyCons(x, s, key, v);
    if key(x) == v {
      AheadOfAll(x, s, key);
    }
  }

  /** Inserting into a descending sequence puts x after every element of the same key. */
  lemma {:induction false} InsertWithKey<T>(x: T, s: seq<T>, key: T -> real, v: real)
    requires Descending(s, key)
    ensures WithKey(Insert(x, s, key), key, v) == WithKey(s, key, v) + (if key(x) == v then [x] else [])
  {
    if s == [] {
      assert Insert(x, s, key) == [x];
      WithKeyCons(x, [], key, v);
    } else if key(s[0]) >= key(x) {
      DescendingTail(s, key);
      InsertWithKey(x, s[1..], key, v);
      InsertBehind(x, s, key, v);
    } else {
      InsertAhead(x, s, key, v);
    }
  }

  /** The sort is stable: the elements of any one key keep their input order. */
  lemma {:induction false} SortDescIsStable<T>(s: seq<T>, key: T -> real, v: real)
    ensures WithKey(SortDesc(s, key), key, v) == WithKey(s, key, v)
  {
    if s != [] {
      var front, last := s[..|s| - 1], s[|s| - 1];
      var sortedFront := SortDesc(front, key);
      var single := if key(last) == v then [last] else [];
      calc {
        WithKey(SortDesc(s, key), key, v);
        WithKey(Insert(last, sortedFront, key), key, v);
        { SortDescIsDescending(front, key); InsertWithKey(last, sortedFront, key, v); }
        WithKey(sortedFront, key, v) + single;
        { SortDescIsStable(front, key, v); }
        WithKey(front, key, v) + single;
        { WithKeyCons(last, [], key, v); assert [last] + [] == [last]; }
        WithKey(front, key, v) + WithKey([last], key, v);
        { WithKeyAppend(front, [last], key, v); }
        WithKey(front + [last], key, v);
        { assert s == front + [last]; }
        WithKey(s, key, v);
      }
    }
  }
}
