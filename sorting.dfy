/** Stable sorting in descending order of an integer key, as
    `[...xs].sort((a, b) => key(b) - key(a))` does it (`Array.prototype.sort`
    is stable by section 22.1.3.27 of ECMAScript 2019),
    and as a store query `order by key desc` is read in this model. */
module Sorting {

  /** Non-increasing in `key`. */
  ghost predicate SortedDesc<T>(s: seq<T>, key: T -> int) {
    forall i, j :: 0 <= i < j < |s| ==> key(s[i]) >= key(s[j])
  }

  /** The elements of `s` whose key is `k`, in their order in `s`. */
  function WithKey<T>(s: seq<T>, key: T -> int, k: int): (r: seq<T>)
    ensures |r| <= |s|
    ensures forall i :: 0 <= i < |r| ==> key(r[i]) == k
  {
    if s == [] then []
    else (if key(s[0]) == k then [s[0]] else []) + WithKey(s[1..], key, k)
  }

  /** Puts `x` in front of the first element whose key is not above its own. */
  function Insert<T>(x: T, t: seq<T>, key: T -> int): (r: seq<T>)
    ensures |r| == |t| + 1
    ensures multiset(r) == multiset(t) + multiset{x}
  {
    if t == [] then [x]
    else if key(t[0]) <= key(x) then [x] + t
    else
      assert t == [t[0]] + t[1..];
      [t[0]] + Insert(x, t[1..], key)
  }

  lemma {:induction false} InsertSorted<T>(x: T, t: seq<T>, key: T -> int)
    requires SortedDesc(t, key)
    ensures SortedDesc(Insert(x, t, key), key)
  {
    if t != [] && key(t[0]) > key(x) {
      var rest := Insert(x, t[1..], key);
      InsertSorted(x, t[1..], key);
      forall j | 0 <= j < |rest|
        ensures key(t[0]) >= key(rest[j])
      {
        assert rest[j] in multiset(rest);
        assert rest[j] == x || rest[j] in multiset(t[1..]);
        if rest[j] != x {
          var m :| 0 <= m < |t[1..]| && t[1..][m] == rest[j];
          assert t[1..][m] == t[m + 1];
        }
      }
    }
  }

  /** Inserting `x` adds it to its key's group ahead of the others of that group. */
  lemma {:induction false} InsertWithKey<T>(x: T, t: seq<T>, key: T -> int, k: int)
    ensures WithKey(Insert(x, t, key), key, k)
         == (if key(x) == k then [x] else []) + WithKey(t, key, k)
  {
    if t == [] {
    } else if key(t[0]) <= key(x) {
      assert ([x] + t)[1..] == t;
    } else {
      var rest := Insert(x, t[1..], key);
      InsertWithKey(x, t[1..], key, k);
      assert ([t[0]] + rest)[1..] == rest;
    }
  }

  /** Insertion sort: the result holds the same elements, in descending key order. */
  function SortDesc<T>(s: seq<T>, key: T -> int): (r: seq<T>)
    ensures |r| == |s|
    ensures multiset(r) == multiset(s)
  {
    if s == [] then []
    else
      assert s == [s[0]] + s[1..];
      Insert(s[0], SortDesc(s[1..], key), key)
  }

  lemma {:induction false} SortDescSorted<T>(s: seq<T>, key: T -> int)
    ensures SortedDesc(SortDesc(s, key), key)
  {
    if s != [] {
      SortDescSorted(s[1..], key);
      InsertSorted(s[0], SortDesc(s[1..], key), key);
    }
  }

  /** Stability: the elements sharing a key keep their relative order. */
  lemma {:induction false} SortDescStable<T>(s: seq<T>, key: T -> int, k: int)
    ensures WithKey(SortDesc(s, key), key, k) == WithKey(s, key, k)
  {
    if s != [] {
      SortDescStable(s[1..], key, k);
      InsertWithKey(s[0], SortDesc(s[1..], key), key, k);
    }
  }

  /** At most the first `n` elements (`.limit(n)`, `.slice(0, n)`). */
  function Take<T>(s: seq<T>, n: nat): (r: seq<T>)
    ensures |r| == if |s| < n then |s| else n
    ensures r <= s
  {
    if |s| <= n then s else s[..n]
  }

  /** The first `n` of `s` by `key`, highest first (`order(key desc).limit(n)`):
      sorted, drawn from `s`, all of `s` when it is short, and otherwise its
      top elements. */
  lemma TopOf<T>(s: seq<T>, key: T -> int, n: nat)
    requires 0 < n
    ensures var rows := Take(SortDesc(s, key), n);
            && SortedDesc(rows, key)
            && multiset(rows) <= multiset(s)
            && (|s| <= n ==> multiset(rows) == multiset(s))
            && (|s| > n ==> forall x :: x in multiset(s) - multiset(rows) ==> key(x) <= key(rows[|rows| - 1]))
  {
    SortDescSorted(s, key);
    PrefixOfSorted(SortDesc(s, key), s, key, n);
  }

  lemma PrefixOfSorted<T>(sorted: seq<T>, s: seq<T>, key: T -> int, n: nat)
    requires 0 < n && SortedDesc(sorted, key) && multiset(sorted) == multiset(s)
    ensures var rows := Take(sorted, n);
            && SortedDesc(rows, key)
            && multiset(rows) <= multiset(s)
            && (|s| <= n ==> multiset(rows) == multiset(s))
            && (|s| > n ==> forall x :: x in multiset(s) - multiset(rows) ==> key(x) <= key(rows[|rows| - 1]))
  {
    var rows := Take(sorted, n);
    assert |sorted| == |s| by {
      assert |multiset(sorted)| == |sorted| && |multiset(s)| == |s|;
    }
    assert sorted == rows + sorted[|rows|..];
    forall i, j | 0 <= i < j < |rows|
      ensures key(rows[i]) >= key(rows[j])
    {
      assert rows[i] == sorted[i] && rows[j] == sorted[j];
    }
    if |s| > n {
      TakeIsTop(sorted, key, n);
      assert rows[|rows| - 1] == sorted[n - 1];
    }
  }

  /** A prefix of a sorted list holds its highest keys: every element left
      out ranks no higher than the last one kept. */
  lemma TakeIsTop<T>(s: seq<T>, key: T -> int, n: nat)
    requires SortedDesc(s, key) && 0 < n < |s|
    ensures forall x :: x in multiset(s) - multiset(Take(s, n)) ==> key(x) <= key(s[n - 1])
  {
    var rest := s[n..];
    assert s == Take(s, n) + rest;
    assert multiset(s) - multiset(Take(s, n)) == multiset(rest);
    forall x | x in multiset(rest)
      ensures key(x) <= key(s[n - 1])
    {
      var j :| 0 <= j < |rest| && rest[j] == x;
      assert s[n + j] == x;
    }
  }
}
