/** Sorting by an integer key, the shape of every comparator in the
    repository (`(a, b) => key(b) - key(a)` and Python's
    `sort(key=..., reverse=True)`). The sort is insertion sort; an element
    is inserted before the first element whose key is not larger, so equal
    keys keep their input order, as in the stable sorts of JavaScript and
    Python. */
module Sorting {

  /** Keys never increase along `s` (newest-first, highest-first). */
  predicate NonIncreasing<T>(s: seq<T>, key: T -> int) {
    forall i, j :: 0 <= i < j < |s| ==> key(s[i]) >= key(s[j])
  }

  /** Keys never decrease along `s` (nearest-first, cheapest-first). */
  predicate NonDecreasing<T>(s: seq<T>, key: T -> int) {
    forall i, j :: 0 <= i < j < |s| ==> key(s[i]) <= key(s[j])
  }

  /** Inserts `x` into a list already sorted by non-increasing key. */
  function Insert<T>(x: T, s: seq<T>, key: T -> int): (r: seq<T>)
    requires NonIncreasing(s, key)
    ensures |r| == |s| + 1
    ensures forall j :: 0 <= j < |r| ==> r[j] == x || r[j] in s
    ensures NonIncreasing(r, key)
    ensures multiset(r) == multiset(s) + multiset{x}
    decreases |s|
  {
    if |s| == 0 || key(x) >= key(s[0]) then [x] + s
    else
      var t := Insert(x, s[1..], key);
      InsertBelowHead(x, s, key, t);
      [s[0]] + t
  }

  /** The step of `Insert` past the head: the head's key bounds everything
      inserted after it. */
  lemma InsertBelowHead<T>(x: T, s: seq<T>, key: T -> int, t: seq<T>)
    requires NonIncreasing(s, key) && |s| > 0 && key(x) < key(s[0])
    requires NonIncreasing(t, key)
    requires forall j :: 0 <= j < |t| ==> t[j] == x || t[j] in s[1..]
    requires multiset(t) == multiset(s[1..]) + multiset{x}
    ensures NonIncreasing([s[0]] + t, key)
    ensures forall j :: 0 <= j < |[s[0]] + t| ==> ([s[0]] + t)[j] == x || ([s[0]] + t)[j] in s
    ensures multiset([s[0]] + t) == multiset(s) + multiset{x}
  {
    assert s == [s[0]] + s[1..];
    forall j | 0 <= j < |t| ensures key(s[0]) >= key(t[j]) {
      if t[j] != x {
        var k :| 0 <= k < |s[1..]| && s[1..][k] == t[j];
        assert s[k + 1] == t[j];
      }
    }
    var r := [s[0]] + t;
    forall i, j | 0 <= i < j < |r| ensures key(r[i]) >= key(r[j]) {
      if i == 0 { assert r[j] == t[j - 1]; } else { assert r[i] == t[i - 1] && r[j] == t[j - 1]; }
    }
  }

  /** The input rearranged into non-increasing key order. */
  function SortDesc<T>(s: seq<T>, key: T -> int): (r: seq<T>)
    ensures NonIncreasing(r, key)
    ensures multiset(r) == multiset(s)
    decreases |s|
  {
    if |s| == 0 then []
    else
      assert s == [s[0]] + s[1..];
      Insert(s[0], SortDesc(s[1..], key), key)
  }

  /** The input rearranged into non-decreasing key order. */
  function SortAsc<T>(s: seq<T>, key: T -> int): (r: seq<T>)
    ensures NonDecreasing(r, key)
    ensures multiset(r) == multiset(s)
  {
    SortDesc(s, x => -key(x))
  }

  /** A permutation has the same length. */
  lemma PermutationLength<T>(a: seq<T>, b: seq<T>)
    requires multiset(a) == multiset(b)
    ensures |a| == |b|
  {
    assert |multiset(a)| == |a| && |multiset(b)| == |b|;
  }

  /** A permutation has the same elements. */
  lemma PermutationMembers<T>(a: seq<T>, b: seq<T>)
    requires multiset(a) == multiset(b)
    ensures forall x :: x in a <==> x in b
  {
    forall x ensures x in a <==> x in b {
      assert x in a <==> x in multiset(a);
      assert x in b <==> x in multiset(b);
    }
  }

  /** A property of every element survives rearrangement. */
  lemma PermutationAll<T>(a: seq<T>, b: seq<T>, P: T -> bool)
    requires multiset(a) == multiset(b)
    requires forall i :: 0 <= i < |a| ==> P(a[i])
    ensures forall i :: 0 <= i < |b| ==> P(b[i])
  {
    forall i | 0 <= i < |b| ensures P(b[i]) {
      assert b[i] in multiset(b);
      assert b[i] in a;
    }
  }

  /** Everything in a sorted prefix outranks everything after it. */
  lemma PrefixDominates<T>(s: seq<T>, key: T -> int, n: nat, x: T, y: T)
    requires NonIncreasing(s, key) && n <= |s|
    requires x in s[..n] && y in s[n..]
    ensures key(x) >= key(y)
  {
    var i :| 0 <= i < n && s[..n][i] == x;
    var j :| 0 <= j < |s| - n && s[n..][j] == y;
    assert s[i] == x && s[n + j] == y;
  }

  // ---- stability -----------------------------------------------------------

  /** The elements of `s` whose key is `k`, in their order in `s`. */
  function KeyClass<T>(s: seq<T>, key: T -> int, k: int): (c: seq<T>)
    ensures |c| <= |s|
    ensures forall i :: 0 <= i < |c| ==> key(c[i]) == k
  {
    if |s| == 0 then []
    else (if key(s[0]) == k then [s[0]] else []) + KeyClass(s[1..], key, k)
  }

  /** Inserting `x` puts it before every element of its own key, and
      leaves the order of every key class as it was. */
  lemma {:induction false} InsertKeyClass<T>(x: T, s: seq<T>, key: T -> int, k: int)
    requires NonIncreasing(s, key)
    ensures KeyClass(Insert(x, s, key), key, k) ==
      (if key(x) == k then [x] else []) + KeyClass(s, key, k)
    decreases |s|
  {
    var r := Insert(x, s, key);
    if |s| == 0 || key(x) >= key(s[0]) {
      assert r[0] == x && r[1..] == s;
    } else {
      var t := Insert(x, s[1..], key);
      assert r[0] == s[0] && r[1..] == t;
      InsertKeyClass(x, s[1..], key, k);
    }
  }

  /** The sort is stable: elements with equal keys keep their input
      order. */
  lemma {:induction false} SortDescStable<T>(s: seq<T>, key: T -> int, k: int)
    ensures KeyClass(SortDesc(s, key), key, k) == KeyClass(s, key, k)
    decreases |s|
  {
    if |s| > 0 {
      SortDescStable(s[1..], key, k);
      InsertKeyClass(s[0], SortDesc(s[1..], key), key, k);
    }
  }

  /** The key class of a prefix is a prefix of the key class. */
  lemma {:induction false} KeyClassPrefix<T>(s: seq<T>, n: nat, key: T -> int, k: int)
    requires n <= |s|
    ensures var c := KeyClass(s[..n], key, k);
      |c| <= |KeyClass(s, key, k)| && c == KeyClass(s, key, k)[..|c|]
    decreases n
  {
    if n > 0 {
      assert s[..n][0] == s[0] && s[..n][1..] == s[1..][..n - 1];
      KeyClassPrefix(s[1..], n - 1, key, k);
    }
  }
}
