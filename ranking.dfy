/**
 * Python's `list.sort(key=..., reverse=True)` and `sorted(..., reverse=True)`:
 * a stable sort into non-increasing key order, with keys compared as tuples.
 * Both retrievers and the memory store rank their candidates with it.
 */
module Ranking {

  /** A sort key: a tuple of one or two numbers compared lexicographically. */
  datatype Key = Key(primary: real, secondary: real)

  /** Tuple comparison `a <= b`. */
  predicate AtMost(a: Key, b: Key) {
    a.primary < b.primary || (a.primary == b.primary && a.secondary <= b.secondary)
  }

  /** Every element's key is at least the key of every later element. */
  predicate NonIncreasing<T>(s: seq<T>, key: T -> Key) {
    forall i, j :: 0 <= i < j < |s| ==> AtMost(key(s[j]), key(s[i]))
  }

  /** Places `x` before the first element whose key is not above its own. */
  function Insert<T>(x: T, s: seq<T>, key: T -> Key): (r: seq<T>)
    ensures |r| == |s| + 1
  {
    if s == [] then [x]
    else if AtMost(key(s[0]), key(x)) then [x] + s
    else [s[0]] + Insert(x, s[1..], key)
  }

  /** The stable descending sort. */
  function SortDesc<T>(s: seq<T>, key: T -> Key): (r: seq<T>)
    ensures |r| == |s|
  {
    if s == [] then [] else Insert(s[0], SortDesc(s[1..], key), key)
  }

  /** The elements of `s` whose key equals `k`, in their order in `s`. */
  function WithKey<T>(s: seq<T>, key: T -> Key, k: Key): seq<T> {
    if s == [] then []
    else (if key(s[0]) == k then [s[0]] else []) + WithKey(s[1..], key, k)
  }

  function Take<T>(s: seq<T>, n: nat): (r: seq<T>)
    ensures |r| == if n <= |s| then n else |s|
    ensures forall i :: 0 <= i < |r| ==> r[i] == s[i]
  {
    if n <= |s| then s[..n] else s
  }

  lemma {:induction false} InsertSorted<T>(x: T, s: seq<T>, key: T -> Key)
    requires NonIncreasing(s, key)
    ensures NonIncreasing(Insert(x, s, key), key)
    ensures forall i :: 0 <= i < |Insert(x, s, key)| ==>
              Insert(x, s, key)[i] == x || Insert(x, s, key)[i] in s
    decreases |s|
  {
    if s != [] && !AtMost(key(s[0]), key(x)) {
      assert NonIncreasing(s[1..], key);
      InsertSorted(x, s[1..], key);
      var r := Insert(x, s[1..], key);
      forall i | 0 <= i < |r| ensures AtMost(key(r[i]), key(s[0])) {
        if r[i] != x {
          var j :| 0 <= j < |s[1..]| && s[1..][j] == r[i];
          assert s[j + 1] == r[i];
        }
      }
      assert forall i :: 0 <= i < |r| ==> r[i] in s[1..] ==> r[i] in s;
    }
  }

  /** The result of `SortDesc` is in non-increasing key order. */
  lemma {:induction false} SortDescSorted<T>(s: seq<T>, key: T -> Key)
    ensures NonIncreasing(SortDesc(s, key), key)
  {
    if s != [] {
      SortDescSorted(s[1..], key);
      InsertSorted(s[0], SortDesc(s[1..], key), key);
    }
  }

  lemma {:induction false} InsertPermutes<T>(x: T, s: seq<T>, key: T -> Key)
    ensures multiset(Insert(x, s, key)) == multiset(s) + multiset{x}
    decreases |s|
  {
    if s != [] && !AtMost(key(s[0]), key(x)) {
      InsertPermutes(x, s[1..], key);
      assert s == [s[0]] + s[1..];
    }
  }

  /** `SortDesc` rearranges its input: nothing is lost, nothing added. */
  lemma {:induction false} SortDescPermutes<T>(s: seq<T>, key: T -> Key)
    ensures multiset(SortDesc(s, key)) == multiset(s)
  {
    if s != [] {
      SortDescPermutes(s[1..], key);
      InsertPermutes(s[0], SortDesc(s[1..], key), key);
      assert s == [s[0]] + s[1..];
    }
  }

  lemma {:induction false} InsertWithKey<T>(x: T, s: seq<T>, key: T -> Key, k: Key)
    ensures WithKey(Insert(x, s, key), key, k)
         == (if key(x) == k then [x] else []) + WithKey(s, key, k)
    decreases |s|
  {
    if s == [] {
    } else if AtMost(key(s[0]), key(x)) {
      assert Insert(x, s, key)[1..] == s;
    } else {
      var r := Insert(x, s, key);
      assert r[1..] == Insert(x, s[1..], key);
      InsertWithKey(x, s[1..], key, k);
    }
  }

  /** Stability: elements with equal keys keep their relative order. */
  lemma {:induction false} SortDescStable<T>(s: seq<T>, key: T -> Key, k: Key)
    ensures WithKey(SortDesc(s, key), key, k) == WithKey(s, key, k)
  {
    if s != [] {
      SortDescStable(s[1..], key, k);
      InsertWithKey(s[0], SortDesc(s[1..], key), key, k);
    }
  }

  /** The elements whose primary key is positive. */
  function Positive<T>(s: seq<T>, key: T -> Key): (r: seq<T>)
    ensures |r| <= |s|
    ensures forall i :: 0 <= i < |r| ==> key(r[i]).primary > 0.0
  {
    if s == [] then []
    else (if key(s[0]).primary > 0.0 then [s[0]] else []) + Positive(s[1..], key)
  }

  lemma {:induction false} PositiveOfNonPositiveHead<T>(s: seq<T>, key: T -> Key)
    requires NonIncreasing(s, key)
    requires s != [] && key(s[0]).primary <= 0.0
    ensures Positive(s, key) == []
    decreases |s|
  {
    if |s| > 1 {
      assert AtMost(key(s[1]), key(s[0]));
      assert NonIncreasing(s[1..], key);
      PositiveOfNonPositiveHead(s[1..], key);
    }
  }

  /**
   * On a list in non-increasing order, taking the first `n` and then
   * dropping the non-positive ones is the same as keeping the first `n`
   * positive ones.
   */
  lemma {:induction false} TakeThenPositive<T>(s: seq<T>, key: T -> Key, n: nat)
    requires NonIncreasing(s, key)
    ensures Positive(Take(s, n), key) == Take(Positive(s, key), n)
    decreases |s|
  {
    if s == [] || n == 0 {
    } else if key(s[0]).primary <= 0.0 {
      PositiveOfNonPositiveHead(s, key);
      PositiveOfNonPositiveHead(Take(s, n), key);
    } else {
      assert NonIncreasing(s[1..], key);
      TakeThenPositive(s[1..], key, n - 1);
      assert Take(s, n)[1..] == Take(s[1..], n - 1);
    }
  }

  /** On a non-increasing list the positive elements are exactly a prefix, and nothing after it is positive. */
  lemma {:induction false} PositiveIsPrefix<T>(s: seq<T>, key: T -> Key)
    requires NonIncreasing(s, key)
    ensures |Positive(s, key)| <= |s| && Positive(s, key) == s[..|Positive(s, key)|]
    ensures forall i :: |Positive(s, key)| <= i < |s| ==> key(s[i]).primary <= 0.0
    decreases |s|
  {
    if s == [] {
    } else if key(s[0]).primary <= 0.0 {
      PositiveOfNonPositiveHead(s, key);
      forall i | 0 <= i < |s| ensures key(s[i]).primary <= 0.0 {
        if i > 0 {
          assert AtMost(key(s[i]), key(s[0]));
        }
      }
    } else {
      assert NonIncreasing(s[1..], key);
      PositiveIsPrefix(s[1..], key);
      var p := Positive(s[1..], key);
      assert Positive(s, key) == [s[0]] + p;
      assert s[..|p| + 1] == [s[0]] + s[1..][..|p|];
      forall i | |p| + 1 <= i < |s| ensures key(s[i]).primary <= 0.0 {
        assert s[i] == s[1..][i - 1];
      }
    }
  }

  /** Python's `s[:n]`: a negative `n` drops that many elements from the end. */
  function Head<T>(s: seq<T>, n: int): (r: seq<T>)
    ensures n >= 0 ==> r == Take(s, n)
    ensures n < 0 ==> |r| == (if |s| + n <= 0 then 0 else |s| + n)
    ensures forall i :: 0 <= i < |r| ==> r[i] == s[i]
  {
    if n >= 0 then Take(s, n) else if |s| + n <= 0 then [] else s[..|s| + n]
  }

  /**
   * Sorting, then taking the first `n` and keeping the positive ones, gives
   * the first min(`n`, p) sorted elements, where the positive ones are
   * exactly the first p; equal keys keep their input order.
   */
  lemma SortedTopPositive<T>(s: seq<T>, key: T -> Key, n: nat)
    ensures var sorted := SortDesc(s, key);
            var p := |Positive(sorted, key)|;
            p <= |sorted|
            && Positive(Head(sorted, n), key) == sorted[..if n <= p then n else p]
            && (forall i :: 0 <= i < p ==> key(sorted[i]).primary > 0.0)
            && (forall i :: p <= i < |sorted| ==> key(sorted[i]).primary <= 0.0)
    ensures forall k :: WithKey(SortDesc(s, key), key, k) == WithKey(s, key, k)
  {
    var sorted := SortDesc(s, key);
    SortDescSorted(s, key);
    PositiveIsPrefix(sorted, key);
    TakeThenPositive(sorted, key, n);
    var p := |Positive(sorted, key)|;
    assert Head(sorted, n) == Take(sorted, n);
    assert Take(Positive(sorted, key), n) == sorted[..if n <= p then n else p];
    SortDescStableAll(s, key);
  }

  lemma SortDescStableAll<T>(s: seq<T>, key: T -> Key)
    ensures forall k :: WithKey(SortDesc(s, key), key, k) == WithKey(s, key, k)
  {
    forall k ensures WithKey(SortDesc(s, key), key, k) == WithKey(s, key, k) {
      SortDescStable(s, key, k);
    }
  }
}
