/** `Array.prototype.sort` with the comparator `(a, b) => key(b) - key(a)`:
    a stable sort into non-increasing key order. ECMAScript requires `sort`
    to be stable, so the result is determined: it is `SortDesc` below, an
    insertion sort that puts each element after every element whose key is
    at least its own. */
module StableSort {
  import opened Lists

  predicate NonIncreasing<T>(s: seq<T>, key: T -> int) {
    forall i, j :: 0 <= i < j < |s| ==> key(s[i]) >= key(s[j])
  }

  /** Places `x` into `t` after every element of `t`'s tail whose key is at
      least `key(x)`. */
  function Insert<T>(t: seq<T>, x: T, key: T -> int): (r: seq<T>)
    ensures |r| == |t| + 1
    decreases |t|
  {
    if t == [] then [x]
    else if key(t[|t| - 1]) >= key(x) then t + [x]
    else Insert(t[..|t| - 1], x, key) + [t[|t| - 1]]
  }

  function SortDesc<T>(s: seq<T>, key: T -> int): (r: seq<T>)
    ensures |r| == |s|
  {
    if s == [] then [] else Insert(SortDesc(s[..|s| - 1], key), s[|s| - 1], key)
  }

  lemma {:induction false} InsertPermutation<T>(t: seq<T>, x: T, key: T -> int)
    ensures multiset(Insert(t, x, key)) == multiset(t) + multiset{x}
    decreases |t|
  {
    if t != [] && key(t[|t| - 1]) < key(x) {
      var init := t[..|t| - 1];
      InsertPermutation(init, x, key);
      assert t == init + [t[|t| - 1]];
    }
  }

  lemma {:induction false} InsertSorted<T>(t: seq<T>, x: T, key: T -> int)
    requires NonIncreasing(t, key)
    ensures NonIncreasing(Insert(t, x, key), key)
    decreases |t|
  {
    if t != [] && key(t[|t| - 1]) < key(x) {
      var init, last := t[..|t| - 1], t[|t| - 1];
      InsertSorted(init, x, key);
      InsertPermutation(init, x, key);
      var ins := Insert(init, x, key);
      forall i | 0 <= i < |ins| ensures key(ins[i]) >= key(last) {
        assert ins[i] in multiset(ins);
        if ins[i] != x {
          assert ins[i] in multiset(init);
          var k :| 0 <= k < |init| && init[k] == ins[i];
          assert init[k] == t[k];
        }
      }
    }
  }

  /** The sort rearranges its input: same elements, same multiplicities. */
  lemma {:induction false} SortDescPermutation<T>(s: seq<T>, key: T -> int)
    ensures multiset(SortDesc(s, key)) == multiset(s)
  {
    if s != [] {
      var init := s[..|s| - 1];
      SortDescPermutation(init, key);
      InsertPermutation(SortDesc(init, key), s[|s| - 1], key);
      assert s == init + [s[|s| - 1]];
    }
  }

  /** The sort's output never increases in key along the sequence. */
  lemma {:induction false} SortDescSorted<T>(s: seq<T>, key: T -> int)
    ensures NonIncreasing(SortDesc(s, key), key)
  {
    if s != [] {
      SortDescSorted(s[..|s| - 1], key);
      InsertSorted(SortDesc(s[..|s| - 1], key), s[|s| - 1], key);
    }
  }

  /** The elements that share one key, in order. */
  function WithKey<T>(s: seq<T>, key: T -> int, k: int): seq<T> {
    Filter(s, y => key(y) == k)
  }

  lemma {:induction false} InsertStable<T>(t: seq<T>, x: T, key: T -> int, k: int)
    ensures WithKey(Insert(t, x, key), key, k) == WithKey(t, key, k) + WithKey([x], key, k)
    decreases |t|
  {
    var q := y => key(y) == k;
    if t == [] {
    } else if key(t[|t| - 1]) >= key(x) {
      FilterAppend(t, [x], q);
    } else {
      var init, last := t[..|t| - 1], t[|t| - 1];
      InsertStable(init, x, key, k);
      FilterAppend(Insert(init, x, key), [last], q);
      FilterAppend(init, [last], q);
      assert t == init + [last];
      assert Filter([x], q) == [] || Filter([last], q) == [];
    }
  }

  /** Stability: elements with equal keys keep their relative order. */
  lemma {:induction false} SortDescStable<T>(s: seq<T>, key: T -> int, k: int)
    ensures WithKey(SortDesc(s, key), key, k) == WithKey(s, key, k)
  {
    if s != [] {
      var init, last := s[..|s| - 1], s[|s| - 1];
      SortDescStable(init, key, k);
      InsertStable(SortDesc(init, key), last, key, k);
      FilterAppend(init, [last], y => key(y) == k);
      assert s == init + [last];
    }
  }

  /** An input already in non-increasing order comes back unchanged. */
  lemma {:induction false} SortDescOfSorted<T>(s: seq<T>, key: T -> int)
    requires NonIncreasing(s, key)
    ensures SortDesc(s, key) == s
  {
    if s != [] {
      var init := s[..|s| - 1];
      assert NonIncreasing(init, key);
      SortDescOfSorted(init, key);
      if |init| > 0 {
        assert key(init[|init| - 1]) >= key(s[|s| - 1]);
      }
      assert s == init + [s[|s| - 1]];
    }
  }

  /** Sorting twice is sorting once. */
  lemma SortDescIdempotent<T>(s: seq<T>, key: T -> int)
    ensures SortDesc(SortDesc(s, key), key) == SortDesc(s, key)
  {
    SortDescSorted(s, key);
    SortDescOfSorted(SortDesc(s, key), key);
  }

  /** One step of the insertion loop: moving `x` left past `t[j - 1]`
      keeps the final arrangement the same. */
  lemma InsertStep<T>(t: seq<T>, x: T, key: T -> int, j: nat)
    requires 0 < j <= |t|
    requires key(t[j - 1]) < key(x)
    ensures Insert(t[..j], x, key) + t[j..] == Insert(t[..j - 1], x, key) + t[j - 1..]
  {
    var u := t[..j];
    assert u[..|u| - 1] == t[..j - 1] && u[|u| - 1] == t[j - 1];
    var p := Insert(t[..j - 1], x, key);
    assert Insert(u, x, key) == p + [t[j - 1]];
    assert t[j - 1..] == [t[j - 1]] + t[j..];
  }

  /** When `x` may stay where it is, it goes at the end of the prefix. */
  lemma InsertStop<T>(t: seq<T>, x: T, key: T -> int, j: nat)
    requires j <= |t|
    requires j > 0 ==> key(t[j - 1]) >= key(x)
    ensures Insert(t[..j], x, key) == t[..j] + [x]
  {
  }

  /** Swapping `x` with its left neighbour in `t[..j] + [x] + t[j..] + rest`. */
  lemma SwapLeft<T>(s: seq<T>, t: seq<T>, x: T, j: nat, rest: seq<T>)
    requires 0 < j <= |t| && s == t[..j] + [x] + t[j..] + rest
    ensures s[j - 1] == t[j - 1] && s[j] == x
    ensures s[j - 1 := x][j := t[j - 1]] == t[..j - 1] + [x] + t[j - 1..] + rest
  {
    assert t[..j] == t[..j - 1] + [t[j - 1]];
    assert t[j - 1..] == [t[j - 1]] + t[j..];
  }

  lemma SplitAt<T>(s: seq<T>, p: seq<T>, rest: seq<T>)
    requires s == p + rest
    ensures s[..|p|] == p && s[|p|..] == rest
  {
  }

  /** One pass of the insertion sort: moves `a[i]` left past every element
      of the sorted prefix `a[..i]` whose key is smaller. */
  method InsertAt<T>(a: array<T>, i: nat, key: T -> int)
    requires i < a.Length
    modifies a
    ensures a[..i + 1] == Insert(old(a[..i]), old(a[i]), key)
    ensures a[i + 1..] == old(a[i + 1..])
  {
    ghost var t, x, rest := a[..i], a[i], a[i + 1..];
    var j := i;
    assert t[..j] == t && t[j..] == [];
    assert a[..] == t[..j] + [x] + t[j..] + rest;
    while j > 0 && key(a[j - 1]) < key(a[j])
      invariant 0 <= j <= i
      invariant a[..] == t[..j] + [x] + t[j..] + rest
      invariant Insert(t, x, key) == Insert(t[..j], x, key) + t[j..]
    {
      ghost var s := a[..];
      SwapLeft(s, t, x, j, rest);
      InsertStep(t, x, key, j);
      a[j - 1], a[j] := a[j], a[j - 1];
      assert a[..] == s[j - 1 := x][j := t[j - 1]];
      j := j - 1;
    }
    if j > 0 {
      SwapLeft(a[..], t, x, j, rest);
    }
    InsertStop(t, x, key, j);
    SplitAt(a[..], t[..j] + [x] + t[j..], rest);
  }

  /** `a.sort((p, q) => key(q) - key(p))`, in place: after the call the array
      holds the stable non-increasing arrangement of what it held before. */
  method SortInPlace<T>(a: array<T>, key: T -> int)
    modifies a
    ensures a[..] == SortDesc(old(a[..]), key)
  {
    ghost var orig := a[..];
    var i := 0;
    while i < a.Length
      invariant 0 <= i <= a.Length
      invariant a[..i] == SortDesc(orig[..i], key)
      invariant a[i..] == orig[i..]
    {
      assert a[i] == orig[i];
      InsertAt(a, i, key);
      assert orig[..i + 1] == orig[..i] + [orig[i]];
      assert orig[..i + 1][..i] == orig[..i];
      assert a[i + 1..] == orig[i + 1..];
      i := i + 1;
    }
    assert orig[..a.Length] == orig;
    assert a[..] == a[..a.Length];
  }
}
