/** The JavaScript array operations the application relies on, over
    sequences: `filter`, `find`, `slice(0, n)`, de-duplication through a
    `Set`, and the "list used as a set" idiom. */
module Lists {
  import opened Wrappers

  /** `s.filter(p)`. */
  function Filter<T>(s: seq<T>, p: T -> bool): (r: seq<T>)
    ensures |r| <= |s|
    ensures forall i :: 0 <= i < |r| ==> r[i] in s && p(r[i])
    ensures forall i :: 0 <= i < |s| && p(s[i]) ==> s[i] in r
  {
    if s == [] then []
    else if p(s[0]) then [s[0]] + Filter(s[1..], p)
    else Filter(s[1..], p)
  }

  /** A filter keeps every copy of each element that passes and no copy of
      one that fails. */
  lemma {:induction false} FilterMultiset<T>(s: seq<T>, p: T -> bool)
    ensures forall x :: multiset(Filter(s, p))[x] == if p(x) then multiset(s)[x] else 0
  {
    if s != [] {
      FilterMultiset(s[1..], p);
      assert s == [s[0]] + s[1..];
    }
  }

  /** `a` is `b` with some elements left out, the rest in their order. */
  predicate IsSubsequence<T(==)>(a: seq<T>, b: seq<T>)
    decreases |b|
  {
    if a == [] then true
    else if b == [] then false
    else if a[0] == b[0] then IsSubsequence(a[1..], b[1..])
    else IsSubsequence(a, b[1..])
  }

  /** A filter keeps the order of what it keeps. */
  lemma {:induction false} FilterIsSubsequence<T>(s: seq<T>, p: T -> bool)
    ensures IsSubsequence(Filter(s, p), s)
  {
    if s != [] {
      FilterIsSubsequence(s[1..], p);
    }
  }

  /** Filtering a concatenation filters each part. */
  lemma {:induction false} FilterAppend<T>(a: seq<T>, b: seq<T>, p: T -> bool)
    ensures Filter(a + b, p) == Filter(a, p) + Filter(b, p)
  {
    if a == [] {
      assert a + b == b;
    } else {
      assert (a + b)[1..] == a[1..] + b;
      FilterAppend(a[1..], b, p);
    }
  }

  /** A filter that every element passes keeps the whole list. */
  lemma {:induction false} FilterAll<T>(s: seq<T>, p: T -> bool)
    requires forall i :: 0 <= i < |s| ==> p(s[i])
    ensures Filter(s, p) == s
  {
    if s != [] {
      FilterAll(s[1..], p);
    }
  }

  /** `s.find(p)`: the first element that passes `p`, if any. */
  function Find<T>(s: seq<T>, p: T -> bool): (r: Option<T>)
    ensures r.None? <==> forall i :: 0 <= i < |s| ==> !p(s[i])
    ensures r.Some? ==> exists i :: (0 <= i < |s| && s[i] == r.value
      && p(s[i]) && forall j :: 0 <= j < i ==> !p(s[j]))
  {
    if s == [] then None
    else if p(s[0]) then Some(s[0])
    else
      var r := Find(s[1..], p);
      assert r.Some? ==> exists i :: (0 <= i < |s| - 1 && s[1..][i] == r.value
        && p(s[1..][i]) && forall j :: 0 <= j < i ==> !p(s[1..][j]));
      assert r.Some? ==> exists i :: (1 <= i < |s| && s[i] == r.value
        && p(s[i]) && forall j :: 1 <= j < i ==> !p(s[j]));
      r
  }

  /** `s.slice(0, n)`: the first `n` elements, or all of them. */
  function Take<T>(s: seq<T>, n: nat): (r: seq<T>)
    ensures |r| == if |s| <= n then |s| else n
    ensures r == s[..|r|]
  {
    if |s| <= n then s else s[..n]
  }

  predicate NoDuplicates<T(==)>(s: seq<T>) {
    forall i, j :: 0 <= i < j < |s| ==> s[i] != s[j]
  }

  /** `[...new Set(s)]`: each element once, at the place it first occurs. */
  function Dedupe<T(==)>(s: seq<T>): (r: seq<T>)
    ensures NoDuplicates(r)
    ensures forall i :: 0 <= i < |r| ==> r[i] in s
    ensures forall i :: 0 <= i < |s| ==> s[i] in r
    ensures |r| <= |s|
  {
    if s == [] then []
    else
      var d := Dedupe(s[..|s| - 1]);
      assert s == s[..|s| - 1] + [s[|s| - 1]];
      if s[|s| - 1] in d then d else d + [s[|s| - 1]]
  }

  /** The spread of a list with one more element at the end. */
  lemma DedupeSnoc<T>(s: seq<T>, y: T)
    ensures Dedupe(s + [y]) == if y in Dedupe(s) then Dedupe(s) else Dedupe(s) + [y]
  {
    var t := s + [y];
    assert t[..|t| - 1] == s && t[|t| - 1] == y;
  }

  lemma RemoveSnoc<T>(d: seq<T>, y: T, x: T)
    ensures Remove(d + [y], x) == Remove(d, x) + (if y == x then [] else [y])
  {
    FilterAppend(d, [y], z => z != x);
    assert Remove([y], x) == Filter([y][1..], z => z != x) + (if y == x then [] else [y]);
  }

  /** The first element of the input comes first in the spread, ahead of
      the spread of the rest with that element taken out: each element
      stands where it first occurs. */
  lemma {:induction false} DedupeCons<T>(x: T, s: seq<T>)
    ensures Dedupe([x] + s) == [x] + Remove(Dedupe(s), x)
    decreases |s|
  {
    if s == [] {
      assert [x] + s == [] + [x];
      DedupeSnoc([], x);
    } else {
      var init, y := s[..|s| - 1], s[|s| - 1];
      assert s == init + [y];
      assert [x] + s == ([x] + init) + [y];
      DedupeCons(x, init);
      DedupeConsSnoc(x, init, y);
    }
  }

  /** The inductive step of `DedupeCons`: from `init` to `init + [y]`. */
  lemma DedupeConsSnoc<T>(x: T, init: seq<T>, y: T)
    requires Dedupe([x] + init) == [x] + Remove(Dedupe(init), x)
    ensures Dedupe(([x] + init) + [y]) == [x] + Remove(Dedupe(init + [y]), x)
  {
    DedupeSnoc([x] + init, y);
    DedupeSnoc(init, y);
    ConsStep(x, y, Dedupe(init), Dedupe(init + [y]), Dedupe(([x] + init) + [y]));
  }

  /** The same step over any list `d` with `ds` the spread of `d + [y]`
      and `e` the spread of `[x] + d + [y]`. */
  lemma ConsStep<T>(x: T, y: T, d: seq<T>, ds: seq<T>, e: seq<T>)
    requires ds == if y in d then d else d + [y]
    requires e == if y in [x] + Remove(d, x) then [x] + Remove(d, x) else [x] + Remove(d, x) + [y]
    ensures e == [x] + Remove(ds, x)
  {
    RemoveSnoc(d, y, x);
    RemoveSpec(d, x);
    var d' := [x] + Remove(d, x);
    if y != x && y !in d {
      assert y !in d';
      assert [x] + (Remove(d, x) + [y]) == d' + [y];
    }
  }

  /** A set's spread keeps first occurrences in their order. */
  lemma {:induction false} DedupeIsSubsequence<T>(s: seq<T>)
    ensures IsSubsequence(Dedupe(s), s)
  {
    if s != [] {
      var init, x := s[..|s| - 1], s[|s| - 1];
      DedupeIsSubsequence(init);
      assert s == init + [x];
      if x !in Dedupe(init) {
        SubsequenceSnoc(Dedupe(init), init, x);
      } else {
        SubsequenceExtend(Dedupe(init), init, x);
      }
    }
  }

  lemma {:induction false} SubsequenceSnoc<T>(a: seq<T>, b: seq<T>, x: T)
    requires IsSubsequence(a, b)
    ensures IsSubsequence(a + [x], b + [x])
    decreases |b|
  {
    if a == [] {
      assert a + [x] == [x];
      SubsequenceOfSingleton(b, x);
    } else {
      assert (a + [x])[0] == a[0] && (a + [x])[1..] == a[1..] + [x];
      assert (b + [x])[0] == b[0] && (b + [x])[1..] == b[1..] + [x];
      if a[0] == b[0] {
        SubsequenceSnoc(a[1..], b[1..], x);
      } else {
        SubsequenceSnoc(a, b[1..], x);
      }
    }
  }

  lemma {:induction false} SubsequenceOfSingleton<T>(b: seq<T>, x: T)
    ensures IsSubsequence([x], b + [x])
    decreases |b|
  {
    if b != [] {
      assert (b + [x])[1..] == b[1..] + [x];
      if b[0] != x {
        SubsequenceOfSingleton(b[1..], x);
      } else {
        assert IsSubsequence([x][1..], (b + [x])[1..]);
      }
    }
  }

  lemma {:induction false} SubsequenceExtend<T>(a: seq<T>, b: seq<T>, x: T)
    requires IsSubsequence(a, b)
    ensures IsSubsequence(a, b + [x])
    decreases |b|
  {
    if a != [] {
      if b == [] {
      } else {
        assert (b + [x])[0] == b[0] && (b + [x])[1..] == b[1..] + [x];
        if a[0] == b[0] {
          SubsequenceExtend(a[1..], b[1..], x);
        } else {
          SubsequenceExtend(a, b[1..], x);
        }
      }
    }
  }

  /** `s.filter(y => y !== x)`. */
  function Remove<T(==)>(s: seq<T>, x: T): (r: seq<T>)
  {
    Filter(s, y => y != x)
  }

  /** Removing drops every occurrence of `x` and nothing else, keeping the
      order of the rest. */
  lemma RemoveSpec<T>(s: seq<T>, x: T)
    ensures x !in Remove(s, x)
    ensures forall i :: 0 <= i < |s| && s[i] != x ==> s[i] in Remove(s, x)
    ensures IsSubsequence(Remove(s, x), s)
    ensures forall y :: multiset(Remove(s, x))[y] == if y == x then 0 else multiset(s)[y]
  {
    FilterIsSubsequence(s, y => y != x);
    FilterMultiset(s, y => y != x);
  }

  /** Removing an element that is absent changes nothing. */
  lemma RemoveAbsent<T>(s: seq<T>, x: T)
    requires x !in s
    ensures Remove(s, x) == s
  {
    FilterAll(s, y => y != x);
  }

  /** Appending an absent element and removing it again restores the list. */
  lemma RemoveAppended<T>(s: seq<T>, x: T)
    requires x !in s
    ensures Remove(s + [x], x) == s
  {
    FilterAppend(s, [x], y => y != x);
    RemoveAbsent(s, x);
  }

  /** Removing keeps a list free of duplicates. */
  lemma {:induction false} RemoveNoDuplicates<T>(s: seq<T>, x: T)
    requires NoDuplicates(s)
    ensures NoDuplicates(Remove(s, x))
  {
    if s != [] {
      RemoveNoDuplicates(s[1..], x);
      assert Remove(s, x) == if s[0] != x then [s[0]] + Remove(s[1..], x) else Remove(s[1..], x);
      assert s[0] !in s[1..];
    }
  }
}
