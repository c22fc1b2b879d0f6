/** The JavaScript string primitives the application relies on, over strings
    seen as sequences of characters: `trim`, `split` on one character, `join`,
    `includes`, `indexOf`, `lastIndexOf`, `slice` and ASCII case mapping. */
module Text {

  type String = seq<char>

  /** The characters `String.prototype.trim` removes: the ECMAScript
      WhiteSpace and LineTerminator code points. */
  predicate IsSpace(c: char) {
    || c == '\t' || c == '\n' || c == '\U{000B}' || c == '\U{000C}' || c == '\r'
    || c == ' ' || c == '\U{00A0}' || c == '\U{1680}'
    || ('\U{2000}' <= c <= '\U{200A}')
    || c == '\U{2028}' || c == '\U{2029}' || c == '\U{202F}' || c == '\U{205F}'
    || c == '\U{3000}' || c == '\U{FEFF}'
  }

  /** A string that is empty or made of white space only; JavaScript's
      `!s.trim()` holds exactly for these. */
  predicate IsBlank(s: String) {
    forall i :: 0 <= i < |s| ==> IsSpace(s[i])
  }

  function TrimStart(s: String): (r: String)
    ensures |r| <= |s| && r == s[|s| - |r|..]
    ensures IsBlank(s[..|s| - |r|])
    ensures r == [] || !IsSpace(r[0])
  {
    if s != [] && IsSpace(s[0]) then TrimStart(s[1..]) else s
  }

  function TrimEnd(s: String): (r: String)
    ensures |r| <= |s| && r == s[..|r|]
    ensures IsBlank(s[|r|..])
    ensures r == [] || !IsSpace(r[|r| - 1])
  {
    if s != [] && IsSpace(s[|s| - 1]) then TrimEnd(s[..|s| - 1]) else s
  }

  /** How many leading white-space characters `trim` cuts off. */
  function Lead(s: String): (a: nat)
    ensures a <= |s|
  {
    |s| - |TrimStart(s)|
  }

  /** `s.trim()`: the longest slice of `s` that neither starts nor ends with
      white space, with only white space cut off on either side. */
  function Trim(s: String): (r: String)
    ensures Lead(s) + |r| <= |s| && r == s[Lead(s)..Lead(s) + |r|]
    ensures IsBlank(s[..Lead(s)]) && IsBlank(s[Lead(s) + |r|..])
    ensures r == [] || (!IsSpace(r[0]) && !IsSpace(r[|r| - 1]))
  {
    var t := TrimStart(s);
    var r := TrimEnd(t);
    TrimParts(s, t, r);
    r
  }

  lemma TrimParts(s: String, t: String, r: String)
    requires |t| <= |s| && t == s[|s| - |t|..]
    requires |r| <= |t| && r == t[..|r|]
    ensures var a := |s| - |t|; r == s[a..a + |r|] && t[|r|..] == s[a + |r|..]
  {
  }

  /** Trimming leaves nothing exactly when the string is blank. */
  lemma TrimEmptyIffBlank(s: String)
    ensures Trim(s) == [] <==> IsBlank(s)
  {
    var a := Lead(s);
    if Trim(s) == [] {
      forall i | 0 <= i < |s| ensures IsSpace(s[i]) {
        assert s[..a][i] == s[i];
      }
    }
  }

  function UpperChar(c: char): char {
    if 'a' <= c <= 'z' then (c as int - 32) as char else c
  }

  function LowerChar(c: char): char {
    if 'A' <= c <= 'Z' then (c as int + 32) as char else c
  }

  /** `s.toUpperCase()` restricted to ASCII letters. */
  function ToUpper(s: String): (r: String)
    ensures |r| == |s| && forall i :: 0 <= i < |s| ==> r[i] == UpperChar(s[i])
  {
    seq(|s|, i requires 0 <= i < |s| => UpperChar(s[i]))
  }

  /** `s.toLowerCase()` restricted to ASCII letters. */
  function ToLower(s: String): (r: String)
    ensures |r| == |s| && forall i :: 0 <= i < |s| ==> r[i] == LowerChar(s[i])
  {
    seq(|s|, i requires 0 <= i < |s| => LowerChar(s[i]))
  }

  predicate IsPrefix(t: String, s: String) {
    |t| <= |s| && s[..|t|] == t
  }

  /** `s.includes(t)`: `t` occurs as a contiguous slice of `s`. */
  predicate Includes(s: String, t: String)
    decreases |s|
  {
    IsPrefix(t, s) || (s != [] && Includes(s[1..], t))
  }

  /** Every string includes the empty string. */
  lemma IncludesEmpty(s: String)
    ensures Includes(s, [])
  {
    assert IsPrefix([], s);
  }

  /** `includes` means: there is a position where `t` starts in `s`. */
  lemma {:induction false} IncludesAt(s: String, t: String)
    ensures Includes(s, t) <==> exists i :: 0 <= i <= |s| - |t| && s[i..][..|t|] == t
    decreases |s|
  {
    if IsPrefix(t, s) {
      assert s[0..][..|t|] == t;
    } else if s == [] {
    } else {
      IncludesAt(s[1..], t);
      if Includes(s[1..], t) {
        var i :| 0 <= i <= |s| - 1 - |t| && s[1..][i..][..|t|] == t;
        assert s[i + 1..] == s[1..][i..];
      }
      if exists i :: 0 <= i <= |s| - |t| && s[i..][..|t|] == t {
        var i :| 0 <= i <= |s| - |t| && s[i..][..|t|] == t;
        assert i != 0;
        assert s[1..][i - 1..] == s[i..];
      }
    }
  }

  /** `s.indexOf(c)`: the first position of `c`, or -1. */
  function IndexOf(s: String, c: char): (r: int)
    ensures -1 <= r < |s|
    ensures r == -1 <==> c !in s
    ensures r >= 0 ==> s[r] == c && c !in s[..r]
  {
    if s == [] then -1
    else if s[0] == c then 0
    else
      var k := IndexOf(s[1..], c);
      assert s[1..][..if k < 0 then 0 else k] == s[1..if k < 0 then 1 else k + 1];
      if k < 0 then -1 else k + 1
  }

  /** `s.lastIndexOf(c)`: the last position of `c`, or -1. */
  function LastIndexOf(s: String, c: char): (r: int)
    ensures -1 <= r < |s|
    ensures r == -1 <==> c !in s
    ensures r >= 0 ==> s[r] == c && c !in s[r + 1..]
  {
    if s == [] then -1
    else if s[|s| - 1] == c then |s| - 1
    else
      var k := LastIndexOf(s[..|s| - 1], c);
      assert s == s[..|s| - 1] + [s[|s| - 1]];
      LastIndexOfStep(s, c, k);
      k
  }

  lemma LastIndexOfStep(s: String, c: char, k: int)
    requires s != [] && s[|s| - 1] != c
    requires -1 <= k < |s| - 1
    requires k >= 0 ==> c !in s[..|s| - 1][k + 1..]
    ensures k >= 0 ==> c !in s[k + 1..]
  {
    if k >= 0 {
      assert s[k + 1..] == s[..|s| - 1][k + 1..] + [s[|s| - 1]];
    }
  }

  /** How `String.prototype.slice` resolves one of its arguments: a negative
      index counts from the end, and the result is clamped to `[0, len]`. */
  function SliceIndex(len: nat, k: int): (r: nat)
    ensures r <= len
    ensures 0 <= k <= len ==> r == k
    ensures k < 0 ==> r == if len + k < 0 then 0 else len + k
    ensures k > len ==> r == len
  {
    if k < 0 then (if len + k < 0 then 0 else len + k)
    else if k > len then len
    else k
  }

  /** `s.slice(start, end)`: a contiguous piece of `s`, the characters from
      `start` up to `end` when both lie within `s` in that order, and
      nothing when they are reversed or `start` is past the end. */
  function Slice(s: String, start: int, end: int): (r: String)
    ensures |r| <= |s|
    ensures 0 <= start <= end <= |s| ==> r == s[start..end]
    ensures 0 <= end <= start ==> r == []
    ensures start >= |s| ==> r == []
  {
    var from, to := SliceIndex(|s|, start), SliceIndex(|s|, end);
    if from < to then s[from..to] else []
  }

  /** What `slice` returns is always a contiguous piece of the string. */
  lemma SliceContiguous(s: String, start: int, end: int)
    ensures exists i, j :: 0 <= i <= j <= |s| && Slice(s, start, end) == s[i..j]
  {
    var from := SliceIndex(|s|, start);
    assert Slice(s, start, end) == s[from..from] || Slice(s, start, end) == s[from..SliceIndex(|s|, end)];
  }

  /** Arguments out of range are first resolved: a negative one counts
      from the end and stops at 0, one past the end stops at the end. With
      `Slice`'s own contract this pins down every slice. */
  lemma SliceResolves(s: String, start: int, end: int)
    ensures start < 0 ==> Slice(s, start, end) == Slice(s, if |s| + start < 0 then 0 else |s| + start, end)
    ensures end < 0 ==> Slice(s, start, end) == Slice(s, start, if |s| + end < 0 then 0 else |s| + end)
    ensures end > |s| ==> Slice(s, start, end) == Slice(s, start, |s|)
  {
  }

  /** `s.split(sep)` for a one-character separator: the pieces between
      separators, always at least one (`"".split(",")` is `[""]`). */
  function Split(s: String, sep: char): (r: seq<String>)
    ensures |r| >= 1
    ensures forall i :: 0 <= i < |r| ==> sep !in r[i]
  {
    if s == [] then [[]]
    else
      var rest := Split(s[1..], sep);
      if s[0] == sep then [[]] + rest
      else [[s[0]] + rest[0]] + rest[1..]
  }

  /** `parts.join(sep)`. */
  function Join(parts: seq<String>, sep: String): (r: String)
    decreases |parts|
  {
    if |parts| == 0 then []
    else if |parts| == 1 then parts[0]
    else parts[0] + sep + Join(parts[1..], sep)
  }

  /** Joining the pieces of a split with the same separator gives the
      original text back, for every text. */
  lemma {:induction false} JoinSplit(s: String, sep: char)
    ensures Join(Split(s, sep), [sep]) == s
  {
    if s != [] {
      var rest := Split(s[1..], sep);
      JoinSplit(s[1..], sep);
      if s[0] == sep {
        assert ([[]] + rest)[1..] == rest;
      } else if |rest| > 1 {
        var r := [[s[0]] + rest[0]] + rest[1..];
        assert r[1..] == rest[1..];
        assert Join(rest, [sep]) == rest[0] + [sep] + Join(rest[1..], [sep]);
      }
    }
  }

  /** The first piece of a split is the text before the first separator. */
  lemma {:induction false} SplitHead(s: String, sep: char)
    ensures var k := IndexOf(s, sep);
      Split(s, sep)[0] == if k < 0 then s else s[..k]
  {
    if s != [] && s[0] != sep {
      SplitHead(s[1..], sep);
    }
  }

  /** Splitting a piece with no separator, then a separator, then more text. */
  lemma {:induction false} SplitCons(a: String, sep: char, b: String)
    requires sep !in a
    ensures Split(a + [sep] + b, sep) == [a] + Split(b, sep)
  {
    if a == [] {
      assert ([sep] + b)[1..] == b;
    } else {
      assert a[0] in a;
      assert (a + [sep] + b)[1..] == a[1..] + [sep] + b;
      SplitCons(a[1..], sep, b);
      assert [a[0]] + a[1..] == a;
    }
  }

  /** A text without the separator splits into itself alone. */
  lemma {:induction false} SplitNoSep(a: String, sep: char)
    requires sep !in a
    ensures Split(a, sep) == [a]
  {
    if a != [] {
      assert a[0] in a;
      SplitNoSep(a[1..], sep);
      assert [a[0]] + a[1..] == a;
    }
  }

  /** Splitting a join gives the parts back when there is at least one part
      and no part contains the separator. */
  lemma {:induction false} SplitJoin(parts: seq<String>, sep: char)
    requires |parts| >= 1
    requires forall i :: 0 <= i < |parts| ==> sep !in parts[i]
    ensures Split(Join(parts, [sep]), sep) == parts
    decreases |parts|
  {
    if |parts| == 1 {
      SplitNoSep(parts[0], sep);
    } else {
      SplitJoin(parts[1..], sep);
      SplitCons(parts[0], sep, Join(parts[1..], [sep]));
    }
  }

  /** The other direction fails for the empty list: it joins to the empty
      text, and that splits into one empty piece. */
  lemma SplitJoinEmpty(sep: char)
    ensures Join([], [sep]) == []
    ensures Split(Join([], [sep]), sep) == [[]]
  {
  }
}
