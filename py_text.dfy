/**
  The Python string operations the roadmap handler relies on: `str.find`,
  `in` on strings, slicing with Python's index rules, `str.strip()` with no
  argument, and `str.join`.
 */
module PyText {

  predicate StartsWith(s: string, prefix: string) {
    |prefix| <= |s| && s[..|prefix|] == prefix
  }

  predicate EndsWith(s: string, suffix: string) {
    |suffix| <= |s| && s[|s| - |suffix|..] == suffix
  }

  /** A concatenation starts with its first part and ends with its second,
      and cutting either off leaves the other. */
  lemma ConcatSplits(x: string, y: string)
    ensures StartsWith(x + y, x) && (x + y)[|x|..] == y
    ensures EndsWith(x + y, y) && (x + y)[..|x + y| - |y|] == x
  {
  }

  /** `pat` occurs in `s` at index `k`. */
  predicate OccursAt(s: string, pat: string, k: nat) {
    k + |pat| <= |s| && s[k..k + |pat|] == pat
  }

  /** `s.find(pat, start)`: the lowest index at or after `start` where `pat`
      occurs, or -1 when there is none. */
  function Find(s: string, pat: string, start: nat): (r: int)
    requires |pat| > 0
    ensures r == -1 || (start <= r && OccursAt(s, pat, r))
    ensures forall k :: start <= k && (r == -1 || k < r) ==> !OccursAt(s, pat, k)
    decreases |s| - start
  {
    if start + |pat| > |s| then -1
    else if s[start..start + |pat|] == pat then start
    else Find(s, pat, start + 1)
  }

  /** `pat in s` for strings. */
  predicate Contains(s: string, pat: string)
    requires |pat| > 0
  {
    Find(s, pat, 0) >= 0
  }

  /** If `pat` occurs at `at` and no character from `start` up to `at` can
      begin an occurrence, `find` from `start` reports `at`. */
  lemma {:induction false} FindAtFirstCandidate(s: string, pat: string, start: nat, at: nat)
    requires |pat| > 0 && start <= at && OccursAt(s, pat, at)
    requires forall k :: start <= k < at ==> s[k] != pat[0]
    ensures Find(s, pat, start) == at
    decreases at - start
  {
    if start < at {
      assert s[start..start + |pat|][0] == s[start];
      FindAtFirstCandidate(s, pat, start + 1, at);
    }
  }

  /** When no character from `start` onwards can begin an occurrence, `find`
      reports -1. */
  lemma {:induction false} FindNoCandidate(s: string, pat: string, start: nat)
    requires |pat| > 0
    requires forall k :: start <= k < |s| ==> s[k] != pat[0]
    ensures Find(s, pat, start) == -1
    decreases |s| - start
  {
    if start + |pat| <= |s| {
      assert s[start..start + |pat|][0] == s[start];
      FindNoCandidate(s, pat, start + 1);
    }
  }

  /** `s` holds no occurrence of `pat` that starts before its end, not even
      one that runs on into a `pat` appended to it. */
  predicate NoEarlierOccurrence(s: string, pat: string) {
    forall k :: 0 <= k < |s| ==> !OccursAt(s + pat, pat, k)
  }

  /** An occurrence that ends within the first part of a concatenation is an
      occurrence in that part. */
  lemma {:induction false} OccursInPrefix(s: string, t: string, pat: string, k: nat)
    requires k + |pat| <= |s|
    ensures OccursAt(s + t, pat, k) <==> OccursAt(s, pat, k)
  {
    assert (s + t)[k..k + |pat|] == s[k..k + |pat|];
  }

  /** Occurrences in the second part of a concatenation, shifted by the
      length of the first. */
  lemma {:induction false} OccursInSuffix(s: string, t: string, pat: string, k: nat)
    ensures OccursAt(s + t, pat, |s| + k) <==> OccursAt(t, pat, k)
  {
    if k + |pat| <= |t| {
      assert (s + t)[|s| + k..|s| + k + |pat|] == t[k..k + |pat|];
    }
  }

  /** `find` from `start` reports the first occurrence at or after `start`. */
  lemma {:induction false} FindFirst(s: string, pat: string, start: nat, at: nat)
    requires |pat| > 0 && start <= at && OccursAt(s, pat, at)
    requires forall j :: start <= j < at ==> !OccursAt(s, pat, j)
    ensures Find(s, pat, start) == at
  {
  }

  /** `pat` occurs in `s` at `k` and nowhere before it. */
  predicate FirstAt(s: string, pat: string, k: nat) {
    OccursAt(s, pat, k) && forall j :: 0 <= j < k ==> !OccursAt(s, pat, j)
  }

  /** `find` from `start` reports -1 when nothing occurs from there on. */
  lemma {:induction false} FindNone(s: string, pat: string, start: nat)
    requires |pat| > 0
    requires forall j :: start <= j ==> !OccursAt(s, pat, j)
    ensures Find(s, pat, start) == -1
  {
  }

  /** Searching the second part of a concatenation from where it begins is
      searching that part alone, shifted. */
  lemma {:induction false} FindInSuffix(a: string, b: string, pat: string)
    requires |pat| > 0
    ensures Find(a + b, pat, |a|) == if Find(b, pat, 0) < 0 then -1 else |a| + Find(b, pat, 0)
  {
    var f := Find(b, pat, 0);
    if f >= 0 {
      FoundInSuffix(a, b, pat, f);
    } else {
      forall j | |a| <= j ensures !OccursAt(a + b, pat, j) {
        OccursInSuffix(a, b, pat, j - |a|);
      }
      FindNone(a + b, pat, |a|);
    }
  }

  lemma {:induction false} FoundInSuffix(a: string, b: string, pat: string, f: nat)
    requires |pat| > 0 && Find(b, pat, 0) == f
    ensures Find(a + b, pat, |a|) == |a| + f
  {
    OccursInSuffix(a, b, pat, f);
    forall j | |a| <= j < |a| + f ensures !OccursAt(a + b, pat, j) {
      OccursInSuffix(a, b, pat, j - |a|);
    }
    FindFirst(a + b, pat, |a|, |a| + f);
  }

  /** A string contains every prefix of a pattern it contains. */
  lemma ContainsPrefix(s: string, pat: string, n: nat)
    requires 0 < n <= |pat| && Contains(s, pat)
    ensures Contains(s, pat[..n])
  {
    var r := Find(s, pat, 0);
    assert s[r..r + n] == s[r..r + |pat|][..n];
    assert OccursAt(s, pat[..n], r);
    if Find(s, pat[..n], 0) == -1 {
      assert false;
    }
  }

  /** Python's reading of a slice bound `i` on a sequence of length `n`. */
  function SliceBound(i: int, n: nat): nat {
    if i < 0 then (if i + n < 0 then 0 else i + n)
    else if i > n then n
    else i
  }

  /** `s[a:b]` with Python's rules: negative bounds count from the end, bounds
      are clamped to the string, and a slice whose end is before its start is
      empty. */
  function PySlice(s: string, a: int, b: int): (r: string)
    ensures |r| <= |s|
    ensures 0 <= a <= b <= |s| ==> r == s[a..b]
    ensures b == -1 && 0 <= a < |s| ==> r == s[a..|s| - 1]
    ensures b == -1 && a >= |s| - 1 ==> r == ""
  {
    var lo, hi := SliceBound(a, |s|), SliceBound(b, |s|);
    if lo < hi then s[lo..hi] else ""
  }

  /** The characters Python's `str.isspace()` accepts, which is the set
      `str.strip()` removes when it is given no argument. */
  predicate IsWhitespace(c: char) {
    || ('\t' <= c <= '\r')
    || ('\U{1C}' <= c <= ' ')
    || c == '\U{85}' || c == '\U{A0}' || c == '\U{1680}'
    || ('\U{2000}' <= c <= '\U{200A}')
    || c == '\U{2028}' || c == '\U{2029}' || c == '\U{202F}' || c == '\U{205F}' || c == '\U{3000}'
  }

  predicate AllSpace(s: string) {
    forall k :: 0 <= k < |s| ==> IsWhitespace(s[k])
  }

  /** Neither end of `s` is whitespace. */
  predicate Trimmed(s: string) {
    |s| == 0 || (!IsWhitespace(s[0]) && !IsWhitespace(s[|s| - 1]))
  }

  /** The length of the run of whitespace that starts `s`. */
  function LeadingSpace(s: string): (n: nat)
    ensures n <= |s|
    ensures forall k :: 0 <= k < n ==> IsWhitespace(s[k])
    ensures n < |s| ==> !IsWhitespace(s[n])
  {
    if |s| == 0 || !IsWhitespace(s[0]) then 0 else 1 + LeadingSpace(s[1..])
  }

  /** Where the run of whitespace that ends `s` begins. */
  function TrailingSpace(s: string): (n: nat)
    ensures n <= |s|
    ensures forall k :: n <= k < |s| ==> IsWhitespace(s[k])
    ensures n > 0 ==> !IsWhitespace(s[n - 1])
  {
    if |s| == 0 || !IsWhitespace(s[|s| - 1]) then |s| else TrailingSpace(s[..|s| - 1])
  }

  /** `s.strip()`: `s` without its leading and trailing whitespace. The
      result is the part of `s` between a whitespace prefix and a whitespace
      suffix, and has no whitespace at either end. */
  function Strip(s: string): (r: string)
    ensures Trimmed(r)
    ensures LeadingSpace(s) + |r| <= |s| && s[LeadingSpace(s)..LeadingSpace(s) + |r|] == r
    ensures AllSpace(s[..LeadingSpace(s)]) && AllSpace(s[LeadingSpace(s) + |r|..])
  {
    var i := LeadingSpace(s);
    if i == |s| then ""
    else s[i..TrailingSpace(s)]
  }

  /** The decomposition in Strip's contract is unique: a string padded with
      whitespace on both sides strips to the unpadded part, provided that
      part has no whitespace at either end. */
  lemma StripPadded(a: string, m: string, b: string)
    requires AllSpace(a) && AllSpace(b) && Trimmed(m)
    ensures Strip(a + m + b) == m
  {
    var s := a + m + b;
    var i := LeadingSpace(s);
    if |m| == 0 {
      assert forall k :: 0 <= k < |s| ==> IsWhitespace(s[k]) by {
        forall k | 0 <= k < |s| ensures IsWhitespace(s[k]) {
          if k < |a| { assert s[k] == a[k]; } else { assert s[k] == b[k - |a|]; }
        }
      }
      assert i == |s|;
    } else {
      assert s[|a|] == m[0];
      assert forall k :: 0 <= k < |a| ==> s[k] == a[k];
      assert i == |a|;
      var j := TrailingSpace(s);
      assert s[|a| + |m| - 1] == m[|m| - 1];
      assert forall k :: |a| + |m| <= k < |s| ==> s[k] == b[k - |a| - |m|];
      assert j == |a| + |m|;
      assert s[i..j] == m;
    }
  }

  lemma AllSpaceConcat(x: string, y: string)
    requires AllSpace(x) && AllSpace(y)
    ensures AllSpace(x + y)
  {
    forall k | 0 <= k < |x + y| ensures IsWhitespace((x + y)[k]) {
      if k >= |x| { assert (x + y)[k] == y[k - |x|]; }
    }
  }

  /** A string is its leading whitespace, its stripped form and its
      trailing whitespace, in that order. */
  lemma StripSplit(p: string)
    ensures p == p[..LeadingSpace(p)] + Strip(p) + p[LeadingSpace(p) + |Strip(p)|..]
    ensures AllSpace(p[..LeadingSpace(p)]) && AllSpace(p[LeadingSpace(p) + |Strip(p)|..])
  {
    var m, i := Strip(p), LeadingSpace(p);
    assert p == p[..i] + p[i..i + |m|] + p[i + |m|..];
  }

  lemma Regroup(a: string, f: string, m: string, k: string, b: string)
    ensures a + (f + m + k) + b == (a + f) + m + (k + b)
  {
  }

  /** Stripping ignores whitespace added around the input. */
  lemma StripIgnoresPadding(a: string, p: string, b: string)
    requires AllSpace(a) && AllSpace(b)
    ensures Strip(a + p + b) == Strip(p)
  {
    var m := Strip(p);
    var front, back := p[..LeadingSpace(p)], p[LeadingSpace(p) + |m|..];
    StripSplit(p);
    AllSpaceConcat(a, front);
    AllSpaceConcat(back, b);
    Regroup(a, front, m, back, b);
    StripPadded(a + front, m, back + b);
  }

  /** Stripping twice is stripping once. */
  lemma StripIdempotent(s: string)
    ensures Strip(Strip(s)) == Strip(s)
  {
    StripPadded("", Strip(s), "");
    assert "" + Strip(s) + "" == Strip(s);
  }

  /** `sep.join(parts)`: the parts in order with `sep` between neighbours;
      JoinPartAt and JoinLength say where each part lands. */
  function Join(parts: seq<string>, sep: string): (r: string)
    ensures |parts| == 0 ==> r == ""
    ensures |parts| > 0 ==> StartsWith(r, parts[0])
  {
    if |parts| == 0 then ""
    else if |parts| == 1 then parts[0]
    else
      var rest := Join(parts[1..], sep);
      assert (parts[0] + sep + rest)[..|parts[0]|] == parts[0];
      parts[0] + sep + rest
  }

  /** Where part `i` begins in `Join(parts, sep)`. */
  function PartOffset(parts: seq<string>, sep: string, i: nat): nat
    requires i <= |parts|
  {
    if i == 0 then 0 else |parts[0]| + |sep| + PartOffset(parts[1..], sep, i - 1)
  }

  /** Consecutive parts are one part and one separator apart. */
  lemma {:induction false} PartOffsetNext(parts: seq<string>, sep: string, i: nat)
    requires i < |parts|
    ensures PartOffset(parts, sep, i + 1) == PartOffset(parts, sep, i) + |parts[i]| + |sep|
  {
    if i > 0 {
      PartOffsetNext(parts[1..], sep, i - 1);
    }
  }

  /** One step of Join's definition, with the tail's position in the whole. */
  lemma JoinUnfold(parts: seq<string>, sep: string)
    requires |parts| > 1
    ensures Join(parts, sep) == parts[0] + sep + Join(parts[1..], sep)
    ensures |Join(parts, sep)| == |parts[0]| + |sep| + |Join(parts[1..], sep)|
    ensures Join(parts, sep)[|parts[0]| + |sep|..] == Join(parts[1..], sep)
  {
    ConcatSplits(parts[0] + sep, Join(parts[1..], sep));
  }

  /** The first of several parts opens the joined string, and the
      separator follows it. */
  lemma JoinFirstPart(parts: seq<string>, sep: string)
    requires |parts| > 1
    ensures |parts[0]| + |sep| <= |Join(parts, sep)|
    ensures Join(parts, sep)[..|parts[0]|] == parts[0]
    ensures Join(parts, sep)[|parts[0]|..|parts[0]| + |sep|] == sep
  {
    var rest := Join(parts[1..], sep);
    JoinUnfold(parts, sep);
    assert parts[0] + sep + rest == parts[0] + (sep + rest);
    ConcatSplits(parts[0], sep + rest);
    ConcatSplits(sep, rest);
    SliceOfSuffix(Join(parts, sep), |parts[0]|, 0, |sep|);
  }

  /** A slice of a suffix is a slice of the whole, shifted. */
  lemma SliceOfSuffix(whole: string, h: nat, o: nat, e: nat)
    requires h <= |whole| && o <= e <= |whole| - h
    ensures whole[h + o..h + e] == whole[h..][o..e]
  {
  }

  /** Every part appears, in input order, at its offset, and after each part
      but the last comes the separator. */
  lemma {:induction false} JoinPartAt(parts: seq<string>, sep: string, i: nat)
    requires i < |parts|
    ensures PartOffset(parts, sep, i) + |parts[i]| <= |Join(parts, sep)|
    ensures Join(parts, sep)[PartOffset(parts, sep, i)..PartOffset(parts, sep, i) + |parts[i]|] == parts[i]
    ensures i + 1 < |parts| ==>
      PartOffset(parts, sep, i) + |parts[i]| + |sep| <= |Join(parts, sep)| &&
      Join(parts, sep)[PartOffset(parts, sep, i) + |parts[i]|..PartOffset(parts, sep, i) + |parts[i]| + |sep|] == sep
  {
    if |parts| == 1 {
    } else if i == 0 {
      JoinFirstPart(parts, sep);
    } else {
      JoinPartAt(parts[1..], sep, i - 1);
      JoinPartShift(parts, sep, i);
    }
  }

  /** A later part's place in the whole follows from its place in the join
      of the tail. */
  lemma {:induction false} JoinPartShift(parts: seq<string>, sep: string, i: nat)
    requires 0 < i < |parts|
    requires var rest, o := Join(parts[1..], sep), PartOffset(parts[1..], sep, i - 1);
             && o + |parts[i]| <= |rest| && rest[o..o + |parts[i]|] == parts[i]
             && (i + 1 < |parts| ==> o + |parts[i]| + |sep| <= |rest| && rest[o + |parts[i]|..o + |parts[i]| + |sep|] == sep)
    ensures PartOffset(parts, sep, i) + |parts[i]| <= |Join(parts, sep)|
    ensures Join(parts, sep)[PartOffset(parts, sep, i)..PartOffset(parts, sep, i) + |parts[i]|] == parts[i]
    ensures i + 1 < |parts| ==>
      PartOffset(parts, sep, i) + |parts[i]| + |sep| <= |Join(parts, sep)| &&
      Join(parts, sep)[PartOffset(parts, sep, i) + |parts[i]|..PartOffset(parts, sep, i) + |parts[i]| + |sep|] == sep
  {
    var j := Join(parts, sep);
    JoinUnfold(parts, sep);
    var h, o := |parts[0]| + |sep|, PartOffset(parts[1..], sep, i - 1);
    assert PartOffset(parts, sep, i) == h + o;
    var e := o + |parts[i]|;
    SliceOfSuffix(j, h, o, e);
    if i + 1 < |parts| {
      SliceOfSuffix(j, h, e, e + |sep|);
    }
  }

  /** The joined string's length: all parts plus one separator between each
      pair of neighbours. */
  lemma {:induction false} JoinLength(parts: seq<string>, sep: string)
    requires |parts| > 0
    ensures |Join(parts, sep)| == PartOffset(parts, sep, |parts| - 1) + |parts[|parts| - 1]|
  {
    if |parts| > 1 {
      JoinUnfold(parts, sep);
      JoinLength(parts[1..], sep);
      assert parts[1..][|parts| - 2] == parts[|parts| - 1];
      assert PartOffset(parts, sep, |parts| - 1)
          == |parts[0]| + |sep| + PartOffset(parts[1..], sep, |parts| - 2);
    }
  }

  /** Appending a part to a non-empty list appends the separator and the part. */
  lemma {:induction false} JoinSnoc(parts: seq<string>, sep: string, last: string)
    requires |parts| > 0
    ensures Join(parts + [last], sep) == Join(parts, sep) + sep + last
  {
    if |parts| == 1 {
      assert parts + [last] == [parts[0], last];
      assert [parts[0], last][1..] == [last];
    } else {
      assert (parts + [last])[1..] == parts[1..] + [last];
      JoinSnoc(parts[1..], sep, last);
    }
  }
}
