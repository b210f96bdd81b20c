/** The two string operations the identifier lists rely on: Python's
    `str.split(sep)` with a one-character separator, and `str.strip()` with no
    argument. */
module Strings {

  /** Number of occurrences of `c` in `s`. */
  function Count(s: string, c: char): nat
  {
    if |s| == 0 then 0
    else (if s[0] == c then 1 else 0) + Count(s[1..], c)
  }

  /** `sep.join(parts)`: the parts with one separator between neighbours. */
  function Join(parts: seq<string>, sep: char): string
  {
    if |parts| == 0 then ""
    else if |parts| == 1 then parts[0]
    else parts[0] + [sep] + Join(parts[1..], sep)
  }

  /** `s.split(sep)`: the maximal separator-free pieces of `s`, in order. An
      empty string splits into one empty piece, and every separator starts a
      new piece, so empty pieces are kept. */
  function Split(s: string, sep: char): (parts: seq<string>)
    ensures |parts| == Count(s, sep) + 1
    ensures forall i :: 0 <= i < |parts| ==> sep !in parts[i]
  {
    if |s| == 0 then [""]
    else
      var rest := Split(s[1..], sep);
      if s[0] == sep then [""] + rest
      else [[s[0]] + rest[0]] + rest[1..]
  }

  /** Prepending a character to the first part prepends it to the joined string. */
  lemma JoinConsHead(c: char, p: string, ps: seq<string>, sep: char)
    ensures Join([[c] + p] + ps, sep) == [c] + Join([p] + ps, sep)
  {
  }

  /** Splitting then joining gives the string back. */
  lemma {:induction false} JoinSplit(s: string, sep: char)
    ensures Join(Split(s, sep), sep) == s
  {
    if |s| > 0 {
      var rest := Split(s[1..], sep);
      JoinSplit(s[1..], sep);
      if s[0] == sep {
        assert ([""] + rest)[1..] == rest;
        assert s == [sep] + s[1..];
      } else {
        JoinConsHead(s[0], rest[0], rest[1..], sep);
        assert [rest[0]] + rest[1..] == rest;
        assert s == [s[0]] + s[1..];
      }
    }
  }

  /** Joining separator-free parts then splitting gives the parts back. */
  lemma {:induction false} SplitJoin(parts: seq<string>, sep: char)
    requires |parts| >= 1
    requires forall i :: 0 <= i < |parts| ==> sep !in parts[i]
    ensures Split(Join(parts, sep), sep) == parts
    decreases |parts|, |parts[0]|
  {
    var s := Join(parts, sep);
    if parts[0] == "" {
      if |parts| > 1 {
        var tail := parts[1..];
        assert s == [sep] + Join(tail, sep);
        assert s[1..] == Join(tail, sep);
        SplitJoin(tail, sep);
        assert parts == [""] + tail;
      }
    } else {
      var c := parts[0][0];
      var p := parts[0][1..];
      var shorter := [p] + parts[1..];
      assert parts[0] == [c] + p;
      assert parts == [[c] + p] + parts[1..];
      JoinConsHead(c, p, parts[1..], sep);
      assert s == [c] + Join(shorter, sep);
      assert s[1..] == Join(shorter, sep);
      assert sep !in shorter[0] by { assert forall x :: x in p ==> x in parts[0]; }
      SplitJoin(shorter, sep);
      assert shorter[1..] == parts[1..];
    }
  }

  /** A string equals `sep.join` of its pieces exactly when those pieces are
      what `split` returns: the two are inverse on separator-free parts. */
  lemma SplitIsInverseOfJoin(s: string, parts: seq<string>, sep: char)
    ensures Split(s, sep) == parts <==>
              (|parts| >= 1 && (forall i :: 0 <= i < |parts| ==> sep !in parts[i]) && Join(parts, sep) == s)
  {
    if Split(s, sep) == parts {
      JoinSplit(s, sep);
    }
    if |parts| >= 1 && (forall i :: 0 <= i < |parts| ==> sep !in parts[i]) && Join(parts, sep) == s {
      SplitJoin(parts, sep);
    }
  }

  /** The characters Python's `str.isspace()` accepts, which `str.strip()`
      removes when called without an argument. */
  predicate IsSpace(c: char)
  {
    var n := c as int;
    (9 <= n <= 13) || (28 <= n <= 32) || n == 0x85 || n == 0xA0 || n == 0x1680
    || (0x2000 <= n <= 0x200A) || n == 0x2028 || n == 0x2029 || n == 0x202F
    || n == 0x205F || n == 0x3000
  }

  predicate AllSpace(s: string)
  {
    forall k :: 0 <= k < |s| ==> IsSpace(s[k])
  }

  /** Neither end of `s` is whitespace: what `strip()` leaves behind. */
  predicate Stripped(s: string)
  {
    s == "" || (!IsSpace(s[0]) && !IsSpace(s[|s| - 1]))
  }

  /** Length of the whitespace run at the start of `s`. */
  function LeadingSpaces(s: string): (n: nat)
    ensures n <= |s|
    ensures forall k :: 0 <= k < n ==> IsSpace(s[k])
    ensures n < |s| ==> !IsSpace(s[n])
  {
    if |s| > 0 && IsSpace(s[0]) then
      var m := LeadingSpaces(s[1..]);
      assert forall k :: 1 <= k < m + 1 ==> s[k] == s[1..][k - 1];
      1 + m
    else 0
  }

  /** Length of the whitespace run at the end of `s`. */
  function TrailingSpaces(s: string): (n: nat)
    ensures n <= |s|
    ensures forall k :: |s| - n <= k < |s| ==> IsSpace(s[k])
    ensures n < |s| ==> !IsSpace(s[|s| - 1 - n])
  {
    if |s| > 0 && IsSpace(s[|s| - 1]) then
      var m := TrailingSpaces(s[..|s| - 1]);
      assert forall k :: |s| - 1 - m <= k < |s| - 1 ==> s[k] == s[..|s| - 1][k];
      1 + m
    else 0
  }

  /** The leading run is the one ending at the first non-whitespace character. */
  lemma LeadingSpacesUnique(s: string, n: nat)
    requires n <= |s|
    requires forall k :: 0 <= k < n ==> IsSpace(s[k])
    requires n < |s| ==> !IsSpace(s[n])
    ensures LeadingSpaces(s) == n
  {
  }

  /** The trailing run is the one starting after the last non-whitespace character. */
  lemma TrailingSpacesUnique(s: string, n: nat)
    requires n <= |s|
    requires forall k :: |s| - n <= k < |s| ==> IsSpace(s[k])
    requires n < |s| ==> !IsSpace(s[|s| - 1 - n])
    ensures TrailingSpaces(s) == n
  {
  }

  /** `s.lstrip()`: `s` without its leading whitespace. */
  function StripStart(s: string): (r: string)
    ensures r == "" || !IsSpace(r[0])
  {
    s[LeadingSpaces(s)..]
  }

  /** `s.rstrip()`: `s` without its trailing whitespace. */
  function StripEnd(s: string): (r: string)
    ensures r == "" || !IsSpace(r[|r| - 1])
  {
    s[..|s| - TrailingSpaces(s)]
  }

  /** `s.strip()`: `s` with whitespace removed from both ends. The result has
      no whitespace at either end, and is the slice of `s` between a
      whitespace-only prefix and a whitespace-only suffix (`StripIsPaddedSlice`). */
  function Strip(s: string): (r: string)
    ensures |r| <= |s|
    ensures Stripped(r)
  {
    var t := StripStart(s);
    var r := StripEnd(t);
    assert r != "" ==> r[0] == t[0];
    r
  }

  /** The whitespace runs `LeadingSpaces` and `TrailingSpaces` measure, as strings. */
  lemma SpaceRuns(s: string)
    ensures AllSpace(s[..LeadingSpaces(s)])
    ensures AllSpace(s[|s| - TrailingSpaces(s)..])
  {
  }

  /** Slicing a suffix of `s` again is slicing `s`. */
  lemma SliceOfSuffix(s: string, i: nat, n: nat)
    requires i + n <= |s|
    ensures s[i..][..n] == s[i..i + n]
    ensures s[i..][n..] == s[i + n..]
  {
  }

  /** What `strip()` removes is whitespace: `s` is a whitespace prefix
      `s[..i]`, then `Strip(s)`, then a whitespace suffix `s[j..]`. */
  lemma StripIsPaddedSlice(s: string) returns (i: nat, j: nat)
    ensures i <= j <= |s|
    ensures Strip(s) == s[i..j]
    ensures AllSpace(s[..i]) && AllSpace(s[j..])
  {
    i := LeadingSpaces(s);
    var t := s[i..];
    var n := |t| - TrailingSpaces(t);
    j := i + n;
    assert Strip(s) == s[i..j] by {
      assert Strip(s) == t[..n];
      SliceOfSuffix(s, i, n);
    }
    assert AllSpace(s[..i]) by {
      SpaceRuns(s);
    }
    assert AllSpace(s[j..]) by {
      SpaceRuns(t);
      SliceOfSuffix(s, i, n);
    }
  }

  /** Whitespace in front of a string that does not start with whitespace is
      exactly its leading run. */
  lemma LeadingOfPadded(a: string, t: string)
    requires AllSpace(a)
    requires t == "" || !IsSpace(t[0])
    ensures LeadingSpaces(a + t) == |a|
  {
    var s := a + t;
    assert forall k :: 0 <= k < |a| ==> s[k] == a[k];
    assert |a| < |s| ==> s[|a|] == t[0];
    LeadingSpacesUnique(s, |a|);
  }

  /** Whitespace after a string that does not end with whitespace is exactly
      its trailing run. */
  lemma TrailingOfPadded(t: string, b: string)
    requires AllSpace(b)
    requires t == "" || !IsSpace(t[|t| - 1])
    ensures TrailingSpaces(t + b) == |b|
  {
    var s := t + b;
    assert forall k :: |t| <= k < |s| ==> s[k] == b[k - |t|];
    assert |b| < |s| ==> s[|s| - 1 - |b|] == t[|t| - 1];
    TrailingSpacesUnique(s, |b|);
  }

  /** Reference characterisation of `strip()`: padding a stripped string with
      whitespace on either side and stripping it gives it back. Together with
      `StripIsPaddedSlice` (every string is such a padding of its strip), this
      pins the result down uniquely. */
  lemma StripRemovesPadding(a: string, r: string, b: string)
    requires AllSpace(a) && AllSpace(b) && Stripped(r)
    ensures Strip(a + r + b) == r
  {
    if r == "" {
      assert a + r + b == a + b;
      assert AllSpace(a + b) by {
        assert forall k :: 0 <= k < |a + b| ==> (a + b)[k] == if k < |a| then a[k] else b[k - |a|];
      }
      LeadingOfPadded(a + b, "");
      assert a + b + "" == a + b;
    } else {
      assert a + r + b == a + (r + b);
      assert (r + b)[0] == r[0];
      LeadingOfPadded(a, r + b);
      assert StripStart(a + r + b) == r + b;
      TrailingOfPadded(r, b);
      assert (r + b)[..|r|] == r;
    }
  }

  /** Stripping twice is the same as stripping once. */
  lemma StripIdempotent(s: string)
    ensures Strip(Strip(s)) == Strip(s)
  {
  }
}
