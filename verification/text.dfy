/**
 * The string operations the screens use, with JavaScript semantics:
 * `trim()`, `split(sep)`, `join(sep)`, `startsWith` and the `||` fallback
 * for a possibly missing or empty string.
 */
module Text {
  import opened Optional

  /** The code points ECMAScript's `String.prototype.trim` removes:
      the WhiteSpace class (tab, vertical tab, form feed, space, no-break
      space, byte-order mark and the Unicode space separators) and the
      LineTerminator class (line feed, carriage return, line and paragraph
      separators). */
  predicate IsWhite(c: char) {
    || c == '\t' || c == '\n' || c == '\U{000B}' || c == '\U{000C}' || c == '\r'
    || c == ' ' || c == '\U{00A0}' || c == '\U{1680}'
    || ('\U{2000}' <= c <= '\U{200A}')
    || c == '\U{2028}' || c == '\U{2029}' || c == '\U{202F}' || c == '\U{205F}'
    || c == '\U{3000}' || c == '\U{FEFF}'
  }

  /** Every character of `s` is white space (vacuously true of ""). */
  predicate Blank(s: string) {
    forall i | 0 <= i < |s| :: IsWhite(s[i])
  }

  /** `s` has no white space at either end. */
  predicate Trimmed(s: string) {
    |s| == 0 || (!IsWhite(s[0]) && !IsWhite(s[|s| - 1]))
  }

  /** The index of the first non-white character of `s` at or after `from`
      (`|s|` if there is none). */
  function SkipWhite(s: string, from: nat): (n: nat)
    requires from <= |s|
    ensures from <= n <= |s|
    ensures forall j | from <= j < n :: IsWhite(s[j])
    ensures n == |s| || !IsWhite(s[n])
    decreases |s| - from
  {
    if from < |s| && IsWhite(s[from]) then SkipWhite(s, from + 1) else from
  }

  /** The end of `s[lo..hi]` once its trailing white space is dropped. */
  function SkipWhiteBack(s: string, lo: nat, hi: nat): (m: nat)
    requires lo <= hi <= |s|
    ensures lo <= m <= hi
    ensures forall j | m <= j < hi :: IsWhite(s[j])
    ensures m == lo || !IsWhite(s[m - 1])
    decreases hi
  {
    if hi > lo && IsWhite(s[hi - 1]) then SkipWhiteBack(s, lo, hi - 1) else hi
  }

  /** `s.trim()`: the slice of `s` left once the white space at both ends
      is gone; it is empty exactly when `s` is blank. */
  function Trim(s: string): (r: string)
    ensures Trimmed(r)
    ensures exists i :: 0 <= i <= |s| - |r| && r == s[i..i + |r|]
                     && Blank(s[..i]) && Blank(s[i + |r|..])
    ensures r == "" <==> Blank(s)
    ensures forall k | 0 <= k < |r| :: r[k] in s
  {
    var n := SkipWhite(s, 0);
    var m := SkipWhiteBack(s, n, |s|);
    BlankSlice(s, 0, n);
    BlankSlice(s, m, |s|);
    assert s[0..n] == s[..n] && s[m..|s|] == s[m..];
    assert m > n ==> !Blank(s) by {
      if m > n { assert !IsWhite(s[n]); }
    }
    SliceChars(s, n, m);
    s[n..m]
  }

  /** A stretch of white space is blank. */
  lemma BlankSlice(s: string, lo: nat, hi: nat)
    requires lo <= hi <= |s|
    requires forall j | lo <= j < hi :: IsWhite(s[j])
    ensures Blank(s[lo..hi])
  {
    forall j | 0 <= j < hi - lo ensures IsWhite(s[lo..hi][j]) {
      assert s[lo..hi][j] == s[lo + j];
    }
  }

  /** Every character of a slice is a character of the string. */
  lemma SliceChars(s: string, lo: nat, hi: nat)
    requires lo <= hi <= |s|
    ensures forall k | 0 <= k < hi - lo :: s[lo..hi][k] in s
  {
    forall k | 0 <= k < hi - lo ensures s[lo..hi][k] in s {
      assert s[lo..hi][k] == s[lo + k];
    }
  }

  /** Trimming a string that has no white space at its ends changes nothing. */
  lemma TrimOfTrimmed(s: string)
    requires Trimmed(s)
    ensures Trim(s) == s
  {
    if |s| > 0 {
      assert SkipWhite(s, 0) == 0;
      assert SkipWhiteBack(s, 0, |s|) == |s|;
    }
  }

  /** JavaScript's `a || d` where `a` is an optional string: a missing or
      empty string is falsy and gives way to the default. */
  function OrElse(a: Option<string>, d: string): (r: string)
    ensures a.Some? && a.value != "" ==> r == a.value
    ensures a.None? || a.value == "" ==> r == d
  {
    if a.Some? && a.value != "" then a.value else d
  }

  predicate StartsWith(s: string, p: string) {
    |p| <= |s| && s[..|p|] == p
  }

  /** `t` occurs in `s` as a contiguous piece. */
  ghost predicate Contains(s: string, t: string) {
    exists k | 0 <= k <= |s| :: StartsWith(s[k..], t)
  }

  /** `parts.join(sep)`. */
  function Join(parts: seq<string>, sep: string): string
    decreases |parts|
  {
    if |parts| == 0 then ""
    else if |parts| == 1 then parts[0]
    else parts[0] + sep + Join(parts[1..], sep)
  }

  /** `s.split(sep)` for a non-empty separator: cuts `s` at every
      occurrence of `sep`, scanning left to right and taking the leftmost
      occurrence each time; there is always at least one piece. */
  function Split(s: string, sep: string): (r: seq<string>)
    requires |sep| > 0
    ensures |r| >= 1
    decreases |s|
  {
    if |s| < |sep| then [s]
    else if s[..|sep|] == sep then [""] + Split(s[|sep|..], sep)
    else
      var rest := Split(s[1..], sep);
      [[s[0]] + rest[0]] + rest[1..]
  }

  /** No piece of a cut at a one-character separator contains that
      character, and every character of a piece comes from the string. */
  lemma {:induction false} SplitPieces(s: string, sep: string)
    requires |sep| == 1
    ensures forall j | 0 <= j < |Split(s, sep)| :: sep[0] !in Split(s, sep)[j]
    ensures forall j, c | 0 <= j < |Split(s, sep)| && c in Split(s, sep)[j] :: c in s
    decreases |s|
  {
    var r := Split(s, sep);
    if |s| < |sep| {
      assert s == [] && r == [s];
    } else if s[..|sep|] == sep {
      SplitPieces(s[|sep|..], sep);
      var rest := Split(s[|sep|..], sep);
      assert r == [""] + rest;
      forall j, c | 0 <= j < |r| && c in r[j] ensures c in s {
        assert r[j] == rest[j - 1];
        assert c in s[|sep|..];
      }
    } else {
      SplitPieces(s[1..], sep);
      var rest := Split(s[1..], sep);
      assert s[..1] == [s[0]];
      assert r == [[s[0]] + rest[0]] + rest[1..];
      forall j | 0 <= j < |r| ensures sep[0] !in r[j] {
        if j > 0 { assert r[j] == rest[j]; }
      }
      forall j, c | 0 <= j < |r| && c in r[j] ensures c in s {
        if j > 0 {
          assert r[j] == rest[j];
          assert c in s[1..];
        } else if c != s[0] {
          assert c in rest[0];
          assert c in s[1..];
        }
      }
    }
  }

  /** Cutting a string and joining the pieces back with the same separator
      gives back the string exactly, whatever it contains. */
  lemma {:induction false} JoinSplit(s: string, sep: string)
    requires |sep| > 0
    ensures Join(Split(s, sep), sep) == s
    decreases |s|
  {
    if |s| < |sep| {
    } else if s[..|sep|] == sep {
      JoinSplit(s[|sep|..], sep);
      var rest := Split(s[|sep|..], sep);
      assert ([""] + rest)[1..] == rest;
      assert s == sep + s[|sep|..];
    } else {
      JoinSplit(s[1..], sep);
      JoinWidened(s[0], Split(s[1..], sep), sep);
      assert s == [s[0]] + s[1..];
    }
  }

  /** Putting a character in front of the first piece puts it in front of
      the joined text. */
  lemma JoinWidened(x: char, rest: seq<string>, sep: string)
    requires |rest| >= 1
    ensures Join([[x] + rest[0]] + rest[1..], sep) == [x] + Join(rest, sep)
  {
    var r := [[x] + rest[0]] + rest[1..];
    if |rest| > 1 {
      assert r[1..] == rest[1..];
    }
  }

  /** A piece that does not contain the separator's first character runs up
      to the next separator, or to the end of the string. */
  lemma {:induction false} SplitPiece(b: string, sep: string, tail: string)
    requires |sep| > 0 && sep[0] !in b
    ensures Split(b + sep + tail, sep) == [b] + Split(tail, sep)
    ensures Split(b, sep) == [b]
    decreases |b|
  {
    if |b| == 0 {
      assert b + sep + tail == sep + tail;
      assert (sep + tail)[..|sep|] == sep;
      assert (sep + tail)[|sep|..] == tail;
    } else {
      var s := b + sep + tail;
      assert s[0] == b[0] && b[0] != sep[0];
      assert s[..|sep|] != sep by { assert s[..|sep|][0] == s[0]; }
      assert s[1..] == b[1..] + sep + tail;
      SplitPiece(b[1..], sep, tail);
      assert [b[0]] + b[1..] == b;
      if |b| >= |sep| {
        assert b[..|sep|] != sep by { assert b[..|sep|][0] == b[0]; }
      }
    }
  }

  /** Joining pieces none of which contains the separator's first
      character, then cutting the result, gives back the pieces. */
  lemma {:induction false} SplitJoin(parts: seq<string>, sep: string)
    requires |sep| > 0 && |parts| >= 1
    requires forall j | 0 <= j < |parts| :: sep[0] !in parts[j]
    ensures Split(Join(parts, sep), sep) == parts
    decreases |parts|
  {
    if |parts| == 1 {
      SplitPiece(parts[0], sep, "");
    } else {
      SplitPiece(parts[0], sep, Join(parts[1..], sep));
      SplitJoin(parts[1..], sep);
      assert parts == [parts[0]] + parts[1..];
    }
  }
}
