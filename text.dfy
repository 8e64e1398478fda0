/** String helpers with Python's semantics, used by the extractor and by the
    parsing of tool output: ASCII character classes, `str.upper` on ASCII,
    `str.strip()`, `sep in s`, `s.split(sep)` and its inverse `sep.join`. */
module Text {
  import opened Wrappers

  predicate IsAsciiLetter(c: char) {
    'A' <= c <= 'Z' || 'a' <= c <= 'z'
  }

  predicate IsAsciiDigit(c: char) {
    '0' <= c <= '9'
  }

  predicate IsAsciiAlnum(c: char) {
    IsAsciiLetter(c) || IsAsciiDigit(c)
  }

  /** Python's `str.isspace`: the ASCII whitespace and separator controls and
      the Unicode space characters. */
  predicate IsSpace(c: char) {
    var n := c as int;
    (9 <= n <= 13) || (28 <= n <= 32) || n == 0x85 || n == 0xA0 || n == 0x1680
    || (0x2000 <= n <= 0x200A) || n == 0x2028 || n == 0x2029 || n == 0x202F
    || n == 0x205F || n == 0x3000
  }

  /** `c.upper()` for an ASCII character; any other character is kept. */
  function UpperChar(c: char): char {
    if 'a' <= c <= 'z' then (c as int - 32) as char else c
  }

  /** `s.upper()` restricted to the ASCII case mapping: no lower-case ASCII
      letter is left, every other character is kept, and each lower-case
      letter becomes its capital. */
  function Upper(s: string): (r: string)
    ensures |r| == |s|
    ensures forall k :: 0 <= k < |r| ==> !('a' <= r[k] <= 'z')
    ensures forall k :: 0 <= k < |s| && !('a' <= s[k] <= 'z') ==> r[k] == s[k]
    ensures forall k :: 0 <= k < |s| && 'a' <= s[k] <= 'z' ==> 'A' <= r[k] <= 'Z' && r[k] as int + 32 == s[k] as int
  {
    seq(|s|, k requires 0 <= k < |s| => UpperChar(s[k]))
  }

  /** Upper-casing twice changes nothing more. */
  lemma UpperIdempotent(s: string)
    ensures Upper(Upper(s)) == Upper(s)
  {
  }

  /** `s[:n]`: the first `n` characters, or all of them when there are fewer. */
  function Take(s: string, n: nat): (r: string)
    ensures |r| == if |s| < n then |s| else n
    ensures r == s[..|r|]
  {
    if |s| <= n then s else s[..n]
  }

  // ---------------------------------------------------------------------------
  // strip()
  // ---------------------------------------------------------------------------

  /** The number of whitespace characters `s` starts with. */
  function LeadingSpaces(s: string): (n: nat)
    ensures n <= |s|
    ensures forall k :: 0 <= k < n ==> IsSpace(s[k])
    ensures n < |s| ==> !IsSpace(s[n])
  {
    if s == [] || !IsSpace(s[0]) then 0 else 1 + LeadingSpaces(s[1..])
  }

  /** `s.rstrip()`: the prefix of `s` left after dropping trailing whitespace. */
  function TrimEnd(s: string): (r: string)
    ensures |r| <= |s| && r == s[..|r|]
    ensures forall k :: |r| <= k < |s| ==> IsSpace(s[k])
    ensures r == [] || !IsSpace(r[|r| - 1])
  {
    if s == [] || !IsSpace(s[|s| - 1]) then s else TrimEnd(s[..|s| - 1])
  }

  /** `s.strip()`: `s` without its leading and trailing whitespace; what is
      removed is whitespace and what is kept neither starts nor ends with it. */
  function Strip(s: string): (r: string)
    ensures LeadingSpaces(s) + |r| <= |s|
    ensures r == s[LeadingSpaces(s)..LeadingSpaces(s) + |r|]
    ensures forall k :: LeadingSpaces(s) + |r| <= k < |s| ==> IsSpace(s[k])
    ensures r == [] || (!IsSpace(r[0]) && !IsSpace(r[|r| - 1]))
  {
    var n := LeadingSpaces(s);
    var r := TrimEnd(s[n..]);
    assert r == s[n..n + |r|];
    assert forall k :: n + |r| <= k < |s| ==> s[k] == s[n..][k - n];
    r
  }

  /** Stripping twice strips nothing more. */
  lemma StripIdempotent(s: string)
    ensures Strip(Strip(s)) == Strip(s)
  {
    var r := Strip(s);
    assert LeadingSpaces(r) == 0;
    assert TrimEnd(r) == r;
  }

  // ---------------------------------------------------------------------------
  // `sep in s` and s.split(sep)
  // ---------------------------------------------------------------------------

  predicate OccursAt(s: string, sep: string, k: int) {
    0 <= k && k + |sep| <= |s| && s[k..k + |sep|] == sep
  }

  /** The index of the leftmost occurrence of `sep` in `s` at or after `from`. */
  function IndexFrom(s: string, sep: string, from: nat): (r: Option<nat>)
    requires |sep| > 0
    ensures r.Some? ==> from <= r.value && OccursAt(s, sep, r.value)
    ensures r.Some? ==> forall k :: from <= k < r.value ==> !OccursAt(s, sep, k)
    ensures r.None? ==> forall k :: from <= k ==> !OccursAt(s, sep, k)
    decreases |s| - from
  {
    if from + |sep| > |s| then None
    else if s[from..from + |sep|] == sep then Some(from)
    else IndexFrom(s, sep, from + 1)
  }

  /** `s.find(sep)`, as an Option. */
  function IndexOf(s: string, sep: string): (r: Option<nat>)
    requires |sep| > 0
    ensures r.Some? ==> OccursAt(s, sep, r.value)
    ensures r.Some? ==> forall k :: 0 <= k < r.value ==> !OccursAt(s, sep, k)
    ensures r.None? ==> forall k :: !OccursAt(s, sep, k)
  {
    IndexFrom(s, sep, 0)
  }

  /** Python's `sep in s`. */
  predicate Contains(s: string, sep: string)
    requires |sep| > 0
  {
    IndexOf(s, sep).Some?
  }

  /** Python's `s.split(sep)` for a non-empty separator: the pieces between
      the leftmost non-overlapping occurrences of `sep`. */
  function Split(s: string, sep: string): (r: seq<string>)
    requires |sep| > 0
    ensures |r| >= 1
    ensures forall k :: 0 <= k < |r| ==> !Contains(r[k], sep)
    decreases |s|
  {
    match IndexOf(s, sep)
    case None => [s]
    case Some(k) =>
      assert !Contains(s[..k], sep) by {
        var t := s[..k];
        if IndexOf(t, sep).Some? {
          var j := IndexOf(t, sep).value;
          assert t[j..j + |sep|] == s[j..j + |sep|];
          assert OccursAt(s, sep, j);
        }
      }
      [s[..k]] + Split(s[k + |sep|..], sep)
  }

  /** `s.split(sep)[-1]`. */
  function LastPiece(s: string, sep: string): string
    requires |sep| > 0
  {
    var ps := Split(s, sep);
    ps[|ps| - 1]
  }

  /** The last piece of `s.split(sep)` is the text after the last separator
      the split cut at, or all of `s` when there was none. */
  lemma {:induction false} SplitLastIsSuffix(s: string, sep: string)
    requires |sep| > 0
    ensures |LastPiece(s, sep)| <= |s| && LastPiece(s, sep) == s[|s| - |LastPiece(s, sep)|..]
    ensures Contains(s, sep) ==> |LastPiece(s, sep)| + |sep| <= |s|
                                 && OccursAt(s, sep, |s| - |LastPiece(s, sep)| - |sep|)
    decreases |s|
  {
    match IndexOf(s, sep)
    case None =>
      assert Split(s, sep) == [s];
    case Some(k) =>
      SplitLastIsSuffix(s[k + |sep|..], sep);
      SplitLastStep(s, sep, k, s[k + |sep|..]);
  }

  /** The step of `SplitLastIsSuffix`: after the first cut at `k`, the last
      piece is the last piece of the rest. */
  lemma SplitLastStep(s: string, sep: string, k: nat, rest: string)
    requires |sep| > 0 && IndexOf(s, sep) == Some(k) && rest == s[k + |sep|..]
    requires |LastPiece(rest, sep)| <= |rest| && LastPiece(rest, sep) == rest[|rest| - |LastPiece(rest, sep)|..]
    requires Contains(rest, sep) ==> |LastPiece(rest, sep)| + |sep| <= |rest|
                                     && OccursAt(rest, sep, |rest| - |LastPiece(rest, sep)| - |sep|)
    ensures |LastPiece(s, sep)| <= |s| && LastPiece(s, sep) == s[|s| - |LastPiece(s, sep)|..]
    ensures |LastPiece(s, sep)| + |sep| <= |s| && OccursAt(s, sep, |s| - |LastPiece(s, sep)| - |sep|)
  {
    LastPieceAfterCut(s, sep, k);
    var last := LastPiece(rest, sep);
    SuffixOfSuffix(s, k + |sep|, last);
    if Contains(rest, sep) {
      OccursInSuffix(s, sep, k + |sep|, |rest| - |last| - |sep|);
    } else {
      LastPieceWhole(rest, sep);
    }
  }

  /** The first cut leaves the last piece where it was. */
  lemma LastPieceAfterCut(s: string, sep: string, k: nat)
    requires |sep| > 0 && IndexOf(s, sep) == Some(k)
    ensures LastPiece(s, sep) == LastPiece(s[k + |sep|..], sep)
  {
    SplitCut(s, sep, k);
  }

  /** Without a separator the last piece is the whole text. */
  lemma LastPieceWhole(s: string, sep: string)
    requires |sep| > 0 && !Contains(s, sep)
    ensures LastPiece(s, sep) == s
  {
    assert Split(s, sep) == [s];
  }

  /** `split` cuts at the leftmost separator. */
  lemma SplitCut(s: string, sep: string, k: nat)
    requires |sep| > 0 && IndexOf(s, sep) == Some(k)
    ensures Split(s, sep) == [s[..k]] + Split(s[k + |sep|..], sep)
  {
  }

  /** A suffix of a suffix is a suffix. */
  lemma SuffixOfSuffix<T>(s: seq<T>, i: nat, t: seq<T>)
    requires i <= |s| && |t| <= |s| - i && t == s[i..][|s| - i - |t|..]
    ensures t == s[|s| - |t|..]
  {
  }

  /** An occurrence in a suffix is an occurrence in the whole. */
  lemma OccursInSuffix(s: string, sep: string, i: nat, j: int)
    requires i <= |s| && OccursAt(s[i..], sep, j)
    ensures OccursAt(s, sep, i + j)
  {
    SliceOfSlice(s, i, |s|, j, |sep|);
  }

  /** Python's `sep.join(parts)`. */
  function Join(parts: seq<string>, sep: string): string
    requires |parts| >= 1
  {
    if |parts| == 1 then parts[0] else parts[0] + sep + Join(parts[1..], sep)
  }

  /** `split` and `join` are inverse: joining the pieces gives back the text. */
  lemma {:induction false} JoinSplit(s: string, sep: string)
    requires |sep| > 0
    ensures Join(Split(s, sep), sep) == s
    decreases |s|
  {
    match IndexOf(s, sep)
    case None =>
      assert Split(s, sep) == [s];
    case Some(k) =>
      var rest := s[k + |sep|..];
      var parts := Split(rest, sep);
      assert Split(s, sep) == [s[..k]] + parts;
      JoinSplit(rest, sep);
      assert Join([s[..k]] + parts, sep) == s[..k] + sep + Join(parts, sep);
      assert s == s[..k] + sep + rest;
  }

  /** The text splits into at least two pieces exactly when it contains `sep`. */
  lemma SplitSeveralIffContains(s: string, sep: string)
    requires |sep| > 0
    ensures |Split(s, sep)| >= 2 <==> Contains(s, sep)
  {
  }

  /** A separator found first right after `a` splits `a` off as the first piece. */
  lemma {:induction false} SplitAfterFirst(a: string, sep: string, b: string)
    requires |sep| > 0
    requires IndexOf(a + sep + b, sep) == Some(|a|)
    ensures Split(a + sep + b, sep) == [a] + Split(b, sep)
  {
    var s := a + sep + b;
    assert s[..|a|] == a;
    assert s[|a| + |sep|..] == b;
  }

  /** When no character of `a` can start `sep`, the first `sep` in
      `a + sep + b` is the one right after `a`. */
  lemma FirstSeparatorAfter(a: string, sep: string, b: string)
    requires |sep| > 0
    requires forall k :: 0 <= k < |a| ==> a[k] != sep[0]
    ensures IndexOf(a + sep + b, sep) == Some(|a|)
  {
    var s := a + sep + b;
    assert s[|a|..|a| + |sep|] == sep;
    assert OccursAt(s, sep, |a|);
    forall k | 0 <= k < |a| ensures !OccursAt(s, sep, k) {
      assert s[k..k + |sep|][0] == a[k];
    }
  }

  /** Stripping a text without `sep` leaves a text without `sep`. */
  lemma StripAvoids(s: string, sep: string)
    requires |sep| > 0 && !Contains(s, sep)
    ensures !Contains(Strip(s), sep)
  {
    var n := LeadingSpaces(s);
    SliceAvoids(s, n, n + |Strip(s)|, sep);
  }

  /** A slice of a slice is a slice of the whole. */
  lemma SliceOfSlice<T>(s: seq<T>, i: nat, j: nat, k: nat, n: nat)
    requires i <= j <= |s| && k + n <= j - i
    ensures s[i..j][k..k + n] == s[i + k..i + k + n]
  {
    var a, b := s[i..j][k..k + n], s[i + k..i + k + n];
    forall m | 0 <= m < n ensures a[m] == b[m] {
      assert s[i..j][k + m] == s[i + k + m];
    }
    assert a == b;
  }

  /** A slice of a text without `sep` has no `sep` either. */
  lemma SliceAvoids(s: string, i: nat, j: nat, sep: string)
    requires |sep| > 0 && i <= j <= |s|
    requires !Contains(s, sep)
    ensures !Contains(s[i..j], sep)
  {
    var t := s[i..j];
    forall k ensures !OccursAt(t, sep, k) {
      if 0 <= k && k + |sep| <= |t| {
        SliceOfSlice(s, i, j, k, |sep|);
      }
      assert !OccursAt(s, sep, i + k);
    }
  }
}
