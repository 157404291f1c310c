/** The JavaScript string operations the core relies on, with their ECMAScript
    meaning: `String.prototype.trim`, `includes`, `indexOf`, `split` with a
    non-empty string separator, and `Array.prototype.join`. */
module JsText {
  import opened Wrappers

  /** The code points `trim` removes: ECMAScript's WhiteSpace and LineTerminator. */
  predicate IsWhitespace(c: char) {
    || c == '\t' || c == '\n' || c == '\U{B}' || c == '\U{C}' || c == '\r' || c == ' '
    || c == '\U{A0}' || c == '\U{1680}' || ('\U{2000}' <= c <= '\U{200A}')
    || c == '\U{2028}' || c == '\U{2029}' || c == '\U{202F}' || c == '\U{205F}'
    || c == '\U{3000}' || c == '\U{FEFF}'
  }

  predicate AllWhitespace(s: string) {
    forall k | 0 <= k < |s| :: IsWhitespace(s[k])
  }

  /** Neither end of `r` is whitespace: what `trim` leaves behind. */
  predicate IsTrimmed(r: string) {
    r == [] || (!IsWhitespace(r[0]) && !IsWhitespace(r[|r| - 1]))
  }

  /** Number of whitespace characters `s` starts with. */
  function LeadingSpace(s: string): (n: nat)
    ensures n <= |s|
    ensures AllWhitespace(s[..n])
    ensures n < |s| ==> !IsWhitespace(s[n])
  {
    if |s| == 0 || !IsWhitespace(s[0]) then 0 else 1 + LeadingSpace(s[1..])
  }

  /** Number of whitespace characters `s` ends with. */
  function TrailingSpace(s: string): (n: nat)
    ensures n <= |s|
    ensures forall k | |s| - n <= k < |s| :: IsWhitespace(s[k])
    ensures n < |s| ==> !IsWhitespace(s[|s| - n - 1])
  {
    if |s| == 0 || !IsWhitespace(s[|s| - 1]) then 0 else 1 + TrailingSpace(s[..|s| - 1])
  }

  /** `s.trim()`: the one slice of `s` that is trimmed and is surrounded by
      whitespace only. */
  function Trim(s: string): (r: string)
    ensures IsTrimmed(r)
    ensures r == [] <==> AllWhitespace(s)
    ensures exists i | 0 <= i <= |s| - |r| ::
      s[i..i + |r|] == r && AllWhitespace(s[..i]) && AllWhitespace(s[i + |r|..])
  {
    var a := LeadingSpace(s);
    var t := TrailingSpace(s[a..]);
    TrimmedSlice(s, a, t);
    s[a..|s| - t]
  }

  /** The slice `trim` keeps, between the leading and the trailing whitespace. */
  lemma TrimmedSlice(s: string, a: nat, t: nat)
    requires a == LeadingSpace(s) && t == TrailingSpace(s[a..])
    ensures a <= |s| - t
    ensures var r := s[a..|s| - t];
      && IsTrimmed(r)
      && (r == [] <==> AllWhitespace(s))
      && a <= |s| - |r|
      && s[a..a + |r|] == r && AllWhitespace(s[..a]) && AllWhitespace(s[a + |r|..])
  {
    var rest := s[a..];
    var r := s[a..|s| - t];
    assert r == rest[..|rest| - t];
    var tail := s[a + |r|..];
    forall k | 0 <= k < |tail| ensures IsWhitespace(tail[k]) {
      assert tail[k] == rest[|rest| - t + k];
    }
    if a < |s| {
      assert !IsWhitespace(rest[0]);
      assert t < |rest|;
      assert r[0] == rest[0];
      assert r[|r| - 1] == rest[|rest| - t - 1];
      assert !AllWhitespace(s) by {
        assert !IsWhitespace(s[a]);
      }
    } else {
      assert s[..a] == s;
    }
  }

  /** Trimming is idempotent: a trimmed string is its own trim. */
  lemma TrimTrimmed(r: string)
    requires IsTrimmed(r)
    ensures Trim(r) == r
  {
    assert LeadingSpace(r) == 0;
    assert TrailingSpace(r) == 0;
  }

  /** `t` occurs in `s` starting at index `i`. */
  predicate OccursAt(s: string, t: string, i: int) {
    0 <= i <= |s| - |t| && s[i..i + |t|] == t
  }

  /** `s.includes(t)`. */
  predicate Contains(s: string, t: string) {
    exists i | 0 <= i <= |s| :: OccursAt(s, t, i)
  }

  /** `s.indexOf(t, k)` for `k <= s.length`, with -1 as `None`: the first
      occurrence at or after `k`. */
  function IndexOf(s: string, t: string, k: nat): (r: Option<nat>)
    requires k <= |s|
    decreases |s| - k
    ensures r.Some? ==> k <= r.value && OccursAt(s, t, r.value)
    ensures r.Some? ==> forall j | k <= j < r.value :: !OccursAt(s, t, j)
    ensures r.None? ==> forall j | k <= j :: !OccursAt(s, t, j)
  {
    if k + |t| > |s| then None
    else if s[k..k + |t|] == t then Some(k)
    else IndexOf(s, t, k + 1)
  }

  /** `indexOf` from the start finds an occurrence exactly when there is one. */
  lemma IndexOfContains(s: string, t: string)
    ensures IndexOf(s, t, 0).Some? <==> Contains(s, t)
  {
  }

  /** A string lacking the first character of `t` cannot contain `t`. */
  lemma MissingFirstChar(s: string, t: string)
    requires t != [] && forall k | 0 <= k < |s| :: s[k] != t[0]
    ensures !Contains(s, t)
  {
    forall i | 0 <= i <= |s| - |t| ensures !OccursAt(s, t, i) {
      assert s[i..i + |t|][0] == s[i];
    }
  }

  /** `parts.join(sep)`. */
  function Join(parts: seq<string>, sep: string): string
  {
    if |parts| == 0 then ""
    else if |parts| == 1 then parts[0]
    else parts[0] + sep + Join(parts[1..], sep)
  }

  /** `s.split(sep)` for a non-empty separator and no limit: the pieces between
      successive non-overlapping occurrences, searched left to right. */
  function Split(s: string, sep: string): (parts: seq<string>)
    requires sep != []
    decreases |s|
    ensures |parts| >= 1
    ensures Join(parts, sep) == s
    ensures forall k | 0 <= k < |parts| :: !Contains(parts[k], sep)
  {
    match IndexOf(s, sep, 0)
    case None =>
      IndexOfContains(s, sep);
      [s]
    case Some(i) =>
      var rest := Split(s[i + |sep|..], sep);
      assert s == s[..i] + sep + s[i + |sep|..] by {
        assert s[i..i + |sep|] == sep;
      }
      assert !Contains(s[..i], sep) by {
        forall j | OccursAt(s[..i], sep, j) ensures false {
          assert s[..i][j..j + |sep|] == s[j..j + |sep|];
          assert OccursAt(s, sep, j);
        }
      }
      [s[..i]] + rest
  }

  /** No proper suffix of `sep` is also a prefix of it, so an occurrence of
      `sep` cannot straddle a piece and the separator that follows it. */
  predicate BorderFree(sep: string) {
    forall m | 0 < m < |sep| :: sep[m..] != sep[..|sep| - m]
  }

  /** An occurrence of `sep` that starts inside `p` and ends inside the `sep`
      after it shows a proper suffix of `sep` that is also its prefix. */
  lemma StraddleIsBorder(p: string, sep: string, tail: string, j: int)
    requires 0 <= j < |p| < j + |sep| && OccursAt(p + sep + tail, sep, j)
    ensures sep[|p| - j..] == sep[..|sep| - (|p| - j)]
  {
    var s, m := p + sep + tail, |p| - j;
    forall k | 0 <= k < |sep| - m ensures sep[m..][k] == sep[..|sep| - m][k] {
      assert s[j..j + |sep|][m + k] == s[|p| + k];
    }
  }

  /** In `p + sep + tail` with `sep` not inside `p`, the first occurrence of a
      border-free `sep` is the one right after `p`. */
  lemma FirstOccurrenceAfterPiece(p: string, sep: string, tail: string)
    requires sep != [] && BorderFree(sep) && !Contains(p, sep)
    ensures IndexOf(p + sep + tail, sep, 0) == Some(|p|)
  {
    var s := p + sep + tail;
    assert OccursAt(s, sep, |p|);
    forall j | 0 <= j < |p| ensures !OccursAt(s, sep, j) {
      if j + |sep| <= |p| {
        assert s[j..j + |sep|] == p[j..j + |sep|];
        assert !OccursAt(p, sep, j);
      } else if OccursAt(s, sep, j) {
        StraddleIsBorder(p, sep, tail, j);
        assert false;
      }
    }
  }

  /** `split` undoes `join` when no piece contains the border-free separator. */
  lemma {:induction false} SplitJoin(parts: seq<string>, sep: string)
    requires sep != [] && BorderFree(sep) && |parts| >= 1
    requires forall k | 0 <= k < |parts| :: !Contains(parts[k], sep)
    ensures Split(Join(parts, sep), sep) == parts
  {
    if |parts| == 1 {
      IndexOfContains(parts[0], sep);
    } else {
      var tail := Join(parts[1..], sep);
      var s := parts[0] + sep + tail;
      assert Join(parts, sep) == s;
      FirstOccurrenceAfterPiece(parts[0], sep, tail);
      assert s[|parts[0]| + |sep|..] == tail;
      assert s[..|parts[0]|] == parts[0];
      assert Split(s, sep) == [parts[0]] + Split(tail, sep);
      SplitJoin(parts[1..], sep);
      assert parts == [parts[0]] + parts[1..];
    }
  }

  /** `split` yields a second piece exactly when the separator occurs. */
  lemma SplitPieces(s: string, sep: string)
    requires sep != []
    ensures |Split(s, sep)| >= 2 <==> Contains(s, sep)
    ensures IndexOf(s, sep, 0).None? ==> Split(s, sep) == [s]
    ensures IndexOf(s, sep, 0).Some? ==>
      var i := IndexOf(s, sep, 0).value;
      Split(s, sep) == [s[..i]] + Split(s[i + |sep|..], sep)
  {
    IndexOfContains(s, sep);
  }

  /** A single character never overlaps itself. */
  lemma SingleCharBorderFree(c: char)
    ensures BorderFree([c])
  {
  }
}
