/**
 * String primitives the core relies on, in the two languages' own terms:
 * Python's `str.strip`, `str.lower`, `in`, `startswith`, `str.split(sep)` and
 * `str(int)`, and JavaScript's `String.prototype.trim`.
 */
module Text {
  import opened Wrappers

  /** Whose notion of white space a trim uses. */
  datatype Flavor = Python | JavaScript

  /** Python's `str.isspace`: Unicode white space plus the separators 0x1C-0x1F. */
  predicate IsPySpace(c: char) {
    var n := c as int;
    (9 <= n <= 13) || (28 <= n <= 32) || n == 0x85 || n == 0xA0 || n == 0x1680
    || (0x2000 <= n <= 0x200A) || n == 0x2028 || n == 0x2029 || n == 0x202F
    || n == 0x205F || n == 0x3000
  }

  /** JavaScript's WhiteSpace and LineTerminator, the set `trim` removes. */
  predicate IsJsSpace(c: char) {
    var n := c as int;
    (9 <= n <= 13) || n == 32 || n == 0xA0 || n == 0x1680 || (0x2000 <= n <= 0x200A)
    || n == 0x2028 || n == 0x2029 || n == 0x202F || n == 0x205F || n == 0x3000
    || n == 0xFEFF
  }

  predicate IsSpace(c: char, f: Flavor) {
    match f
    case Python => IsPySpace(c)
    case JavaScript => IsJsSpace(c)
  }

  /** Neither end of `s` is white space. */
  predicate IsStripped(s: string, f: Flavor) {
    |s| == 0 || (!IsSpace(s[0], f) && !IsSpace(s[|s| - 1], f))
  }

  /** Number of white-space characters at the start of `s`. */
  function LeadingSpace(s: string, f: Flavor): (n: nat)
    ensures n <= |s|
    ensures forall i :: 0 <= i < n ==> IsSpace(s[i], f)
    ensures n < |s| ==> !IsSpace(s[n], f)
  {
    if |s| == 0 || !IsSpace(s[0], f) then 0 else 1 + LeadingSpace(s[1..], f)
  }

  /** Number of white-space characters at the end of `s`. */
  function TrailingSpace(s: string, f: Flavor): (n: nat)
    ensures n <= |s|
    ensures forall i :: |s| - n <= i < |s| ==> IsSpace(s[i], f)
    ensures n < |s| ==> !IsSpace(s[|s| - 1 - n], f)
  {
    if |s| == 0 || !IsSpace(s[|s| - 1], f) then 0 else 1 + TrailingSpace(s[..|s| - 1], f)
  }

  /**
   * `s.strip()` (Python) or `s.trim()` (JavaScript): the longest infix of `s`
   * whose ends are not white space; everything removed is white space.
   */
  function Strip(s: string, f: Flavor): (r: string)
    ensures IsStripped(r, f) && |r| <= |s|
    ensures var lead := LeadingSpace(s, f); lead + |r| <= |s| && r == s[lead..lead + |r|]
  {
    var lead := LeadingSpace(s, f);
    var trail := TrailingSpace(s[lead..], f);
    assert |s| - trail > lead ==> s[|s| - trail - 1] == s[lead..][|s| - lead - 1 - trail];
    s[lead..|s| - trail]
  }

  /** Everything after what `Strip` keeps is white space. */
  lemma StripDropsTrailingSpace(s: string, f: Flavor)
    ensures forall k :: LeadingSpace(s, f) + |Strip(s, f)| <= k < |s| ==> IsSpace(s[k], f)
  {
    var lead := LeadingSpace(s, f);
    var rest := s[lead..];
    var trail := TrailingSpace(rest, f);
    assert |Strip(s, f)| == |rest| - trail;
    forall k | lead + |rest| - trail <= k < |s| ensures IsSpace(s[k], f) {
      assert s[k] == rest[k - lead];
    }
  }

  /** `Strip` gives the empty string exactly for an all-white-space text. */
  lemma StripEmptyIffAllSpace(s: string, f: Flavor)
    ensures Strip(s, f) == "" <==> forall k :: 0 <= k < |s| ==> IsSpace(s[k], f)
  {
    StripDropsTrailingSpace(s, f);
    var lead := LeadingSpace(s, f);
    var r := Strip(s, f);
    if r != "" {
      assert r[0] == s[lead] && !IsSpace(r[0], f);
    }
  }

  /** `r` is `s` with its white space removed at both ends and nothing else
      removed: `r` is stripped, it starts where the leading white space of `s`
      ends, and only white space follows it in `s`. */
  predicate IsStripOf(r: string, s: string, f: Flavor) {
    var lead := LeadingSpace(s, f);
    && IsStripped(r, f)
    && lead + |r| <= |s| && r == s[lead..lead + |r|]
    && (forall k :: lead + |r| <= k < |s| ==> IsSpace(s[k], f))
  }

  /** What `Strip` removes is white space at either end, and nothing else; the
      result is empty exactly when `s` is all white space. */
  lemma StripRemovesOnlySpace(s: string, f: Flavor)
    ensures IsStripOf(Strip(s, f), s, f)
    ensures Strip(s, f) == "" <==> forall k :: 0 <= k < |s| ==> IsSpace(s[k], f)
  {
    StripDropsTrailingSpace(s, f);
    StripEmptyIffAllSpace(s, f);
  }

  /** Only one string is `s` with its end white space removed, so `IsStripOf`
      pins down the result of a trim completely. */
  lemma StripOfUnique(r: string, s: string, f: Flavor)
    requires IsStripOf(r, s, f)
    ensures r == Strip(s, f)
  {
    StripRemovesOnlySpace(s, f);
  }

  /** Stripping a stripped string changes nothing, so `Strip` is idempotent. */
  lemma StripStripped(s: string, f: Flavor)
    requires IsStripped(s, f)
    ensures Strip(s, f) == s
  {
    if |s| > 0 {
      assert LeadingSpace(s, f) == 0;
      assert TrailingSpace(s, f) == 0;
    }
  }

  /** ASCII `str.lower` for one character. */
  function LowerChar(c: char): char {
    if 'A' <= c <= 'Z' then (c as int + 32) as char else c
  }

  /** `s.lower()`, restricted to the ASCII letters. */
  function Lower(s: string): (r: string)
    ensures |r| == |s|
    ensures forall i :: 0 <= i < |s| ==> r[i] == LowerChar(s[i])
    decreases |s|
  {
    if s == [] then [] else [LowerChar(s[0])] + Lower(s[1..])
  }

  /** `w` occurs in `s` starting at index `i`. */
  predicate OccursAt(s: string, w: string, i: int) {
    0 <= i && i + |w| <= |s| && s[i..i + |w|] == w
  }

  /** Python's `w in s` on strings. */
  predicate Contains(s: string, w: string) {
    exists i :: 0 <= i <= |s| - |w| && OccursAt(s, w, i)
  }

  /** Python's `s.startswith(p)`. */
  predicate StartsWith(s: string, p: string) {
    |p| <= |s| && s[..|p|] == p
  }

  /** The first index at or after `from` where `sep` occurs in `s`. */
  function IndexFrom(s: string, sep: string, from: nat): (r: Option<nat>)
    requires |sep| > 0
    ensures r.Some? ==> from <= r.value && OccursAt(s, sep, r.value)
    ensures r.Some? ==> forall j :: from <= j < r.value ==> !OccursAt(s, sep, j)
    ensures r.None? ==> forall j :: from <= j ==> !OccursAt(s, sep, j)
    decreases |s| - from
  {
    if from + |sep| > |s| then None
    else if s[from..from + |sep|] == sep then Some(from)
    else IndexFrom(s, sep, from + 1)
  }

  /** Python's `s.split(sep)` for a non-empty separator: the pieces between the
      non-overlapping occurrences of `sep`, found left to right. */
  function Split(s: string, sep: string): (r: seq<string>)
    requires |sep| > 0
    ensures |r| >= 1
    decreases |s|
  {
    match IndexFrom(s, sep, 0)
    case None => [s]
    case Some(i) => [s[..i]] + Split(s[i + |sep|..], sep)
  }

  /** No piece of a split contains the separator. */
  lemma {:induction false} SplitPiecesLackSeparator(s: string, sep: string)
    requires |sep| > 0
    ensures forall k :: 0 <= k < |Split(s, sep)| ==> !Contains(Split(s, sep)[k], sep)
    decreases |s|
  {
    match IndexFrom(s, sep, 0)
    case None =>
      NoOccurrenceBefore(s, sep, |s|);
      assert s[..|s|] == s;
    case Some(i) =>
      NoOccurrenceBefore(s, sep, i);
      SplitPiecesLackSeparator(s[i + |sep|..], sep);
  }

  /** The piece before the first occurrence of `sep` does not contain it. */
  lemma NoOccurrenceBefore(s: string, sep: string, i: nat)
    requires |sep| > 0 && i <= |s|
    requires forall j :: 0 <= j < i ==> !OccursAt(s, sep, j)
    ensures !Contains(s[..i], sep)
  {
    forall j | 0 <= j <= i - |sep|
      ensures !OccursAt(s[..i], sep, j)
    {
      assert s[..i][j..j + |sep|] == s[j..j + |sep|];
      assert !OccursAt(s, sep, j);
    }
  }

  /** An occurrence inside a prefix of `s` is an occurrence in `s`, and an
      occurrence in `s` that ends within the prefix is one in the prefix. */
  lemma OccursInPrefix(s: string, w: string, m: nat, j: nat)
    requires m <= |s|
    ensures OccursAt(s[..m], w, j) <==> j + |w| <= m && OccursAt(s, w, j)
  {
    if j + |w| <= m {
      assert s[..m][j..j + |w|] == s[j..j + |w|];
    }
  }

  /** A text cut at the first occurrence of `sep`: the piece before it, followed
      by all but the last character of `sep`, still does not contain `sep`. */
  lemma CutIsLeftmost(s: string, sep: string, i: nat)
    requires |sep| > 0 && OccursAt(s, sep, i)
    requires forall j :: 0 <= j < i ==> !OccursAt(s, sep, j)
    ensures !Contains(s[..i] + sep[..|sep| - 1], sep)
  {
    var m := i + |sep| - 1;
    assert s[..i] + sep[..|sep| - 1] == s[..m] by {
      assert s[i..i + |sep|] == sep;
      assert s[..m] == s[..i] + s[i..m];
    }
    if Contains(s[..m], sep) {
      var j :| 0 <= j <= m - |sep| && OccursAt(s[..m], sep, j);
      OccursInPrefix(s, sep, m, j);
      assert false;
    }
  }

  /** Each cut is at the leftmost occurrence: no piece but the last, extended
      by all but the last character of the separator, contains the separator. */
  predicate CutsLeftmost(pieces: seq<string>, sep: string)
    requires |sep| > 0
  {
    forall k :: 0 <= k < |pieces| - 1 ==> !Contains(pieces[k] + sep[..|sep| - 1], sep)
  }

  /** `Split` cuts at the leftmost occurrences, so an occurrence of a
      two-character separator such as `"\n\n"` is never split across a cut. */
  lemma {:induction false} SplitIsLeftmost(s: string, sep: string)
    requires |sep| > 0
    ensures CutsLeftmost(Split(s, sep), sep)
    decreases |s|
  {
    match IndexFrom(s, sep, 0)
    case None =>
    case Some(i) =>
      var rest := Split(s[i + |sep|..], sep);
      SplitIsLeftmost(s[i + |sep|..], sep);
      CutIsLeftmost(s, sep, i);
      var r := Split(s, sep);
      assert r == [s[..i]] + rest;
      forall k | 0 <= k < |r| - 1 ensures !Contains(r[k] + sep[..|sep| - 1], sep) {
        if k == 0 {
          assert r[0] == s[..i];
        } else {
          assert r[k] == rest[k - 1];
        }
      }
  }

  /** The first occurrence of `sep` is where `IndexFrom` finds it. */
  lemma FirstOccurrence(s: string, sep: string, i: nat)
    requires |sep| > 0 && OccursAt(s, sep, i)
    requires forall j :: 0 <= j < i ==> !OccursAt(s, sep, j)
    ensures IndexFrom(s, sep, 0) == Some(i)
  {
  }

  /** A piece with no occurrence of `sep` that would end past it, then `sep`,
      then more text: the first cut falls right after that piece. */
  lemma SplitAtFirstPiece(p: string, sep: string, t: string)
    requires |sep| > 0 && !Contains(p + sep[..|sep| - 1], sep)
    ensures Split(p + sep + t, sep) == [p] + Split(t, sep)
  {
    var s := p + sep + t;
    var m := |p| + |sep| - 1;
    assert s[..m] == p + sep[..|sep| - 1];
    forall j | 0 <= j < |p| ensures !OccursAt(s, sep, j) {
      OccursInPrefix(s, sep, m, j);
    }
    assert s[|p|..|p| + |sep|] == sep;
    FirstOccurrence(s, sep, |p|);
    assert s[..|p|] == p && s[|p| + |sep|..] == t;
  }

  /**
   * `Split` is the only cutting of `s` that joins back to `s`, has no piece
   * containing `sep`, and is leftmost in the sense of `SplitIsLeftmost`.
   */
  lemma {:induction false} SplitUnique(s: string, sep: string, pieces: seq<string>)
    requires |sep| > 0 && |pieces| >= 1 && Join(pieces, sep) == s
    requires forall k :: 0 <= k < |pieces| ==> !Contains(pieces[k], sep)
    requires CutsLeftmost(pieces, sep)
    ensures pieces == Split(s, sep)
    decreases |pieces|
  {
    if |pieces| == 1 {
      assert s == pieces[0];
      assert forall j :: 0 <= j ==> !OccursAt(s, sep, j);
    } else {
      var p := pieces[0];
      var tail := pieces[1..];
      var t := Join(tail, sep);
      assert s == p + sep + t;
      SplitAtFirstPiece(p, sep, t);
      assert CutsLeftmost(tail, sep) by {
        forall k | 0 <= k < |tail| - 1 ensures !Contains(tail[k] + sep[..|sep| - 1], sep) {
          assert tail[k] == pieces[k + 1];
        }
      }
      SplitUnique(t, sep, tail);
    }
  }

  /** Python's `sep.join(pieces)`. */
  function Join(pieces: seq<string>, sep: string): string
    decreases |pieces|
  {
    if |pieces| == 0 then ""
    else if |pieces| == 1 then pieces[0]
    else pieces[0] + sep + Join(pieces[1..], sep)
  }

  /** Splitting loses nothing: joining the pieces gives back the text. */
  lemma {:induction false} JoinSplit(s: string, sep: string)
    requires |sep| > 0
    ensures Join(Split(s, sep), sep) == s
    decreases |s|
  {
    var first := IndexFrom(s, sep, 0);
    if first.Some? {
      var i := first.value;
      var rest := s[i + |sep|..];
      var pieces := Split(rest, sep);
      JoinSplit(rest, sep);
      assert Split(s, sep) == [s[..i]] + pieces;
      assert Join([s[..i]] + pieces, sep) == s[..i] + sep + Join(pieces, sep) by {
        assert ([s[..i]] + pieces)[1..] == pieces;
      }
      assert s[i..i + |sep|] == sep;
      assert s == s[..i] + s[i..i + |sep|] + rest;
    }
  }

  predicate IsDigit(c: char) {
    '0' <= c <= '9'
  }

  function DigitChar(d: nat): (c: char)
    requires d < 10
    ensures IsDigit(c)
  {
    ('0' as int + d) as char
  }

  /** Python's `str(n)` for a natural number: decimal digits, no leading zero. */
  function NatToString(n: nat): (s: string)
    ensures |s| >= 1
    ensures forall i :: 0 <= i < |s| ==> IsDigit(s[i])
    decreases n
  {
    if n < 10 then [DigitChar(n)] else NatToString(n / 10) + [DigitChar(n % 10)]
  }

  /** Python's `str(i)` for any integer. */
  function IntToString(i: int): string {
    if i < 0 then "-" + NatToString(-i) else NatToString(i)
  }

  /** The number a string of decimal digits denotes. */
  function DigitsValue(s: string): nat
    requires forall i :: 0 <= i < |s| ==> IsDigit(s[i])
    decreases |s|
  {
    if s == [] then 0
    else
      var last := s[|s| - 1];
      assert IsDigit(last);
      DigitsValue(s[..|s| - 1]) * 10 + (last as int - '0' as int)
  }

  /** Reading back the digits `NatToString` writes gives the number again. */
  lemma {:induction false} DigitsValueOfNatToString(n: nat)
    ensures DigitsValue(NatToString(n)) == n
    decreases n
  {
    if n >= 10 {
      DigitsValueOfNatToString(n / 10);
      var s := NatToString(n);
      assert s[..|s| - 1] == NatToString(n / 10);
    }
  }

  /** Different numbers are written differently. */
  lemma NatToStringInjective(m: nat, n: nat)
    requires NatToString(m) == NatToString(n)
    ensures m == n
  {
    DigitsValueOfNatToString(m);
    DigitsValueOfNatToString(n);
  }
}
