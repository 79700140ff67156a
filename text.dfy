/**
 * The string handling the core relies on: JavaScript's notion of a blank
 * string (`s.trim() === ''`), `String.prototype.split` on the separator
 * `---`, and the decimal rendering of a number inside a template string.
 */
module Text {
  import opened Wrappers

  /** The characters `String.prototype.trim` strips: white space and line terminators. */
  predicate IsWhitespace(c: char) {
    || c == '\t' || c == '\n' || c == '\U{000B}' || c == '\U{000C}' || c == '\r'
    || c == ' ' || c == '\U{00A0}' || c == '\U{1680}' || ('\U{2000}' <= c <= '\U{200A}')
    || c == '\U{2028}' || c == '\U{2029}' || c == '\U{202F}' || c == '\U{205F}'
    || c == '\U{3000}' || c == '\U{FEFF}'
  }

  /** `s.trim() === ''`, i.e. `!s.trim()`. */
  predicate IsBlank(s: string) {
    forall i :: 0 <= i < |s| ==> IsWhitespace(s[i])
  }

  /** The separator between résumés in the recruiter's text box. */
  const Separator: string := "---"

  predicate OccursAt(s: string, i: nat) {
    i + |Separator| <= |s| && s[i..i + |Separator|] == Separator
  }

  /** `s.indexOf('---')`, with `None` for -1. */
  function FindSeparator(s: string): (r: Option<nat>)
    ensures r.Some? ==> OccursAt(s, r.value)
    ensures r.Some? ==> forall j: nat :: j < r.value ==> !OccursAt(s, j)
    ensures r.None? ==> forall j: nat :: !OccursAt(s, j)
    decreases |s|
  {
    if |s| < |Separator| then None
    else if s[..|Separator|] == Separator then Some(0)
    else
      var r := FindSeparator(s[1..]);
      ShiftOccurrence(s);
      assert !OccursAt(s, 0);
      if r.None? then
        assert forall j: nat :: !OccursAt(s, j) by {
          forall j: nat ensures !OccursAt(s, j) {
            if j > 0 { assert !OccursAt(s[1..], j - 1); }
          }
        }
        None
      else
        assert forall j: nat :: j < r.value + 1 ==> !OccursAt(s, j) by {
          forall j: nat | j < r.value + 1 ensures !OccursAt(s, j) {
            if j > 0 { assert !OccursAt(s[1..], j - 1); }
          }
        }
        Some(r.value + 1)
  }

  /** An occurrence in `s[1..]` is an occurrence in `s`, one position later. */
  lemma ShiftOccurrence(s: string)
    requires |s| >= 1
    ensures forall j: nat :: OccursAt(s[1..], j) <==> OccursAt(s, j + 1)
  {
    forall j: nat ensures OccursAt(s[1..], j) <==> OccursAt(s, j + 1) {
      if j + 1 + |Separator| <= |s| {
        assert s[1..][j..j + |Separator|] == s[j + 1..j + 1 + |Separator|];
      }
    }
  }

  /** `s.split('---')`. */
  function Split(s: string): (parts: seq<string>)
    ensures |parts| >= 1
    decreases |s|
  {
    match FindSeparator(s)
    case None => [s]
    case Some(i) => [s[..i]] + Split(s[i + |Separator|..])
  }

  /** `parts.join('---')`. */
  function Join(parts: seq<string>): string {
    if |parts| == 0 then ""
    else if |parts| == 1 then parts[0]
    else parts[0] + Separator + Join(parts[1..])
  }

  /** Splitting loses nothing: the pieces joined back give the original text. */
  lemma {:induction false} JoinSplit(s: string)
    ensures Join(Split(s)) == s
    decreases |s|
  {
    match FindSeparator(s)
    case None =>
    case Some(i) =>
      var rest := s[i + |Separator|..];
      JoinSplit(rest);
      SplitAt(s, i);
      JoinCons(s[..i], Split(rest));
      assert s[i..i + |Separator|] == Separator;
      assert s == s[..i] + s[i..i + |Separator|] + rest;
  }

  lemma SplitAt(s: string, i: nat)
    requires FindSeparator(s) == Some(i)
    ensures Split(s) == [s[..i]] + Split(s[i + |Separator|..])
  {
  }

  lemma JoinCons(head: string, tail: seq<string>)
    requires |tail| >= 1
    ensures Join([head] + tail) == head + Separator + Join(tail)
  {
    assert ([head] + tail)[1..] == tail;
  }

  /** No piece of a split contains the separator. */
  lemma {:induction false} SplitPiecesHaveNoSeparator(s: string, k: nat)
    requires k < |Split(s)|
    ensures FindSeparator(Split(s)[k]).None?
    decreases |s|
  {
    match FindSeparator(s)
    case None =>
    case Some(i) =>
      if k == 0 {
        var head := s[..i];
        if FindSeparator(head).Some? {
          var j := FindSeparator(head).value;
          assert s[j..j + |Separator|] == head[j..j + |Separator|];
          assert OccursAt(s, j);
          assert false;
        }
      } else {
        SplitPiecesHaveNoSeparator(s[i + |Separator|..], k - 1);
      }
  }

  /** `parts.filter(p => p.trim() !== '')`. */
  function NonBlank(parts: seq<string>): (r: seq<string>)
    ensures |r| <= |parts|
    ensures forall t :: t in r <==> t in parts && !IsBlank(t)
  {
    if parts == [] then []
    else if IsBlank(parts[0]) then NonBlank(parts[1..])
    else [parts[0]] + NonBlank(parts[1..])
  }

  /** The filter keeps the order of the pieces: it works piece by piece over a concatenation. */
  lemma {:induction false} NonBlankAppend(a: seq<string>, b: seq<string>)
    ensures NonBlank(a + b) == NonBlank(a) + NonBlank(b)
  {
    if a == [] {
      assert a + b == b;
    } else {
      assert (a + b)[0] == a[0] && (a + b)[1..] == a[1..] + b;
      NonBlankAppend(a[1..], b);
      if !IsBlank(a[0]) {
        assert NonBlank(a + b) == [a[0]] + (NonBlank(a[1..]) + NonBlank(b));
      }
    }
  }

  /** The filter keeps every non-blank piece as many times as it occurs, and no blank one. */
  lemma {:induction false} NonBlankMultiplicity(parts: seq<string>, t: string)
    ensures multiset(NonBlank(parts))[t] == if IsBlank(t) then 0 else multiset(parts)[t]
  {
    if parts != [] {
      NonBlankMultiplicity(parts[1..], t);
      assert parts == [parts[0]] + parts[1..];
    }
  }

  /** A list with no blank piece passes the filter unchanged. */
  lemma {:induction false} NonBlankKeepsAll(parts: seq<string>)
    requires forall i :: 0 <= i < |parts| ==> !IsBlank(parts[i])
    ensures NonBlank(parts) == parts
  {
    if parts != [] {
      NonBlankKeepsAll(parts[1..]);
    }
  }

  function DigitChar(d: nat): char
    requires d < 10
  {
    "0123456789"[d]
  }

  /** The decimal digits of `n`, as `${n}` writes them. */
  function NatToString(n: nat): (s: string)
    ensures |s| >= 1 && forall i :: 0 <= i < |s| ==> '0' <= s[i] <= '9'
  {
    if n < 10 then [DigitChar(n)] else NatToString(n / 10) + [DigitChar(n % 10)]
  }
}
