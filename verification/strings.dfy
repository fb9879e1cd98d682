/** The JavaScript string operations the core relies on, over `string = seq<char>`. */
module Strings {
  import Seqs

  /** The characters the numeric inputs keep: the complement of the pattern `[^0-9.]`. */
  predicate IsNumericChar(c: char) {
    '0' <= c <= '9' || c == '.'
  }

  /** `value.replace(/[^0-9.]/g, "")`: drop every character that is not a digit or a point. */
  function Sanitize(s: string): (r: string)
    ensures |r| <= |s|
    ensures forall i :: 0 <= i < |r| ==> IsNumericChar(r[i])
    ensures forall i :: 0 <= i < |s| && IsNumericChar(s[i]) ==> s[i] in r
  {
    Seqs.Filter(s, IsNumericChar)
  }

  /** A string built only from digits and points. */
  predicate IsNumeric(s: string) {
    forall i :: 0 <= i < |s| ==> IsNumericChar(s[i])
  }

  /** Sanitising keeps every digit and point of the input, as often as it occurs, in order, and nothing else. */
  lemma SanitizeKeepsExactlyNumeric(s: string)
    ensures forall c :: multiset(Sanitize(s))[c] == if IsNumericChar(c) then multiset(s)[c] else 0
    ensures Seqs.SubsequenceOf(Sanitize(s), s)
  {
    Seqs.FilterMultiset(s, IsNumericChar);
    Seqs.FilterIsSubsequence(s, IsNumericChar);
  }

  /** Sanitising leaves a numeric string as it is, and so is idempotent. */
  lemma SanitizeFixesNumeric(s: string)
    ensures IsNumeric(s) <==> Sanitize(s) == s
    ensures Sanitize(Sanitize(s)) == Sanitize(s)
  {
    if IsNumeric(s) {
      Seqs.FilterAll(s, IsNumericChar);
    }
    Seqs.FilterIdempotent(s, IsNumericChar);
  }

  /** Sanitising a pasted string is sanitising its pieces. */
  lemma SanitizeAppend(s: string, t: string)
    ensures Sanitize(s + t) == Sanitize(s) + Sanitize(t)
  {
    Seqs.FilterAppend(s, t, IsNumericChar);
  }

  /** White space and line terminators as `String.prototype.trim` removes them. */
  predicate IsWhitespace(c: char) {
    c == ' ' || c == '\t' || c == '\n' || c == '\r' || c == '\U{000B}' || c == '\U{000C}'
    || c == '\U{00A0}' || c == '\U{1680}' || ('\U{2000}' <= c <= '\U{200A}')
    || c == '\U{2028}' || c == '\U{2029}' || c == '\U{202F}' || c == '\U{205F}'
    || c == '\U{3000}' || c == '\U{FEFF}'
  }

  /** `!s.trim()`: the string is empty once white space is trimmed. */
  predicate IsBlank(s: string) {
    forall i :: 0 <= i < |s| ==> IsWhitespace(s[i])
  }

  /** The number of white-space characters `s` starts with, which `parseFloat` skips. */
  function LeadingWhitespace(s: string): (k: nat)
    ensures k <= |s|
    ensures forall i :: 0 <= i < k ==> IsWhitespace(s[i])
    ensures k < |s| ==> !IsWhitespace(s[k])
  {
    if s == [] || !IsWhitespace(s[0]) then 0 else 1 + LeadingWhitespace(s[1..])
  }

  /** Upper-case letters of Basic Latin and Latin-1 (A-Z, À-Þ except ×) and their lower-case partners. */
  predicate IsUpper(c: char) {
    ('A' <= c <= 'Z') || ('\U{00C0}' <= c <= '\U{00DE}' && c != '\U{00D7}')
  }

  function LowerChar(c: char): (r: char)
    ensures !IsUpper(r)
    ensures !IsUpper(c) ==> r == c
  {
    if IsUpper(c) then (c as int + 32) as char else c
  }

  /** `s.toLowerCase()` on the Latin letters the colour table and the queries use. */
  function ToLower(s: string): (r: string)
    ensures |r| == |s|
    ensures forall i :: 0 <= i < |s| ==> r[i] == LowerChar(s[i])
  {
    seq(|s|, i requires 0 <= i < |s| => LowerChar(s[i]))
  }

  lemma ToLowerIdempotent(s: string)
    ensures ToLower(ToLower(s)) == ToLower(s)
  {
  }

  predicate StartsWith(s: string, prefix: string) {
    |prefix| <= |s| && s[..|prefix|] == prefix
  }

  /** `q` occurs in `s` starting at index `i`. */
  predicate OccursAt(s: string, q: string, i: int) {
    0 <= i && i + |q| <= |s| && s[i..i + |q|] == q
  }

  /** `s.includes(q)`, computed by trying each starting position in turn. */
  function Contains(s: string, q: string): bool
    decreases |s|
  {
    if StartsWith(s, q) then true
    else if s == [] then false
    else Contains(s[1..], q)
  }

  /** `Contains` holds exactly when `q` occurs somewhere in `s`. */
  lemma {:induction false} ContainsIff(s: string, q: string)
    ensures Contains(s, q) <==> exists i :: OccursAt(s, q, i)
    decreases |s|
  {
    if StartsWith(s, q) {
      assert s[0..0 + |q|] == s[..|q|];
      assert OccursAt(s, q, 0);
    } else if s == [] {
      assert StartsWith(s, []);
    } else {
      ContainsIff(s[1..], q);
      forall i | OccursAt(s, q, i)
        ensures OccursAt(s[1..], q, i - 1)
      {
        assert i != 0;
        var a, b := s[i..i + |q|], s[1..][i - 1..i - 1 + |q|];
        forall k | 0 <= k < |q|
          ensures a[k] == b[k]
        {
          assert a[k] == s[i + k] && b[k] == s[i + k];
        }
        assert a == b;
      }
      forall i | OccursAt(s[1..], q, i)
        ensures OccursAt(s, q, i + 1)
      {
        assert s[i + 1..i + 1 + |q|] == s[1..][i..i + |q|];
      }
    }
  }

  /** `parts.join(sep)`. */
  function Join(parts: seq<string>, sep: string): (r: string)
    ensures parts == [] ==> r == ""
    ensures |parts| == 1 ==> r == parts[0]
    ensures |parts| > 1 ==> StartsWith(r, parts[0] + sep)
  {
    if parts == [] then ""
    else if |parts| == 1 then parts[0]
    else
      assert (parts[0] + sep + Join(parts[1..], sep))[..|parts[0] + sep|] == parts[0] + sep;
      parts[0] + sep + Join(parts[1..], sep)
  }

  function DigitChar(d: nat): (c: char)
    requires d < 10
    ensures '0' <= c <= '9'
  {
    ('0' as int + d) as char
  }

  /** A string of decimal digits only. */
  predicate AllDigits(s: string) {
    forall i :: 0 <= i < |s| ==> '0' <= s[i] <= '9'
  }

  /** The decimal numeral of `n`, as a template literal `${n}` prints it. */
  function NatToString(n: nat): (r: string)
    ensures |r| > 0
    ensures AllDigits(r)
    ensures n > 0 ==> r[0] != '0'
  {
    if n < 10 then [DigitChar(n)] else NatToString(n / 10) + [DigitChar(n % 10)]
  }
}
