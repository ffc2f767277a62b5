/** The string operations the service relies on: `str.strip()`, `str.lower()` and the
    decimal rendering of an integer in an f-string. */
module Text {

  /** The characters Python's `str.isspace()` accepts: ASCII whitespace, the four
      information separators, and the Unicode space separators. */
  predicate IsSpace(c: char) {
    || c == ' '
    || ('\t' <= c <= '\r')
    || ('\U{1C}' <= c <= '\U{1F}')
    || c == '\U{85}' || c == '\U{A0}' || c == '\U{1680}'
    || ('\U{2000}' <= c <= '\U{200A}')
    || c == '\U{2028}' || c == '\U{2029}' || c == '\U{202F}' || c == '\U{205F}' || c == '\U{3000}'
  }

  predicate IsUpper(c: char) {
    'A' <= c <= 'Z'
  }

  predicate AllSpace(s: string) {
    forall k | 0 <= k < |s| :: IsSpace(s[k])
  }

  /** A stripped string: empty, or neither its first nor its last character is whitespace. */
  predicate Trimmed(s: string) {
    s == [] || (!IsSpace(s[0]) && !IsSpace(s[|s| - 1]))
  }

  predicate NoUpper(s: string) {
    forall k | 0 <= k < |s| :: !IsUpper(s[k])
  }

  /** How many whitespace characters `s` starts with: what `s.lstrip()` removes. */
  function LeadingSpaces(s: string): (n: nat)
    ensures n <= |s|
    ensures forall k | 0 <= k < n :: IsSpace(s[k])
    ensures n < |s| ==> !IsSpace(s[n])
    decreases |s|
  {
    if s != [] && IsSpace(s[0]) then 1 + LeadingSpaces(s[1..]) else 0
  }

  /** How many whitespace characters `s` ends with: what `s.rstrip()` removes. */
  function TrailingSpaces(s: string): (n: nat)
    ensures n <= |s|
    ensures forall k | |s| - n <= k < |s| :: IsSpace(s[k])
    ensures n < |s| ==> !IsSpace(s[|s| - 1 - n])
    decreases |s|
  {
    if s != [] && IsSpace(s[|s| - 1]) then 1 + TrailingSpaces(s[..|s| - 1]) else 0
  }

  /** `s.strip()`: `s` without its leading and trailing whitespace. */
  function Strip(s: string): (r: string)
    ensures Trimmed(r)
    ensures r == [] <==> AllSpace(s)
  {
    var lead := LeadingSpaces(s);
    if lead == |s| then
      []
    else
      assert !IsSpace(s[lead]);
      var r := s[lead..|s| - TrailingSpaces(s)];
      assert r[0] == s[lead] && r[|r| - 1] == s[|s| - TrailingSpaces(s) - 1];
      r
  }

  /** `c.lower()` on ASCII letters; every other character is left as it is. */
  function LowerChar(c: char): (r: char)
    ensures !IsUpper(r)
    ensures IsSpace(r) == IsSpace(c)
    ensures !IsUpper(c) ==> r == c
    ensures IsUpper(c) ==> r as int == c as int - 'A' as int + 'a' as int
  {
    if IsUpper(c) then (c as int - 'A' as int + 'a' as int) as char else c
  }

  /** `s.lower()` */
  function Lower(s: string): (r: string)
    ensures |r| == |s| && NoUpper(r)
    ensures forall k | 0 <= k < |s| :: IsSpace(r[k]) == IsSpace(s[k])
    ensures forall k | 0 <= k < |s| :: !IsUpper(s[k]) ==> r[k] == s[k]
    ensures forall k | 0 <= k < |s| :: IsUpper(s[k]) ==> r[k] as int == s[k] as int - 'A' as int + 'a' as int
  {
    seq(|s|, k requires 0 <= k < |s| => LowerChar(s[k]))
  }

  /** `text.strip().lower()`, the normalisation applied to names and type tokens. */
  function Normalize(text: string): string {
    Lower(Strip(text))
  }

  /** Strip is pinned down by its shape: any slice `s[i..j]` with only whitespace
      outside it and no whitespace at either end is `Strip(s)`. */
  lemma StripUnique(s: string, i: int, j: int)
    requires 0 <= i <= j <= |s|
    requires forall k | 0 <= k < i :: IsSpace(s[k])
    requires forall k | j <= k < |s| :: IsSpace(s[k])
    requires i < j ==> !IsSpace(s[i]) && !IsSpace(s[j - 1])
    ensures Strip(s) == s[i..j]
  {
    var lead, trail := LeadingSpaces(s), TrailingSpaces(s);
    if i < j {
      assert lead == i;
      assert trail == |s| - j;
    }
  }

  /** The normal form has no surrounding whitespace and no upper-case letter. */
  lemma NormalizeShape(text: string)
    ensures Trimmed(Normalize(text)) && NoUpper(Normalize(text))
  {
    var st := Strip(text);
    var n := Normalize(text);
    if n != [] {
      assert IsSpace(n[0]) == IsSpace(st[0]);
      assert IsSpace(n[|n| - 1]) == IsSpace(st[|st| - 1]);
    }
  }

  /** A token normalises to the empty string exactly when it is all whitespace. */
  lemma NormalizeEmptyIff(text: string)
    ensures Normalize(text) == [] <==> AllSpace(text)
  {
  }

  /** Normalising a normalised token changes nothing. */
  lemma NormalizeIdempotent(text: string)
    ensures Normalize(Normalize(text)) == Normalize(text)
  {
    var n := Normalize(text);
    NormalizeShape(text);
    StripUnique(n, 0, |n|);
    assert n[0..|n|] == n;
    assert Lower(n) == n;
  }

  predicate IsDigit(c: char) {
    '0' <= c <= '9'
  }

  function DigitChar(d: nat): (c: char)
    requires d < 10
    ensures IsDigit(c)
  {
    ('0' as int + d) as char
  }

  function DigitValue(c: char): (d: nat)
    requires IsDigit(c)
    ensures d < 10 && DigitChar(d) == c
  {
    c as int - '0' as int
  }

  /** `str(n)` (or `f"{n}"`) for a non-negative integer: its decimal digits. */
  function Decimal(n: nat): (s: string)
    ensures |s| >= 1
    ensures forall k | 0 <= k < |s| :: IsDigit(s[k])
    ensures s[0] == '0' ==> n == 0
    decreases n
  {
    if n < 10 then [DigitChar(n)] else Decimal(n / 10) + [DigitChar(n % 10)]
  }

  /** The value of a string of decimal digits: the reading `int()` gives it. */
  function DecimalValue(s: string): nat
    requires forall k | 0 <= k < |s| :: IsDigit(s[k])
  {
    if s == [] then 0 else DecimalValue(s[..|s| - 1]) * 10 + DigitValue(s[|s| - 1])
  }

  lemma {:induction false} DecimalRoundTrip(n: nat)
    ensures DecimalValue(Decimal(n)) == n
    decreases n
  {
    if n >= 10 {
      var s := Decimal(n);
      assert s[..|s| - 1] == Decimal(n / 10);
      DecimalRoundTrip(n / 10);
    }
  }

  /** Different numbers are written differently. */
  lemma DecimalInjective(a: nat, b: nat)
    ensures Decimal(a) == Decimal(b) ==> a == b
  {
    DecimalRoundTrip(a);
    DecimalRoundTrip(b);
  }
}
