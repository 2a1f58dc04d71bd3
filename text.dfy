/**
 * Character classes and the few string operations of Python's `str` that the
 * session engine relies on: lower-casing, substring tests, `strip`, `split`,
 * `join`, `zfill` and decimal rendering.
 */
module Text {
  // ---------------------------------------------------------------- characters

  predicate IsDigit(c: char) { '0' <= c <= '9' }

  predicate IsAsciiLetter(c: char) { 'a' <= c <= 'z' || 'A' <= c <= 'Z' }

  /** The accented letters of Spanish, both cases. */
  predicate IsAccented(c: char) {
    c in "ÁáÉéÍíÓóÚúÜüÑñ"
  }

  /**
   * Python's `str.isspace`, which is also what `\s` matches in a `str`
   * pattern: the ASCII controls 9-13 and 28-31, the space, NEL, NO-BREAK
   * SPACE, and the Unicode spaces and separators from U+1680 to U+3000.
   */
  predicate IsSpace(c: char) {
    c == ' ' || c == '\t' || c == '\n' || c == '\r' || c == '\U{B}' || c == '\U{C}'
    || ('\U{1C}' <= c <= '\U{1F}') || c == '\U{85}' || c == '\U{A0}'
    || c == '\U{1680}' || ('\U{2000}' <= c <= '\U{200A}') || c == '\U{2028}' || c == '\U{2029}'
    || c == '\U{202F}' || c == '\U{205F}' || c == '\U{3000}'
  }

  /** Word characters of `\b`: letters, digits and underscore. */
  predicate IsWordChar(c: char) { IsAsciiLetter(c) || IsAccented(c) || IsDigit(c) || c == '_' }

  /**
   * Lower-casing as a character map: ASCII capitals and the Spanish accented
   * capitals go to their small forms, every other character is left alone.
   */
  function LowerChar(c: char): char {
    if 'A' <= c <= 'Z' then (c as int + 32) as char
    else if c == 'Á' then 'á' else if c == 'É' then 'é' else if c == 'Í' then 'í'
    else if c == 'Ó' then 'ó' else if c == 'Ú' then 'ú' else if c == 'Ü' then 'ü'
    else if c == 'Ñ' then 'ñ'
    else c
  }

  function Lower(s: string): string {
    seq(|s|, i requires 0 <= i < |s| => LowerChar(s[i]))
  }

  // ---------------------------------------------------------------- substrings

  /** `p in s` for strings. */
  predicate Contains(s: string, p: string) {
    exists i | 0 <= i <= |s| :: p <= s[i..]
  }

  /** `p in s.lower()` for a pattern `p` written in lower case (also `re.search(p, s, re.I)` for a literal `p`). */
  predicate ContainsCI(s: string, p: string) {
    Contains(Lower(s), p)
  }

  predicate ContainsAny(s: string, ps: seq<string>) {
    exists k | 0 <= k < |ps| :: Contains(s, ps[k])
  }

  /** Case-insensitive prefix test for a lower-case pattern. */
  predicate StartsWithCI(s: string, p: string) {
    |p| <= |s| && Lower(s[..|p|]) == p
  }

  lemma ContainsWitness(s: string, p: string, i: nat)
    requires i + |p| <= |s| && s[i..i + |p|] == p
    ensures Contains(s, p)
  {
    assert p <= s[i..];
  }

  // ---------------------------------------------------------------- spans

  /** Length of the longest prefix of `s` whose characters all satisfy `ok`. */
  function SpanLen(s: string, ok: char -> bool): (k: nat)
    ensures k <= |s|
    ensures forall i :: 0 <= i < k ==> ok(s[i])
    ensures k < |s| ==> !ok(s[k])
  {
    if |s| == 0 || !ok(s[0]) then 0 else 1 + SpanLen(s[1..], ok)
  }

  predicate AllDigits(s: string) { forall i :: 0 <= i < |s| ==> IsDigit(s[i]) }

  // ---------------------------------------------------------------- strip

  predicate IsBlank(s: string) { forall i :: 0 <= i < |s| ==> IsSpace(s[i]) }

  /** Number of trailing characters of `s` that are spaces. */
  function TrailLen(s: string): (k: nat)
    ensures k <= |s|
    ensures forall i :: |s| - k <= i < |s| ==> IsSpace(s[i])
    ensures k < |s| ==> !IsSpace(s[|s| - 1 - k])
  {
    if |s| > 0 && IsSpace(s[|s| - 1]) then 1 + TrailLen(s[..|s| - 1]) else 0
  }

  function LStrip(s: string): string { s[SpanLen(s, IsSpace)..] }

  function RStrip(s: string): string { s[..|s| - TrailLen(s)] }

  /** Python's `str.strip()`. */
  function Strip(s: string): string { RStrip(LStrip(s)) }

  /** `s.strip()` is empty exactly when `s` is blank: the guard `not valor or not valor.strip()`. */
  lemma StripEmptyIffBlank(s: string)
    ensures Strip(s) == "" <==> IsBlank(s)
  {
    var a := SpanLen(s, IsSpace);
    var l := s[a..];
    if a < |s| {
      assert !IsSpace(l[0]);
      assert TrailLen(l) < |l|;
    }
  }

  lemma StripOfStripped(s: string)
    requires |s| > 0 ==> !IsSpace(s[0]) && !IsSpace(s[|s| - 1])
    ensures Strip(s) == s
  {
  }

  /** Stripping twice is stripping once. */
  lemma StripIdempotent(s: string)
    ensures Strip(Strip(s)) == Strip(s)
  {
    StripIsSlice(s);
    StripOfStripped(Strip(s));
  }

  lemma LStripSlice(s: string)
    ensures forall i :: 0 <= i < |LStrip(s)| ==> LStrip(s)[i] == s[SpanLen(s, IsSpace) + i]
    ensures |LStrip(s)| > 0 ==> !IsSpace(LStrip(s)[0])
  {
  }

  lemma RStripSlice(l: string)
    ensures forall i :: 0 <= i < |RStrip(l)| ==> RStrip(l)[i] == l[i]
    ensures |RStrip(l)| > 0 ==> !IsSpace(RStrip(l)[|RStrip(l)| - 1])
  {
  }

  /** `s.strip()` is a slice of `s` that neither starts nor ends with a space. */
  lemma StripIsSlice(s: string)
    ensures |Strip(s)| <= |s|
    ensures forall i :: 0 <= i < |Strip(s)| ==> Strip(s)[i] == s[SpanLen(s, IsSpace) + i]
    ensures |Strip(s)| > 0 ==> !IsSpace(Strip(s)[0]) && !IsSpace(Strip(s)[|Strip(s)| - 1])
  {
    LStripSlice(s);
    RStripSlice(LStrip(s));
  }

  // ---------------------------------------------------------------- split / join

  /** Python's `s.split(sep)` for a one-character separator. */
  function SplitOn(s: string, sep: char): (parts: seq<string>)
    ensures |parts| >= 1
  {
    if |s| == 0 then [""]
    else
      var rest := SplitOn(s[1..], sep);
      if s[0] == sep then [""] + rest else [[s[0]] + rest[0]] + rest[1..]
  }

  /** Python's `s.split()`: the maximal runs of non-space characters. */
  function Words(s: string): (ws: seq<string>)
    decreases |s|
  {
    if |s| == 0 then []
    else if IsSpace(s[0]) then Words(s[1..])
    else
      var k := SpanLen(s, c => !IsSpace(c));
      [s[..k]] + Words(s[k..])
  }

  /** `s.split()` is empty exactly for a blank `s`, where `s.split()[0]` raises. */
  lemma {:induction false} WordsEmptyIffBlank(s: string)
    ensures Words(s) == [] <==> IsBlank(s)
    decreases |s|
  {
    if |s| > 0 && IsSpace(s[0]) {
      WordsEmptyIffBlank(s[1..]);
      assert IsBlank(s) <==> IsBlank(s[1..]) by {
        if IsBlank(s[1..]) {
          forall i | 0 <= i < |s| ensures IsSpace(s[i]) {
            if i > 0 { assert s[i] == s[1..][i - 1]; }
          }
        }
      }
    }
  }

  /** Python's `sep.join(xs)`. */
  function Join(xs: seq<string>, sep: string): string {
    if |xs| == 0 then "" else if |xs| == 1 then xs[0] else xs[0] + sep + Join(xs[1..], sep)
  }

  // ---------------------------------------------------------------- numbers

  function Zeros(n: nat): (z: string)
    ensures |z| == n && forall i :: 0 <= i < n ==> z[i] == '0'
  {
    seq(n, _ => '0')
  }

  /** Python's `s.zfill(width)`: left-pad with "0", after a leading sign. */
  function ZFill(s: string, width: nat): (r: string)
    ensures |r| == if |s| >= width then |s| else width
    ensures |s| >= width ==> r == s
    ensures |s| < width && (|s| == 0 || s[0] !in "+-") ==> r == Zeros(width - |s|) + s
  {
    if |s| >= width then s
    else if |s| > 0 && s[0] in "+-" then [s[0]] + Zeros(width - |s|) + s[1..]
    else Zeros(width - |s|) + s
  }

  function DigitChar(d: nat): char
    requires d < 10
  {
    ('0' as int + d) as char
  }

  /** Python's `str(n)` for a natural number. */
  function NatToString(n: nat): (r: string)
    ensures |r| >= 1 && AllDigits(r)
  {
    if n < 10 then [DigitChar(n)] else NatToString(n / 10) + [DigitChar(n % 10)]
  }

  /** Python's `int(s)` for a non-empty run of ASCII digits. */
  function DigitsValue(s: string): nat
    requires AllDigits(s)
  {
    if |s| == 0 then 0 else DigitsValue(s[..|s| - 1]) * 10 + (s[|s| - 1] as int - '0' as int)
  }

  /** `re.findall(r"(\d+)", s)`: the maximal runs of digits, in text order. */
  function DigitRuns(s: string): (runs: seq<string>)
    ensures forall k :: 0 <= k < |runs| ==> |runs[k]| > 0 && AllDigits(runs[k])
    decreases |s|
  {
    if |s| == 0 then []
    else if !IsDigit(s[0]) then DigitRuns(s[1..])
    else
      var k := SpanLen(s, IsDigit);
      [s[..k]] + DigitRuns(s[k..])
  }

  // ---------------------------------------------------------------- facts used by worked examples

  lemma ContainsLonger(s: string, p: string)
    requires |p| > |s|
    ensures !Contains(s, p)
  {
  }

  lemma {:induction false} DigitRunsSkip(s: string, k: nat)
    requires k <= |s|
    requires forall j :: 0 <= j < k ==> !IsDigit(s[j])
    ensures DigitRuns(s) == DigitRuns(s[k..])
    decreases k
  {
    if k > 0 {
      assert s[1..][k - 1..] == s[k..];
      DigitRunsSkip(s[1..], k - 1);
    }
  }

  lemma {:induction false} SplitOnHead(s: string, sep: char, k: nat)
    requires k <= |s|
    requires forall j :: 0 <= j < k ==> s[j] != sep
    requires k == |s| || s[k] == sep
    ensures SplitOn(s, sep)[0] == s[..k]
    decreases k
  {
    if k > 0 {
      SplitOnHead(s[1..], sep, k - 1);
      assert s[..k] == [s[0]] + s[1..][..k - 1];
    }
  }
}
