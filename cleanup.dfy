/**
 * The clean-up of the city and pharmacy answers that the intent handler and
 * the table service both apply: a list of words that are not cities, and the
 * removal of boilerplate fragments such as "sede" or "donde no te ..." from
 * a pharmacy name with the case-insensitive pattern
 *
 *     donde.*te | y la sede donde | donde no te | sede | y\s+debían | debían
 *
 * replaced by nothing, leftmost match first, as `re.sub` does.
 */
module Cleanup {
  import opened Wrappers
  import opened Text

  /** Answers that the extractor sometimes stores as a city but that are not cities. */
  const BAD_CITIES: seq<string> := ["contributivo", "subsidiado", "ese fue"]

  /** The lower-case literal `p` matches `v` at position `i`, ignoring case. */
  predicate LitAt(v: string, i: nat, p: string) {
    i + |p| <= |v| && forall k :: 0 <= k < |p| ==> LowerChar(v[i + k]) == p[k]
  }

  /** Position of the last "te" inside `w`, the greedy end of `donde.*te`. */
  function LastTe(w: string): (k: Option<nat>)
    ensures k.Some? ==> LitAt(w, k.value, "te")
    ensures k.Some? ==> forall j :: k.value < j ==> !LitAt(w, j, "te")
    ensures k.None? ==> forall j :: !LitAt(w, j, "te")
  {
    if |w| < 2 then None
    else if LitAt(w, |w| - 2, "te") then Some(|w| - 2)
    else
      var k := LastTe(w[..|w| - 1]);
      assert forall j: nat :: LitAt(w, j, "te") && j < |w| - 2 ==> LitAt(w[..|w| - 1], j, "te");
      k
  }

  predicate NotNewline(c: char) { c != '\n' }

  /**
   * Length of the match of the pattern at the start of `v`, the alternatives
   * tried in their written order. `.` does not cross a line break, and
   * `\s+` before "debían" takes all the spaces, since "debían" starts with
   * a letter.
   */
  function MatchLen(v: string): (n: Option<nat>)
    ensures n.Some? ==> 0 < n.value <= |v|
  {
    var rest := if |v| >= 5 then v[5..] else "";
    var line := rest[..SpanLen(rest, NotNewline)];
    var gap := if |v| >= 1 then SpanLen(v[1..], IsSpace) else 0;
    if LitAt(v, 0, "donde") && LastTe(line).Some? then Some(5 + LastTe(line).value + 2)
    else if LitAt(v, 0, "y la sede donde") then Some(15)
    else if LitAt(v, 0, "donde no te") then Some(11)
    else if LitAt(v, 0, "sede") then Some(4)
    else if LitAt(v, 0, "y") && gap > 0 && LitAt(v, 1 + gap, "debían") then Some(1 + gap + 6)
    else if LitAt(v, 0, "debían") then Some(6)
    else None
  }

  /** `re.sub(pattern, '', v, flags=re.I)`: every leftmost match is dropped, scanning on after it. */
  function Scrub(v: string): (out: string)
    ensures |out| <= |v|
    decreases |v|
  {
    if v == [] then []
    else match MatchLen(v)
      case Some(n) => Scrub(v[n..])
      case None => [v[0]] + Scrub(v[1..])
  }

  /** The pharmacy clean-up of the completeness check: a changed value is kept only from three characters on. */
  function PharmacyChecked(p: string): (q: string)
    ensures q == p || q == "" || (q == Strip(Scrub(p)) && |q| >= 3)
  {
    if p == "" then p
    else
      var limpio := Strip(Scrub(p));
      if limpio == p then p
      else if |limpio| >= 3 then limpio else ""
  }

  /** The city clean-up of the completeness check. */
  function CityChecked(c: string): (d: string)
    ensures Lower(d) !in BAD_CITIES
    ensures d == c || d == ""
  {
    if c != "" && Lower(c) in BAD_CITIES then "" else c
  }

  /** Fragments that are not a pharmacy once the boilerplate is gone. */
  const FILLER_WORDS: seq<string> := ["y", "la", "el", "los", "las", "donde"]

  /** The value written to `farmacia` by the table service. */
  function PharmacyCell(p: string): (q: string)
    ensures q == "No disponible" || (q == Strip(Scrub(p)) && q != "" && Lower(q) !in FILLER_WORDS)
  {
    var limpio := Strip(Scrub(p));
    if limpio == "" || Lower(limpio) in FILLER_WORDS then "No disponible" else limpio
  }

  /** The value written to `municipio` by the table service. */
  function CityCell(c: string): (d: string)
    ensures d == c || d == "No disponible"
    ensures Lower(c) in BAD_CITIES <==> d == "No disponible" && c != "No disponible"
  {
    if Lower(c) in BAD_CITIES then "No disponible" else c
  }

  // ------------------------------------------------------------ properties

  /**
   * The third alternative can never be the one that matches: wherever
   * "donde no te" starts, the first alternative matches as well, at least
   * as far.
   */
  lemma DondeNoTeShadowed(v: string)
    requires LitAt(v, 0, "donde no te")
    ensures MatchLen(v).Some? && MatchLen(v).value >= 11
  {
    var rest := v[5..];
    var n := SpanLen(rest, NotNewline);
    assert forall k :: 0 <= k < 6 ==> LowerChar(rest[k]) == " no te"[k] by {
      forall k | 0 <= k < 6 ensures LowerChar(rest[k]) == " no te"[k] {
        assert rest[k] == v[5 + k];
        assert LowerChar(v[5 + k]) == "donde no te"[5 + k];
      }
    }
    assert n >= 6 by {
      if n < 6 {
        assert !NotNewline(rest[n]);
        assert LowerChar(rest[n]) == " no te"[n];
      }
    }
    var line := rest[..n];
    assert LitAt(line, 4, "te");
    assert LastTe(line).Some? && LastTe(line).value >= 4;
  }

  /** A text in which the pattern matches nowhere comes back unchanged. */
  lemma {:induction false} ScrubNoMatch(v: string)
    requires forall i :: 0 <= i <= |v| ==> MatchLen(v[i..]).None?
    ensures Scrub(v) == v
    decreases |v|
  {
    if v != [] {
      assert MatchLen(v[0..]).None? && v[0..] == v;
      forall i | 0 <= i <= |v[1..]| ensures MatchLen(v[1..][i..]).None? {
        assert v[1..][i..] == v[i + 1..];
      }
      ScrubNoMatch(v[1..]);
      assert [v[0]] + v[1..] == v;
    }
  }

  /** The table service never stores an empty or filler pharmacy: such a value becomes "No disponible". */
  lemma PharmacyCellMeaningful(p: string)
    ensures PharmacyCell(p) != ""
    ensures Lower(PharmacyCell(p)) != "donde"
    ensures PharmacyCell(p) != "No disponible" ==> !IsBlank(PharmacyCell(p))
  {
    var q := PharmacyCell(p);
    if q != "No disponible" {
      StripOfScrubNotBlank(p);
    } else {
      assert |Lower(q)| == 13;
    }
  }

  lemma StripOfScrubNotBlank(p: string)
    ensures Strip(Scrub(p)) != "" ==> !IsBlank(Strip(Scrub(p)))
  {
    StripIsSlice(Scrub(p));
  }

  /** A value the completeness check rewrites is never blank-padded: what it keeps is its own strip. */
  lemma PharmacyCheckedStripped(p: string)
    requires PharmacyChecked(p) != p
    ensures PharmacyChecked(p) == "" || Strip(PharmacyChecked(p)) == PharmacyChecked(p)
  {
    StripIdempotent(Scrub(p));
  }

  /** A pharmacy without boilerplate and without surrounding spaces passes the completeness check untouched. */
  lemma PharmacyCheckedKeepsClean(p: string)
    requires forall i :: 0 <= i <= |p| ==> MatchLen(p[i..]).None?
    requires |p| > 0 ==> !IsSpace(p[0]) && !IsSpace(p[|p| - 1])
    ensures PharmacyChecked(p) == p
  {
    ScrubNoMatch(p);
    StripOfStripped(p);
  }
}
