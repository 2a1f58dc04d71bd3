/**
 * `extraer_fecha`: the date normaliser of src/core/data_extractor.py and its
 * shorter copy in src/handler.py. Each regex is a recogniser at a position,
 * written so that it makes the same greedy choices Python's engine makes.
 */
module Dates {
  import opened Wrappers
  import opened Text
  import opened Search

  /** The captured groups of a date match. For the textual forms `month` is the month word. */
  datatype Parts = Parts(day: string, month: string, year: Option<string>)

  /** One or two ASCII digits, as `\d{1,2}` captures them. */
  predicate DayLike(d: string) { 1 <= |d| <= 2 && AllDigits(d) }

  predicate IsSep(c: char) { c == '/' || c == '-' }

  /** `[a-zñáéíóú]` under `re.I`. */
  predicate IsMonthLetter(c: char) {
    'a' <= c <= 'z' || 'A' <= c <= 'Z'
    || c == 'ñ' || c == 'Ñ' || c == 'á' || c == 'Á' || c == 'é' || c == 'É'
    || c == 'í' || c == 'Í' || c == 'ó' || c == 'Ó' || c == 'ú' || c == 'Ú'
  }

  /** `n` ASCII digits start at `i`. */
  predicate DigitsAt(s: string, i: nat, n: nat) {
    i + n <= |s| && AllDigits(s[i..i + n])
  }

  /** Length of the run of spaces that starts at `j` (`\s+` is greedy). */
  function SpaceRun(s: string, j: nat): (n: nat)
    ensures n > 0 ==> j + n <= |s| && IsSpace(s[j])
  {
    if j <= |s| then SpanLen(s[j..], IsSpace) else 0
  }

  function LetterRun(s: string, j: nat): (n: nat)
    ensures n > 0 ==> j + n <= |s| && IsMonthLetter(s[j])
  {
    if j <= |s| then SpanLen(s[j..], IsMonthLetter) else 0
  }

  /** A case-insensitive literal starts at `j`. */
  predicate WordAt(s: string, j: nat, w: string) {
    j <= |s| && StartsWithCI(s[j..], w)
  }

  // ------------------------------------------------ (\d{1,2})[/-](\d{1,2})[/-](\d{4})

  function YearAt(s: string, k: nat): Option<string> {
    if k < |s| && IsSep(s[k]) && DigitsAt(s, k + 1, 4) then Some(s[k + 1..k + 5]) else None
  }

  function MonthYearAt(s: string, k: nat): (r: Option<(string, string)>)
    ensures r.Some? ==> k + |r.value.0| + 5 <= |s|
  {
    if DigitsAt(s, k, 2) && YearAt(s, k + 2).Some? then Some((s[k..k + 2], YearAt(s, k + 2).value))
    else if DigitsAt(s, k, 1) && YearAt(s, k + 1).Some? then Some((s[k..k + 1], YearAt(s, k + 1).value))
    else None
  }

  function SlashTail(s: string, j: nat): (r: Option<(string, string)>)
    ensures r.Some? ==> j + |r.value.0| + 6 <= |s|
  {
    if j < |s| && IsSep(s[j]) then MonthYearAt(s, j + 1) else None
  }

  /** The slash/hyphen pattern matched at `i`; a two-digit day is tried before a one-digit day. */
  function SlashAt(s: string, i: nat): (r: Option<Parts>)
    ensures r.Some? ==> DayLike(r.value.day) && DayLike(r.value.month)
    ensures r.Some? ==> r.value.year.Some? && |r.value.year.value| == 4 && AllDigits(r.value.year.value)
    ensures r.Some? ==> i + 1 < |s| && IsDigit(s[i])
    ensures r.Some? ==> i + |r.value.day| + |r.value.month| + 6 <= |s|
  {
    var dl := if DigitsAt(s, i, 2) && SlashTail(s, i + 2).Some? then 2
              else if DigitsAt(s, i, 1) && SlashTail(s, i + 1).Some? then 1
              else 0;
    if dl == 0 then None
    else
      var t := SlashTail(s, i + dl).value;
      assert s[i..i + dl][0] == s[i];
      Some(Parts(s[i..i + dl], t.0, Some(t.1)))
  }

  // ------------------------------------------------ (\d{1,2})\s+de\s+([a-zñáéíóú]+)(?:\s+de\s+)?(\d{4})?

  /** The optional `(?:\s+de\s+)?(\d{4})?` after the month word ending at `e`. */
  function TextualYear(s: string, e: nat): (y: Option<string>)
    ensures y.Some? ==> |y.value| == 4 && AllDigits(y.value)
  {
    var w3 := SpaceRun(s, e);
    if w3 > 0 && WordAt(s, e + w3, "de") && SpaceRun(s, e + w3 + 2) > 0 then
      var y := e + w3 + 2 + SpaceRun(s, e + w3 + 2);
      if DigitsAt(s, y, 4) then Some(s[y..y + 4]) else None
    else if DigitsAt(s, e, 4) then Some(s[e..e + 4])
    else None
  }

  /** `\s+de\s+([a-zñáéíóú]+)` and the optional year, after the day digits ending at `j`. */
  function TextualTail(s: string, j: nat): (t: Option<(string, Option<string>)>)
    ensures t.Some? ==> |t.value.0| > 0
    ensures t.Some? && t.value.1.Some? ==> |t.value.1.value| == 4 && AllDigits(t.value.1.value)
  {
    var w1 := SpaceRun(s, j);
    if w1 == 0 || !WordAt(s, j + w1, "de") then None
    else
      var k := j + w1 + 2;
      var w2 := SpaceRun(s, k);
      if w2 == 0 then None
      else
        var m := k + w2;
        var ml := LetterRun(s, m);
        if ml == 0 then None
        else Some((s[m..m + ml], TextualYear(s, m + ml)))
  }

  function TextualAt(s: string, i: nat): (r: Option<Parts>)
    ensures r.Some? ==> DayLike(r.value.day) && |r.value.month| > 0
    ensures r.Some? && r.value.year.Some? ==> |r.value.year.value| == 4 && AllDigits(r.value.year.value)
    ensures r.Some? ==> i < |s| && IsDigit(s[i])
  {
    var dl := if DigitsAt(s, i, 2) && TextualTail(s, i + 2).Some? then 2
              else if DigitsAt(s, i, 1) && TextualTail(s, i + 1).Some? then 1
              else 0;
    if dl == 0 then None
    else
      var t := TextualTail(s, i + dl).value;
      assert s[i..i + dl][0] == s[i];
      Some(Parts(s[i..i + dl], t.0, t.1))
  }

  // ------------------------------------------------ ([a-zñáéíóú]+)\s+(\d{1,2})(?:,?\s+)?(\d{4})?

  function InvertedAt(s: string, i: nat): (r: Option<Parts>)
    ensures r.Some? ==> DayLike(r.value.day) && |r.value.month| > 0
    ensures r.Some? && r.value.year.Some? ==> |r.value.year.value| == 4 && AllDigits(r.value.year.value)
    ensures r.Some? ==> i < |s| && IsMonthLetter(s[i])
  {
    var ml := LetterRun(s, i);
    var w := SpaceRun(s, i + ml);
    var d := i + ml + w;
    var dl := DayLen(s, d);
    if ml == 0 || w == 0 || dl == 0 then None
    else
      assert i + ml <= |s| && IsMonthLetter(s[i]) && d + dl <= |s| && DayLike(s[d..d + dl]);
      Some(Parts(s[d..d + dl], s[i..i + ml], InvertedYear(s, d + dl)))
  }

  /** `\d{1,2}` at `d`, greedy: two digits when there are two. */
  function DayLen(s: string, d: nat): (n: nat)
    ensures n <= 2
    ensures n > 0 ==> d + n <= |s| && DayLike(s[d..d + n])
  {
    if DigitsAt(s, d, 2) then 2 else if DigitsAt(s, d, 1) then 1 else 0
  }

  /** `(?:,?\s+)?(\d{4})?` after the day digits ending at `e`. */
  function InvertedYear(s: string, e: nat): (y: Option<string>)
    ensures y.Some? ==> |y.value| == 4 && AllDigits(y.value)
  {
    var y0 :=
      if e < |s| && s[e] == ',' && SpaceRun(s, e + 1) > 0 then e + 1 + SpaceRun(s, e + 1)
      else e + SpaceRun(s, e);
    if DigitsAt(s, y0, 4) then Some(s[y0..y0 + 4]) else None
  }

  // ------------------------------------------------ month table and output

  const MonthNames: seq<string> :=
    ["enero", "febrero", "marzo", "abril", "mayo", "junio", "julio", "agosto",
     "septiembre", "octubre", "noviembre", "diciembre"]

  const MonthNumbers: seq<string> :=
    ["01", "02", "03", "04", "05", "06", "07", "08", "09", "10", "11", "12"]

  /** The first month name (in table order) that occurs inside the word. */
  function MonthFrom(word: string, k: nat): (r: Option<string>)
    requires k <= 12
    ensures r.Some? ==> r.value in MonthNumbers
    decreases 12 - k
  {
    if k == 12 then None
    else if Contains(word, MonthNames[k]) then Some(MonthNumbers[k])
    else MonthFrom(word, k + 1)
  }

  function Render(day: string, month: string, year: string): string {
    ZFill(day, 2) + "/" + month + "/" + year
  }

  /** The textual or inverted form: a known month word, and the current year when none was written. */
  function FromWords(p: Parts, currentYear: nat): Option<string> {
    match MonthFrom(Lower(p.month), 0)
    case None => None
    case Some(mm) => Some(Render(p.day, mm, if p.year.Some? then p.year.value else NatToString(currentYear)))
  }

  /** `DataExtractor.extraer_fecha` (src/core/data_extractor.py): slash, then "DD de mes", then "mes DD". */
  function ExtraerFecha(texto: string, currentYear: nat): Option<string> {
    match SearchValue(texto, SlashAt)
    case Some(p) => Some(Render(p.day, ZFill(p.month, 2), p.year.value))
    case None =>
      var t := SearchValue(texto, TextualAt);
      if t.Some? && FromWords(t.value, currentYear).Some? then FromWords(t.value, currentYear)
      else match SearchValue(texto, InvertedAt)
        case Some(p) => FromWords(p, currentYear)
        case None => None
  }

  /** `extraer_fecha` of src/handler.py: slash, then "DD de mes"; no inverted form. */
  function ExtraerFechaMonolith(texto: string, currentYear: nat): Option<string> {
    match SearchValue(texto, SlashAt)
    case Some(p) => Some(Render(p.day, ZFill(p.month, 2), p.year.value))
    case None =>
      match SearchValue(texto, TextualAt)
      case Some(p) => FromWords(p, currentYear)
      case None => None
  }

  // ------------------------------------------------ properties

  /** A normalised date: two digits, '/', two digits, '/', a non-empty digit year. */
  predicate DateShape(r: string) {
    |r| >= 7 && r[2] == '/' && r[5] == '/'
    && AllDigits(r[..2]) && AllDigits(r[3..5]) && AllDigits(r[6..])
  }

  lemma RenderShape(day: string, month: string, year: string)
    requires DayLike(day) && |month| == 2 && AllDigits(month)
    requires |year| >= 1 && AllDigits(year)
    ensures DateShape(Render(day, month, year))
    ensures |Render(day, month, year)| == 6 + |year|
  {
    var z := ZFill(day, 2);
    assert |z| == 2;
    assert AllDigits(z) by {
      if |day| == 1 { assert z == "0" + day; }
    }
    var r := Render(day, month, year);
    assert r[..2] == z;
    assert r[3..5] == month;
    assert r[6..] == year;
  }

  lemma ZFillMonth(m: string)
    requires DayLike(m)
    ensures |ZFill(m, 2)| == 2 && AllDigits(ZFill(m, 2))
  {
    if |m| == 1 { assert ZFill(m, 2) == "0" + m; }
  }

  lemma FromWordsShape(p: Parts, y: nat)
    requires DayLike(p.day)
    requires p.year.Some? ==> |p.year.value| == 4 && AllDigits(p.year.value)
    ensures FromWords(p, y).Some? ==> DateShape(FromWords(p, y).value)
    ensures FromWords(p, y).Some? && (p.year.Some? || 1000 <= y <= 9999) ==> |FromWords(p, y).value| == 10
  {
    var mm := MonthFrom(Lower(p.month), 0);
    if mm.Some? {
      var yr := if p.year.Some? then p.year.value else NatToString(y);
      if p.year.None? && 1000 <= y <= 9999 { NatToStringLength4(y); }
      RenderShape(p.day, mm.value, yr);
    }
  }

  lemma NatToStringLength4(n: nat)
    requires 1000 <= n <= 9999
    ensures |NatToString(n)| == 4
  {
    assert NatToString(n) == NatToString(n / 10) + [DigitChar(n % 10)];
    assert NatToString(n / 10) == NatToString(n / 100) + [DigitChar(n / 10 % 10)];
    assert NatToString(n / 100) == NatToString(n / 1000) + [DigitChar(n / 100 % 10)];
  }

  /** Every date `extraer_fecha` returns is DD/MM/digits, and it is ten characters long while the clock's year has four digits. */
  lemma ExtraerFechaShape(texto: string, currentYear: nat)
    ensures ExtraerFecha(texto, currentYear).Some? ==> DateShape(ExtraerFecha(texto, currentYear).value)
    ensures ExtraerFecha(texto, currentYear).Some? && 1000 <= currentYear <= 9999 ==>
      |ExtraerFecha(texto, currentYear).value| == 10
  {
    match SearchValue(texto, SlashAt)
    case Some(p) =>
      ZFillMonth(p.month);
      RenderShape(p.day, ZFill(p.month, 2), p.year.value);
    case None =>
      var t := SearchValue(texto, TextualAt);
      if t.Some? && FromWords(t.value, currentYear).Some? {
        FromWordsShape(t.value, currentYear);
      } else {
        match SearchValue(texto, InvertedAt)
        case Some(p) => FromWordsShape(p, currentYear);
        case None =>
      }
  }

  lemma ExtraerFechaMonolithShape(texto: string, currentYear: nat)
    ensures ExtraerFechaMonolith(texto, currentYear).Some? ==> DateShape(ExtraerFechaMonolith(texto, currentYear).value)
    ensures ExtraerFechaMonolith(texto, currentYear).Some? && 1000 <= currentYear <= 9999 ==>
      |ExtraerFechaMonolith(texto, currentYear).value| == 10
  {
    match SearchValue(texto, SlashAt)
    case Some(p) =>
      ZFillMonth(p.month);
      RenderShape(p.day, ZFill(p.month, 2), p.year.value);
    case None =>
      match SearchValue(texto, TextualAt)
      case Some(p) => FromWordsShape(p, currentYear);
      case None =>
  }

  /** A ten-character normalised date is read back by the slash pattern at position 0. */
  lemma SlashReadsNormalised(r: string)
    requires DateShape(r) && |r| == 10
    ensures SearchValue(r, SlashAt) == Some(Parts(r[..2], r[3..5], Some(r[6..])))
  {
    assert DigitsAt(r, 0, 2) && DigitsAt(r, 3, 2) && DigitsAt(r, 6, 4) by {
      assert r[0..2] == r[..2];
      assert r[6..10] == r[6..];
    }
    assert r[6..10] == r[6..];
    assert YearAt(r, 5) == Some(r[6..]);
    assert SlashTail(r, 2) == Some((r[3..5], r[6..]));
  }

  /** Normalising an already normalised date gives it back, in both copies. */
  lemma NormalisedIsFixedPoint(r: string, currentYear: nat)
    requires DateShape(r) && |r| == 10
    ensures ExtraerFecha(r, currentYear) == Some(r)
    ensures ExtraerFechaMonolith(r, currentYear) == Some(r)
  {
    SlashReadsNormalised(r);
    assert ZFill(r[..2], 2) == r[..2];
    assert ZFill(r[3..5], 2) == r[3..5];
    assert Render(r[..2], r[3..5], r[6..]) == r;
  }

  /** `extraer_fecha` is idempotent on its own output while the year has four digits. */
  lemma ExtraerFechaIdempotent(texto: string, currentYear: nat)
    requires 1000 <= currentYear <= 9999
    ensures ExtraerFecha(texto, currentYear).Some? ==>
      ExtraerFecha(ExtraerFecha(texto, currentYear).value, currentYear) == ExtraerFecha(texto, currentYear)
  {
    ExtraerFechaShape(texto, currentYear);
    if ExtraerFecha(texto, currentYear).Some? {
      NormalisedIsFixedPoint(ExtraerFecha(texto, currentYear).value, currentYear);
    }
  }

  /** Whenever the shorter copy finds a date, the core finds the same one: the core only adds the inverted form. */
  lemma MonolithRefinedByCore(texto: string, currentYear: nat)
    ensures ExtraerFechaMonolith(texto, currentYear).Some? ==>
      ExtraerFecha(texto, currentYear) == ExtraerFechaMonolith(texto, currentYear)
  {
  }

  lemma NoSeparatorNoSlash(s: string)
    requires forall k :: 0 <= k < |s| ==> !IsSep(s[k])
    ensures SearchValue(s, SlashAt).None?
  {
    assert forall k :: 0 <= k <= |s| ==> SlashAt(s, k).None?;
  }
}
