/** Worked inputs for the date normaliser, each checked against both copies. */
module DateExamples {
  import opened Wrappers
  import opened Text
  import opened Search
  import opened Dates

  /** "enero" is not inside "marzo": every window has a different first letter or is too short. */
  lemma NoEneroInMarzo()
    ensures !Contains("marzo", "enero")
  {
    forall i | 0 <= i <= 5 ensures !("enero" <= "marzo"[i..]) {
      if i == 0 { assert "marzo"[0] != "enero"[0]; }
    }
  }

  lemma MonthLookupMarzo()
    ensures MonthFrom("marzo", 0) == Some("03")
  {
    NoEneroInMarzo();
    assert MonthFrom("marzo", 0) == MonthFrom("marzo", 1);
    ContainsLonger("marzo", "febrero");
    assert MonthFrom("marzo", 1) == MonthFrom("marzo", 2);
    ContainsWitness("marzo", "marzo", 0);
  }

  /** The length of a maximal run, read off its ends. */
  lemma SpanExact(s: string, j: nat, n: nat, ok: char -> bool)
    requires j + n <= |s|
    requires forall k :: j <= k < j + n ==> ok(s[k])
    requires j + n == |s| || !ok(s[j + n])
    ensures SpanLen(s[j..], ok) == n
  {
  }

  /** How `extraer_fecha` decides once the three searches are known. */
  lemma DecideTextual(texto: string, y: nat, p: Parts)
    requires SearchValue(texto, SlashAt).None? && SearchValue(texto, TextualAt) == Some(p)
    requires FromWords(p, y).Some?
    ensures ExtraerFecha(texto, y) == FromWords(p, y)
    ensures ExtraerFechaMonolith(texto, y) == FromWords(p, y)
  {
  }

  lemma DecideInverted(texto: string, y: nat, p: Parts)
    requires SearchValue(texto, SlashAt).None? && SearchValue(texto, TextualAt).None?
    requires SearchValue(texto, InvertedAt) == Some(p)
    ensures ExtraerFecha(texto, y) == FromWords(p, y)
    ensures ExtraerFechaMonolith(texto, y).None?
  {
  }

  lemma MarzoWords(day: string, year: Option<string>, y: nat)
    requires DayLike(day) && |day| == 2
    ensures FromWords(Parts(day, "marzo", year), y)
      == Some(Render(day, "03", if year.Some? then year.value else NatToString(y)))
  {
    LowerMarzo();
    MonthLookupMarzo();
  }

  lemma DeAt(s: string, j: nat)
    requires j + 2 <= |s| && s[j] == 'd' && s[j + 1] == 'e'
    ensures WordAt(s, j, "de")
  {
    assert Lower(s[j..][..2]) == "de";
  }

  lemma LowerMarzo()
    ensures Lower("marzo") == "marzo"
  {
  }

  lemma TextualExampleYear(s: string)
    requires |s| == 19 && s[11] == ' ' && s[12] == 'd' && s[13] == 'e' && s[14] == ' ' && s[15..] == "2021"
    ensures TextualYear(s, 11) == Some("2021")
  {
    SpanExact(s, 11, 1, IsSpace);
    DeAt(s, 12);
    SpanExact(s, 14, 1, IsSpace);
    assert s[15..19] == "2021";
    assert AllDigits("2021");
  }

  lemma TextualExampleDe(s: string)
    requires |s| >= 7 && s[2] == ' ' && s[3] == 'd' && s[4] == 'e' && s[5] == ' ' && s[6] == 'm'
    ensures SpaceRun(s, 2) == 1 && WordAt(s, 3, "de") && SpaceRun(s, 5) == 1
  {
    SpanExact(s, 2, 1, IsSpace);
    DeAt(s, 3);
    SpanExact(s, 5, 1, IsSpace);
  }

  lemma TextualExampleMonth(s: string)
    requires |s| >= 12 && s[6..11] == "marzo" && s[11] == ' '
    ensures LetterRun(s, 6) == 5
  {
    assert forall k :: 6 <= k < 11 ==> IsMonthLetter(s[k]) by {
      assert forall k :: 6 <= k < 11 ==> s[k] == "marzo"[k - 6];
    }
    SpanExact(s, 6, 5, IsMonthLetter);
  }

  lemma TextualExampleAt(s: string)
    requires s == "15 de marzo de 2021"
    ensures TextualAt(s, 0) == Some(Parts("15", "marzo", Some("2021")))
  {
    assert s[6..11] == "marzo" && s[15..] == "2021" && s[0..2] == "15";
    TextualExampleParts(s);
  }

  lemma TextualExampleChars(s: string)
    requires |s| == 19 && s[2..6] == " de " && s[6..11] == "marzo" && s[11..15] == " de "
    ensures s[2] == ' ' && s[3] == 'd' && s[4] == 'e' && s[5] == ' ' && s[6] == 'm'
    ensures s[11] == ' ' && s[12] == 'd' && s[13] == 'e' && s[14] == ' '
  {
    assert s[2..6][0] == s[2] && s[2..6][1] == s[3] && s[2..6][2] == s[4] && s[2..6][3] == s[5];
    assert s[6..11][0] == s[6];
    assert s[11..15][0] == s[11] && s[11..15][1] == s[12] && s[11..15][2] == s[13] && s[11..15][3] == s[14];
  }

  lemma TextualExampleParts(s: string)
    requires |s| == 19 && s[0..2] == "15" && s[2..6] == " de " && s[6..11] == "marzo"
    requires s[11..15] == " de " && s[15..] == "2021"
    ensures TextualAt(s, 0) == Some(Parts("15", "marzo", Some("2021")))
  {
    TextualExampleChars(s);
    TextualExampleDe(s);
    TextualExampleMonth(s);
    TextualExampleYear(s);
    assert TextualTail(s, 2) == Some((s[6..11], TextualYear(s, 11)));
    assert AllDigits(s[0..2]) by {
      assert s[0..2] == "15";
    }
  }

  lemma TextualExampleSearches(s: string)
    requires s == "15 de marzo de 2021"
    ensures SearchValue(s, SlashAt).None?
    ensures SearchValue(s, TextualAt) == Some(Parts("15", "marzo", Some("2021")))
  {
    NoSeparatorNoSlash(s);
    TextualExampleAt(s);
    SearchAtStart(s, TextualAt, Parts("15", "marzo", Some("2021")));
  }

  lemma MarzoRendered(day: string, year: Option<string>, y: nat, yr: string)
    requires day == "15"
    requires yr == if year.Some? then year.value else NatToString(y)
    ensures FromWords(Parts(day, "marzo", year), y) == Some("15/03/" + yr)
  {
    MarzoWords(day, year, y);
    assert ZFill(day, 2) == day;
    assert Render(day, "03", yr) == "15/03/" + yr;
  }

  lemma TextualExampleWords(y: nat)
    ensures FromWords(Parts("15", "marzo", Some("2021")), y) == Some("15/03/2021")
  {
    MarzoWords("15", Some("2021"), y);
    assert Render("15", "03", "2021") == "15/03/2021";
  }

  /** "15 de marzo de 2021" normalises to "15/03/2021" in both copies. */
  lemma TextualExample(s: string, currentYear: nat)
    requires s == "15 de marzo de 2021"
    ensures ExtraerFecha(s, currentYear) == Some("15/03/2021")
    ensures ExtraerFechaMonolith(s, currentYear) == Some("15/03/2021")
  {
    TextualExampleSearches(s);
    TextualExampleWords(currentYear);
    DecideTextual(s, currentYear, Parts("15", "marzo", Some("2021")));
  }

  lemma SlashExample(currentYear: nat)
    ensures ExtraerFecha("15/03/2021", currentYear) == Some("15/03/2021")
  {
    NormalisedIsFixedPoint("15/03/2021", currentYear);
  }

  lemma InvertedExampleNoTextual(s: string)
    requires s == "marzo 15"
    ensures SearchValue(s, TextualAt).None?
  {
    assert SpaceRun(s, 7) == 0 && SpaceRun(s, 8) == 0;
    assert TextualTail(s, 7).None? && TextualTail(s, 8).None?;
    forall k | 0 <= k <= |s| ensures TextualAt(s, k).None? {
      if k < 6 { assert !IsDigit(s[k]); }
    }
    SearchMisses(s, TextualAt);
  }

  /** The month word and the space after it, in "marzo 15". */
  lemma InvertedExampleRuns(s: string)
    requires |s| == 8 && s[..5] == "marzo" && s[5] == ' ' && s[6] == '1' && s[7] == '5'
    ensures LetterRun(s, 0) == 5 && SpaceRun(s, 5) == 1
  {
    assert forall k :: 0 <= k < 5 ==> IsMonthLetter(s[k]) by {
      assert forall k :: 0 <= k < 5 ==> s[k] == "marzo"[k];
    }
    SpanExact(s, 0, 5, IsMonthLetter);
    SpanExact(s, 5, 1, IsSpace);
  }

  /** The day digits of "marzo 15", and no year after them. */
  lemma InvertedExampleDay(s: string)
    requires |s| == 8 && s[6] == '1' && s[7] == '5'
    ensures DayLen(s, 6) == 2 && InvertedYear(s, 8).None?
  {
    assert DigitsAt(s, 6, 2);
    assert SpaceRun(s, 8) == 0 by {
      assert s[8..] == "";
    }
  }

  lemma InvertedExampleAt(s: string)
    requires |s| == 8 && s[..5] == "marzo" && s[5] == ' ' && s[6] == '1' && s[7] == '5'
    ensures InvertedAt(s, 0) == Some(Parts("15", "marzo", None))
  {
    InvertedExampleRuns(s);
    InvertedExampleDay(s);
    assert s[6..8] == "15" && s[0..5] == "marzo";
  }

  lemma InvertedExampleSearches(s: string)
    requires s == "marzo 15"
    ensures SearchValue(s, SlashAt).None? && SearchValue(s, TextualAt).None?
    ensures SearchValue(s, InvertedAt) == Some(Parts("15", "marzo", None))
  {
    NoSeparatorNoSlash(s);
    InvertedExampleNoTextual(s);
    assert s[..5] == "marzo";
    InvertedExampleAt(s);
    SearchAtStart(s, InvertedAt, Parts("15", "marzo", None));
  }

  /** "marzo 15": the core reads the inverted form with the current year; the shorter copy finds nothing. */
  lemma InvertedExample(s: string, currentYear: nat)
    requires s == "marzo 15"
    ensures ExtraerFecha(s, currentYear) == Some("15/03/" + NatToString(currentYear))
    ensures ExtraerFechaMonolith(s, currentYear).None?
  {
    InvertedExampleSearches(s);
    MarzoRendered("15", None, currentYear, NatToString(currentYear));
    DecideInverted(s, currentYear, Parts("15", "marzo", None));
  }
}
