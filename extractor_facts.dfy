/** What the harvest of src/core/data_extractor.py guarantees about the record it writes. */
module ExtractorFacts {
  import opened Wrappers
  import opened Text
  import opened Search
  import opened Steps
  import opened Sessions
  import Dates
  import opened MedicationSelection
  import opened DataExtractor

  // ------------------------------------------------------------ the labelled loop

  /** The position in `patrones` of the one pattern that writes each field. */
  function PatternFor(f: Field): (n: nat)
    ensures n < |Patterns| && Writes(Patterns[n]) == Some(f)
  {
    match f
    case City => 0
    case Cellphone => 1
    case Pharmacy => 2
    case Address => 3
    case Regime => 4
    case MissingMeds => 5
    case BirthDate => 6
  }

  /** The field of each entry of `patrones`, through `campo_map`. */
  lemma PatternWrites()
    ensures Writes(Patterns[0]) == Some(City) && Writes(Patterns[1]) == Some(Cellphone)
    ensures Writes(Patterns[2]) == Some(Pharmacy) && Writes(Patterns[3]) == Some(Address)
    ensures Writes(Patterns[4]) == Some(Regime) && Writes(Patterns[5]) == Some(MissingMeds)
    ensures Writes(Patterns[6]) == Some(BirthDate)
  {
  }

  /** No two patterns write the same field. */
  lemma WritesOnce(n: nat, f: Field)
    requires n < |Patterns|
    ensures Writes(Patterns[n]) == Some(f) <==> PatternFor(f) == n
  {
    PatternWrites();
  }

  /** Of `pats`, only the pattern at `idx` writes `f`. */
  predicate OnlyWriter(pats: seq<Pattern>, idx: nat, f: Field) {
    forall j :: 0 <= j < |pats| ==> (Writes(pats[j]) == Some(f) <==> j == idx)
  }

  /** One more turn of the loop changes `f` only at the pattern that writes it. */
  lemma LabelledLast(prev: Record, texto: string, pats: seq<Pattern>, idx: nat, f: Field)
    requires pats != [] && OnlyWriter(pats, idx, f)
    ensures OnlyWriter(pats[..|pats| - 1], idx, f)
    ensures FieldValue(LabelledStep(prev, texto, pats[|pats| - 1]), f) ==
      if idx == |pats| - 1 && Qualified(texto, pats[idx]).Some? then Qualified(texto, pats[idx])
      else FieldValue(prev, f)
  {
  }

  /**
   * After a loop over any patterns of which only the one at `idx` writes
   * `f`, the field holds that pattern's value if it has run and qualified.
   */
  lemma {:induction false} LabelledPrefix(r: Record, texto: string, pats: seq<Pattern>, idx: nat, f: Field)
    requires OnlyWriter(pats, idx, f)
    ensures FieldValue(Labelled(r, texto, pats), f) ==
      if idx < |pats| && Qualified(texto, pats[idx]).Some? then Qualified(texto, pats[idx])
      else FieldValue(r, f)
  {
    if pats != [] {
      var init := pats[..|pats| - 1];
      LabelledLast(Labelled(r, texto, init), texto, pats, idx, f);
      LabelledPrefix(r, texto, init, idx, f);
      if idx < |init| {
        assert init[idx] == pats[idx];
      }
    }
  }

  /**
   * The loop over `patrones` leaves every field with its own pattern's
   * stripped capture when that is longer than two characters, and
   * untouched otherwise.
   */
  lemma LabelledField(r: Record, texto: string, f: Field)
    ensures FieldValue(Labelled(r, texto, Patterns), f) ==
      if Qualified(texto, Patterns[PatternFor(f)]).Some? then Qualified(texto, Patterns[PatternFor(f)])
      else FieldValue(r, f)
  {
    forall j | 0 <= j < |Patterns| ensures Writes(Patterns[j]) == Some(f) <==> j == PatternFor(f) {
      WritesOnce(j, f);
    }
    LabelledPrefix(r, texto, Patterns, PatternFor(f), f);
  }

  /** A stored value of a class pattern is made of that class's characters. */
  lemma QualifiedInClass(texto: string, pat: Pattern)
    requires pat.group.Lazy? && Qualified(texto, pat).Some?
    ensures forall i :: 0 <= i < |Qualified(texto, pat).value| ==> InClass(Qualified(texto, pat).value[i], pat.group.chars)
  {
    var g := Capture(texto, pat).value;
    StripIsSlice(g);
  }

  lemma CityCharNotDigit(c: char)
    requires IsCityChar(c)
    ensures !IsDigit(c)
  {
  }

  /** So the labelled city is letters and spaces only: never a digit, never punctuation. */
  lemma LabelledCityHasNoDigit(r: Record, texto: string)
    requires Qualified(texto, Patterns[0]).Some?
    ensures Labelled(r, texto, Patterns).city == Qualified(texto, Patterns[0]).value
    ensures forall i :: 0 <= i < |Labelled(r, texto, Patterns).city| ==> !IsDigit(Labelled(r, texto, Patterns).city[i])
  {
    LabelledField(r, texto, City);
    var v := Qualified(texto, Patterns[0]).value;
    QualifiedInClass(texto, Patterns[0]);
    forall i | 0 <= i < |v| ensures !IsDigit(v[i]) {
      assert InClass(v[i], CityChars);
      CityCharNotDigit(v[i]);
    }
  }

  lemma LowerKeepsSpace(c: char)
    requires IsSpace(c)
    ensures LowerChar(c) == c
  {
  }

  /** A regime word has no surrounding space, so stripping keeps it whole. */
  lemma RegimeWordStripped(g: string)
    requires Fits(g, RegimeWord)
    ensures Strip(g) == g
  {
    var w := Lower(g);
    assert |w| == |g| && |g| > 0;
    assert w[0] == LowerChar(g[0]) && w[|g| - 1] == LowerChar(g[|g| - 1]);
    assert w[0] in "cs" && w[|g| - 1] == 'o';
    if IsSpace(g[0]) { LowerKeepsSpace(g[0]); }
    if IsSpace(g[|g| - 1]) { LowerKeepsSpace(g[|g| - 1]); }
    StripOfStripped(g);
  }

  /** The labelled regime is one of the two words, in whatever case the text wrote it. */
  lemma LabelledRegimeIsAWord(r: Record, texto: string)
    requires Qualified(texto, Patterns[4]).Some?
    ensures Lower(Labelled(r, texto, Patterns).regime) in ["contributivo", "subsidiado"]
  {
    LabelledRegime(r, texto);
    assert Patterns[4].group == RegimeWord;
    QualifiedRegime(texto, Patterns[4]);
  }

  lemma LabelledRegime(r: Record, texto: string)
    ensures Labelled(r, texto, Patterns).regime ==
      if Qualified(texto, Patterns[4]).Some? then Qualified(texto, Patterns[4]).value else r.regime
  {
    LabelledField(r, texto, Regime);
  }

  lemma QualifiedRegime(texto: string, pat: Pattern)
    requires pat.group == RegimeWord && Qualified(texto, pat).Some?
    ensures Lower(Qualified(texto, pat).value) in ["contributivo", "subsidiado"]
  {
    RegimeWordStripped(Capture(texto, pat).value);
  }

  // ------------------------------------------------------------ the whole harvest

  /** The harvest raises exactly when the text looks like a bare city and the record has no `current_step`. */
  lemma PatronesRaisesIff(r: Record, texto: string, y: nat)
    ensures Patrones(r, texto, y).raised <==> BareCity(texto).Some? && r.currentStep.None?
    ensures Patrones(r, texto, y).raised ==> Patrones(r, texto, y).data == Labelled(r, texto, Patterns)
  {
    assert OtherFields(Labelled(r, texto, Patterns)) == OtherFields(r);
  }

  /** A bare city is the whole stripped text. */
  lemma BareCityIsStrippedText(texto: string)
    requires BareCity(texto).Some?
    ensures BareCity(texto).value == Strip(texto) && |Strip(texto)| >= 3
    ensures forall i :: 0 <= i < |Strip(texto)| ==> !IsDigit(Strip(texto)[i])
  {
    StripIdempotent(texto);
    var t := Strip(texto);
    forall i | 0 <= i < |t| ensures !IsDigit(t[i]) {
      CityCharNotDigit(t[i]);
    }
  }

  /** The bare-city check writes only at ESPERANDO_CIUDAD with no city yet, and then writes the whole stripped text as the city. */
  lemma BareCityOnlyAtCityStep(r: Record, texto: string)
    requires BareCityStep(r, texto) != r
    ensures r.currentStep == Some(EsperandoCiudad) && r.city == "" && BareCity(texto).Some?
    ensures BareCityStep(r, texto) == r.(city := Strip(texto))
  {
    BareCityIsStrippedText(texto);
    var u := UpdateField(r, "ciudad", BareCity(texto).value);
    assert u == r.(city := u.city);
  }

  /** A ten-digit number standing alone becomes the cellphone. */
  lemma PhoneStepStores(r: Record, texto: string)
    requires SearchValue(texto, PhoneAt).Some?
    ensures PhoneStep(r, texto).cellphone == SearchValue(texto, PhoneAt).value
    ensures |PhoneStep(r, texto).cellphone| == 10 && AllDigits(PhoneStep(r, texto).cellphone)
  {
    var v := SearchValue(texto, PhoneAt).value;
    var h := First(texto, 0, PhoneAt).value;
    assert PhoneAt(texto, h.pos) == Some(v);
    assert !IsSpace(v[0]);
  }

  /** "contributivo" is tested first: a text naming both regimes stores Contributivo. */
  lemma ContributivoWins(r: Record, texto: string)
    requires ContainsCI(texto, "contributivo")
    ensures RegimeStep(r, texto).regime == "Contributivo"
  {
    assert !IsBlank("Contributivo") by { assert !IsSpace("Contributivo"[0]); }
  }

  /** A field name containing "vivo" is routed to the city: the "vivo" of the address branch is never reached. */
  lemma VivoGoesToCity(campo: string)
    requires Contains(campo, "vivo")
    ensures Route(campo) == ToCity
  {
  }

  /** A correction is applied last, so its value wins over everything harvested before it. */
  lemma CorrectionWins(r: Record, texto: string, y: nat, g1: string, g2: string, f: Field)
    requires SearchValue(texto, CorrectionAt) == Some((g1, g2))
    requires Route(Strip(Lower(g1))) in {ToCity, ToCellphone, ToAddress, ToPharmacy}
    requires TargetField(Route(Strip(Lower(g1)))) == Some(f)
    requires !IsBlank(Strip(g2))
    requires !Patrones(r, texto, y).raised
    ensures FieldValue(Patrones(r, texto, y).data, f) == Some(Strip(g2))
  {
  }

  /** A correction that changes anything names a routed field, and writes what `CorrectionValue` reads from its value. */
  lemma CorrectedWritesValue(r: Record, campo: string, nuevo: string, y: nat)
    requires Corrected(r, campo, nuevo, y) != r
    ensures Route(campo) != Unrouted && CorrectionValue(Route(campo), nuevo, y).Some?
    ensures FieldValue(Corrected(r, campo, nuevo, y), TargetField(Route(campo)).value) == CorrectionValue(Route(campo), nuevo, y)
  {
    TipoOfWrites(Route(campo));
  }

  /** A birth-date correction writes only the date its value reads as. */
  lemma CorrectedDateParses(r: Record, campo: string, nuevo: string, y: nat)
    requires Corrected(r, campo, nuevo, y) != r && Route(campo) == ToBirthDate
    ensures Dates.ExtraerFecha(nuevo, y).Some? && Corrected(r, campo, nuevo, y).birthDate == Dates.ExtraerFecha(nuevo, y).value
  {
    CorrectedWritesValue(r, campo, nuevo, y);
  }

  /** A regime correction writes only the regime word its value contains, Contributivo tested first. */
  lemma CorrectedRegimeNamed(r: Record, campo: string, nuevo: string, y: nat)
    requires Corrected(r, campo, nuevo, y) != r && Route(campo) == ToRegime
    ensures ContainsCI(nuevo, "contributivo") || ContainsCI(nuevo, "subsidiado")
    ensures Corrected(r, campo, nuevo, y).regime == if ContainsCI(nuevo, "contributivo") then "Contributivo" else "Subsidiado"
  {
    CorrectedWritesValue(r, campo, nuevo, y);
  }

  /** The city, cellphone, address and pharmacy corrections write the value itself. */
  lemma CorrectedPlainValue(r: Record, campo: string, nuevo: string, y: nat)
    requires Corrected(r, campo, nuevo, y) != r && Route(campo) in {ToCity, ToCellphone, ToAddress, ToPharmacy}
    ensures FieldValue(Corrected(r, campo, nuevo, y), TargetField(Route(campo)).value) == Some(nuevo)
  {
    CorrectedWritesValue(r, campo, nuevo, y);
  }

  // ------------------------------------------------------------ the two entry points

  /** A user message with no `current_step` raises at once and changes nothing. */
  lemma MensajeWithoutStep(r: Record, texto: string, y: nat)
    requires r.currentStep.None?
    ensures Mensaje(r, texto, y) == Outcome(r, true)
  {
  }

  /** With a `current_step`, a user message never raises, and the step is left as it was. */
  lemma MensajeWithStep(r: Record, texto: string, y: nat)
    requires r.currentStep.Some?
    ensures !Mensaje(r, texto, y).raised
    ensures Mensaje(r, texto, y).data.currentStep == r.currentStep
  {
    var r1 := if r.currentStep == Some(EsperandoMedicamentos) && MedsArray(r) != []
              then SelectionStep(r, texto, MedsArray(r)) else r;
    assert OtherFields(r1) == OtherFields(r);
    PatronesRaisesIff(r1, texto, y);
  }

  /** A reply that announces the complaint marks the conversation completed, and then cannot raise. */
  lemma RespuestaCompletes(r: Record, respuesta: string, y: nat)
    requires AnnouncesCompletion(respuesta)
    ensures !Respuesta(r, respuesta, y).raised
    ensures Respuesta(r, respuesta, y).data.currentStep == Some(Completado)
  {
    var r1 := r.(currentStep := Some(Completado));
    PatronesRaisesIff(r1, respuesta, y);
  }

  /** A reply to a record without `current_step` raises when it looks like a bare city and announces nothing. */
  lemma RespuestaRaises(r: Record, respuesta: string, y: nat)
    requires r.currentStep.None? && !AnnouncesCompletion(respuesta)
    ensures Respuesta(r, respuesta, y).raised <==> BareCity(respuesta).Some?
  {
    PatronesRaisesIff(r, respuesta, y);
  }
}
