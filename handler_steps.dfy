/**
 * The step-by-step answer chain of `process_text_message` in
 * src/handler.py: at each ESPERANDO_* step the text is tested by that
 * step's rule; an accepted text stores its field, says a confirmation and
 * moves to the next step, and a rejected one falls through to the
 * conversational reply.
 */
module HandlerSteps {
  import opened Wrappers
  import opened Text
  import opened Steps
  import opened Sessions
  import opened ModelSessions
  import opened Questions
  import opened MedicationSelection
  import Dates
  import DataExtractor
  import ExtractorFacts

  /** Neither '?' nor '¿' appears: the text is not a question. */
  predicate NoQuestionMark(text: string) { '?' !in text && '¿' !in text }

  /** What every accepted step keeps: the keys of this revision, the complaint, the prescription, the consent and the user, with one reply said. */
  predicate Kept(r: Record, u: Record) {
    StepAware(u) && |u.history| == |r.history| + 1
    && u.complaint == r.complaint && u.formulaData == r.formulaData
    && u.consented == r.consented && u.userId == r.userId
    && u.lastProcessedTime == r.lastProcessedTime && r.history <= u.history && u.prior == r.prior
  }

  /** The new step, and a confirmation said. */
  function Advance(u: Record, step: Step): (v: Record)
    ensures v.currentStep == Some(step) && v.history == u.history + [Turn(Assistant, Fixed(Confirmation))]
  {
    u.(currentStep := Some(step), history := u.history + [Turn(Assistant, Fixed(Confirmation))])
  }

  // ------------------------------------------------------------ ESPERANDO_MEDICAMENTOS

  /**
   * The selection, then ESPERANDO_CIUDAD and `get_next_question`, then the
   * combined reply; a failed selection only answers. Either way the turn
   * is handled here.
   */
  function AcceptMeds(r: Record, text: string): (u: Record)
    requires StepAware(r)
    ensures Kept(r, u)
  {
    match MonolithChoice(text, MedsArray(r))
    case Some(v) =>
      UpdateKeepsStepAware(r, "medicamentos", v);
      var asked := NextQuestion(UpdateField(r, "medicamentos", v).(currentStep := Some(EsperandoCiudad))).1;
      asked.(history := asked.history + [Turn(Assistant, Fixed(Confirmation))])
    case None => r.(history := r.history + [Turn(Assistant, Fixed(SelectionReply))])
  }

  /** A real selection is stored, and the conversation moves on past the medicines question. */
  lemma SelectionMovesOn(r: Record, text: string)
    requires StepAware(r) && MonolithChoice(text, MedsArray(r)).Some?
    requires !IsBlank(MonolithChoice(text, MedsArray(r)).value)
    requires MonolithChoice(text, MedsArray(r)).value != UNSPECIFIED_MEDS
    ensures AcceptMeds(r, text).missingMeds == MonolithChoice(text, MedsArray(r))
    ensures AcceptMeds(r, text).currentStep != Some(EsperandoMedicamentos)
  {
    var v := MonolithChoice(text, MedsArray(r)).value;
    UpdateKeepsStepAware(r, "medicamentos", v);
    var r1 := UpdateField(r, "medicamentos", v).(currentStep := Some(EsperandoCiudad));
    assert FieldValue(UpdateField(r, "medicamentos", v), MissingMeds) == Some(v);
    assert r1.missingMeds == Some(v);
    KnownMedsNotAskedAgain(r1);
    var q := NextQuestion(r1).1;
    assert AcceptMeds(r, text) == q.(history := q.history + [Turn(Assistant, Fixed(Confirmation))]);
  }

  /** With the medicines known, `get_next_question` moves to a personal field or to COMPLETADO. */
  lemma KnownMedsNotAskedAgain(r: Record)
    requires StepAware(r) && MedsSpecified(r) && r.currentStep == Some(EsperandoCiudad)
    ensures NextQuestion(r).1.currentStep != Some(EsperandoMedicamentos)
    ensures NextQuestion(r).1.missingMeds == r.missingMeds
  {
    match FirstUnanswered(r, 0)
    case Some(i) =>
      assert NextQuestion(r).0 == Some(AskFor(Asked[i]));
    case None =>
  }

  /** A failed selection changes nothing but the reply. */
  lemma FailedSelectionAnswersOnly(r: Record, text: string)
    requires StepAware(r) && MonolithChoice(text, MedsArray(r)).None?
    ensures AcceptMeds(r, text) == r.(history := r.history + [Turn(Assistant, Fixed(SelectionReply))])
  {
  }

  // ------------------------------------------------------------ ESPERANDO_CIUDAD

  /** `^([A-Za-zÁáÉéÍíÓóÚúÜüÑñ\s]{3,})$`: the whole text is letters and spaces, at least three of them. */
  predicate CityText(text: string) {
    |text| >= 3 && forall i :: 0 <= i < |text| ==> DataExtractor.IsCityChar(text[i])
  }

  function AcceptCity(r: Record, text: string): (u: Option<Record>)
    ensures u.Some? <==> CityText(text)
    ensures u.Some? ==> u.value == Advance(UpdateField(r, "ciudad", Strip(text)), EsperandoCelular)
    ensures u.Some? && StepAware(r) ==> Kept(r, u.value)
  {
    if CityText(text) && NoQuestionMark(text) then
      Some(Advance(UpdateField(r, "ciudad", Strip(text)), EsperandoCelular))
    else None
  }

  /** A city text of spaces only is accepted: the step moves on and the city stays as it was. */
  lemma BlankCityAdvances(r: Record, text: string)
    requires |text| >= 3 && IsBlank(text)
    ensures AcceptCity(r, text).Some?
    ensures AcceptCity(r, text).value.city == r.city
    ensures AcceptCity(r, text).value.currentStep == Some(EsperandoCelular)
  {
    StripEmptyIffBlank(text);
  }

  /** Otherwise the stored city is the text without surrounding spaces: letters and inner spaces only. */
  lemma CityStored(r: Record, text: string)
    requires CityText(text) && !IsBlank(text)
    ensures AcceptCity(r, text).value.city == Strip(text)
    ensures forall i :: 0 <= i < |Strip(text)| ==> DataExtractor.IsCityChar(Strip(text)[i]) && !IsDigit(Strip(text)[i])
  {
    StrippedNotBlank(text);
    CityLetters(text);
  }

  /** Stripping a text that is not blank leaves a text that is not blank. */
  lemma StrippedNotBlank(text: string)
    requires !IsBlank(text)
    ensures !IsBlank(Strip(text))
  {
    StripEmptyIffBlank(text);
    StripIsSlice(text);
  }

  lemma CityLetters(text: string)
    requires CityText(text)
    ensures forall i :: 0 <= i < |Strip(text)| ==> DataExtractor.IsCityChar(Strip(text)[i]) && !IsDigit(Strip(text)[i])
  {
    StripIsSlice(text);
    var t, a := Strip(text), SpanLen(text, IsSpace);
    forall i | 0 <= i < |t| ensures DataExtractor.IsCityChar(t[i]) && !IsDigit(t[i]) {
      assert t[i] == text[a + i];
      ExtractorFacts.CityCharNotDigit(t[i]);
    }
  }

  // ------------------------------------------------------------ ESPERANDO_CELULAR

  /** The class `[+\d\s()-]`. */
  predicate PhoneChar(c: char) { c == '+' || IsDigit(c) || IsSpace(c) || c == '(' || c == ')' || c == '-' }

  /**
   * `re.match(r"^[+\d\s()-]{7,15}$", text)`: 7 to 15 characters of the
   * class, or 15 of them followed by the one newline that `$` may precede.
   */
  predicate PhoneText(text: string) {
    (7 <= |text| <= 15 && forall i :: 0 <= i < |text| ==> PhoneChar(text[i]))
    || (|text| == 16 && text[15] == '\n' && forall i :: 0 <= i < 15 ==> PhoneChar(text[i]))
  }

  predicate Removed(c: char) { IsSpace(c) || c == '(' || c == ')' || c == '-' }

  /** `re.sub(r"[\s()-]", "", text)`. */
  function PhoneDigits(text: string): (d: string)
    ensures |d| <= |text|
    ensures forall i :: 0 <= i < |d| ==> !Removed(d[i])
    ensures forall i :: 0 <= i < |d| ==> d[i] in text
  {
    if text == [] then []
    else
      var rest := PhoneDigits(text[1..]);
      assert forall i :: 0 <= i < |rest| ==> rest[i] in text;
      if Removed(text[0]) then rest else [text[0]] + rest
  }

  /** `word1\s+word2\s+...` at `i` of the lower-cased text. */
  predicate PhraseAt(t: string, i: nat, ws: seq<string>)
    decreases |ws|
  {
    if ws == [] then true
    else
      i + |ws[0]| <= |t| && t[i..i + |ws[0]|] == ws[0]
      && (|ws| == 1
          || (var n := SpanLen(t[i + |ws[0]|..], IsSpace); n > 0 && PhraseAt(t, i + |ws[0]| + n, ws[1..])))
  }

  /** `para\s+que\s+me\s+pides|por\s+que\s+me\s+pides`, case-insensitively: the user asks why. */
  predicate AsksWhy(text: string) {
    var t := Lower(text);
    exists i | 0 <= i <= |t| :: PhraseAt(t, i, ["para", "que", "me", "pides"]) || PhraseAt(t, i, ["por", "que", "me", "pides"])
  }

  function AcceptPhone(r: Record, text: string): (u: Option<Record>)
    ensures u.Some? <==> !AsksWhy(text) && PhoneText(text)
    ensures u.Some? ==> u.value == Advance(UpdateField(r, "celular", PhoneDigits(text)), EsperandoFechaNacimiento)
    ensures u.Some? && StepAware(r) ==> Kept(r, u.value)
  {
    if AsksWhy(text) then None
    else if PhoneText(text) && NoQuestionMark(text) then
      Some(Advance(UpdateField(r, "celular", PhoneDigits(text)), EsperandoFechaNacimiento))
    else None
  }

  lemma PhoneDigitsKeepClass(text: string)
    requires forall i :: 0 <= i < |text| ==> PhoneChar(text[i])
    ensures forall i :: 0 <= i < |PhoneDigits(text)| ==> PhoneDigits(text)[i] == '+' || IsDigit(PhoneDigits(text)[i])
  {
    var d := PhoneDigits(text);
    forall i | 0 <= i < |d| ensures d[i] == '+' || IsDigit(d[i]) {
      assert d[i] in text && !Removed(d[i]);
    }
  }

  /**
   * An accepted phone is stored without its spaces, brackets and dashes, as
   * at most fifteen characters, each '+' or a digit; a class-only text with
   * nothing left leaves the cellphone as it was.
   */
  lemma PhoneStoredClean(r: Record, text: string)
    requires AcceptPhone(r, text).Some?
    ensures AcceptPhone(r, text).value.cellphone == if IsBlank(PhoneDigits(text)) then r.cellphone else PhoneDigits(text)
    ensures |PhoneDigits(text)| <= 15
    ensures forall i :: 0 <= i < |PhoneDigits(text)| ==> PhoneDigits(text)[i] == '+' || IsDigit(PhoneDigits(text)[i])
  {
    CellphoneWritten(r, PhoneDigits(text), EsperandoFechaNacimiento);
    PhoneDigitsClean(text);
  }

  lemma CellphoneWritten(r: Record, d: string, step: Step)
    ensures Advance(UpdateField(r, "celular", d), step).cellphone == if IsBlank(d) then r.cellphone else d
  {
    var u := UpdateField(r, "celular", d);
    assert FieldValue(u, Cellphone) == if IsBlank(d) then FieldValue(r, Cellphone) else Some(d);
  }

  lemma PhoneDigitsClean(text: string)
    requires PhoneText(text)
    ensures |PhoneDigits(text)| <= 15
    ensures forall i :: 0 <= i < |PhoneDigits(text)| ==> PhoneDigits(text)[i] == '+' || IsDigit(PhoneDigits(text)[i])
  {
    if |text| == 16 {
      var d := PhoneDigits(text);
      assert text == text[..15] + ['\n'];
      PhoneDigitsAppend(text[..15], '\n');
      PhoneDigitsKeepClass(text[..15]);
    } else {
      PhoneDigitsKeepClass(text);
    }
  }

  lemma {:induction false} PhoneDigitsAppend(a: string, c: char)
    requires Removed(c)
    ensures PhoneDigits(a + [c]) == PhoneDigits(a)
    decreases |a|
  {
    if a == [] {
      assert PhoneDigits([c]) == PhoneDigits([]) by { assert [c][1..] == []; }
    } else {
      assert (a + [c])[1..] == a[1..] + [c];
      PhoneDigitsAppend(a[1..], c);
    }
  }

  // ------------------------------------------------------------ ESPERANDO_FECHA_NACIMIENTO

  function AcceptBirthDate(r: Record, text: string, year: nat): (u: Option<Record>)
    ensures u.Some? <==> Dates.ExtraerFechaMonolith(text, year).Some?
    ensures u.Some? && StepAware(r) ==> Kept(r, u.value)
  {
    match Dates.ExtraerFechaMonolith(text, year)
    case Some(f) => Some(Advance(UpdateField(r, "fechaNacimiento", f), EsperandoRegimen))
    case None => None
  }

  /** An accepted birth date is stored, always in the "DD/MM/Y..." form. */
  lemma BirthDateStored(r: Record, text: string, year: nat)
    requires AcceptBirthDate(r, text, year).Some?
    ensures AcceptBirthDate(r, text, year).value.birthDate == Dates.ExtraerFechaMonolith(text, year).value
    ensures Dates.DateShape(AcceptBirthDate(r, text, year).value.birthDate)
  {
    var f := Dates.ExtraerFechaMonolith(text, year).value;
    Dates.ExtraerFechaMonolithShape(text, year);
    assert !IsSpace(f[0]) by { assert AllDigits(f[..2]) && f[..2][0] == f[0]; }
  }

  // ------------------------------------------------------------ ESPERANDO_REGIMEN

  /** Contributivo is tested first: the word, or "c" / "con" alone; then Subsidiado, the word or "s" / "sub". */
  function RegimeOf(text: string): (v: Option<string>)
    ensures v.Some? ==> v.value in ["Contributivo", "Subsidiado"]
  {
    var tl := Strip(Lower(text));
    if Contains(tl, "contributivo") || tl == "c" || tl == "con" then Some("Contributivo")
    else if Contains(tl, "subsidiado") || tl == "s" || tl == "sub" then Some("Subsidiado")
    else None
  }

  function AcceptRegime(r: Record, text: string): (u: Option<Record>)
    ensures u.Some? <==> RegimeOf(text).Some?
    ensures u.Some? && StepAware(r) ==> Kept(r, u.value)
  {
    match RegimeOf(text)
    case Some(v) => Some(Advance(UpdateField(r, "regimen", v), EsperandoDireccion))
    case None => None
  }

  /** The regime is stored as one of the two names; this step alone does not look for question marks. */
  lemma RegimeStored(r: Record, text: string)
    requires AcceptRegime(r, text).Some?
    ensures AcceptRegime(r, text).value.regime == RegimeOf(text).value
    ensures AcceptRegime(r, text).value.regime in ["Contributivo", "Subsidiado"]
  {
    var v := RegimeOf(text).value;
    assert !IsSpace(v[0]);
  }

  /** A text naming both regimes is Contributivo. */
  lemma ContributivoBeforeSubsidiado(text: string)
    requires Contains(Strip(Lower(text)), "contributivo") && Contains(Strip(Lower(text)), "subsidiado")
    ensures RegimeOf(text) == Some("Contributivo")
  {
  }

  // ------------------------------------------------------------ ESPERANDO_DIRECCION and ESPERANDO_FARMACIA

  function AcceptAddress(r: Record, text: string): (u: Option<Record>)
    ensures u.Some? <==> |text| >= 5 && NoQuestionMark(text)
    ensures u.Some? ==> u.value == Advance(UpdateField(r, "direccion", text), EsperandoFarmacia)
    ensures u.Some? && StepAware(r) ==> Kept(r, u.value)
  {
    if |text| >= 5 && NoQuestionMark(text) then Some(Advance(UpdateField(r, "direccion", text), EsperandoFarmacia))
    else None
  }

  /** An address of five or more spaces is accepted: the step moves on and the address stays as it was. */
  lemma BlankAddressAdvances(r: Record, text: string)
    requires |text| >= 5 && IsBlank(text)
    ensures AcceptAddress(r, text).Some?
    ensures AcceptAddress(r, text).value.address == r.address
    ensures AcceptAddress(r, text).value.currentStep == Some(EsperandoFarmacia)
  {
  }

  /**
   * The pharmacy, then COMPLETADO and `generar_resumen_final`, which sends
   * the conversation back to ESPERANDO_MEDICAMENTOS when the medicines are
   * still missing; the reply is said. The forced save follows in the caller.
   */
  function AcceptPharmacy(r: Record, text: string): (u: Option<Record>)
    ensures u.Some? <==> |text| >= 2 && NoQuestionMark(text)
    ensures u.Some? && StepAware(r) ==> Kept(r, u.value)
  {
    if |text| >= 2 && NoQuestionMark(text) then
      var fin := ResumenFinal(UpdateField(r, "farmacia", text).(currentStep := Some(Completado)));
      var said := if fin.0.MedsFirst? then AskMeds else FinalSummary;
      Some(fin.1.(history := fin.1.history + [Turn(Assistant, Fixed(said))]))
    else None
  }

  /** An accepted pharmacy completes the conversation exactly when the missing medicines are known. */
  lemma PharmacyCompletes(r: Record, text: string)
    requires AcceptPharmacy(r, text).Some?
    ensures AcceptPharmacy(r, text).value.currentStep ==
      if MedsSpecified(r) then Some(Completado) else Some(EsperandoMedicamentos)
    ensures !IsBlank(text) ==> AcceptPharmacy(r, text).value.pharmacy == text
  {
    var u := UpdateField(r, "farmacia", text);
    assert u.missingMeds == r.missingMeds;
  }

  // ------------------------------------------------------------ the chain

  /** The step that an accepted text moves to, for the five steps that always move forward. */
  function NextStep(s: Step): Step {
    match s
    case EsperandoCiudad => EsperandoCelular
    case EsperandoCelular => EsperandoFechaNacimiento
    case EsperandoFechaNacimiento => EsperandoRegimen
    case EsperandoRegimen => EsperandoDireccion
    case EsperandoDireccion => EsperandoFarmacia
    case _ => s
  }

  /** The `if current_step == ...` chain; None means the turn falls through. */
  function StepAccept(r: Record, text: string, year: nat): (u: Option<Record>)
    requires StepAware(r)
    ensures u.Some? ==> Kept(r, u.value)
  {
    match r.currentStep.value
    case EsperandoMedicamentos => Some(AcceptMeds(r, text))
    case EsperandoCiudad => AcceptCity(r, text)
    case EsperandoCelular => AcceptPhone(r, text)
    case EsperandoFechaNacimiento => AcceptBirthDate(r, text, year)
    case EsperandoRegimen => AcceptRegime(r, text)
    case EsperandoDireccion => AcceptAddress(r, text)
    case EsperandoFarmacia => AcceptPharmacy(r, text)
    case _ => None
  }

  /** Each of the five middle steps moves exactly one step forward. */
  lemma OneStepForward(r: Record, text: string, year: nat)
    requires StepAware(r) && StepAccept(r, text, year).Some?
    requires r.currentStep.value in {EsperandoCiudad, EsperandoCelular, EsperandoFechaNacimiento, EsperandoRegimen, EsperandoDireccion}
    ensures StepAccept(r, text, year).value.currentStep == Some(NextStep(r.currentStep.value))
  {
  }

  /** A question is never accepted as a city, phone, address or pharmacy. */
  lemma QuestionsFallThrough(r: Record, text: string, year: nat)
    requires StepAware(r) && !NoQuestionMark(text)
    requires r.currentStep.value in {EsperandoCiudad, EsperandoCelular, EsperandoDireccion, EsperandoFarmacia}
    ensures StepAccept(r, text, year).None?
  {
    if r.currentStep.value == EsperandoCiudad {
      assert !CityText(text) by {
        var k :| 0 <= k < |text| && text[k] in "?¿";
        assert !DataExtractor.IsCityChar(text[k]);
      }
    } else if r.currentStep.value == EsperandoCelular {
      assert !PhoneText(text) by {
        var k :| 0 <= k < |text| && text[k] in "?¿";
        assert !PhoneChar(text[k]);
      }
    }
  }

  /** Outside the seven ESPERANDO_* steps of the chain a text always falls through. */
  lemma OtherStepsFallThrough(r: Record, text: string, year: nat)
    requires StepAware(r)
    requires r.currentStep.value in {Inicio, EsperandoFormula, EsperandoConsentimiento, FormulaAnalizada, Completado}
    ensures StepAccept(r, text, year).None?
  {
  }

  // ------------------------------------------------------------ the in-place chain

  method MedsStep(s: Session, text: string)
    requires StepAware(s.data)
    modifies s
    ensures s.data == AcceptMeds(old(s.data), text) && s.sessionId == old(s.sessionId)
  {
    ghost var d := s.data;
    var exito := ProcesarSeleccionMonolith(s, text);
    if exito {
      UpdateKeepsStepAware(d, "medicamentos", MonolithChoice(text, MedsArray(d)).value);
      s.data := s.data.(currentStep := Some(EsperandoCiudad));
      var q := GetNextQuestion(s);
      s.data := s.data.(history := s.data.history + [Turn(Assistant, Fixed(Confirmation))]);
    } else {
      s.data := s.data.(history := s.data.history + [Turn(Assistant, Fixed(SelectionReply))]);
    }
  }

  method CityStep(s: Session, text: string) returns (handled: bool)
    modifies s
    ensures handled == AcceptCity(old(s.data), text).Some? && s.sessionId == old(s.sessionId)
    ensures s.data == if handled then AcceptCity(old(s.data), text).value else old(s.data)
  {
    if CityText(text) && '?' !in text && '¿' !in text {
      var ciudad := Strip(text);
      ActualizarDatosContexto(s, "ciudad", ciudad);
      s.data := s.data.(currentStep := Some(EsperandoCelular));
      s.data := s.data.(history := s.data.history + [Turn(Assistant, Fixed(Confirmation))]);
      return true;
    }
    return false;
  }

  method PhoneStep(s: Session, text: string) returns (handled: bool)
    modifies s
    ensures handled == AcceptPhone(old(s.data), text).Some? && s.sessionId == old(s.sessionId)
    ensures s.data == if handled then AcceptPhone(old(s.data), text).value else old(s.data)
  {
    if AsksWhy(text) {
      return false;
    }
    if PhoneText(text) && '?' !in text && '¿' !in text {
      var celular := PhoneDigits(text);
      ActualizarDatosContexto(s, "celular", celular);
      s.data := s.data.(currentStep := Some(EsperandoFechaNacimiento));
      s.data := s.data.(history := s.data.history + [Turn(Assistant, Fixed(Confirmation))]);
      return true;
    }
    return false;
  }

  method BirthDateStep(s: Session, text: string, year: nat) returns (handled: bool)
    modifies s
    ensures handled == AcceptBirthDate(old(s.data), text, year).Some? && s.sessionId == old(s.sessionId)
    ensures s.data == if handled then AcceptBirthDate(old(s.data), text, year).value else old(s.data)
  {
    var fecha := Dates.ExtraerFechaMonolith(text, year);
    if fecha.Some? {
      ActualizarDatosContexto(s, "fechaNacimiento", fecha.value);
      s.data := s.data.(currentStep := Some(EsperandoRegimen));
      s.data := s.data.(history := s.data.history + [Turn(Assistant, Fixed(Confirmation))]);
      return true;
    }
    return false;
  }

  method RegimeStep(s: Session, text: string) returns (handled: bool)
    modifies s
    ensures handled == AcceptRegime(old(s.data), text).Some? && s.sessionId == old(s.sessionId)
    ensures s.data == if handled then AcceptRegime(old(s.data), text).value else old(s.data)
  {
    var tl := Strip(Lower(text));
    var regimen: string;
    if Contains(tl, "contributivo") || tl == "c" || tl == "con" {
      regimen := "Contributivo";
    } else if Contains(tl, "subsidiado") || tl == "s" || tl == "sub" {
      regimen := "Subsidiado";
    } else {
      return false;
    }
    ActualizarDatosContexto(s, "regimen", regimen);
    s.data := s.data.(currentStep := Some(EsperandoDireccion));
    s.data := s.data.(history := s.data.history + [Turn(Assistant, Fixed(Confirmation))]);
    return true;
  }

  method AddressStep(s: Session, text: string) returns (handled: bool)
    modifies s
    ensures handled == AcceptAddress(old(s.data), text).Some? && s.sessionId == old(s.sessionId)
    ensures s.data == if handled then AcceptAddress(old(s.data), text).value else old(s.data)
  {
    if |text| >= 5 && '?' !in text && '¿' !in text {
      ActualizarDatosContexto(s, "direccion", text);
      s.data := s.data.(currentStep := Some(EsperandoFarmacia));
      s.data := s.data.(history := s.data.history + [Turn(Assistant, Fixed(Confirmation))]);
      return true;
    }
    return false;
  }

  method PharmacyStep(s: Session, text: string) returns (handled: bool)
    modifies s
    ensures handled == AcceptPharmacy(old(s.data), text).Some? && s.sessionId == old(s.sessionId)
    ensures s.data == if handled then AcceptPharmacy(old(s.data), text).value else old(s.data)
  {
    if |text| >= 2 && '?' !in text && '¿' !in text {
      ActualizarDatosContexto(s, "farmacia", text);
      s.data := s.data.(currentStep := Some(Completado));
      var said := FinalSummary;
      if !MedsSpecified(s.data) {
        s.data := s.data.(currentStep := Some(EsperandoMedicamentos));
        said := AskMeds;
      }
      s.data := s.data.(history := s.data.history + [Turn(Assistant, Fixed(said))]);
      return true;
    }
    return false;
  }
}
