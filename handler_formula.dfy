/**
 * The prescription and consent steps of src/handler.py: storing an analysed
 * prescription in the session, showing its summary, and the answer to the
 * consent question.
 */
module HandlerFormula {
  import opened Wrappers
  import opened Text
  import opened Steps
  import opened JsonValues
  import opened Sessions
  import opened ModelSessions
  import opened Prescription
  import opened MedicationSelection

  /**
   * `actualizar_datos_formula(user_session, formula_result)`: the prescription
   * dict and its EPS are stored; a non-empty medicine list also replaces the
   * numbered text and the array the selector reads, an empty one leaves the
   * previous ones in place. (Re-assigning `diagnostico` to itself changes
   * nothing.)
   */
  function ApplyFormula(r: Record, res: FormulaResult): (u: Record)
    ensures u.formulaData == Some(res.datos) && u.eps == Get(res.datos, "eps", JStr(""))
    ensures Truthy(Get(res.datos, "medicamentos", JArr([]))) ==>
      u.context == ContextVars(Some(Numbered(MedNames(res.datos))), Some(MedNames(res.datos)))
    ensures !Truthy(Get(res.datos, "medicamentos", JArr([]))) ==> u.context == r.context
    ensures u.(formulaData := r.formulaData, eps := r.eps, context := r.context) == r
  {
    var u := r.(formulaData := Some(res.datos), eps := Get(res.datos, "eps", JStr("")));
    if Truthy(Get(res.datos, "medicamentos", JArr([]))) then
      u.(context := u.context.(medsList := Some(Numbered(MedNames(res.datos))), medsArray := Some(MedNames(res.datos))))
    else u
  }

  /** The selector then chooses among exactly the prescribed medicines, in prescription order. */
  lemma AppliedMedicinesAreSelectable(r: Record, res: FormulaResult)
    requires MedItems(res.datos) != []
    ensures MedsArray(ApplyFormula(r, res)) == MedNames(res.datos)
    ensures |MedsArray(ApplyFormula(r, res))| == |MedItems(res.datos)|
  {
    var m := Get(res.datos, "medicamentos", JArr([]));
    assert m.JArr? && m.items != [];
  }

  /** `mostrar_resumen_formula`: the summary is shown, the medicines are asked for, and the summary is said. */
  function ShowSummary(r: Record): (u: Record)
    ensures u.summaryShown == Some(true) && u.currentStep == Some(EsperandoMedicamentos)
    ensures u.history == r.history + [Turn(Assistant, Fixed(FormulaSummary))]
    ensures u.(summaryShown := r.summaryShown, currentStep := r.currentStep, history := r.history) == r
  {
    r.(summaryShown := Some(true), currentStep := Some(EsperandoMedicamentos),
       history := r.history + [Turn(Assistant, Fixed(FormulaSummary))])
  }

  /** The words of the consent pattern; `re.search` with `re.I` finds any of them anywhere. */
  const AffirmativeWords := ["si", "sí", "claro", "ok", "dale", "autorizo", "acepto", "por supuesto", "listo", "adelante"]

  predicate Affirmative(text: string) {
    ContainsAny(Lower(text), AffirmativeWords)
  }

  /** `manejar_consentimiento(user_session, text)`. */
  function Consent(r: Record, text: string): (u: Record)
  {
    if Affirmative(text) then
      var yes := r.(consented := true, awaitingApproval := false);
      if r.pendingMedia.Some? then
        ShowSummary(ApplyFormula(yes, r.pendingMedia.value).(currentStep := Some(FormulaAnalizada), pendingMedia := None))
      else yes.(history := r.history + [Turn(Assistant, Fixed(ConsentThanks))])
    else
      r.(awaitingApproval := false, pendingMedia := None,
         history := r.history + [Turn(Assistant, Fixed(ConsentRefused))])
  }

  /**
   * A yes with a pending analysis consents, stores that prescription, drops
   * the pending copy and shows the summary, waiting for the missing
   * medicines; user, complaint and personal fields stay as they were.
   */
  lemma ConsentAppliesPending(r: Record, text: string)
    requires Affirmative(text) && r.pendingMedia.Some?
    ensures Consent(r, text).consented && !Consent(r, text).awaitingApproval
    ensures Consent(r, text).pendingMedia.None?
    ensures Consent(r, text).formulaData == Some(r.pendingMedia.value.datos)
    ensures Consent(r, text).currentStep == Some(EsperandoMedicamentos) && Consent(r, text).summaryShown == Some(true)
    ensures Consent(r, text).history == r.history + [Turn(Assistant, Fixed(FormulaSummary))]
    ensures Consent(r, text).complaint == r.complaint && Consent(r, text).missingMeds == r.missingMeds
    ensures Consent(r, text).userId == r.userId && Consent(r, text).city == r.city
  {
  }

  /** A yes without a pending analysis only records the consent and thanks. */
  lemma ConsentWithoutPending(r: Record, text: string)
    requires Affirmative(text) && r.pendingMedia.None?
    ensures Consent(r, text) == r.(consented := true, awaitingApproval := false,
                                   history := r.history + [Turn(Assistant, Fixed(ConsentThanks))])
  {
  }

  /** Any other answer stops waiting and drops the analysis, but never withdraws a consent already given. */
  lemma RefusalKeepsConsent(r: Record, text: string)
    requires !Affirmative(text)
    ensures Consent(r, text).consented == r.consented
    ensures !Consent(r, text).awaitingApproval && Consent(r, text).pendingMedia.None?
    ensures Consent(r, text).formulaData == r.formulaData && Consent(r, text).currentStep == r.currentStep
    ensures Consent(r, text).history == r.history + [Turn(Assistant, Fixed(ConsentRefused))]
  {
  }

  /** Either way the question is answered: the session no longer waits for approval. */
  lemma ConsentAnswers(r: Record, text: string)
    ensures !Consent(r, text).awaitingApproval
    ensures Consent(r, text).pendingMedia.None?
    ensures |Consent(r, text).history| == |r.history| + 1
    ensures StepAware(r) ==> StepAware(Consent(r, text))
  {
    if !Affirmative(text) {
      RefusalKeepsConsent(r, text);
    } else if r.pendingMedia.Some? {
      ConsentAppliesPending(r, text);
    } else {
      ConsentWithoutPending(r, text);
    }
  }

  /** The test has no word boundaries: a text that contains "si" inside a word is a yes. */
  lemma SubstringIsAffirmative(text: string, i: nat)
    requires i + 2 <= |text| && LowerChar(text[i]) == 's' && LowerChar(text[i + 1]) == 'i'
    ensures Affirmative(text)
  {
    var l := Lower(text);
    assert l[i..i + 2] == "si";
    ContainsWitness(l, "si", i);
    assert Contains(l, AffirmativeWords[0]);
  }

  /** So "no quisiera" ("I would rather not") grants consent. */
  lemma NoQuisieraConsents()
    ensures Affirmative("no quisiera")
  {
    var t := "no quisiera";
    assert t[6] == 's' && t[7] == 'i';
    SubstringIsAffirmative(t, 6);
  }

  // ------------------------------------------------------------ the in-place versions

  /** `actualizar_datos_formula` on the session. */
  method ActualizarDatosFormula(s: Session, res: FormulaResult)
    modifies s
    ensures s.data == ApplyFormula(old(s.data), res) && s.sessionId == old(s.sessionId)
  {
    s.data := s.data.(formulaData := Some(res.datos));
    s.data := s.data.(eps := Get(res.datos, "eps", JStr("")));
    var medicamentos := Get(res.datos, "medicamentos", JArr([]));
    if Truthy(medicamentos) {
      var names := MedNames(res.datos);
      s.data := s.data.(context := s.data.context.(medsList := Some(Numbered(names))));
      s.data := s.data.(context := s.data.context.(medsArray := Some(names)));
    }
  }

  /** `mostrar_resumen_formula` on the session. */
  method MostrarResumenFormula(s: Session)
    modifies s
    ensures s.data == ShowSummary(old(s.data)) && s.sessionId == old(s.sessionId)
  {
    s.data := s.data.(summaryShown := Some(true));
    s.data := s.data.(currentStep := Some(EsperandoMedicamentos));
    s.data := s.data.(history := s.data.history + [Turn(Assistant, Fixed(FormulaSummary))]);
  }

  /** `manejar_consentimiento` on the session. */
  method ManejarConsentimiento(s: Session, text: string)
    modifies s
    ensures s.data == Consent(old(s.data), text) && s.sessionId == old(s.sessionId)
  {
    if Affirmative(text) {
      s.data := s.data.(consented := true);
      s.data := s.data.(awaitingApproval := false);
      if s.data.pendingMedia.Some? {
        ActualizarDatosFormula(s, s.data.pendingMedia.value);
        s.data := s.data.(currentStep := Some(FormulaAnalizada));
        s.data := s.data.(pendingMedia := None);
        MostrarResumenFormula(s);
        return;
      }
      s.data := s.data.(history := s.data.history + [Turn(Assistant, Fixed(ConsentThanks))]);
    } else {
      s.data := s.data.(awaitingApproval := false);
      s.data := s.data.(pendingMedia := None);
      s.data := s.data.(history := s.data.history + [Turn(Assistant, Fixed(ConsentRefused))]);
    }
  }
}
