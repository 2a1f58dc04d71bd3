/**
 * `IntentHandler` (src/handlers/intent_handler.py): one text turn of the
 * split revision. The user's text is harvested for fields, the completeness
 * check runs, and then one of three paths answers through the chat service:
 * a lost prescription, an answer to the consent question, or the general
 * conversation, after which the model's reply is harvested too.
 *
 * The model's answer is the parameter `reply` (see module ChatService) and
 * the current year, which the date recogniser needs, is `year`.
 */
module IntentHandler {
  import opened Wrappers
  import opened Text
  import opened Steps
  import opened JsonValues
  import opened Sessions
  import opened Prescription
  import opened Cleanup
  import opened DataExtractor
  import opened ChatService
  import HandlerText
  import HandlerFormula
  import Prompts
  import opened MedicationSelection

  /** The answer when anything in the turn raises. */
  const ERROR := "Disculpa, ocurrió un error inesperado. Por favor, intenta nuevamente."

  /** The default the completeness check writes into an empty address. */
  const NO_ADDRESS := "No proporcionada"

  // ------------------------------------------------------------ _verificar_informacion_completa

  /** Everything a complaint needs; the address is not required. */
  predicate Complete(r: Record) {
    HasFormula(r) && r.consented && MedsSpecified(r) && r.city != "" && r.cellphone != ""
    && r.birthDate != "" && r.regime != "" && r.pharmacy != ""
  }

  /**
   * `_verificar_informacion_completa`: clean the city and the pharmacy, and
   * mark the process completed once everything is present, giving an empty
   * address its default. Nothing is ever marked not completed, and the step
   * is left alone.
   */
  function Verify(r: Record): (u: Record)
    ensures Keeps(r, u.(processCompleted := r.processCompleted)) && u.currentStep == r.currentStep
    ensures u.city == CityChecked(r.city) && u.pharmacy == PharmacyChecked(r.pharmacy)
    ensures u.processCompleted == Some(true) <==> r.processCompleted == Some(true) || Complete(u)
    ensures !Complete(u) ==> u.processCompleted == r.processCompleted
    ensures Complete(u) ==> u.address == (if r.address == "" then NO_ADDRESS else r.address)
    ensures !Complete(u) ==> u.address == r.address
  {
    var r1 := r.(city := CityChecked(r.city), pharmacy := PharmacyChecked(r.pharmacy));
    if Complete(r1) then
      r1.(address := if r1.address == "" then NO_ADDRESS else r1.address, processCompleted := Some(true))
    else r1
  }

  /** The check writes the city, the pharmacy, the address and the completion flag, and nothing else. */
  lemma VerifyFrame(r: Record)
    ensures Verify(r).(city := r.city, pharmacy := r.pharmacy, address := r.address, processCompleted := r.processCompleted) == r
  {
  }

  /** After the check the city is never one of the words that are not cities, and a completed record has an address. */
  lemma VerifiedFields(r: Record)
    ensures Lower(Verify(r).city) !in BAD_CITIES
    ensures Verify(r).processCompleted == Some(true) && r.processCompleted != Some(true) ==> Verify(r).address != ""
  {
  }

  /** A second check right after the first changes nothing in the completion flags or the city. */
  lemma VerifyTwiceSameCompletion(r: Record)
    ensures Verify(Verify(r)).city == Verify(r).city
    ensures Verify(r).processCompleted == Some(true) ==> Verify(Verify(r)).processCompleted == Some(true)
  {
  }

  // ------------------------------------------------------------ actualizar_datos_formula

  /**
   * `actualizar_datos_formula` of the intent handler: store the
   * prescription, take the patient as the user's name when it is a
   * non-empty text, copy the EPS, and keep the medicine names for the
   * selector when the list is not empty. (Unlike the monolith's version it
   * does not touch the numbered medicine text.)
   */
  function FormulaUpdate(r: Record, res: FormulaResult): (u: Record)
    ensures Keeps(r.(formulaData := u.formulaData), u) && u.currentStep == r.currentStep
    ensures u.formulaData == Some(res.datos) && u.eps == Get(res.datos, "eps", JStr(""))
    ensures var p := Get(res.datos, "paciente", JNull); u.name == if p.JStr? && p.s != "" then p.s else r.name
    ensures u.context.medsList == r.context.medsList
    ensures u.context.medsArray == if Truthy(Get(res.datos, "medicamentos", JArr([]))) then Some(MedNames(res.datos)) else r.context.medsArray
  {
    var datos := res.datos;
    var p := Get(datos, "paciente", JNull);
    var r1 := r.(formulaData := Some(datos));
    var r2 := if Truthy(p) && p.JStr? then r1.(name := p.s) else r1;
    var r3 := r2.(eps := Get(datos, "eps", JStr("")));
    if Truthy(Get(datos, "medicamentos", JArr([]))) then r3.(context := r3.context.(medsArray := Some(MedNames(datos))))
    else r3
  }

  /** The update writes the prescription, the name, the EPS and the medicine array, and nothing else. */
  lemma FormulaUpdateFrame(r: Record, res: FormulaResult)
    ensures FormulaUpdate(r, res).(formulaData := r.formulaData, name := r.name, eps := r.eps, context := r.context) == r
  {
  }

  /**
   * The two revisions store the same prescription, EPS and medicine names;
   * only the monolith also rebuilds the numbered medicine text, and only the
   * intent handler renames the user.
   */
  lemma FormulaUpdateAgreesWithMonolith(r: Record, res: FormulaResult)
    ensures FormulaUpdate(r, res).formulaData == HandlerFormula.ApplyFormula(r, res).formulaData
    ensures FormulaUpdate(r, res).eps == HandlerFormula.ApplyFormula(r, res).eps
    ensures FormulaUpdate(r, res).context.medsArray == HandlerFormula.ApplyFormula(r, res).context.medsArray
    ensures HandlerFormula.ApplyFormula(r, res).name == r.name
  {
  }

  // ------------------------------------------------------------ procesar_mensaje

  /** The closing words looked for in the lower-cased text. */
  const FAREWELL_WORDS := ["gracias", "adios", "chao", "hasta luego", "muchas gracias", "listo"]

  predicate Farewell(text: string) { ContainsAny(Lower(text), FAREWELL_WORDS) }

  /** What a closing message needs before it completes the process (the placeholder counts as missing medicines here). */
  predicate FarewellReady(r: Record) {
    HasFormula(r) && HasMissingMeds(r) && r.city != "" && r.cellphone != ""
  }

  /** The answer of a turn, the record after it, and whether an exception ended it. */
  datatype Handled = Handled(text: string, data: Record, failed: bool)

  function WithUserTurn(r: Record, text: string): (u: Record)
    ensures u == r.(history := r.history + [Turn(User, Said(text))])
  {
    r.(history := r.history + [Turn(User, Said(text))])
  }

  /** The fields no harvest, completeness check or chat call touches. */
  predicate Keeps(r: Record, u: Record) {
    u.processCompleted == r.processCompleted && u.consented == r.consented
    && u.awaitingApproval == r.awaitingApproval && u.pendingMedia == r.pendingMedia
    && u.hasGreeted == r.hasGreeted && u.isFirstInteraction == r.isFirstInteraction
    && u.formulaData == r.formulaData
  }

  /** The user's text is harvested only with a step set, and the harvest keeps the step set. */
  lemma MensajeOutcome(r: Record, text: string, year: nat)
    ensures Mensaje(r, text, year).raised <==> r.currentStep.None?
    ensures Mensaje(r, text, year).raised ==> Mensaje(r, text, year).data == r
    ensures Mensaje(r, text, year).data.currentStep == r.currentStep
    ensures Keeps(r, Mensaje(r, text, year).data)
  {
    if r.currentStep.Some? && r.currentStep != Some(EsperandoMedicamentos) {
      assert OtherFields(Patrones(r, text, year).data) == OtherFields(r);
    } else if r.currentStep == Some(EsperandoMedicamentos) && MedsArray(r) != [] {
      var r0 := SelectionStep(r, text, MedsArray(r));
      assert OtherFields(r0) == OtherFields(r);
      assert OtherFields(Patrones(r0, text, year).data) == OtherFields(r0);
    }
  }

  /** The reply is harvested without raising whenever a step is set, and a step stays set. */
  lemma RespuestaOutcome(r: Record, resp: string, year: nat)
    ensures r.currentStep.Some? ==> !Respuesta(r, resp, year).raised && Respuesta(r, resp, year).data.currentStep.Some?
    ensures Keeps(r, Respuesta(r, resp, year).data)
  {
    var r1 := if AnnouncesCompletion(resp) then r.(currentStep := Some(Completado)) else r;
    assert OtherFields(Labelled(r1, resp, Patterns)) == OtherFields(r1);
    assert OtherFields(Patrones(r1, resp, year).data) == OtherFields(r1);
  }

  /**
   * Record the user's text, let the model answer, and harvest the answer:
   * the part the lost-prescription path and the general path share. The
   * result's `failed` says whether the harvest raised.
   */
  function Converse(r: Record, text: string, reply: Option<string>, year: nat): Handled {
    var r1 := WithUserTurn(r, text);
    var a := Ask(r1, None, reply);
    var o := Respuesta(After(r1, a), a.text, year);
    Handled(a.text, o.data, o.raised)
  }

  lemma ConverseFacts(r: Record, text: string, reply: Option<string>, year: nat)
    ensures var c := Converse(r, text, reply, year);
      (r.currentStep.Some? ==> !c.failed && c.data.currentStep.Some?)
      && Keeps(r, c.data) && (c.text == APOLOGY || Some(c.text) == reply)
  {
    var r1 := WithUserTurn(r, text);
    var a := Ask(r1, None, reply);
    RespuestaOutcome(After(r1, a), a.text, year);
  }

  /** The lost-prescription path: greet, then converse. */
  function LostReply(r: Record, text: string, reply: Option<string>, year: nat): Handled {
    var c := Converse(r.(hasGreeted := true), text, reply, year);
    if c.failed then Handled(ERROR, c.data, true) else c
  }

  /**
   * The answer to the consent question: a yes with a pending prescription
   * consents and stores it; anything that is not a yes stops waiting and
   * drops the pending prescription. Either way the model answers.
   */
  function ConsentReply(r: Record, text: string, reply: Option<string>): Handled {
    var r2 := if HandlerFormula.Affirmative(text) && r.pendingMedia.Some?
      then FormulaUpdate(r.(consented := true, awaitingApproval := false), r.pendingMedia.value).(pendingMedia := None)
      else r.(awaitingApproval := false, pendingMedia := None);
    var r3 := WithUserTurn(r2, text);
    var a := Ask(r3, None, reply);
    Handled(a.text, After(r3, a), false)
  }

  lemma ConsentReplyFacts(r: Record, text: string, reply: Option<string>)
    ensures var h := ConsentReply(r, text, reply);
      !h.failed && !h.data.awaitingApproval && h.data.pendingMedia.None?
      && h.data.processCompleted == r.processCompleted && (h.text == APOLOGY || Some(h.text) == reply)
    ensures var h := ConsentReply(r, text, reply);
      HandlerFormula.Affirmative(text) && r.pendingMedia.Some? ==>
      h.data.consented && h.data.formulaData == Some(r.pendingMedia.value.datos)
    ensures var h := ConsentReply(r, text, reply);
      !(HandlerFormula.Affirmative(text) && r.pendingMedia.Some?) ==>
      h.data.consented == r.consented && h.data.formulaData == r.formulaData
  {
  }

  /** The closing-word check of the general path. */
  function Closing(r: Record, text: string): Record {
    if Farewell(text) && FarewellReady(r) then r.(processCompleted := Some(true)) else r
  }

  /**
   * What the general path does after the harvest: the completeness check,
   * the completion announced by the reply, and the end of the first
   * interaction.
   */
  function Finish(r: Record, answer: string): (u: Record)
    ensures u.isFirstInteraction == Some(false)
    ensures r.isFirstInteraction != Some(false) ==> u.hasGreeted
    ensures AnnouncesCompletion(answer) || r.processCompleted == Some(true) ==> u.processCompleted == Some(true)
    ensures u.consented == r.consented && u.awaitingApproval == r.awaitingApproval && u.currentStep == r.currentStep
  {
    var r6 := Verify(r);
    var r7 := if AnnouncesCompletion(answer) then r6.(processCompleted := Some(true)) else r6;
    if r7.isFirstInteraction != Some(false) then r7.(isFirstInteraction := Some(false), hasGreeted := true) else r7
  }

  /** The general path: the closing-word check, the conversation, then the finish. */
  function GeneralReply(r: Record, text: string, reply: Option<string>, year: nat): Handled {
    var c := Converse(Closing(r, text), text, reply, year);
    if c.failed then Handled(ERROR, c.data, true) else Handled(c.text, Finish(c.data, c.text), false)
  }

  /** The record the three paths start from: the text harvested and the completeness check run. */
  function Prepared(r: Record, text: string, year: nat): Record {
    Verify(Mensaje(r, text, year).data)
  }

  /** The path a prepared record takes. */
  datatype Path = Lost | ConsentAnswer | General

  function PathOf(r1: Record, text: string): Path {
    if HandlerText.IsLost(text) then Lost
    else if r1.awaitingApproval && !(HandlerFormula.Affirmative(text) && r1.pendingMedia.None?) then ConsentAnswer
    else General
  }

  /** The three paths. */
  function PathReply(r1: Record, text: string, reply: Option<string>, year: nat): Handled {
    match PathOf(r1, text)
    case Lost => LostReply(r1, text, reply, year)
    case ConsentAnswer => ConsentReply(r1, text, reply)
    case General => GeneralReply(Accepted(r1), text, reply, year)
  }

  /** A yes that reaches the general path still records the consent. */
  function Accepted(r1: Record): Record {
    if r1.awaitingApproval then r1.(consented := true, awaitingApproval := false) else r1
  }

  /** `procesar_mensaje(text, user_session)`. */
  function Procesar(r: Record, text: string, reply: Option<string>, year: nat): Handled {
    var m := Mensaje(r, text, year);
    if m.raised then Handled(ERROR, m.data, true) else PathReply(Verify(m.data), text, reply, year)
  }

  // ------------------------------------------------------------ properties

  /** What every path promises: no exception with a step set, one of the three answers, completion kept. */
  predicate PathPromise(r1: Record, reply: Option<string>, h: Handled) {
    (r1.currentStep.Some? ==> !h.failed)
    && (h.text == ERROR || h.text == APOLOGY || Some(h.text) == reply)
    && (r1.currentStep.Some? && r1.processCompleted == Some(true) ==> h.data.processCompleted == Some(true))
  }

  lemma LostFacts(r1: Record, text: string, reply: Option<string>, year: nat)
    ensures PathPromise(r1, reply, LostReply(r1, text, reply, year))
  {
    ConverseFacts(r1.(hasGreeted := true), text, reply, year);
  }

  lemma GeneralFacts(r2: Record, text: string, reply: Option<string>, year: nat)
    ensures PathPromise(r2, reply, GeneralReply(r2, text, reply, year))
  {
    ConverseFacts(Closing(r2, text), text, reply, year);
  }

  lemma PathFacts(r1: Record, text: string, reply: Option<string>, year: nat)
    ensures PathPromise(r1, reply, PathReply(r1, text, reply, year))
  {
    match PathOf(r1, text)
    case Lost => LostFacts(r1, text, reply, year);
    case ConsentAnswer => ConsentReplyFacts(r1, text, reply);
    case General => GeneralFacts(Accepted(r1), text, reply, year);
  }

  /** `procesar_mensaje` with a step set never raises; without one it answers the error and changes nothing. */
  lemma ProcesarFailsIffNoStep(r: Record, text: string, reply: Option<string>, year: nat)
    ensures Procesar(r, text, reply, year).failed <==> r.currentStep.None?
    ensures Procesar(r, text, reply, year).failed ==>
      Procesar(r, text, reply, year).text == ERROR && Procesar(r, text, reply, year).data == r
  {
    MensajeOutcome(r, text, year);
    PathFacts(Prepared(r, text, year), text, reply, year);
  }

  /** The turn answers the error, the model's reply, or the chat service's apology. */
  lemma ProcesarAnswer(r: Record, text: string, reply: Option<string>, year: nat)
    ensures var t := Procesar(r, text, reply, year).text; t == ERROR || t == APOLOGY || Some(t) == reply
  {
    PathFacts(Prepared(r, text, year), text, reply, year);
  }

  /** A completed process stays completed through any turn. */
  lemma CompletionNeverCleared(r: Record, text: string, reply: Option<string>, year: nat)
    requires r.processCompleted == Some(true)
    ensures Procesar(r, text, reply, year).data.processCompleted == Some(true)
  {
    MensajeOutcome(r, text, year);
    PathFacts(Prepared(r, text, year), text, reply, year);
  }

  /** A yes without a pending prescription takes the general path, which keeps the consent it records. */
  lemma PlainYesConsents(r1: Record, text: string, reply: Option<string>, year: nat)
    requires r1.currentStep.Some? && r1.awaitingApproval && !HandlerText.IsLost(text)
    requires HandlerFormula.Affirmative(text) && r1.pendingMedia.None?
    ensures var h := GeneralReply(Accepted(r1), text, reply, year);
      h.data.consented && !h.data.awaitingApproval && h.data.pendingMedia.None?
  {
    ConverseFacts(Closing(Accepted(r1), text), text, reply, year);
  }

  /** Any other answer takes the consent path. */
  lemma ConsentPathFacts(r1: Record, text: string, reply: Option<string>, year: nat)
    requires r1.awaitingApproval && !HandlerText.IsLost(text)
    requires !(HandlerFormula.Affirmative(text) && r1.pendingMedia.None?)
    ensures var h := PathReply(r1, text, reply, year);
      !h.data.awaitingApproval
      && (HandlerFormula.Affirmative(text) ==>
            h.data.consented && h.data.formulaData == Some(r1.pendingMedia.value.datos) && h.data.pendingMedia.None?)
      && (!HandlerFormula.Affirmative(text) ==> h.data.consented == r1.consented && h.data.pendingMedia.None?)
  {
    assert PathReply(r1, text, reply, year) == ConsentReply(r1, text, reply);
    ConsentReplyFacts(r1, text, reply);
  }

  /** With a step set, the turn is the path the prepared record takes. */
  lemma ProcesarTakesPath(r: Record, text: string, reply: Option<string>, year: nat)
    requires r.currentStep.Some?
    ensures Procesar(r, text, reply, year) == PathReply(Prepared(r, text, year), text, reply, year)
    ensures Keeps(r, Prepared(r, text, year).(processCompleted := r.processCompleted))
    ensures Prepared(r, text, year).currentStep == r.currentStep
  {
    MensajeOutcome(r, text, year);
  }

  /**
   * The answer to the consent question always ends the wait; only a yes
   * consents, and a pending prescription is then stored; anything else keeps
   * the consent as it was and drops the pending prescription.
   */
  lemma ConsentQuestionAnswered(r: Record, text: string, reply: Option<string>, year: nat)
    requires r.currentStep.Some? && r.awaitingApproval && !HandlerText.IsLost(text)
    ensures var h := Procesar(r, text, reply, year);
      !h.data.awaitingApproval
      && (HandlerFormula.Affirmative(text) ==> h.data.consented)
      && (HandlerFormula.Affirmative(text) && r.pendingMedia.Some? ==>
            h.data.formulaData == Some(r.pendingMedia.value.datos) && h.data.pendingMedia.None?)
      && (!HandlerFormula.Affirmative(text) ==> h.data.consented == r.consented && h.data.pendingMedia.None?)
  {
    ProcesarTakesPath(r, text, reply, year);
    ConsentAnswerPath(Prepared(r, text, year), text, reply, year);
  }

  lemma ConsentAnswerPath(r1: Record, text: string, reply: Option<string>, year: nat)
    requires r1.currentStep.Some? && r1.awaitingApproval && !HandlerText.IsLost(text)
    ensures var h := PathReply(r1, text, reply, year);
      !h.data.awaitingApproval
      && (HandlerFormula.Affirmative(text) ==> h.data.consented)
      && (HandlerFormula.Affirmative(text) && r1.pendingMedia.Some? ==>
            h.data.formulaData == Some(r1.pendingMedia.value.datos) && h.data.pendingMedia.None?)
      && (!HandlerFormula.Affirmative(text) ==> h.data.consented == r1.consented && h.data.pendingMedia.None?)
  {
    if HandlerFormula.Affirmative(text) && r1.pendingMedia.None? {
      assert PathReply(r1, text, reply, year) == GeneralReply(Accepted(r1), text, reply, year);
      PlainYesConsents(r1, text, reply, year);
    } else {
      ConsentPathFacts(r1, text, reply, year);
    }
  }

  /** A closing word completes the process once prescription, medicines, city and phone are known. */
  lemma FarewellCompletes(r: Record, text: string, reply: Option<string>, year: nat)
    requires r.currentStep.Some? && !r.awaitingApproval && !HandlerText.IsLost(text)
    requires Farewell(text) && FarewellReady(Prepared(r, text, year))
    ensures Procesar(r, text, reply, year).data.processCompleted == Some(true)
  {
    ProcesarTakesPath(r, text, reply, year);
    FarewellPath(Prepared(r, text, year), text, reply, year);
  }

  lemma FarewellPath(r1: Record, text: string, reply: Option<string>, year: nat)
    requires r1.currentStep.Some? && !r1.awaitingApproval && !HandlerText.IsLost(text)
    requires Farewell(text) && FarewellReady(r1)
    ensures PathReply(r1, text, reply, year).data.processCompleted == Some(true)
  {
    assert PathOf(r1, text) == General && Accepted(r1) == r1;
    ConverseFacts(Closing(r1, text), text, reply, year);
  }

  /** A conversational turn ends the first interaction; a reply announcing the filing completes the process. */
  lemma GeneralTurnFinishes(r: Record, text: string, reply: Option<string>, year: nat)
    requires r.currentStep.Some? && PathOf(Prepared(r, text, year), text) == General
    ensures Procesar(r, text, reply, year).data.isFirstInteraction == Some(false)
    ensures AnnouncesCompletion(Procesar(r, text, reply, year).text) ==>
      Procesar(r, text, reply, year).data.processCompleted == Some(true)
  {
    MensajeOutcome(r, text, year);
    var r1 := Prepared(r, text, year);
    ConverseFacts(Closing(Accepted(r1), text), text, reply, year);
  }

  // ------------------------------------------------------------ the in-place versions

  /** `_verificar_informacion_completa` on the session. */
  method VerificarInformacionCompleta(s: Session)
    modifies s
    ensures s.data == Verify(old(s.data)) && s.sessionId == old(s.sessionId)
  {
    CleanCity(s);
    CleanPharmacy(s);
    MarkComplete(s);
  }

  method CleanCity(s: Session)
    modifies s
    ensures s.data == old(s.data).(city := CityChecked(old(s.data).city)) && s.sessionId == old(s.sessionId)
  {
    if s.data.city != "" && Lower(s.data.city) in BAD_CITIES {
      s.data := s.data.(city := "");
    }
  }

  method CleanPharmacy(s: Session)
    modifies s
    ensures s.data == old(s.data).(pharmacy := PharmacyChecked(old(s.data).pharmacy)) && s.sessionId == old(s.sessionId)
  {
    if s.data.pharmacy != "" {
      var original := s.data.pharmacy;
      var limpio := Strip(Scrub(original));
      if limpio != original {
        s.data := s.data.(pharmacy := if |limpio| >= 3 then limpio else "");
      }
    }
  }

  /** The completion part of the check. */
  method MarkComplete(s: Session)
    modifies s
    ensures s.data == (if Complete(old(s.data))
      then old(s.data).(address := if old(s.data).address == "" then NO_ADDRESS else old(s.data).address, processCompleted := Some(true))
      else old(s.data))
    ensures s.sessionId == old(s.sessionId)
  {
    if Complete(s.data) {
      if s.data.address == "" {
        s.data := s.data.(address := NO_ADDRESS);
      }
      s.data := s.data.(processCompleted := Some(true));
    }
  }

  /** `actualizar_datos_formula` on the session. */
  method ActualizarDatosFormula(s: Session, res: FormulaResult)
    modifies s
    ensures s.data == FormulaUpdate(old(s.data), res) && s.sessionId == old(s.sessionId)
  {
    s.data := s.data.(formulaData := Some(res.datos));
    var paciente := Get(res.datos, "paciente", JNull);
    if Truthy(paciente) && paciente.JStr? {
      s.data := s.data.(name := paciente.s);
    }
    s.data := s.data.(eps := Get(res.datos, "eps", JStr("")));
    var medicamentos := Get(res.datos, "medicamentos", JArr([]));
    if Truthy(medicamentos) {
      s.data := s.data.(context := s.data.context.(medsArray := Some(MedNames(res.datos))));
    }
  }

  /** Append the user's text, ask the model, harvest its answer. */
  method ConverseTurn(s: Session, text: string, reply: Option<string>, year: nat) returns (answer: string, raised: bool)
    modifies s
    ensures Handled(answer, s.data, raised) == Converse(old(s.data), text, reply, year)
    ensures s.sessionId == old(s.sessionId)
  {
    s.data := s.data.(history := s.data.history + [Turn(User, Said(text))]);
    answer := AskOpenAI(s, None, reply);
    raised := ExtraerDatosDeRespuesta(s, answer, year);
  }

  /** The answer to the consent question on the session. */
  method ConsentTurn(s: Session, text: string, reply: Option<string>) returns (answer: string)
    modifies s
    ensures answer == ConsentReply(old(s.data), text, reply).text
    ensures s.data == ConsentReply(old(s.data), text, reply).data
    ensures s.sessionId == old(s.sessionId)
  {
    if HandlerFormula.Affirmative(text) && s.data.pendingMedia.Some? {
      s.data := s.data.(consented := true);
      s.data := s.data.(awaitingApproval := false);
      ActualizarDatosFormula(s, s.data.pendingMedia.value);
      s.data := s.data.(pendingMedia := None);
    } else {
      s.data := s.data.(awaitingApproval := false);
      s.data := s.data.(pendingMedia := None);
    }
    s.data := s.data.(history := s.data.history + [Turn(User, Said(text))]);
    answer := AskOpenAI(s, None, reply);
  }

  /** The closing-word check on the session. */
  method ClosingCheck(s: Session, text: string)
    modifies s
    ensures s.data == Closing(old(s.data), text) && s.sessionId == old(s.sessionId)
  {
    if Farewell(text) && FarewellReady(s.data) {
      s.data := s.data.(processCompleted := Some(true));
    }
  }

  /** The end of the general path on the session. */
  method FinishTurn(s: Session, answer: string)
    modifies s
    ensures s.data == Finish(old(s.data), answer) && s.sessionId == old(s.sessionId)
  {
    VerificarInformacionCompleta(s);
    if AnnouncesCompletion(answer) {
      s.data := s.data.(processCompleted := Some(true));
    }
    if s.data.isFirstInteraction != Some(false) {
      s.data := s.data.(isFirstInteraction := Some(false));
      s.data := s.data.(hasGreeted := true);
    }
  }

  /** The general path on the session. */
  method GeneralTurn(s: Session, text: string, reply: Option<string>, year: nat) returns (answer: string)
    modifies s
    ensures answer == GeneralReply(old(s.data), text, reply, year).text
    ensures s.data == GeneralReply(old(s.data), text, reply, year).data
    ensures s.sessionId == old(s.sessionId)
  {
    ClosingCheck(s, text);
    var raised;
    answer, raised := ConverseTurn(s, text, reply, year);
    if raised {
      return ERROR;
    }
    FinishTurn(s, answer);
  }

  /** The lost-prescription path on the session. */
  method LostTurn(s: Session, text: string, reply: Option<string>, year: nat) returns (answer: string)
    modifies s
    ensures answer == LostReply(old(s.data), text, reply, year).text
    ensures s.data == LostReply(old(s.data), text, reply, year).data
    ensures s.sessionId == old(s.sessionId)
  {
    s.data := s.data.(hasGreeted := true);
    var raised;
    answer, raised := ConverseTurn(s, text, reply, year);
    if raised {
      return ERROR;
    }
  }

  /** The three paths on the session. */
  method PathTurn(s: Session, text: string, reply: Option<string>, year: nat) returns (answer: string)
    modifies s
    ensures answer == PathReply(old(s.data), text, reply, year).text
    ensures s.data == PathReply(old(s.data), text, reply, year).data
    ensures s.sessionId == old(s.sessionId)
  {
    match PathOf(s.data, text)
    case Lost => answer := LostTurn(s, text, reply, year);
    case ConsentAnswer => answer := ConsentTurn(s, text, reply);
    case General =>
      AcceptTurn(s);
      answer := GeneralTurn(s, text, reply, year);
  }

  /** A yes that reaches the general path records the consent on the session. */
  method AcceptTurn(s: Session)
    modifies s
    ensures s.data == Accepted(old(s.data)) && s.sessionId == old(s.sessionId)
  {
    if s.data.awaitingApproval {
      s.data := s.data.(consented := true);
      s.data := s.data.(awaitingApproval := false);
    }
  }

  /** `procesar_mensaje` on the session. */
  method ProcesarMensaje(s: Session, text: string, reply: Option<string>, year: nat) returns (answer: string)
    modifies s
    ensures answer == Procesar(old(s.data), text, reply, year).text
    ensures s.data == Procesar(old(s.data), text, reply, year).data
    ensures s.sessionId == old(s.sessionId)
  {
    var raised := ExtraerDatosDeMensajeUsuario(s, text, year);
    if raised {
      return ERROR;
    }
    VerificarInformacionCompleta(s);
    answer := PathTurn(s, text, reply, year);
  }

  // ------------------------------------------------------------ the history query

  /** The request `consultar_historial_paciente` adds as a user turn. */
  const HISTORY_REQUEST := "Por favor, muéstrame mi historial de quejas anteriores."

  /** `consultar_historial_paciente`: the request as a user turn, then the chat call with no new message. */
  function HistoryQuery(r: Record, reply: Option<string>): (h: Handled) {
    var r1 := WithUserTurn(r, HISTORY_REQUEST);
    var a := Ask(r1, None, reply);
    Handled(a.text, After(r1, a), false)
  }

  /**
   * The answer is the model's or the apology; only the history changes, and
   * it ends with the request (the call failed) or with the request and the
   * answer (the call succeeded).
   */
  lemma HistoryQueryFacts(r: Record, reply: Option<string>)
    ensures var h := HistoryQuery(r, reply);
      (h.text == APOLOGY || Some(h.text) == reply)
      && h.data.(history := r.history) == r
      && |h.data.history| >= 1
      && (h.data.history == r.history + [Turn(User, Said(HISTORY_REQUEST))]
          || (reply.Some? && h.data.history[|h.data.history| - 1] == Turn(Assistant, Said(reply.value))
              && h.data.history[|h.data.history| - 2] == Turn(User, Said(HISTORY_REQUEST))))
  {
    var r1 := WithUserTurn(r, HISTORY_REQUEST);
    if Prompts.ServiceSystemPrompt(r1).Some? && reply.Some? {
      SuccessKeepsRecentTurns(r1, None, reply.value);
      var w := Window(r1.history);
      assert w[|w| - 1] == Turn(User, Said(HISTORY_REQUEST));
    }
  }

  /** `consultar_historial_paciente` on the session. */
  method ConsultarHistorialPaciente(s: Session, reply: Option<string>) returns (answer: string)
    modifies s
    ensures answer == HistoryQuery(old(s.data), reply).text
    ensures s.data == HistoryQuery(old(s.data), reply).data
    ensures s.sessionId == old(s.sessionId)
  {
    s.data := s.data.(history := s.data.history + [Turn(User, Said(HISTORY_REQUEST))]);
    answer := AskOpenAI(s, None, reply);
  }
}
