/**
 * `process_text_message` of src/handler.py up to the conversational reply:
 * the duplicate check, the stamp and the user turn, then the routing by
 * greeting, reset, new complaint, pending consent, lost prescription,
 * prescription request and the step chain. The first rule that applies
 * handles the turn.
 */
module HandlerText {
  import opened Wrappers
  import opened Text
  import opened Steps
  import opened JsonValues
  import opened Sessions
  import opened ModelSessions
  import opened Questions
  import opened Warehouse
  import opened HandlerSave
  import opened HandlerFormula
  import opened HandlerSteps
  import HandlerTail

  /** The parts of a Telegram update that the handler reads; an absent name or username is "". */
  datatype TextMessage = TextMessage(text: string, nowMs: nat, firstName: string, lastName: string, username: string)

  /**
   * `last_processed_time and current_time - last_processed_time < window`:
   * a stamp of 0 is falsy and never blocks.
   */
  predicate RecentWithin(r: Record, nowMs: nat, windowMs: nat) {
    r.lastProcessedTime.Some? && r.lastProcessedTime.value != 0 && nowMs < r.lastProcessedTime.value + windowMs
  }

  /** The stamp, the Telegram name, the username stored as the cellphone, and the user turn. */
  function Arrive(r: Record, m: TextMessage): (u: Record)
    ensures u.lastProcessedTime == Some(m.nowMs)
    ensures u.history == r.history + [Turn(User, Said(m.text))]
    ensures m.username != "" ==> u.cellphone == m.username
    ensures m.firstName != "" ==> u.name == if m.lastName == "" then m.firstName else m.firstName + " " + m.lastName
    ensures u.(lastProcessedTime := r.lastProcessedTime, history := r.history, name := r.name, cellphone := r.cellphone) == r
  {
    var name := if m.firstName == "" then r.name else if m.lastName == "" then m.firstName else m.firstName + " " + m.lastName;
    var cellphone := if m.username == "" then r.cellphone else m.username;
    r.(lastProcessedTime := Some(m.nowMs), name := name, cellphone := cellphone,
       history := r.history + [Turn(User, Said(m.text))])
  }

  /**
   * A user with a Telegram username has a cellphone after every text, so
   * `get_next_question` never asks for it.
   */
  lemma UsernameAnswersCellphone(r: Record, m: TextMessage)
    requires m.username != "" && r.collected.Some?
    ensures !Unanswered(Arrive(r, m), Cellphone)
  {
  }

  // ------------------------------------------------------------ the routing tests

  const Greetings := ["hola", "buenos días", "buenas tardes", "buenas noches", "saludos", "hey", "hi", "hello", "ey"]

  predicate IsGreeting(text: string) { ContainsAny(Lower(text), Greetings) }

  predicate IsReset(text: string) {
    Lower(text) == "/reset" || Contains(Lower(text), "empezar de nuevo") || Contains(Lower(text), "reiniciar")
  }

  const NewComplaintPhrases := ["nueva queja", "otra queja", "quiero hacer otra", "iniciar otra", "tramitar otra",
                                "reportar otro", "denunciar otro", "otro medicamento no entregado", "volver a empezar"]

  /** "queja" at `k`, with no line break between `j` and it. */
  predicate QuejaAt(t: string, j: nat, k: nat) {
    j <= k && k + 5 <= |t| && t[k..k + 5] == "queja" && '\n' !in t[j..k]
  }

  /** `.*queja` from `j`: "queja" further on the same line. */
  predicate QuejaAfter(t: string, j: nat) {
    exists k | j <= k <= |t| :: QuejaAt(t, j, k)
  }

  /** "otra " at `i`, then `.*queja`. */
  predicate OtraAt(t: string, i: nat) {
    i + 5 <= |t| && t[i..i + 5] == "otra " && QuejaAfter(t, i + 5)
  }

  /** `otra .*queja` in the lower-cased text. */
  predicate OtraQueja(t: string) {
    exists i | 0 <= i <= |t| :: OtraAt(t, i)
  }

  predicate IsNewComplaint(text: string) {
    ContainsAny(Lower(text), NewComplaintPhrases) || OtraQueja(Lower(text))
  }

  /** `perd[ií] la f[oó]rmula|no tengo la f[oó]rmula|...` with each class written out. */
  const LostPhrases := ["perdi la formula", "perdí la formula", "perdi la fórmula", "perdí la fórmula",
                        "no tengo la formula", "no tengo la fórmula", "se me perdi", "se me perdí",
                        "no la tengo", "se me dañó", "se me mojó", "no la encuentro"]

  predicate IsLost(text: string) { ContainsAny(Lower(text), LostPhrases) }

  /** No prescription yet, nothing pending, at the start: a plain text gets the prescription request. */
  predicate AsksForFormula(r: Record, text: string) {
    !HasFormula(r) && !HasPending(r) && (AtStep(r, Inicio) || AtStep(r, EsperandoFormula))
    && |text| > 3 && '/' !in text && NoQuestionMark(text)
  }

  // ------------------------------------------------------------ a new complaint

  /**
   * The complaint fields cleared for a new complaint, with a new unsaved
   * `queja_actual`. The step, the consent, the history, the earlier
   * complaints and `context_variables` (the previous medicine list) stay.
   */
  function FreshComplaint(r: Record, nowMs: nat): (u: Record)
    ensures u.complaint == Complaint(ComplaintId(r.userId, nowMs), false)
    ensures u.formulaData.None? && u.missingMeds.None? && u.eps == JStr("")
    ensures u.city == "" && u.cellphone == "" && u.birthDate == "" && u.regime == "" && u.address == "" && u.pharmacy == ""
    ensures u.summaryShown == Some(false) && u.collected == Some(NoFlags) && u.pharmacyBranch == Some("")
    ensures u.currentStep == r.currentStep && u.history == r.history && u.prior == r.prior
    ensures u.consented == r.consented && u.context == r.context && u.userId == r.userId
    ensures u.pendingMedia == r.pendingMedia && u.awaitingApproval == r.awaitingApproval && u.hasGreeted == r.hasGreeted
    ensures u.lastProcessedTime == r.lastProcessedTime
  {
    r.(complaint := Complaint(ComplaintId(r.userId, nowMs), false), city := "", eps := JStr(""),
       formulaData := None, missingMeds := None, summaryShown := Some(false), birthDate := "",
       regime := "", address := "", pharmacy := "", pharmacyBranch := Some(""), cellphone := "",
       collected := Some(NoFlags))
  }

  /** `if formula_data and not guardada: await save_user_data(data, True)`. */
  function SaveIfPending(r: Record, fecha: string, script: seq<Reply>): (res: SaveResult)
    ensures res.stored != [] ==> HasFormula(r) && !r.complaint.saved
    ensures res.data.(complaint := r.complaint, prior := r.prior) == r
    ensures res.used <= 2 && |res.stored| <= 1
  {
    if HasFormula(r) && !r.complaint.saved then MonolithSave(r, true, fecha, script)
    else SaveResult(false, r, [], 0)
  }

  // ------------------------------------------------------------ the turn

  /**
   * Which rule handled the turn. FallThrough is the step chain taking
   * nothing, after which the turn goes on to lines 953-1029 and ends as
   * Ended says; the conversational reply after that is not modelled here.
   */
  datatype Path = Dropped | Greeted | Restarted | NewComplaint | Consented | Lost | FormulaRequested | Stepped
                | FallThrough | Ended(how: HandlerTail.TailPath)

  /** The rule that handled the turn, the new record, and the table calls it made. */
  datatype TurnOut = TurnOut(path: Path, data: Record, stored: seq<Row>, used: nat)

  /** What every rule but the reset keeps: the keys of this revision, the user, the stamp, the history so far and the earlier complaints. */
  predicate Continues(a: Record, u: Record) {
    StepAware(u) && u.userId == a.userId && u.lastProcessedTime == a.lastProcessedTime
    && a.history <= u.history && a.prior <= u.prior
  }

  /** The routing after the stamp: greeting, reset and new complaint come before everything else. */
  function Routed(a: Record, text: string, nowMs: nat, year: nat, fecha: string, script: seq<Reply>): (o: TurnOut)
    requires StepAware(a)
    ensures o.path == Restarted ==> o.data == ResetRecord(a, nowMs)
    ensures o.path != Restarted ==> Continues(a, o.data)
    ensures o.used <= 2 && |o.stored| <= 1
  {
    if IsGreeting(text) && !a.hasGreeted then
      TurnOut(Greeted, a.(hasGreeted := true, currentStep := Some(EsperandoFormula)), [], 0)
    else if IsReset(text) then TurnOut(Restarted, ResetRecord(a, nowMs), [], 0)
    else if IsNewComplaint(text) then StartNew(a, nowMs, fecha, script)
    else Answered(a, text, year, fecha, script)
  }

  /** The new-complaint rule: the pending save, then the cleared record at ESPERANDO_FORMULA. */
  function StartNew(a: Record, nowMs: nat, fecha: string, script: seq<Reply>): (o: TurnOut)
    requires StepAware(a)
    ensures o.path == NewComplaint && Continues(a, o.data)
    ensures o.stored == SaveIfPending(a, fecha, script).stored && o.used <= 2 && |o.stored| <= 1
  {
    var sv := SaveIfPending(a, fecha, script);
    TurnOut(NewComplaint, FreshComplaint(sv.data, nowMs).(currentStep := Some(EsperandoFormula)), sv.stored, sv.used)
  }

  /** The rules after the new-complaint test. */
  function Answered(a: Record, text: string, year: nat, fecha: string, script: seq<Reply>): (o: TurnOut)
    requires StepAware(a)
    ensures Continues(a, o.data) && o.used <= 2 && |o.stored| <= 1
  {
    if a.awaitingApproval then ConsentAnswers(a, text); TurnOut(Consented, Consent(a, text), [], 0)
    else if IsLost(text) then TurnOut(Lost, a.(history := a.history + [Turn(Assistant, Fixed(FormulaLost))]), [], 0)
    else if AsksForFormula(a, text) then TurnOut(FormulaRequested, a, [], 0)
    else Unasked(a, text, year, fecha, script)
  }

  /** The step chain, then the corrections, the farewell and the COMPLETADO mark when no step takes the text. */
  function Unasked(a: Record, text: string, year: nat, fecha: string, script: seq<Reply>): (o: TurnOut)
    requires StepAware(a)
    ensures Continues(a, o.data) && o.used <= 2 && |o.stored| <= 1
    ensures o.path == Stepped || o.path.Ended?
    ensures o.path.Ended? <==> StepAccept(a, text, year).None?
  {
    var c := Chain(a, text, year, fecha, script);
    if c.path != FallThrough then c else Ending(a, text, fecha, script)
  }

  /** Lines 953-1029, as the end of the turn. */
  function Ending(a: Record, text: string, fecha: string, script: seq<Reply>): (o: TurnOut)
    requires StepAware(a)
    ensures Continues(a, o.data) && o.used <= 2 && |o.stored| <= 1
    ensures o.path == Ended(HandlerTail.Tail(a, text, fecha, script).path)
  {
    var e := HandlerTail.Tail(a, text, fecha, script);
    TurnOut(Ended(e.path), e.data, e.stored, e.used)
  }

  /** The step chain; an accepted pharmacy is followed by the forced save. */
  function Chain(a: Record, text: string, year: nat, fecha: string, script: seq<Reply>): (o: TurnOut)
    requires StepAware(a)
    ensures Continues(a, o.data) && o.used <= 2 && |o.stored| <= 1
    ensures o.path == Stepped || o.path == FallThrough
    ensures o.path == FallThrough <==> StepAccept(a, text, year).None?
    ensures o.path == FallThrough ==> o == TurnOut(FallThrough, a, [], 0)
  {
    match StepAccept(a, text, year)
    case None => TurnOut(FallThrough, a, [], 0)
    case Some(u) =>
      if AtStep(a, EsperandoFarmacia) then SaveKeeps(u, true, fecha, script); Saved(u, fecha, script)
      else TurnOut(Stepped, u, [], 0)
  }

  /** The forced save after the pharmacy. */
  function Saved(u: Record, fecha: string, script: seq<Reply>): (o: TurnOut)
  {
    var sv := MonolithSave(u, true, fecha, script);
    TurnOut(Stepped, sv.data, sv.stored, sv.used)
  }

  /** `process_text_message` up to the conversational reply. */
  function TextTurn(r: Record, m: TextMessage, year: nat, fecha: string, script: seq<Reply>): (o: TurnOut)
    requires StepAware(r)
    ensures StepAware(o.data)
  {
    if RecentWithin(r, m.nowMs, 2000) then TurnOut(Dropped, r, [], 0)
    else Routed(Arrive(r, m), m.text, m.nowMs, year, fecha, script)
  }

  // ------------------------------------------------------------ properties

  /** Any text within two seconds of the last stamp is dropped, whatever it says. */
  lemma CloseTextsDropped(r: Record, m: TextMessage, year: nat, fecha: string, script: seq<Reply>)
    requires StepAware(r) && RecentWithin(r, m.nowMs, 2000)
    ensures TextTurn(r, m, year, fecha, script) == TurnOut(Dropped, r, [], 0)
  {
  }

  /** A processed text is stamped and recorded before any rule, and nothing removes it. */
  lemma ProcessedTextIsRecorded(r: Record, m: TextMessage, year: nat, fecha: string, script: seq<Reply>)
    requires StepAware(r) && !RecentWithin(r, m.nowMs, 2000)
    ensures TextTurn(r, m, year, fecha, script).path != Dropped
    ensures TextTurn(r, m, year, fecha, script).data.lastProcessedTime == Some(m.nowMs)
    ensures |TextTurn(r, m, year, fecha, script).data.history| > |r.history|
    ensures TextTurn(r, m, year, fecha, script).data.history[|r.history|] == Turn(User, Said(m.text))
  {
    var a := Arrive(r, m);
    assert a.history[|r.history|] == Turn(User, Said(m.text));
  }

  /**
   * A new-complaint phrase first saves the current complaint if it has a
   * prescription and is unsaved, then starts a new unsaved complaint at
   * ESPERANDO_FORMULA with every collected field cleared and no question
   * asked yet.
   */
  lemma NewComplaintStartsOver(a: Record, text: string, nowMs: nat, year: nat, fecha: string, script: seq<Reply>)
    requires StepAware(a) && !(IsGreeting(text) && !a.hasGreeted) && !IsReset(text) && IsNewComplaint(text)
    ensures Routed(a, text, nowMs, year, fecha, script).path == NewComplaint
    ensures Routed(a, text, nowMs, year, fecha, script).stored == SaveIfPending(a, fecha, script).stored
    ensures Routed(a, text, nowMs, year, fecha, script).data.complaint == Complaint(ComplaintId(a.userId, nowMs), false)
    ensures Routed(a, text, nowMs, year, fecha, script).data.currentStep == Some(EsperandoFormula)
    ensures Routed(a, text, nowMs, year, fecha, script).data.formulaData.None?
    ensures Routed(a, text, nowMs, year, fecha, script).data.collected == Some(NoFlags)
    ensures forall f :: f != MissingMeds ==> Unanswered(Routed(a, text, nowMs, year, fecha, script).data, f)
  {
    var sv := SaveIfPending(a, fecha, script);
    assert sv.data.userId == a.userId;
    assert StartNew(a, nowMs, fecha, script).data == FreshComplaint(sv.data, nowMs).(currentStep := Some(EsperandoFormula));
  }

  /** A text waiting for consent is the answer to it, unless it greets first, resets or starts a new complaint. */
  lemma PendingConsentAnswered(a: Record, text: string, nowMs: nat, year: nat, fecha: string, script: seq<Reply>)
    requires StepAware(a) && a.awaitingApproval
    requires !(IsGreeting(text) && !a.hasGreeted) && !IsReset(text) && !IsNewComplaint(text)
    ensures Routed(a, text, nowMs, year, fecha, script) == TurnOut(Consented, Consent(a, text), [], 0)
  {
  }

  /** An accepted pharmacy is followed by the forced save of the completed record. */
  lemma PharmacyThenForcedSave(a: Record, text: string, nowMs: nat, year: nat, fecha: string, script: seq<Reply>)
    requires StepAware(a) && AtStep(a, EsperandoFarmacia) && !a.awaitingApproval
    requires !(IsGreeting(text) && !a.hasGreeted) && !IsReset(text) && !IsNewComplaint(text) && !IsLost(text)
    requires AcceptPharmacy(a, text).Some?
    ensures Routed(a, text, nowMs, year, fecha, script) == Saved(AcceptPharmacy(a, text).value, fecha, script)
  {
    PharmacyChainSaves(a, text, year, fecha, script);
    assert Routed(a, text, nowMs, year, fecha, script) == Unasked(a, text, year, fecha, script);
  }

  /** A text that no earlier rule and no step takes goes on to the corrections, the farewell and the COMPLETADO mark. */
  lemma UntakenTextEnds(a: Record, text: string, nowMs: nat, year: nat, fecha: string, script: seq<Reply>)
    requires StepAware(a) && !a.awaitingApproval
    requires !(IsGreeting(text) && !a.hasGreeted) && !IsReset(text) && !IsNewComplaint(text) && !IsLost(text)
    requires !AsksForFormula(a, text) && StepAccept(a, text, year).None?
    ensures Routed(a, text, nowMs, year, fecha, script) == Ending(a, text, fecha, script)
  {
    assert Routed(a, text, nowMs, year, fecha, script) == Unasked(a, text, year, fecha, script);
  }

  /** The step chain at ESPERANDO_FARMACIA, when the pharmacy is accepted. */
  lemma PharmacyChainSaves(a: Record, text: string, year: nat, fecha: string, script: seq<Reply>)
    requires StepAware(a) && AtStep(a, EsperandoFarmacia) && AcceptPharmacy(a, text).Some?
    ensures Chain(a, text, year, fecha, script) == Saved(AcceptPharmacy(a, text).value, fecha, script)
  {
    assert StepAccept(a, text, year) == AcceptPharmacy(a, text);
  }

  // ------------------------------------------------------------ the in-place turn

  /** The `if current_step == ...` chain on the session. */
  method AcceptStep(s: Session, text: string, year: nat) returns (handled: bool)
    requires StepAware(s.data)
    modifies s
    ensures s.sessionId == old(s.sessionId)
    ensures handled == StepAccept(old(s.data), text, year).Some?
    ensures s.data == if handled then StepAccept(old(s.data), text, year).value else old(s.data)
  {
    var step := s.data.currentStep.value;
    if step == EsperandoMedicamentos {
      MedsStep(s, text);
      handled := true;
    } else if step == EsperandoCiudad {
      handled := CityStep(s, text);
    } else if step == EsperandoCelular {
      handled := PhoneStep(s, text);
    } else if step == EsperandoFechaNacimiento {
      handled := BirthDateStep(s, text, year);
    } else if step == EsperandoRegimen {
      handled := RegimeStep(s, text);
    } else if step == EsperandoDireccion {
      handled := AddressStep(s, text);
    } else if step == EsperandoFarmacia {
      handled := PharmacyStep(s, text);
    } else {
      handled := false;
    }
  }

  /** The step chain, then the forced save after an accepted pharmacy; `handled` is false when the turn falls through. */
  method StepChain(s: Session, t: Table, text: string, year: nat, fecha: string) returns (handled: bool)
    requires StepAware(s.data) && t.Valid()
    modifies s, t
    ensures t.Valid() && t.schema == old(t.schema) && s.sessionId == old(s.sessionId)
    ensures handled <==> Chain(old(s.data), text, year, fecha, old(t.script)).path != FallThrough
    ensures s.data == Chain(old(s.data), text, year, fecha, old(t.script)).data
    ensures t.rows == old(t.rows) + Chain(old(s.data), text, year, fecha, old(t.script)).stored
    ensures t.script == Skip(old(t.script), Chain(old(s.data), text, year, fecha, old(t.script)).used)
    ensures !handled ==> s.data == old(s.data) && t.rows == old(t.rows) && t.script == old(t.script)
  {
    var pharmacy := AtStep(s.data, EsperandoFarmacia);
    handled := AcceptStep(s, text, year);
    if handled && pharmacy {
      var saved := SaveUserData(s, t, true, fecha);
    }
  }

  /** The rules after the new-complaint test, on the session. */
  method AnswerText(s: Session, t: Table, text: string, year: nat, fecha: string) returns (path: Path)
    requires StepAware(s.data) && t.Valid()
    modifies s, t
    ensures t.Valid() && t.schema == old(t.schema) && s.sessionId == old(s.sessionId)
    ensures path == Answered(old(s.data), text, year, fecha, old(t.script)).path
    ensures s.data == Answered(old(s.data), text, year, fecha, old(t.script)).data
    ensures t.rows == old(t.rows) + Answered(old(s.data), text, year, fecha, old(t.script)).stored
    ensures t.script == Skip(old(t.script), Answered(old(s.data), text, year, fecha, old(t.script)).used)
  {
    if s.data.awaitingApproval {
      ManejarConsentimiento(s, text);
      return Consented;
    }
    if IsLost(text) {
      s.data := s.data.(history := s.data.history + [Turn(Assistant, Fixed(FormulaLost))]);
      return Lost;
    }
    if AsksForFormula(s.data, text) {
      return FormulaRequested;
    }
    path := AnswerUnasked(s, t, text, year, fecha);
  }

  /** The step chain on the session, then the rest of `process_text_message` when it takes nothing. */
  method AnswerUnasked(s: Session, t: Table, text: string, year: nat, fecha: string) returns (path: Path)
    requires StepAware(s.data) && t.Valid()
    modifies s, t
    ensures t.Valid() && t.schema == old(t.schema) && s.sessionId == old(s.sessionId)
    ensures var o := Unasked(old(s.data), text, year, fecha, old(t.script));
      path == o.path && s.data == o.data && t.rows == old(t.rows) + o.stored && t.script == Skip(old(t.script), o.used)
  {
    var handled := StepChain(s, t, text, year, fecha);
    if handled {
      return Stepped;
    }
    path := EndText(s, t, text, fecha);
  }

  /** `Ending` on the session and the table. */
  method EndText(s: Session, t: Table, text: string, fecha: string) returns (path: Path)
    requires StepAware(s.data) && t.Valid()
    modifies s, t
    ensures t.Valid() && t.schema == old(t.schema) && s.sessionId == old(s.sessionId)
    ensures path == Ending(old(s.data), text, fecha, old(t.script)).path
    ensures s.data == Ending(old(s.data), text, fecha, old(t.script)).data
    ensures t.rows == old(t.rows) + Ending(old(s.data), text, fecha, old(t.script)).stored
    ensures t.script == Skip(old(t.script), Ending(old(s.data), text, fecha, old(t.script)).used)
  {
    var how := HandlerTail.FinishText(s, t, text, fecha);
    return Ended(how);
  }

  /** The new-complaint rule on the session: the pending save, then the cleared fields. */
  method StartNewComplaint(s: Session, t: Table, nowMs: nat, fecha: string)
    requires t.Valid()
    modifies s, t
    ensures t.Valid() && t.schema == old(t.schema) && s.sessionId == old(s.sessionId)
    ensures s.data == FreshComplaint(SaveIfPending(old(s.data), fecha, old(t.script)).data, nowMs).(currentStep := Some(EsperandoFormula))
    ensures t.rows == old(t.rows) + SaveIfPending(old(s.data), fecha, old(t.script)).stored
    ensures t.script == Skip(old(t.script), SaveIfPending(old(s.data), fecha, old(t.script)).used)
  {
    SavePending(s, t, fecha);
    ClearComplaint(s, nowMs);
    s.data := s.data.(currentStep := Some(EsperandoFormula));
  }

  /** `if formula_data and not guardada: await save_user_data(data, True)` on the session. */
  method SavePending(s: Session, t: Table, fecha: string)
    requires t.Valid()
    modifies s, t
    ensures t.Valid() && t.schema == old(t.schema) && s.sessionId == old(s.sessionId)
    ensures s.data == SaveIfPending(old(s.data), fecha, old(t.script)).data
    ensures t.rows == old(t.rows) + SaveIfPending(old(s.data), fecha, old(t.script)).stored
    ensures t.script == Skip(old(t.script), SaveIfPending(old(s.data), fecha, old(t.script)).used)
  {
    if HasFormula(s.data) && !s.data.complaint.saved {
      var saved := SaveUserData(s, t, true, fecha);
    }
  }

  /** The new `queja_actual` and the cleared complaint fields, on the session. */
  method ClearComplaint(s: Session, nowMs: nat)
    modifies s
    ensures s.data == FreshComplaint(old(s.data), nowMs) && s.sessionId == old(s.sessionId)
  {
    s.data := s.data.(complaint := Complaint(ComplaintId(s.data.userId, nowMs), false), city := "", eps := JStr(""),
                      formulaData := None, missingMeds := None, summaryShown := Some(false));
    s.data := s.data.(birthDate := "", regime := "", address := "", pharmacy := "",
                      pharmacyBranch := Some(""), cellphone := "", collected := Some(NoFlags));
  }

  /** The routing after the stamp, on the session. */
  method RouteText(s: Session, t: Table, text: string, nowMs: nat, year: nat, fecha: string) returns (path: Path)
    requires StepAware(s.data) && t.Valid()
    modifies s, t
    ensures t.Valid() && t.schema == old(t.schema) && s.sessionId == old(s.sessionId)
    ensures path == Routed(old(s.data), text, nowMs, year, fecha, old(t.script)).path
    ensures s.data == Routed(old(s.data), text, nowMs, year, fecha, old(t.script)).data
    ensures t.rows == old(t.rows) + Routed(old(s.data), text, nowMs, year, fecha, old(t.script)).stored
    ensures t.script == Skip(old(t.script), Routed(old(s.data), text, nowMs, year, fecha, old(t.script)).used)
  {
    if IsGreeting(text) && !s.data.hasGreeted {
      s.data := s.data.(hasGreeted := true, currentStep := Some(EsperandoFormula));
      return Greeted;
    }
    if IsReset(text) {
      ResetSession(s, nowMs);
      return Restarted;
    }
    if IsNewComplaint(text) {
      StartNewComplaint(s, t, nowMs, fecha);
      return NewComplaint;
    }
    path := AnswerText(s, t, text, year, fecha);
  }

  /** `process_text_message` on the session, up to the conversational reply. */
  method ProcessTextMessage(s: Session, t: Table, m: TextMessage, year: nat, fecha: string) returns (path: Path)
    requires StepAware(s.data) && t.Valid()
    modifies s, t
    ensures t.Valid() && t.schema == old(t.schema) && s.sessionId == old(s.sessionId)
    ensures path == TextTurn(old(s.data), m, year, fecha, old(t.script)).path
    ensures s.data == TextTurn(old(s.data), m, year, fecha, old(t.script)).data
    ensures t.rows == old(t.rows) + TextTurn(old(s.data), m, year, fecha, old(t.script)).stored
    ensures t.script == Skip(old(t.script), TextTurn(old(s.data), m, year, fecha, old(t.script)).used)
  {
    var d := s.data;
    if d.lastProcessedTime.Some? && d.lastProcessedTime.value != 0 && m.nowMs < d.lastProcessedTime.value + 2000 {
      return Dropped;
    }
    StampText(s, m);
    path := RouteText(s, t, m.text, m.nowMs, year, fecha);
  }

  /** The stamp, the Telegram name and username, and the user turn, on the session. */
  method StampText(s: Session, m: TextMessage)
    modifies s
    ensures s.data == Arrive(old(s.data), m) && s.sessionId == old(s.sessionId)
  {
    s.data := s.data.(lastProcessedTime := Some(m.nowMs));
    if m.firstName != "" {
      s.data := s.data.(name := m.firstName);
      if m.lastName != "" {
        s.data := s.data.(name := s.data.name + " " + m.lastName);
      }
    }
    if m.username != "" {
      s.data := s.data.(cellphone := m.username);
    }
    s.data := s.data.(history := s.data.history + [Turn(User, Said(m.text))]);
  }
}
