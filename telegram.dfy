/**
 * `TelegramHandler` of src/handlers/telegram_handler.py, the turn logic of
 * the split revision: the duplicate checks, the stamps, and which rule
 * handles a text or a photo, with the saves the handler triggers.
 *
 * The oracles are parameters: `reply` is the chat model's answer (None
 * when the call raises), `analysis` the prescription read from a photo
 * (None when the download or the reading raises), `year` the current
 * year for dates, `stamp` the clock as text, and the table's next
 * answers are its script. An exception the handler catches is a path of
 * its own: a text then gets the fixed error message, a photo the apology.
 */
module TelegramHandler {
  import opened Wrappers
  import opened Text
  import opened Steps
  import opened Sessions
  import opened Warehouse
  import opened HandlerSave
  import opened CoreSessions
  import opened TableSave
  import HandlerPhoto
  import HandlerText
  import IntentHandler

  /** The parts of a text update that the handler reads; an absent username is "". */
  datatype TextUpdate = TextUpdate(text: string, nowMs: nat, username: string)

  /** Which rule handled the turn. */
  datatype Path =
    | Dropped           // a duplicate delivery
    | Greeted           // the first message: the welcome
    | Restarted         // a reset command
    | NewComplaint      // a new-complaint phrase
    | Raised            // a text that made the handler raise: the fixed error message
    | Lost              // a lost prescription
    | HistoryReported   // a history query with a prescription loaded
    | FormulaRequested  // a plain text before any prescription
    | Conversed         // the intent handler's reply
    | PhotoFailed       // a photo that made the handler raise: the apology
    | Unreadable        // the photo could not be read
    | ConsentAsked      // the photo was read and waits for consent

  /**
   * The rule, the free text sent (the conversational or history answer; ""
   * for a fixed message or none), the new record and the table calls.
   */
  datatype TurnOut = TurnOut(path: Path, answer: string, data: Record, stored: seq<Row>, used: nat)

  const TEXT_WINDOW_MS: nat := 500
  const PHOTO_WINDOW_MS: nat := 2500

  /** Words that make a text a history query. */
  const HistoryWords := ["historial", "quejas anteriores", "quejas previas", "consultar", "anteriormente"]

  predicate IsHistoryQuery(text: string) { ContainsAny(Lower(text), HistoryWords) }

  /** A text is a duplicate when it repeats the last message within half a second of the last stamp. */
  predicate DuplicateText(r: Record, m: TextUpdate) {
    HandlerText.RecentWithin(r, m.nowMs, TEXT_WINDOW_MS) && r.lastMessage == Some(m.text)
  }

  /** A photo is a duplicate within 2.5 seconds of the last stamp, or when it is the last photo again. */
  predicate DuplicatePhoto(r: Record, m: HandlerPhoto.PhotoMessage) {
    HandlerText.RecentWithin(r, m.nowMs, PHOTO_WINDOW_MS) || r.lastPhotoId == Some(m.photoId)
  }

  /** The stamp, the last message and the username, written before any rule. */
  function Stamped(r: Record, m: TextUpdate): (a: Record) {
    r.(lastProcessedTime := Some(m.nowMs), lastMessage := Some(m.text),
       username := if m.username != "" then Some(m.username) else r.username)
  }

  /** `if formula_data and not guardada: await save_user_data(data, True)`, the result ignored. */
  function SaveIfPending(a: Record, nowMs: nat, stamp: string, schema: set<string>, script: seq<Reply>): SaveResult {
    if HasFormula(a) && !a.complaint.saved then ServiceSave(a, true, nowMs, stamp, schema, script)
    else SaveResult(false, a, [], 0)
  }

  /** The pending save, then `iniciar_nueva_queja`. */
  function Reopened(a: Record, nowMs: nat, stamp: string, schema: set<string>, script: seq<Reply>): (res: SaveResult) {
    var sv := SaveIfPending(a, nowMs, stamp, schema, script);
    sv.(data := NewComplaintRecord(sv.data, a.userId, nowMs))
  }

  // ------------------------------------------------------------ the /start command

  /** `start_command`: greeted, and back at waiting for the prescription; nothing else changes. */
  function Started(r: Record): (u: Record)
    ensures u.hasGreeted && u.currentStep == Some(EsperandoFormula)
    ensures u.(hasGreeted := r.hasGreeted, currentStep := r.currentStep) == r
  {
    r.(hasGreeted := true, currentStep := Some(EsperandoFormula))
  }

  /** `start_command` on the session. */
  method StartCommand(s: Session)
    modifies s
    ensures s.data == Started(old(s.data)) && s.sessionId == old(s.sessionId)
  {
    s.data := s.data.(hasGreeted := true);
    s.data := s.data.(currentStep := Some(EsperandoFormula));
  }

  // ------------------------------------------------------------ a text

  /** `process_text_message`. */
  function TextTurn(r: Record, m: TextUpdate, reply: Option<string>, year: nat, stamp: string,
                    schema: set<string>, script: seq<Reply>): TurnOut
  {
    if DuplicateText(r, m) then TurnOut(Dropped, "", r, [], 0)
    else Routed(Stamped(r, m), m.text, m.nowMs, reply, year, stamp, schema, script)
  }

  /** The greeting and reset rules, which come first. */
  function Routed(a: Record, text: string, nowMs: nat, reply: Option<string>, year: nat, stamp: string,
                  schema: set<string>, script: seq<Reply>): TurnOut
  {
    if !a.hasGreeted then
      TurnOut(Greeted, "", a.(hasGreeted := true, currentStep := Some(EsperandoFormula),
                              history := a.history + [Turn(Assistant, Fixed(Welcome))]), [], 0)
    else if HandlerText.IsReset(text) then TurnOut(Restarted, "", ResetRecord(a, nowMs), [], 0)
    else Continued(a, text, nowMs, reply, year, stamp, schema, script)
  }

  /** The new-complaint rule, or else the rules after it. */
  function Continued(a: Record, text: string, nowMs: nat, reply: Option<string>, year: nat, stamp: string,
                     schema: set<string>, script: seq<Reply>): TurnOut
  {
    if HandlerText.IsNewComplaint(text) then
      var sv := Reopened(a, nowMs, stamp, schema, script);
      TurnOut(NewComplaint, "", sv.data, sv.stored, sv.used)
    else Answered(a, text, nowMs, reply, year, stamp, schema, script)
  }

  /**
   * The rules after the new-complaint test. A text waiting for consent
   * calls `manejar_consentimiento`, which `IntentHandler` does not define;
   * the prescription-request test reads `current_step`, which a reset
   * record lacks. Both raise.
   */
  function Answered(a: Record, text: string, nowMs: nat, reply: Option<string>, year: nat, stamp: string,
                    schema: set<string>, script: seq<Reply>): TurnOut
  {
    if a.awaitingApproval then TurnOut(Raised, "", a, [], 0)
    else if HandlerText.IsLost(text) then TurnOut(Lost, "", a.(history := a.history + [Turn(Assistant, Fixed(FormulaLost))]), [], 0)
    else if IsHistoryQuery(text) && HasFormula(a) then Reported(a, reply)
    else Unprompted(a, text, nowMs, reply, year, stamp, schema, script)
  }

  /** The prescription request, or else the conversation. */
  function Unprompted(a: Record, text: string, nowMs: nat, reply: Option<string>, year: nat, stamp: string,
                      schema: set<string>, script: seq<Reply>): TurnOut
  {
    if !HasFormula(a) && !HasPending(a) && a.currentStep.None? then TurnOut(Raised, "", a, [], 0)
    else if HandlerText.AsksForFormula(a, text) then TurnOut(FormulaRequested, "", a, [], 0)
    else Conversation(a, text, nowMs, reply, year, stamp, schema, script)
  }

  /** The history query, whose answer is also added as an assistant turn. */
  function Reported(a: Record, reply: Option<string>): TurnOut {
    var h := IntentHandler.HistoryQuery(a, reply);
    TurnOut(HistoryReported, h.text, h.data.(history := h.data.history + [Turn(Assistant, Said(h.text))]), [], 0)
  }

  /** `procesar_mensaje`, then the save of a completed complaint. */
  function Conversation(a: Record, text: string, nowMs: nat, reply: Option<string>, year: nat, stamp: string,
                     schema: set<string>, script: seq<Reply>): TurnOut
  {
    var h := IntentHandler.Procesar(a, text, reply, year);
    var sv := CompletionSaveAsWritten(h.data, nowMs, stamp, schema, script);
    TurnOut(Conversed, h.text, sv.data, sv.stored, sv.used)
  }

  /**
   * The save after a reply at COMPLETADO as written: `guardada` is set True
   * whatever the save returned.
   */
  function CompletionSaveAsWritten(u: Record, nowMs: nat, stamp: string, schema: set<string>, script: seq<Reply>): SaveResult {
    if AtStep(u, Completado) && !u.complaint.saved then
      var sv := ServiceSave(u, true, nowMs, stamp, schema, script);
      sv.(data := sv.data.(complaint := sv.data.complaint.(saved := true)))
    else SaveResult(false, u, [], 0)
  }

  /** The save after a reply at COMPLETADO, leaving `guardada` to the save itself. */
  function CompletionSave(u: Record, nowMs: nat, stamp: string, schema: set<string>, script: seq<Reply>): SaveResult {
    if AtStep(u, Completado) && !u.complaint.saved then ServiceSave(u, true, nowMs, stamp, schema, script)
    else SaveResult(false, u, [], 0)
  }

  // ------------------------------------------------------------ a photo

  /** `process_photo_message`. */
  function PhotoTurn(r: Record, m: HandlerPhoto.PhotoMessage, analysis: Option<FormulaResult>, stamp: string,
                     schema: set<string>, script: seq<Reply>): TurnOut
  {
    if DuplicatePhoto(r, m) then TurnOut(Dropped, "", r, [], 0)
    else
      var a := PhotoArrived(r, m);
      if a.currentStep.None? then TurnOut(PhotoFailed, "", a, [], 0)
      else PhotoRead(a, m.nowMs, analysis, stamp, schema, script)
  }

  /** The greeting for a user not yet greeted, then the stamp, the photo id and the image turn. */
  function PhotoArrived(r: Record, m: HandlerPhoto.PhotoMessage): Record {
    var g := if r.hasGreeted then r
      else r.(hasGreeted := true, currentStep := Some(EsperandoFormula), history := r.history + [Turn(Assistant, Fixed(Welcome))]);
    g.(lastProcessedTime := Some(m.nowMs), lastPhotoId := Some(m.photoId),
       history := g.history + [Turn(User, Fixed(ImageMarker))])
  }

  /** A new complaint at COMPLETADO, the wait for consent, then the analysis. */
  function PhotoRead(a: Record, nowMs: nat, analysis: Option<FormulaResult>, stamp: string,
                     schema: set<string>, script: seq<Reply>): TurnOut
  {
    var sv := if AtStep(a, Completado) then Reopened(a, nowMs, stamp, schema, script) else SaveResult(false, a, [], 0);
    var b := sv.data.(awaitingApproval := true, currentStep := Some(EsperandoConsentimiento));
    match analysis
    case None => TurnOut(Unreadable, "", b, sv.stored, sv.used)
    case Some(res) =>
      TurnOut(ConsentAsked, "", b.(pendingMedia := Some(res), history := b.history + [Turn(Assistant, Fixed(ConsentRequest))]),
              sv.stored, sv.used)
  }

  // ------------------------------------------------------------ the in-place turns

  /** `process_text_message` on the session and the table. */
  method ProcessTextMessage(s: Session, t: Table, m: TextUpdate, reply: Option<string>, year: nat, stamp: string)
    returns (path: Path, answer: string)
    requires t.Valid()
    modifies s, t
    ensures t.Valid() && t.schema == old(t.schema) && s.sessionId == old(s.sessionId)
    ensures path == TextTurn(old(s.data), m, reply, year, stamp, old(t.schema), old(t.script)).path
    ensures answer == TextTurn(old(s.data), m, reply, year, stamp, old(t.schema), old(t.script)).answer
    ensures s.data == TextTurn(old(s.data), m, reply, year, stamp, old(t.schema), old(t.script)).data
    ensures t.rows == old(t.rows) + TextTurn(old(s.data), m, reply, year, stamp, old(t.schema), old(t.script)).stored
    ensures t.script == Skip(old(t.script), TextTurn(old(s.data), m, reply, year, stamp, old(t.schema), old(t.script)).used)
  {
    if DuplicateText(s.data, m) {
      return Dropped, "";
    }
    s.data := s.data.(lastProcessedTime := Some(m.nowMs), lastMessage := Some(m.text));
    if m.username != "" {
      s.data := s.data.(username := Some(m.username));
    }
    path, answer := RouteText(s, t, m.text, m.nowMs, reply, year, stamp);
  }

  /** The greeting and reset rules on the session. */
  method RouteText(s: Session, t: Table, text: string, nowMs: nat, reply: Option<string>, year: nat, stamp: string)
    returns (path: Path, answer: string)
    requires t.Valid()
    modifies s, t
    ensures t.Valid() && t.schema == old(t.schema) && s.sessionId == old(s.sessionId)
    ensures path == Routed(old(s.data), text, nowMs, reply, year, stamp, old(t.schema), old(t.script)).path
    ensures answer == Routed(old(s.data), text, nowMs, reply, year, stamp, old(t.schema), old(t.script)).answer
    ensures s.data == Routed(old(s.data), text, nowMs, reply, year, stamp, old(t.schema), old(t.script)).data
    ensures t.rows == old(t.rows) + Routed(old(s.data), text, nowMs, reply, year, stamp, old(t.schema), old(t.script)).stored
    ensures t.script == Skip(old(t.script), Routed(old(s.data), text, nowMs, reply, year, stamp, old(t.schema), old(t.script)).used)
  {
    if !s.data.hasGreeted {
      s.data := s.data.(hasGreeted := true, currentStep := Some(EsperandoFormula));
      s.data := s.data.(history := s.data.history + [Turn(Assistant, Fixed(Welcome))]);
      return Greeted, "";
    }
    path, answer := RouteGreeted(s, t, text, nowMs, reply, year, stamp);
  }

  /** The same rules once the user has been greeted. */
  method RouteGreeted(s: Session, t: Table, text: string, nowMs: nat, reply: Option<string>, year: nat, stamp: string)
    returns (path: Path, answer: string)
    requires t.Valid() && s.data.hasGreeted
    modifies s, t
    ensures t.Valid() && t.schema == old(t.schema) && s.sessionId == old(s.sessionId)
    ensures path == Routed(old(s.data), text, nowMs, reply, year, stamp, old(t.schema), old(t.script)).path
    ensures answer == Routed(old(s.data), text, nowMs, reply, year, stamp, old(t.schema), old(t.script)).answer
    ensures s.data == Routed(old(s.data), text, nowMs, reply, year, stamp, old(t.schema), old(t.script)).data
    ensures t.rows == old(t.rows) + Routed(old(s.data), text, nowMs, reply, year, stamp, old(t.schema), old(t.script)).stored
    ensures t.script == Skip(old(t.script), Routed(old(s.data), text, nowMs, reply, year, stamp, old(t.schema), old(t.script)).used)
  {
    if HandlerText.IsReset(text) {
      ResetSession(s, nowMs);
      return Restarted, "";
    }
    path, answer := ContinueText(s, t, text, nowMs, reply, year, stamp);
  }

  /** The new-complaint rule, or else the rules after it, on the session. */
  method ContinueText(s: Session, t: Table, text: string, nowMs: nat, reply: Option<string>, year: nat, stamp: string)
    returns (path: Path, answer: string)
    requires t.Valid()
    modifies s, t
    ensures t.Valid() && t.schema == old(t.schema) && s.sessionId == old(s.sessionId)
    ensures path == Continued(old(s.data), text, nowMs, reply, year, stamp, old(t.schema), old(t.script)).path
    ensures answer == Continued(old(s.data), text, nowMs, reply, year, stamp, old(t.schema), old(t.script)).answer
    ensures s.data == Continued(old(s.data), text, nowMs, reply, year, stamp, old(t.schema), old(t.script)).data
    ensures t.rows == old(t.rows) + Continued(old(s.data), text, nowMs, reply, year, stamp, old(t.schema), old(t.script)).stored
    ensures t.script == Skip(old(t.script), Continued(old(s.data), text, nowMs, reply, year, stamp, old(t.schema), old(t.script)).used)
  {
    if HandlerText.IsNewComplaint(text) {
      ReopenComplaint(s, t, nowMs, stamp);
      return NewComplaint, "";
    }
    path, answer := AnswerText(s, t, text, nowMs, reply, year, stamp);
  }

  /** The pending save, then `iniciar_nueva_queja`, on the session. */
  method ReopenComplaint(s: Session, t: Table, nowMs: nat, stamp: string)
    requires t.Valid()
    modifies s, t
    ensures t.Valid() && t.schema == old(t.schema) && s.sessionId == old(s.sessionId)
    ensures s.data == Reopened(old(s.data), nowMs, stamp, old(t.schema), old(t.script)).data
    ensures t.rows == old(t.rows) + Reopened(old(s.data), nowMs, stamp, old(t.schema), old(t.script)).stored
    ensures t.script == Skip(old(t.script), Reopened(old(s.data), nowMs, stamp, old(t.schema), old(t.script)).used)
  {
    var userId := s.data.userId;
    if HasFormula(s.data) && !s.data.complaint.saved {
      var _ := TableSave.SaveUserData(s, t, true, nowMs, stamp);
    }
    IniciarNuevaQueja(s, userId, nowMs);
  }

  /** The rules after the new-complaint test, on the session. */
  method AnswerText(s: Session, t: Table, text: string, nowMs: nat, reply: Option<string>, year: nat, stamp: string)
    returns (path: Path, answer: string)
    requires t.Valid()
    modifies s, t
    ensures t.Valid() && t.schema == old(t.schema) && s.sessionId == old(s.sessionId)
    ensures path == Answered(old(s.data), text, nowMs, reply, year, stamp, old(t.schema), old(t.script)).path
    ensures answer == Answered(old(s.data), text, nowMs, reply, year, stamp, old(t.schema), old(t.script)).answer
    ensures s.data == Answered(old(s.data), text, nowMs, reply, year, stamp, old(t.schema), old(t.script)).data
    ensures t.rows == old(t.rows) + Answered(old(s.data), text, nowMs, reply, year, stamp, old(t.schema), old(t.script)).stored
    ensures t.script == Skip(old(t.script), Answered(old(s.data), text, nowMs, reply, year, stamp, old(t.schema), old(t.script)).used)
  {
    if s.data.awaitingApproval {
      return Raised, "";
    }
    path, answer := AnswerReady(s, t, text, nowMs, reply, year, stamp);
  }

  /** The same rules once the record is not waiting for consent. */
  method AnswerReady(s: Session, t: Table, text: string, nowMs: nat, reply: Option<string>, year: nat, stamp: string)
    returns (path: Path, answer: string)
    requires t.Valid() && !s.data.awaitingApproval
    modifies s, t
    ensures t.Valid() && t.schema == old(t.schema) && s.sessionId == old(s.sessionId)
    ensures path == Answered(old(s.data), text, nowMs, reply, year, stamp, old(t.schema), old(t.script)).path
    ensures answer == Answered(old(s.data), text, nowMs, reply, year, stamp, old(t.schema), old(t.script)).answer
    ensures s.data == Answered(old(s.data), text, nowMs, reply, year, stamp, old(t.schema), old(t.script)).data
    ensures t.rows == old(t.rows) + Answered(old(s.data), text, nowMs, reply, year, stamp, old(t.schema), old(t.script)).stored
    ensures t.script == Skip(old(t.script), Answered(old(s.data), text, nowMs, reply, year, stamp, old(t.schema), old(t.script)).used)
  {
    if HandlerText.IsLost(text) {
      s.data := s.data.(history := s.data.history + [Turn(Assistant, Fixed(FormulaLost))]);
      return Lost, "";
    }
    if IsHistoryQuery(text) && HasFormula(s.data) {
      answer := ReportHistory(s, reply);
      return HistoryReported, answer;
    }
    path, answer := AnswerPlain(s, t, text, nowMs, reply, year, stamp);
  }

  /** The history query, and its answer as an assistant turn, on the session. */
  method ReportHistory(s: Session, reply: Option<string>) returns (answer: string)
    modifies s
    ensures answer == Reported(old(s.data), reply).answer && s.data == Reported(old(s.data), reply).data
    ensures s.sessionId == old(s.sessionId)
  {
    answer := IntentHandler.ConsultarHistorialPaciente(s, reply);
    s.data := s.data.(history := s.data.history + [Turn(Assistant, Said(answer))]);
  }

  /** The prescription request, or else the conversation, on the session. */
  method AnswerPlain(s: Session, t: Table, text: string, nowMs: nat, reply: Option<string>, year: nat, stamp: string)
    returns (path: Path, answer: string)
    requires t.Valid()
    modifies s, t
    ensures t.Valid() && t.schema == old(t.schema) && s.sessionId == old(s.sessionId)
    ensures path == Unprompted(old(s.data), text, nowMs, reply, year, stamp, old(t.schema), old(t.script)).path
    ensures answer == Unprompted(old(s.data), text, nowMs, reply, year, stamp, old(t.schema), old(t.script)).answer
    ensures s.data == Unprompted(old(s.data), text, nowMs, reply, year, stamp, old(t.schema), old(t.script)).data
    ensures t.rows == old(t.rows) + Unprompted(old(s.data), text, nowMs, reply, year, stamp, old(t.schema), old(t.script)).stored
    ensures t.script == Skip(old(t.script), Unprompted(old(s.data), text, nowMs, reply, year, stamp, old(t.schema), old(t.script)).used)
  {
    if !HasFormula(s.data) && !HasPending(s.data) && s.data.currentStep.None? {
      return Raised, "";
    }
    if HandlerText.AsksForFormula(s.data, text) {
      return FormulaRequested, "";
    }
    answer := Converse(s, t, text, nowMs, reply, year, stamp);
    path := Conversed;
  }

  /** `procesar_mensaje`, then the save at COMPLETADO, on the session. */
  method Converse(s: Session, t: Table, text: string, nowMs: nat, reply: Option<string>, year: nat, stamp: string)
    returns (answer: string)
    requires t.Valid()
    modifies s, t
    ensures t.Valid() && t.schema == old(t.schema) && s.sessionId == old(s.sessionId)
    ensures answer == Conversation(old(s.data), text, nowMs, reply, year, stamp, old(t.schema), old(t.script)).answer
    ensures s.data == Conversation(old(s.data), text, nowMs, reply, year, stamp, old(t.schema), old(t.script)).data
    ensures t.rows == old(t.rows) + Conversation(old(s.data), text, nowMs, reply, year, stamp, old(t.schema), old(t.script)).stored
    ensures t.script == Skip(old(t.script), Conversation(old(s.data), text, nowMs, reply, year, stamp, old(t.schema), old(t.script)).used)
  {
    answer := IntentHandler.ProcesarMensaje(s, text, reply, year);
    SaveOnCompletion(s, t, nowMs, stamp);
  }

  /** The save at COMPLETADO as written, on the session. */
  method SaveOnCompletion(s: Session, t: Table, nowMs: nat, stamp: string)
    requires t.Valid()
    modifies s, t
    ensures t.Valid() && t.schema == old(t.schema) && s.sessionId == old(s.sessionId)
    ensures s.data == CompletionSaveAsWritten(old(s.data), nowMs, stamp, old(t.schema), old(t.script)).data
    ensures t.rows == old(t.rows) + CompletionSaveAsWritten(old(s.data), nowMs, stamp, old(t.schema), old(t.script)).stored
    ensures t.script == Skip(old(t.script), CompletionSaveAsWritten(old(s.data), nowMs, stamp, old(t.schema), old(t.script)).used)
  {
    if AtStep(s.data, Completado) && !s.data.complaint.saved {
      var _ := TableSave.SaveUserData(s, t, true, nowMs, stamp);
      s.data := s.data.(complaint := s.data.complaint.(saved := true));
    }
  }

  /** `process_photo_message` on the session and the table. */
  method ProcessPhotoMessage(s: Session, t: Table, m: HandlerPhoto.PhotoMessage, analysis: Option<FormulaResult>, stamp: string)
    returns (path: Path)
    requires t.Valid()
    modifies s, t
    ensures t.Valid() && t.schema == old(t.schema) && s.sessionId == old(s.sessionId)
    ensures path == PhotoTurn(old(s.data), m, analysis, stamp, old(t.schema), old(t.script)).path
    ensures s.data == PhotoTurn(old(s.data), m, analysis, stamp, old(t.schema), old(t.script)).data
    ensures t.rows == old(t.rows) + PhotoTurn(old(s.data), m, analysis, stamp, old(t.schema), old(t.script)).stored
    ensures t.script == Skip(old(t.script), PhotoTurn(old(s.data), m, analysis, stamp, old(t.schema), old(t.script)).used)
  {
    if HandlerText.RecentWithin(s.data, m.nowMs, PHOTO_WINDOW_MS) {
      return Dropped;
    }
    if s.data.lastPhotoId == Some(m.photoId) {
      return Dropped;
    }
    if !s.data.hasGreeted {
      s.data := s.data.(hasGreeted := true, currentStep := Some(EsperandoFormula));
      s.data := s.data.(history := s.data.history + [Turn(Assistant, Fixed(Welcome))]);
    }
    s.data := s.data.(lastProcessedTime := Some(m.nowMs), lastPhotoId := Some(m.photoId));
    s.data := s.data.(history := s.data.history + [Turn(User, Fixed(ImageMarker))]);
    if s.data.currentStep.None? {
      return PhotoFailed;
    }
    path := ReadPhoto(s, t, m.nowMs, analysis, stamp);
  }

  /** The new complaint at COMPLETADO, the wait for consent and the analysis, on the session. */
  method ReadPhoto(s: Session, t: Table, nowMs: nat, analysis: Option<FormulaResult>, stamp: string) returns (path: Path)
    requires t.Valid()
    modifies s, t
    ensures t.Valid() && t.schema == old(t.schema) && s.sessionId == old(s.sessionId)
    ensures path == PhotoRead(old(s.data), nowMs, analysis, stamp, old(t.schema), old(t.script)).path
    ensures s.data == PhotoRead(old(s.data), nowMs, analysis, stamp, old(t.schema), old(t.script)).data
    ensures t.rows == old(t.rows) + PhotoRead(old(s.data), nowMs, analysis, stamp, old(t.schema), old(t.script)).stored
    ensures t.script == Skip(old(t.script), PhotoRead(old(s.data), nowMs, analysis, stamp, old(t.schema), old(t.script)).used)
  {
    if AtStep(s.data, Completado) {
      ReopenComplaint(s, t, nowMs, stamp);
    }
    s.data := s.data.(awaitingApproval := true, currentStep := Some(EsperandoConsentimiento));
    match analysis
    case None =>
      return Unreadable;
    case Some(res) =>
      s.data := s.data.(pendingMedia := Some(res));
      s.data := s.data.(history := s.data.history + [Turn(Assistant, Fixed(ConsentRequest))]);
      return ConsentAsked;
  }
}
