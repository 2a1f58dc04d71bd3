/**
 * What the turns of `TelegramHandler` promise: which deliveries are
 * dropped, what an accepted photo records, the wait for consent, the new
 * complaint, and three places where the handler as written strands a user
 * or loses a complaint, each beside its corrected form.
 */
module TelegramFacts {
  import opened Wrappers
  import opened Steps
  import opened Sessions
  import opened Warehouse
  import opened HandlerSave
  import opened CoreSessions
  import opened TableSave
  import opened TelegramHandler
  import HandlerPhoto
  import HandlerText
  import HandlerFormula
  import IntentHandler

  // ------------------------------------------------------------ duplicates

  /**
   * A text is dropped exactly when it repeats the last message within half a
   * second, and a dropped text changes nothing. A different text, however
   * soon, is handled.
   */
  lemma TextDroppedIff(r: Record, m: TextUpdate, reply: Option<string>, year: nat, stamp: string,
                       schema: set<string>, script: seq<Reply>)
    ensures var o := TextTurn(r, m, reply, year, stamp, schema, script);
      (o.path == Dropped <==> DuplicateText(r, m))
      && (o.path == Dropped ==> o.data == r && o.stored == [] && o.used == 0)
      && (r.lastMessage != Some(m.text) ==> o.path != Dropped)
  {
  }

  /** The time, the message and the username are written before any rule reads the record. */
  lemma StampedFacts(r: Record, m: TextUpdate)
    ensures var a := Stamped(r, m);
      a.lastProcessedTime == Some(m.nowMs) && a.lastMessage == Some(m.text)
      && a.username == (if m.username != "" then Some(m.username) else r.username)
      && a.(lastProcessedTime := r.lastProcessedTime, lastMessage := r.lastMessage, username := r.username) == r
  {
  }

  /**
   * The save before a new complaint keeps every field but the complaint,
   * the earlier complaints and the patients' histories, and it stores a
   * row only for a loaded prescription not yet saved.
   */
  lemma SaveIfPendingKeeps(a: Record, nowMs: nat, stamp: string, schema: set<string>, script: seq<Reply>)
    ensures var sv := SaveIfPending(a, nowMs, stamp, schema, script);
      sv.data.(complaint := a.complaint, prior := a.prior, patientHistory := a.patientHistory) == a
      && (sv.stored != [] ==> HasFormula(a) && !a.complaint.saved)
      && |sv.stored| <= 1
  {
    if HasFormula(a) && !a.complaint.saved {
      TableSave.SaveKeeps(a, true, nowMs, stamp, schema, script);
      TableSave.SaveBounds(a, true, nowMs, stamp, schema, script);
    }
  }

  /**
   * A new complaint starts under a fresh unsaved id with the session's data
   * fields cleared, and keeps the step, the consent wait, the pending photo
   * and the photo and message stamps.
   */
  lemma ReopenedFacts(a: Record, nowMs: nat, stamp: string, schema: set<string>, script: seq<Reply>)
    ensures var o := Reopened(a, nowMs, stamp, schema, script);
      o.data.complaint == Complaint(ComplaintId(a.userId, nowMs), false) && FieldsCleared(o.data)
      && o.data.currentStep == a.currentStep && o.data.awaitingApproval == a.awaitingApproval
      && o.data.pendingMedia == a.pendingMedia && o.data.hasGreeted == a.hasGreeted
      && o.data.lastPhotoId == a.lastPhotoId && o.data.lastProcessedTime == a.lastProcessedTime
      && o.stored == SaveIfPending(a, nowMs, stamp, schema, script).stored
  {
    SaveIfPendingKeeps(a, nowMs, stamp, schema, script);
  }

  /**
   * A new-complaint phrase from a greeted user, whatever the rest of the
   * text, is the new-complaint rule on the stamped record, with no reply of
   * its own; `ReopenedFacts` says what that rule leaves.
   */
  lemma NewComplaintOpens(r: Record, m: TextUpdate, reply: Option<string>, year: nat, stamp: string,
                          schema: set<string>, script: seq<Reply>)
    requires !DuplicateText(r, m) && r.hasGreeted
    requires !HandlerText.IsReset(m.text) && HandlerText.IsNewComplaint(m.text)
    ensures var o := TextTurn(r, m, reply, year, stamp, schema, script);
      var sv := Reopened(Stamped(r, m), m.nowMs, stamp, schema, script);
      o.path == NewComplaint && o.answer == "" && o.data == sv.data && o.stored == sv.stored && o.used == sv.used
  {
  }

  /**
   * A photo is dropped exactly when it comes within 2.5 seconds of the last
   * stamp or repeats the last photo, and a dropped photo changes nothing.
   * An accepted photo records its id, its time and the image turn, and
   * leaves the user greeted.
   */
  lemma PhotoDroppedIff(r: Record, m: HandlerPhoto.PhotoMessage, analysis: Option<FormulaResult>, stamp: string,
                        schema: set<string>, script: seq<Reply>)
    ensures var o := PhotoTurn(r, m, analysis, stamp, schema, script);
      (o.path == Dropped <==> DuplicatePhoto(r, m))
      && (o.path == Dropped ==> o.data == r && o.stored == [] && o.used == 0)
      && (o.path != Dropped ==>
            o.data.lastPhotoId == Some(m.photoId) && o.data.lastProcessedTime == Some(m.nowMs) && o.data.hasGreeted)
  {
    if !DuplicatePhoto(r, m) {
      var a := PhotoArrived(r, m);
      if a.currentStep.Some? && AtStep(a, Completado) {
        ReopenedFacts(a, m.nowMs, stamp, schema, script);
      }
    }
  }

  /** The turn that greets first: a photo from a user never greeted gets the welcome before the image turn. */
  lemma PhotoGreetsFirst(r: Record, m: HandlerPhoto.PhotoMessage)
    requires !r.hasGreeted
    ensures var a := PhotoArrived(r, m);
      a.hasGreeted && a.currentStep == Some(EsperandoFormula)
      && a.history == r.history + [Turn(Assistant, Fixed(Welcome)), Turn(User, Fixed(ImageMarker))]
  {
  }

  // ------------------------------------------------------------ the wait for consent

  /**
   * A photo that is read or unreadable leaves the session waiting for
   * consent; a read one holds the analysis as the pending photo and asks
   * for consent, an unreadable one keeps the pending photo it had.
   */
  lemma PhotoAwaitsConsent(r: Record, m: HandlerPhoto.PhotoMessage, analysis: Option<FormulaResult>, stamp: string,
                           schema: set<string>, script: seq<Reply>)
    ensures var o := PhotoTurn(r, m, analysis, stamp, schema, script);
      (o.path == Unreadable || o.path == ConsentAsked ==>
         o.data.awaitingApproval && o.data.currentStep == Some(EsperandoConsentimiento))
      && (o.path == ConsentAsked <==> !DuplicatePhoto(r, m) && PhotoArrived(r, m).currentStep.Some? && analysis.Some?)
      && (o.path == ConsentAsked ==>
            o.data.pendingMedia == analysis
            && o.data.history[|o.data.history| - 1] == Turn(Assistant, Fixed(ConsentRequest)))
      && (o.path == Unreadable ==> o.data.pendingMedia == r.pendingMedia)
  {
    if !DuplicatePhoto(r, m) {
      var a := PhotoArrived(r, m);
      if a.currentStep.Some? && AtStep(a, Completado) {
        ReopenedFacts(a, m.nowMs, stamp, schema, script);
      }
    }
  }

  /**
   * A photo at COMPLETADO first saves the finished complaint (when it was
   * not saved) and then opens a new one, whose prescription it waits for.
   */
  lemma PhotoAfterCompletion(r: Record, m: HandlerPhoto.PhotoMessage, analysis: Option<FormulaResult>, stamp: string,
                             schema: set<string>, script: seq<Reply>)
    requires !DuplicatePhoto(r, m) && AtStep(r, Completado) && r.hasGreeted
    ensures var o := PhotoTurn(r, m, analysis, stamp, schema, script);
      var a := PhotoArrived(r, m);
      o.stored == SaveIfPending(a, m.nowMs, stamp, schema, script).stored
      && o.data.complaint == Complaint(ComplaintId(r.userId, m.nowMs), false)
      && o.data.formulaData.None? && o.data.awaitingApproval
  {
    ReopenedFacts(PhotoArrived(r, m), m.nowMs, stamp, schema, script);
  }

  // ------------------------------------------------------------ a reset strands the user

  /**
   * The state a reset leaves behind: greeted, no step, nothing loaded or
   * pending, not waiting for consent. Only `/start` leaves it.
   */
  predicate Stranded(r: Record) {
    r.currentStep.None? && r.hasGreeted && r.formulaData.None? && r.pendingMedia.None? && !r.awaitingApproval
  }

  /** The reset of `reset_command` as written removes the step; only `/start` sets it again (`StartRecovers`). */
  lemma ResetStrands(o: Record, nowMs: nat)
    ensures Stranded(ResetRecord(o, nowMs))
    ensures ResetRecord(o, nowMs).currentStep.None?
  {
  }

  /** `/start` (src/handlers/telegram_handler.py:76-83) recovers a stranded record: it is back at waiting for the prescription. */
  lemma StartRecovers(r: Record)
    requires Stranded(r)
    ensures !Stranded(Started(r)) && Started(r) == r.(currentStep := Some(EsperandoFormula))
  {
  }

  /**
   * From a stranded record, every text is dropped, resets again, opens a
   * new complaint, reports a lost prescription or raises; none reaches the
   * prescription request or the conversation, and the record stays
   * stranded.
   */
  lemma StrandedText(r: Record, m: TextUpdate, reply: Option<string>, year: nat, stamp: string,
                     schema: set<string>, script: seq<Reply>)
    requires Stranded(r)
    ensures var o := TextTurn(r, m, reply, year, stamp, schema, script);
      (o.path == Dropped || o.path == Restarted || o.path == NewComplaint || o.path == Lost || o.path == Raised)
      && Stranded(o.data) && o.stored == [] && o.answer == ""
  {
    if !DuplicateText(r, m) {
      var a := Stamped(r, m);
      assert Stranded(a);
      if HandlerText.IsReset(m.text) {
        ResetStrands(a, m.nowMs);
      } else if HandlerText.IsNewComplaint(m.text) {
        ReopenedFacts(a, m.nowMs, stamp, schema, script);
      } else {
        StrandedAnswered(a, m.text, m.nowMs, reply, year, stamp, schema, script);
      }
    }
  }

  /** Past the new-complaint test, a stranded record reports a lost prescription or raises. */
  lemma StrandedAnswered(a: Record, text: string, nowMs: nat, reply: Option<string>, year: nat, stamp: string,
                         schema: set<string>, script: seq<Reply>)
    requires Stranded(a)
    ensures var o := Answered(a, text, nowMs, reply, year, stamp, schema, script);
      (o.path == Lost || o.path == Raised) && Stranded(o.data) && o.stored == [] && o.answer == ""
  {
  }

  /** From a stranded record, every photo is dropped or fails, and the record stays stranded. */
  lemma StrandedPhoto(r: Record, m: HandlerPhoto.PhotoMessage, analysis: Option<FormulaResult>, stamp: string,
                      schema: set<string>, script: seq<Reply>)
    requires Stranded(r)
    ensures var o := PhotoTurn(r, m, analysis, stamp, schema, script);
      (o.path == Dropped || o.path == PhotoFailed) && Stranded(o.data) && o.stored == []
  {
  }

  /** The reset as the other revision's session manager writes it: back to waiting for the prescription. */
  function ResetRecordCorrected(o: Record, nowMs: nat): (r: Record)
    ensures r.currentStep == Some(EsperandoFormula)
    ensures r.(currentStep := None) == ResetRecord(o, nowMs)
  {
    ResetRecord(o, nowMs).(currentStep := Some(EsperandoFormula))
  }

  /** After the corrected reset, the next accepted photo is read and waits for consent. */
  lemma CorrectedResetAcceptsPhoto(o: Record, nowMs: nat, m: HandlerPhoto.PhotoMessage,
                                   analysis: Option<FormulaResult>, stamp: string,
                                   schema: set<string>, script: seq<Reply>)
    requires !DuplicatePhoto(ResetRecordCorrected(o, nowMs), m)
    ensures var o := PhotoTurn(ResetRecordCorrected(o, nowMs), m, analysis, stamp, schema, script);
      (o.path == Unreadable || o.path == ConsentAsked)
      && o.data.awaitingApproval && o.data.currentStep == Some(EsperandoConsentimiento) && o.stored == []
  {
  }

  // ------------------------------------------------------------ a text while waiting for consent

  /**
   * As written, a text while waiting for consent (from a greeted user, not
   * a reset or a new complaint) raises: only the fixed error message is
   * sent, and the wait stays.
   */
  lemma AwaitingTextRaises(r: Record, m: TextUpdate, reply: Option<string>, year: nat, stamp: string,
                           schema: set<string>, script: seq<Reply>)
    requires !DuplicateText(r, m) && r.hasGreeted && r.awaitingApproval
    requires !HandlerText.IsReset(m.text) && !HandlerText.IsNewComplaint(m.text)
    ensures var o := TextTurn(r, m, reply, year, stamp, schema, script);
      o.path == Raised && o.answer == "" && o.data == Stamped(r, m) && o.data.awaitingApproval && o.stored == []
  {
  }

  /** The rules after the new-complaint test, with a text awaiting consent handed to `procesar_mensaje`. */
  function AnsweredCorrected(a: Record, text: string, nowMs: nat, reply: Option<string>, year: nat, stamp: string,
                             schema: set<string>, script: seq<Reply>): (o: TurnOut)
    ensures !a.awaitingApproval ==> o == Answered(a, text, nowMs, reply, year, stamp, schema, script)
  {
    if a.awaitingApproval then Conversation(a, text, nowMs, reply, year, stamp, schema, script)
    else Answered(a, text, nowMs, reply, year, stamp, schema, script)
  }

  /** The save at COMPLETADO as written keeps the consent and the wait. */
  lemma CompletionSaveKeeps(u: Record, nowMs: nat, stamp: string, schema: set<string>, script: seq<Reply>)
    ensures var d := CompletionSaveAsWritten(u, nowMs, stamp, schema, script).data;
      d.consented == u.consented && d.awaitingApproval == u.awaitingApproval
  {
    if AtStep(u, Completado) && !u.complaint.saved {
      TableSave.SaveKeeps(u, true, nowMs, stamp, schema, script);
    }
  }

  /**
   * With the correction, a text answering the consent question is replied
   * to, ends the wait, and an affirmative one records the consent.
   */
  lemma CorrectedConsentAnswered(a: Record, text: string, nowMs: nat, reply: Option<string>, year: nat, stamp: string,
                                 schema: set<string>, script: seq<Reply>)
    requires a.currentStep.Some? && a.awaitingApproval && !HandlerText.IsLost(text)
    ensures var o := AnsweredCorrected(a, text, nowMs, reply, year, stamp, schema, script);
      o.path == Conversed && !o.data.awaitingApproval
      && (HandlerFormula.Affirmative(text) ==> o.data.consented)
  {
    IntentHandler.ConsentQuestionAnswered(a, text, reply, year);
    var h := IntentHandler.Procesar(a, text, reply, year);
    CompletionSaveKeeps(h.data, nowMs, stamp, schema, script);
  }

  // ------------------------------------------------------------ the save at COMPLETADO

  /**
   * As written, a failed save at COMPLETADO still marks the complaint
   * saved, so no later save of it stores a row: the complaint is never
   * stored.
   */
  lemma SavedWithoutRow(u: Record, nowMs: nat, stamp: string, schema: set<string>, script: seq<Reply>,
                        force: bool, later: nat, stamp2: string, schema2: set<string>, script2: seq<Reply>)
    requires AtStep(u, Completado) && !u.complaint.saved && u.complaint.id != ""
    requires Answer(script) != Stored
    ensures var sv := CompletionSaveAsWritten(u, nowMs, stamp, schema, script);
      sv.stored == [] && sv.data.complaint.saved
      && ServiceSave(sv.data, force, later, stamp2, schema2, script2).stored == []
  {
    var sv := ServiceSave(u, true, nowMs, stamp, schema, script);
    TableSave.FailureKeepsSaved(u, true, nowMs, stamp, schema, script);
    assert sv.data.complaint.id != "";
  }

  /**
   * The corrected save at COMPLETADO marks the complaint saved exactly when
   * it was saved before or a row was stored now.
   */
  lemma CompletionSaveHonest(u: Record, nowMs: nat, stamp: string, schema: set<string>, script: seq<Reply>)
    ensures var sv := CompletionSave(u, nowMs, stamp, schema, script);
      sv.data.complaint.saved <==> u.complaint.saved || sv.stored != []
  {
    if AtStep(u, Completado) && !u.complaint.saved {
      var sv := ServiceSave(u, true, nowMs, stamp, schema, script);
      TableSave.FailureKeepsSaved(u, true, nowMs, stamp, schema, script);
      if sv.stored != [] {
        TableSave.StoredRecords(u, true, nowMs, stamp, schema, script);
      }
    }
  }
}
