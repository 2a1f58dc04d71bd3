/**
 * Step- and flag-aware session lifecycle, src/models/session_manager.py.
 * src/handler.py has a copy of `get_user_session` and `reset_session`
 * (src/handler.py:49-148) that builds the same records, so both revisions
 * use the definitions here.
 */
module ModelSessions {
  import opened Wrappers
  import opened Text
  import opened Steps
  import opened JsonValues
  import opened Sessions

  /** The keys this revision always keeps: a step, the summary flag and the six "asked" flags. */
  predicate StepAware(r: Record) {
    r.currentStep.Some? && r.summaryShown.Some? && r.collected.Some?
  }

  /** The `data` record created for an unseen id. */
  function InitialRecord(userId: string, nowMs: nat): (r: Record)
    ensures StepAware(r) && r.currentStep == Some(Inicio) && r.summaryShown == Some(false)
    ensures r.collected == Some(NoFlags)
    ensures r.userId == userId && !r.consented && !r.hasGreeted && r.history == [] && r.prior == []
    ensures r.complaint == Complaint(ComplaintId(userId, nowMs), false)
    ensures r.isFirstInteraction.None? && r.patientHistory.None?
  {
    Record(
      userId := userId, name := "", city := "", eps := JStr(""), consented := false,
      formulaData := None, missingMeds := None, pendingMedia := None, history := [],
      lastInteraction := nowMs, awaitingApproval := false, context := EmptyContext,
      isFirstInteraction := None, hasGreeted := false, lastProcessedTime := None,
      cellphone := "", birthDate := "", regime := "", address := "", pharmacy := "",
      pharmacyBranch := Some(""), complaint := Complaint(ComplaintId(userId, nowMs), false),
      prior := [], patientHistory := None, currentStep := Some(Inicio), summaryShown := Some(false),
      collected := Some(NoFlags), processCompleted := None, lastPhotoId := None, lastMessage := None,
      username := None)
  }

  /** `get_user_session(user_id)`; the same code is src/handler.py:49-100. */
  method GetUserSession(store: SessionStore, userId: string, nowMs: nat) returns (s: Session)
    requires store.Valid()
    modifies store, store.sessions.Values
    ensures store.Valid() && userId in store.sessions && s == store.sessions[userId]
    ensures userId in old(store.sessions) ==>
      s == old(store.sessions[userId]) && s.data == old(s.data).(lastInteraction := nowMs)
    ensures userId !in old(store.sessions) ==> fresh(s) && s.data == InitialRecord(userId, nowMs)
    ensures forall k | k in old(store.sessions) && k in store.sessions && k != userId ::
      store.sessions[k] == old(store.sessions[k]) && store.sessions[k].data == old(store.sessions[k].data)
  {
    s := store.Get(userId, nowMs, InitialRecord(userId, nowMs));
  }

  /**
   * The record `reset_session` installs. It is built from scratch, so keys it
   * does not list (`last_photo_id`, `last_message`, `patient_history`, ...)
   * are gone.
   */
  function ResetRecord(o: Record, nowMs: nat): (r: Record)
    ensures StepAware(r) && r.currentStep == Some(EsperandoFormula)
    ensures r.summaryShown == Some(false) && r.collected == Some(NoFlags)
    ensures r.consented && r.hasGreeted && !r.awaitingApproval && r.pendingMedia.None?
    ensures r.complaint == Complaint(ComplaintId(o.userId, nowMs), false)
    ensures r.userId == o.userId && r.name == o.name && r.history == o.history && r.prior == o.prior
    ensures r.lastPhotoId.None? && r.lastMessage.None? && r.patientHistory.None? && r.isFirstInteraction.None?
    ensures r.formulaData.None? && r.missingMeds.None? && r.context == EmptyContext
  {
    Record(
      userId := o.userId, name := o.name, city := "", eps := JStr(""), consented := true,
      formulaData := None, missingMeds := None, pendingMedia := None, history := o.history,
      lastInteraction := nowMs, awaitingApproval := false, context := EmptyContext,
      isFirstInteraction := None, hasGreeted := true, lastProcessedTime := Some(nowMs),
      cellphone := "", birthDate := "", regime := "", address := "", pharmacy := "",
      pharmacyBranch := Some(""), complaint := Complaint(ComplaintId(o.userId, nowMs), false),
      prior := o.prior, patientHistory := None, currentStep := Some(EsperandoFormula),
      summaryShown := Some(false), collected := Some(NoFlags), processCompleted := None,
      lastPhotoId := None, lastMessage := None, username := None)
  }

  /** `reset_session(user_session)`; the same code is src/handler.py:102-148. */
  method ResetSession(s: Session, nowMs: nat)
    modifies s
    ensures s.data == ResetRecord(old(s.data), nowMs) && s.sessionId == old(s.sessionId)
  {
    s.data := ResetRecord(s.data, nowMs);
  }

  /** A field write keeps the keys this revision relies on. */
  lemma UpdateKeepsStepAware(r: Record, tipo: string, valor: string)
    requires StepAware(r)
    ensures StepAware(UpdateField(r, tipo, valor))
    ensures UpdateField(r, tipo, valor).currentStep == r.currentStep
  {
  }
}
