/** Session lifecycle of the split revision, src/core/session_manager.py. */
module CoreSessions {
  import opened Wrappers
  import opened Text
  import opened JsonValues
  import opened Sessions

  /** The collected complaint fields are empty. */
  predicate FieldsCleared(r: Record) {
    r.city == "" && r.eps == JStr("") && r.formulaData.None? && r.missingMeds.None?
    && r.cellphone == "" && r.birthDate == "" && r.regime == "" && r.address == "" && r.pharmacy == ""
  }

  /** The `data` record that `get_user_session` creates for an unseen id. */
  function InitialRecord(userId: string, nowMs: nat): (r: Record)
    ensures r.userId == userId && r.name == "" && FieldsCleared(r)
    ensures !r.consented && !r.hasGreeted && r.isFirstInteraction == Some(true)
    ensures r.history == [] && r.prior == [] && r.complaint == Complaint(ComplaintId(userId, nowMs), false)
    ensures r.currentStep.None? && r.collected.None? && r.summaryShown.None?
  {
    Record(
      userId := userId, name := "", city := "", eps := JStr(""), consented := false,
      formulaData := None, missingMeds := None, pendingMedia := None, history := [],
      lastInteraction := nowMs, awaitingApproval := false, context := EmptyContext,
      isFirstInteraction := Some(true), hasGreeted := false, lastProcessedTime := None,
      cellphone := "", birthDate := "", regime := "", address := "", pharmacy := "",
      pharmacyBranch := None, complaint := Complaint(ComplaintId(userId, nowMs), false),
      prior := [], patientHistory := Some(map[]), currentStep := None, summaryShown := None,
      collected := None, processCompleted := None, lastPhotoId := None, lastMessage := None,
      username := None)
  }

  /** `get_user_session(user_id)`. */
  method GetUserSession(store: SessionStore, userId: string, nowMs: nat) returns (s: Session)
    requires store.Valid()
    modifies store, store.sessions.Values
    ensures store.Valid() && userId in store.sessions && s == store.sessions[userId]
    ensures userId in old(store.sessions) ==>
      s == old(store.sessions[userId]) && s.data == old(s.data).(lastInteraction := nowMs)
    ensures userId !in old(store.sessions) ==> fresh(s) && s.data == InitialRecord(userId, nowMs)
    ensures forall k | k in old(store.sessions) && k in store.sessions && k != userId ::
      store.sessions[k] == old(store.sessions[k]) && store.sessions[k].data == old(store.sessions[k].data)
  {
    s := store.Get(userId, nowMs, InitialRecord(userId, nowMs));
  }

  /**
   * The record `reset_session` installs: user id, name, history, previous
   * complaints and patient history survive; consent and greeting are set;
   * everything collected is cleared; there is no `current_step` key and
   * `context_variables` is empty, so the medicine list of the old
   * prescription is gone.
   */
  function ResetRecord(o: Record, nowMs: nat): (r: Record)
    ensures r.userId == o.userId && r.name == o.name && r.history == o.history && r.prior == o.prior
    ensures r.patientHistory == Some(if o.patientHistory.Some? then o.patientHistory.value else map[])
    ensures r.consented && r.hasGreeted && r.isFirstInteraction == Some(false)
    ensures FieldsCleared(r) && r.pendingMedia.None? && !r.awaitingApproval && r.context == EmptyContext
    ensures r.complaint == Complaint(ComplaintId(o.userId, nowMs), false)
    ensures r.currentStep.None? && r.collected.None? && r.lastPhotoId.None? && r.lastMessage.None?
    ensures r.lastProcessedTime == Some(nowMs)
  {
    Record(
      userId := o.userId, name := o.name, city := "", eps := JStr(""), consented := true,
      formulaData := None, missingMeds := None, pendingMedia := None, history := o.history,
      lastInteraction := nowMs, awaitingApproval := false, context := EmptyContext,
      isFirstInteraction := Some(false), hasGreeted := true, lastProcessedTime := Some(nowMs),
      cellphone := "", birthDate := "", regime := "", address := "", pharmacy := "",
      pharmacyBranch := None, complaint := Complaint(ComplaintId(o.userId, nowMs), false),
      prior := o.prior,
      patientHistory := Some(if o.patientHistory.Some? then o.patientHistory.value else map[]),
      currentStep := None, summaryShown := None, collected := None, processCompleted := None,
      lastPhotoId := None, lastMessage := None, username := None)
  }

  /** `reset_session(user_session)` replaces `data` wholesale. */
  method ResetSession(s: Session, nowMs: nat)
    modifies s
    ensures s.data == ResetRecord(old(s.data), nowMs) && s.sessionId == old(s.sessionId)
  {
    s.data := ResetRecord(s.data, nowMs);
  }

  /** Resetting twice at the same instant is resetting once. */
  lemma ResetIdempotent(o: Record, nowMs: nat)
    ensures ResetRecord(ResetRecord(o, nowMs), nowMs) == ResetRecord(o, nowMs)
  {
  }

  /** `iniciar_nueva_queja` archives the current complaint only if a prescription is loaded and it was not saved. */
  predicate ArchivesCurrent(o: Record) {
    HasFormula(o) && !o.complaint.saved
  }

  /**
   * The record after `iniciar_nueva_queja(user_session, user_id)`.
   * The new complaint id is built from the `user_id` argument.
   */
  function NewComplaintRecord(o: Record, userId: string, nowMs: nat): (r: Record)
    ensures r.prior == if ArchivesCurrent(o) then o.prior + [Archived(o.complaint)] else o.prior
    ensures r.complaint == Complaint(ComplaintId(userId, nowMs), false)
    ensures FieldsCleared(r) && r.processCompleted == Some(false) && r.lastInteraction == nowMs
    ensures r.(city := o.city, eps := o.eps, formulaData := o.formulaData, missingMeds := o.missingMeds,
               cellphone := o.cellphone, birthDate := o.birthDate, regime := o.regime,
               address := o.address, pharmacy := o.pharmacy, processCompleted := o.processCompleted,
               lastInteraction := o.lastInteraction, complaint := o.complaint, prior := o.prior) == o
  {
    var prior := if HasFormula(o) && !o.complaint.saved then o.prior + [Archived(o.complaint)] else o.prior;
    o.(prior := prior, complaint := Complaint(ComplaintId(userId, nowMs), false),
       city := "", eps := JStr(""), formulaData := None, missingMeds := None,
       processCompleted := Some(false), birthDate := "", regime := "", address := "",
       pharmacy := "", cellphone := "", lastInteraction := nowMs)
  }

  /** `iniciar_nueva_queja(user_session, user_id)`. */
  method IniciarNuevaQueja(s: Session, userId: string, nowMs: nat)
    modifies s
    ensures s.data == NewComplaintRecord(old(s.data), userId, nowMs) && s.sessionId == old(s.sessionId)
  {
    if HasFormula(s.data) && !s.data.complaint.saved {
      s.data := s.data.(prior := s.data.prior + [Archived(s.data.complaint)]);
    }
    var previousName := s.data.name;
    s.data := s.data.(complaint := Complaint(ComplaintId(userId, nowMs), false));
    s.data := s.data.(city := "", eps := JStr(""), formulaData := None, missingMeds := None,
                      processCompleted := Some(false), birthDate := "", regime := "",
                      address := "", pharmacy := "", cellphone := "", lastInteraction := nowMs);
    if previousName != "" {
      s.data := s.data.(name := previousName);
    }
  }

  /** A second new complaint right after the first archives nothing: the prescription is already gone. */
  lemma NewComplaintTwiceArchivesOnce(o: Record, userId: string, nowMs: nat)
    ensures NewComplaintRecord(NewComplaintRecord(o, userId, nowMs), userId, nowMs)
         == NewComplaintRecord(o, userId, nowMs)
  {
  }

  /** Writes to two different fields commute. */
  lemma {:induction false} UpdatesCommute(r: Record, a: string, x: string, b: string, y: string)
    requires FieldOf(a) != FieldOf(b)
    ensures UpdateField(UpdateField(r, a, x), b, y) == UpdateField(UpdateField(r, b, y), a, x)
  {
    var u := UpdateField(UpdateField(r, a, x), b, y);
    var v := UpdateField(UpdateField(r, b, y), a, x);
    assert OtherFields(u) == OtherFields(v);
    forall f ensures FieldValue(u, f) == FieldValue(v, f) {}
    FieldsDetermine(u, v);
  }

  /** A record is determined by its writable fields and the rest. */
  lemma FieldsDetermine(u: Record, v: Record)
    requires OtherFields(u) == OtherFields(v)
    requires forall f :: FieldValue(u, f) == FieldValue(v, f)
    ensures u == v
  {
    assert FieldValue(u, City) == FieldValue(v, City);
    assert FieldValue(u, Pharmacy) == FieldValue(v, Pharmacy);
    assert FieldValue(u, Address) == FieldValue(v, Address);
    assert FieldValue(u, Regime) == FieldValue(v, Regime);
    assert FieldValue(u, BirthDate) == FieldValue(v, BirthDate);
    assert FieldValue(u, MissingMeds) == FieldValue(v, MissingMeds);
    assert FieldValue(u, Cellphone) == FieldValue(v, Cellphone);
  }
}
