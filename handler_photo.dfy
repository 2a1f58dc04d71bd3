/**
 * `process_photo_message` of src/handler.py: the two duplicate checks, the
 * stamp and the image turn, the greeting, a new complaint for a photo sent
 * after the complaint was completed, and then one of three paths by the
 * length of the conversation and the consent. The analysis of the photo
 * (download and model call) is a parameter: `None` when it raised.
 */
module HandlerPhoto {
  import opened Wrappers
  import opened Steps
  import opened Sessions
  import opened ModelSessions
  import opened Warehouse
  import opened HandlerSave
  import opened HandlerFormula
  import opened HandlerText

  /** The parts of a Telegram photo update that the handler reads: `photo[-1].file_unique_id` and the clock. */
  datatype PhotoMessage = PhotoMessage(photoId: string, nowMs: nat)

  /** How the photo was handled. */
  datatype PhotoPath =
    | PhotoDropped        // a duplicate
    | AskedConsent        // an opening photo: analysed and held for consent
    | AskedAuthorization  // a later photo of a user who has not consented: analysed and held
    | Summarised          // a consented photo: applied and summarised
    | Unreadable          // the analysis raised

  datatype PhotoOut = PhotoOut(path: PhotoPath, data: Record, stored: seq<Row>, used: nat)

  /** The stamp, the photo id, the image turn and, for a user not yet greeted, the greeting. */
  function PhotoArrive(r: Record, m: PhotoMessage): (u: Record)
    ensures u.lastProcessedTime == Some(m.nowMs) && u.lastPhotoId == Some(m.photoId)
    ensures u.history == r.history + [Turn(User, Fixed(ImageMarker))]
    ensures u.hasGreeted
    ensures u.currentStep == if r.hasGreeted then r.currentStep else Some(EsperandoConsentimiento)
    ensures u.(lastProcessedTime := r.lastProcessedTime, lastPhotoId := r.lastPhotoId, history := r.history,
               hasGreeted := r.hasGreeted, currentStep := r.currentStep) == r
  {
    var a := r.(lastProcessedTime := Some(m.nowMs), lastPhotoId := Some(m.photoId),
                history := r.history + [Turn(User, Fixed(ImageMarker))]);
    if r.hasGreeted then a else a.(hasGreeted := true, currentStep := Some(EsperandoConsentimiento))
  }

  /**
   * A photo at COMPLETADO starts a new complaint: the pending save, then the
   * cleared fields; the step stays COMPLETADO. At any other step nothing.
   */
  function Reopened(a: Record, nowMs: nat, fecha: string, script: seq<Reply>): (res: SaveResult)
    ensures !AtStep(a, Completado) ==> res == SaveResult(false, a, [], 0)
    ensures AtStep(a, Completado) ==> res.data == FreshComplaint(SaveIfPending(a, fecha, script).data, nowMs)
    ensures AtStep(a, Completado) ==> res.stored == SaveIfPending(a, fecha, script).stored
    ensures res.used <= 2 && |res.stored| <= 1
  {
    if AtStep(a, Completado) then
      var sv := SaveIfPending(a, fecha, script);
      sv.(data := FreshComplaint(sv.data, nowMs))
    else SaveResult(false, a, [], 0)
  }

  /** The three paths after the new-complaint test. */
  function Analysed(b: Record, analysis: Option<FormulaResult>): (o: (PhotoPath, Record))
    ensures o.0 != PhotoDropped
    ensures o.0 == Unreadable <==> analysis.None?
  {
    if |b.history| <= 2 then
      var c := b.(hasGreeted := true, currentStep := Some(EsperandoConsentimiento), awaitingApproval := true);
      match analysis
      case None => (Unreadable, c)
      case Some(res) =>
        (AskedConsent, c.(pendingMedia := Some(res), history := c.history + [Turn(Assistant, Fixed(ConsentRequest))]))
    else if !b.consented then
      match analysis
      case None => (Unreadable, b)
      case Some(res) =>
        (AskedAuthorization, b.(pendingMedia := Some(res), awaitingApproval := true, currentStep := Some(EsperandoConsentimiento),
                                history := b.history + [Turn(Assistant, Fixed(AuthorizationRequest))]))
    else
      match analysis
      case None => (Unreadable, b)
      case Some(res) => (Summarised, ShowSummary(ApplyFormula(b, res).(currentStep := Some(FormulaAnalizada))))
  }

  /** `process_photo_message`. */
  function PhotoTurn(r: Record, m: PhotoMessage, analysis: Option<FormulaResult>, fecha: string, script: seq<Reply>): (o: PhotoOut)
    ensures o.used <= 2 && |o.stored| <= 1
  {
    if RecentWithin(r, m.nowMs, 2500) then PhotoOut(PhotoDropped, r, [], 0)
    else if RecentWithin(r, m.nowMs, 2000) && r.lastPhotoId == Some(m.photoId) then PhotoOut(PhotoDropped, r, [], 0)
    else
      var re := Reopened(PhotoArrive(r, m), m.nowMs, fecha, script);
      var an := Analysed(re.data, analysis);
      PhotoOut(an.0, an.1, re.stored, re.used)
  }

  // ------------------------------------------------------------ properties

  /**
   * A photo is dropped exactly when it comes within 2.5 seconds of the last
   * stamp: the check for the same photo within 2 seconds never drops one
   * that the first check let through.
   */
  lemma PhotoDroppedIff(r: Record, m: PhotoMessage, analysis: Option<FormulaResult>, fecha: string, script: seq<Reply>)
    ensures PhotoTurn(r, m, analysis, fecha, script).path == PhotoDropped <==> RecentWithin(r, m.nowMs, 2500)
    ensures RecentWithin(r, m.nowMs, 2500) ==> PhotoTurn(r, m, analysis, fecha, script) == PhotoOut(PhotoDropped, r, [], 0)
  {
    if RecentWithin(r, m.nowMs, 2000) {
      assert RecentWithin(r, m.nowMs, 2500);
    }
  }

  /** What the three paths keep of the record they start from. */
  lemma AnalysedKeeps(b: Record, analysis: Option<FormulaResult>)
    ensures Analysed(b, analysis).1.complaint == b.complaint
    ensures Analysed(b, analysis).1.consented == b.consented
    ensures Analysed(b, analysis).1.userId == b.userId
    ensures Analysed(b, analysis).1.prior == b.prior
    ensures b.history <= Analysed(b, analysis).1.history
    ensures Analysed(b, analysis).0 != Summarised ==> Analysed(b, analysis).1.formulaData == b.formulaData
  {
  }

  /**
   * Without consent a photo never reaches the prescription data: the
   * record's prescription is the one it had (or none, after a completed
   * complaint), the consent stays off, and an analysis that succeeded is
   * held as pending with the consent question asked.
   */
  lemma NoFormulaWithoutConsent(r: Record, m: PhotoMessage, res: FormulaResult, fecha: string, script: seq<Reply>)
    requires !r.consented && !RecentWithin(r, m.nowMs, 2500)
    ensures PhotoTurn(r, m, Some(res), fecha, script).path in {AskedConsent, AskedAuthorization}
    ensures PhotoTurn(r, m, Some(res), fecha, script).data.formulaData in {r.formulaData, None}
    ensures !PhotoTurn(r, m, Some(res), fecha, script).data.consented
    ensures PhotoTurn(r, m, Some(res), fecha, script).data.pendingMedia == Some(res)
    ensures PhotoTurn(r, m, Some(res), fecha, script).data.awaitingApproval
    ensures PhotoTurn(r, m, Some(res), fecha, script).data.currentStep == Some(EsperandoConsentimiento)
  {
    PhotoDroppedIff(r, m, Some(res), fecha, script);
    var a := PhotoArrive(r, m);
    var re := Reopened(a, m.nowMs, fecha, script);
    ReopenedKeeps(a, m.nowMs, fecha, script);
    AnalysedKeeps(re.data, Some(res));
  }

  /** What a new complaint for a photo keeps, and that it clears the prescription when it happens. */
  lemma ReopenedKeeps(a: Record, nowMs: nat, fecha: string, script: seq<Reply>)
    ensures Reopened(a, nowMs, fecha, script).data.consented == a.consented
    ensures Reopened(a, nowMs, fecha, script).data.userId == a.userId
    ensures Reopened(a, nowMs, fecha, script).data.history == a.history
    ensures Reopened(a, nowMs, fecha, script).data.currentStep == a.currentStep
    ensures Reopened(a, nowMs, fecha, script).data.formulaData == if AtStep(a, Completado) then None else a.formulaData
    ensures a.prior <= Reopened(a, nowMs, fecha, script).data.prior
  {
  }

  /** A consented photo later in the conversation is applied and summarised, and the medicines are asked for. */
  lemma ConsentedPhotoSummarised(r: Record, m: PhotoMessage, res: FormulaResult, fecha: string, script: seq<Reply>)
    requires r.consented && |r.history| >= 2 && !RecentWithin(r, m.nowMs, 2500)
    ensures PhotoTurn(r, m, Some(res), fecha, script).path == Summarised
    ensures PhotoTurn(r, m, Some(res), fecha, script).data.formulaData == Some(res.datos)
    ensures PhotoTurn(r, m, Some(res), fecha, script).data.summaryShown == Some(true)
    ensures PhotoTurn(r, m, Some(res), fecha, script).data.currentStep == Some(EsperandoMedicamentos)
  {
    PhotoDroppedIff(r, m, Some(res), fecha, script);
    var a := PhotoArrive(r, m);
    ReopenedKeeps(a, m.nowMs, fecha, script);
  }

  /** A photo whose analysis raised adds only the image turn (an opening photo still sets up the consent). */
  lemma UnreadablePhotoSaysNothing(r: Record, m: PhotoMessage, fecha: string, script: seq<Reply>)
    requires !RecentWithin(r, m.nowMs, 2500)
    ensures PhotoTurn(r, m, None, fecha, script).path == Unreadable
    ensures PhotoTurn(r, m, None, fecha, script).data.history == r.history + [Turn(User, Fixed(ImageMarker))]
    ensures PhotoTurn(r, m, None, fecha, script).data.pendingMedia ==
      Reopened(PhotoArrive(r, m), m.nowMs, fecha, script).data.pendingMedia
  {
    PhotoDroppedIff(r, m, None, fecha, script);
    ReopenedKeeps(PhotoArrive(r, m), m.nowMs, fecha, script);
  }

  /**
   * A photo after a completed complaint saves it if it has a prescription
   * and is unsaved, and opens a new unsaved complaint.
   */
  lemma PhotoAfterCompletedStartsNew(r: Record, m: PhotoMessage, analysis: Option<FormulaResult>, fecha: string, script: seq<Reply>)
    requires r.hasGreeted && AtStep(r, Completado) && !RecentWithin(r, m.nowMs, 2500)
    ensures PhotoTurn(r, m, analysis, fecha, script).stored == SaveIfPending(PhotoArrive(r, m), fecha, script).stored
    ensures PhotoTurn(r, m, analysis, fecha, script).data.complaint == Complaint(ComplaintId(r.userId, m.nowMs), false)
  {
    PhotoDroppedIff(r, m, analysis, fecha, script);
    var a := PhotoArrive(r, m);
    var re := Reopened(a, m.nowMs, fecha, script);
    assert re.data.userId == r.userId by {
      assert SaveIfPending(a, fecha, script).data.userId == a.userId;
    }
    AnalysedKeeps(re.data, analysis);
  }

  // ------------------------------------------------------------ the in-place photo turn

  /** `process_photo_message` on the session. */
  method ProcessPhotoMessage(s: Session, t: Table, m: PhotoMessage, analysis: Option<FormulaResult>, fecha: string) returns (path: PhotoPath)
    requires t.Valid()
    modifies s, t
    ensures t.Valid() && t.schema == old(t.schema) && s.sessionId == old(s.sessionId)
    ensures path == PhotoTurn(old(s.data), m, analysis, fecha, old(t.script)).path
    ensures s.data == PhotoTurn(old(s.data), m, analysis, fecha, old(t.script)).data
    ensures t.rows == old(t.rows) + PhotoTurn(old(s.data), m, analysis, fecha, old(t.script)).stored
    ensures t.script == Skip(old(t.script), PhotoTurn(old(s.data), m, analysis, fecha, old(t.script)).used)
  {
    var d := s.data;
    if d.lastProcessedTime.Some? && d.lastProcessedTime.value != 0 && m.nowMs < d.lastProcessedTime.value + 2500 {
      return PhotoDropped;
    }
    if d.lastProcessedTime.Some? && d.lastProcessedTime.value != 0 && m.nowMs < d.lastProcessedTime.value + 2000
       && d.lastPhotoId == Some(m.photoId) {
      return PhotoDropped;
    }
    StampPhoto(s, m);
    if AtStep(s.data, Completado) {
      SavePending(s, t, fecha);
      ClearComplaint(s, m.nowMs);
    }
    path := AnalysePhoto(s, analysis);
  }

  /** The stamp, the photo id, the image turn and the greeting, on the session. */
  method StampPhoto(s: Session, m: PhotoMessage)
    modifies s
    ensures s.data == PhotoArrive(old(s.data), m) && s.sessionId == old(s.sessionId)
  {
    s.data := s.data.(lastProcessedTime := Some(m.nowMs));
    s.data := s.data.(lastPhotoId := Some(m.photoId));
    s.data := s.data.(history := s.data.history + [Turn(User, Fixed(ImageMarker))]);
    if !s.data.hasGreeted {
      s.data := s.data.(hasGreeted := true);
      s.data := s.data.(currentStep := Some(EsperandoConsentimiento));
    }
  }

  /** The three paths, on the session. */
  method AnalysePhoto(s: Session, analysis: Option<FormulaResult>) returns (path: PhotoPath)
    modifies s
    ensures s.sessionId == old(s.sessionId)
    ensures (path, s.data) == Analysed(old(s.data), analysis)
  {
    if |s.data.history| <= 2 {
      s.data := s.data.(hasGreeted := true);
      s.data := s.data.(currentStep := Some(EsperandoConsentimiento));
      s.data := s.data.(awaitingApproval := true);
      if analysis.None? {
        return Unreadable;
      }
      s.data := s.data.(pendingMedia := analysis);
      s.data := s.data.(history := s.data.history + [Turn(Assistant, Fixed(ConsentRequest))]);
      return AskedConsent;
    }
    if !s.data.consented {
      if analysis.None? {
        return Unreadable;
      }
      s.data := s.data.(pendingMedia := analysis);
      s.data := s.data.(awaitingApproval := true);
      s.data := s.data.(currentStep := Some(EsperandoConsentimiento));
      s.data := s.data.(history := s.data.history + [Turn(Assistant, Fixed(AuthorizationRequest))]);
      return AskedAuthorization;
    }
    if analysis.None? {
      return Unreadable;
    }
    ActualizarDatosFormula(s, analysis.value);
    s.data := s.data.(currentStep := Some(FormulaAnalizada));
    MostrarResumenFormula(s);
    return Summarised;
  }
}
