/**
 * The per-user session record that every revision of the bot keeps in a
 * global `user_sessions` dict: `{"session_id": ..., "data": {...}}`.
 *
 * `Record` is the value of the `data` dict. It holds the union of the keys
 * that the different revisions create; a key that some revision leaves out
 * of the dict is an `Option` field whose `None` means "the key is absent".
 * `Session` is the mutable entry of `user_sessions`: the source assigns
 * entries of `data` in place and sometimes replaces `data` wholesale, so the
 * class keeps `data` as a field that its callers reassign.
 */
module Sessions {
  import opened Wrappers
  import opened Text
  import opened Steps
  import opened JsonValues

  /** The placeholder that several checks treat as "missing medicines not given yet". */
  const UNSPECIFIED_MEDS := "[aún no especificado]"

  /** `queja_actual`: the complaint being collected. */
  datatype Complaint = Complaint(id: string, saved: bool)

  /** `data_collected`: the per-field "already asked" flags. */
  datatype Flags = Flags(ciudad: bool, fechaNacimiento: bool, regimen: bool,
                         direccion: bool, farmacia: bool, celular: bool)

  const NoFlags := Flags(false, false, false, false, false, false)

  /** An entry of `quejas_anteriores`: an archived `queja_actual`, or the summary a successful save appends. */
  datatype PriorEntry =
    | Archived(complaint: Complaint)
    | Summary(id: string, fecha: string, paciente: Json, medicamentos: Json)

  /** An entry of `patient_history[document]["quejas"]`. */
  datatype PatientComplaint = PatientComplaint(id: string, fecha: string, medicamentos: Json, eps: Json, diagnostico: Json)

  datatype PatientRecord = PatientRecord(nombre: Json, quejas: seq<PatientComplaint>)

  /** `context_variables`: the numbered medicine text and the medicine list of the current prescription. */
  datatype ContextVars = ContextVars(medsList: Option<string>, medsArray: Option<seq<string>>)

  const EmptyContext := ContextVars(None, None)

  /** A validated prescription analysis, `{"datos": datos}`. */
  datatype FormulaResult = FormulaResult(datos: map<string, Json>)

  datatype Role = User | Assistant

  /** Fixed product wording is kept as a tag; free text is kept as is. */
  datatype Canned =
    | Welcome | ImageMarker | ConsentRequest | FormulaUnreadable | FormulaLost
    | ConsentThanks | ConsentRefused | FormulaSummary | PatientHistoryReport
    | AskMeds | FinalSummary | ModelReply | Confirmation | SelectionReply
    | AuthorizationRequest  // the shorter consent question asked for a photo of a user who has not consented
    | CityUpdate            // the monolith's "he actualizado tu ciudad" reply, with the next question when there is one
    | FarewellMessage       // the monolith's closing message after a farewell

  datatype Content = Said(text: string) | Fixed(kind: Canned)

  datatype Turn = Turn(role: Role, content: Content)

  datatype Record = Record(
    userId: string,
    name: string,
    city: string,
    eps: Json,
    consented: bool,
    formulaData: Option<map<string, Json>>,
    missingMeds: Option<string>,
    pendingMedia: Option<FormulaResult>,
    history: seq<Turn>,
    lastInteraction: nat,
    awaitingApproval: bool,
    context: ContextVars,
    isFirstInteraction: Option<bool>,
    hasGreeted: bool,
    lastProcessedTime: Option<nat>,
    cellphone: string,
    birthDate: string,
    regime: string,
    address: string,
    pharmacy: string,
    pharmacyBranch: Option<string>,
    complaint: Complaint,
    prior: seq<PriorEntry>,
    patientHistory: Option<map<Json, PatientRecord>>,
    currentStep: Option<Step>,
    summaryShown: Option<bool>,
    collected: Option<Flags>,
    processCompleted: Option<bool>,
    lastPhotoId: Option<string>,
    lastMessage: Option<string>,
    username: Option<string>)

  /** Seconds since the epoch, `int(time.time())`, for a clock kept in milliseconds. */
  function Seconds(nowMs: nat): nat { nowMs / 1000 }

  /** `f"{user_id}_{int(time.time())}"`, the id of a new complaint. */
  function ComplaintId(userId: string, nowMs: nat): string {
    userId + "_" + NatToString(Seconds(nowMs))
  }

  /** `f"telegram-session-{user_id}-{int(time.time())}"`. */
  function SessionIdFor(userId: string, nowMs: nat): string {
    "telegram-session-" + userId + "-" + NatToString(Seconds(nowMs))
  }

  /** `bool(data.get("formula_data"))`: present and not the empty dict. */
  predicate HasFormula(r: Record) {
    r.formulaData.Some? && |r.formulaData.value| > 0
  }

  /** `bool(data.get("missing_meds"))`. */
  predicate HasMissingMeds(r: Record) {
    r.missingMeds.Some? && r.missingMeds.value != ""
  }

  /** Missing medicines given and not the placeholder. */
  predicate MedsSpecified(r: Record) {
    HasMissingMeds(r) && r.missingMeds.value != UNSPECIFIED_MEDS
  }

  /** `bool(data.get("pending_media"))`: the analysis dict is never empty. */
  predicate HasPending(r: Record) { r.pendingMedia.Some? }

  /** `data.get("current_step") == step`; an absent key is None, which equals no step. */
  predicate AtStep(r: Record, step: Step) { r.currentStep == Some(step) }

  // --------------------------------------------------------- actualizar_datos_contexto

  /** The seven fields that `actualizar_datos_contexto` can write. */
  datatype Field = City | Pharmacy | Address | Regime | BirthDate | MissingMeds | Cellphone

  /** The `tipo` names accepted by `actualizar_datos_contexto` and the field each one writes. */
  function FieldOf(tipo: string): Option<Field> {
    if tipo == "ciudad" then Some(City)
    else if tipo == "farmacia" then Some(Pharmacy)
    else if tipo == "direccion" then Some(Address)
    else if tipo == "regimen" then Some(Regime)
    else if tipo == "fechaNacimiento" then Some(BirthDate)
    else if tipo == "medicamentos" then Some(MissingMeds)
    else if tipo == "celular" then Some(Cellphone)
    else None
  }

  /** The value of a writable field (`missing_meds` may be None). */
  function FieldValue(r: Record, f: Field): Option<string> {
    match f
    case City => Some(r.city)
    case Pharmacy => Some(r.pharmacy)
    case Address => Some(r.address)
    case Regime => Some(r.regime)
    case BirthDate => Some(r.birthDate)
    case MissingMeds => r.missingMeds
    case Cellphone => Some(r.cellphone)
  }

  /** The record with the seven writable fields blanked: what a field write must leave alone. */
  function OtherFields(r: Record): Record {
    r.(city := "", pharmacy := "", address := "", regime := "", birthDate := "",
       missingMeds := None, cellphone := "")
  }

  function SetField(r: Record, f: Field, v: string): Record {
    match f
    case City => r.(city := v)
    case Pharmacy => r.(pharmacy := v)
    case Address => r.(address := v)
    case Regime => r.(regime := v)
    case BirthDate => r.(birthDate := v)
    case MissingMeds => r.(missingMeds := Some(v))
    case Cellphone => r.(cellphone := v)
  }

  /**
   * `actualizar_datos_contexto(session, tipo, valor)`: a blank value or an
   * unknown `tipo` changes nothing; otherwise exactly the mapped field gets
   * the value, untrimmed.
   */
  function UpdateField(r: Record, tipo: string, valor: string): (u: Record)
    ensures OtherFields(u) == OtherFields(r)
    ensures forall f :: (FieldValue(u, f) ==
                          if !IsBlank(valor) && FieldOf(tipo) == Some(f) then Some(valor) else FieldValue(r, f))
    ensures IsBlank(valor) || FieldOf(tipo).None? ==> u == r
  {
    if IsBlank(valor) then r
    else match FieldOf(tipo)
      case None => r
      case Some(f) => SetFieldFrame(r, f, valor); SetField(r, f, valor)
  }

  lemma SetFieldFrame(r: Record, f: Field, v: string)
    ensures OtherFields(SetField(r, f, v)) == OtherFields(r)
    ensures forall g :: FieldValue(SetField(r, f, v), g) == if g == f then Some(v) else FieldValue(r, g)
  {
    match f
    case City =>
    case Pharmacy =>
    case Address =>
    case Regime =>
    case BirthDate =>
    case MissingMeds =>
    case Cellphone =>
  }

  /** The entry of `user_sessions`. */
  class Session {
    var sessionId: string
    var data: Record

    constructor (sessionId: string, data: Record)
      ensures this.sessionId == sessionId && this.data == data
    {
      this.sessionId := sessionId;
      this.data := data;
    }
  }

  /**
   * `actualizar_datos_contexto`, identical in src/core/session_manager.py,
   * src/models/session_manager.py and src/handler.py.
   */
  method ActualizarDatosContexto(s: Session, tipo: string, valor: string)
    modifies s
    ensures s.data == UpdateField(old(s.data), tipo, valor)
    ensures s.sessionId == old(s.sessionId)
  {
    StripEmptyIffBlank(valor);
    if valor == "" || Strip(valor) == "" {
      return;
    }
    if tipo == "ciudad" {
      s.data := s.data.(city := valor);
    } else if tipo == "farmacia" {
      s.data := s.data.(pharmacy := valor);
    } else if tipo == "direccion" {
      s.data := s.data.(address := valor);
    } else if tipo == "regimen" {
      s.data := s.data.(regime := valor);
    } else if tipo == "fechaNacimiento" {
      s.data := s.data.(birthDate := valor);
    } else if tipo == "medicamentos" {
      s.data := s.data.(missingMeds := Some(valor));
    } else if tipo == "celular" {
      s.data := s.data.(cellphone := valor);
    }
  }

  /** The global `user_sessions` dict of one revision. */
  class SessionStore {
    var sessions: map<string, Session>

    /** Every user id has its own session object. */
    ghost predicate Valid()
      reads this
    {
      forall a, b | a in sessions && b in sessions && a != b :: sessions[a] != sessions[b]
    }

    constructor ()
      ensures sessions == map[] && Valid()
    {
      sessions := map[];
    }

    /**
     * `get_user_session(user_id)` for a revision whose new record is `initial`:
     * an unseen id gets a new session; a known id gets the same session
     * object, whose `last_interaction` alone is updated.
     */
    method Get(userId: string, nowMs: nat, initial: Record) returns (s: Session)
      requires Valid()
      modifies this, sessions.Values
      ensures Valid()
      ensures userId in sessions && s == sessions[userId]
      ensures userId in old(sessions) ==>
        s == old(sessions[userId]) && sessions == old(sessions)
        && s.data == old(s.data).(lastInteraction := nowMs) && s.sessionId == old(s.sessionId)
      ensures userId !in old(sessions) ==>
        fresh(s) && sessions == old(sessions)[userId := s]
        && s.data == initial && s.sessionId == SessionIdFor(userId, nowMs)
      ensures forall k | k in old(sessions) && k != userId ::
        sessions[k] == old(sessions[k]) && sessions[k].data == old(sessions[k].data)
    {
      if userId !in sessions {
        s := new Session(SessionIdFor(userId, nowMs), initial);
        sessions := sessions[userId := s];
      } else {
        s := sessions[userId];
        s.data := s.data.(lastInteraction := nowMs);
      }
    }
  }
}
