/**
 * The data-dependent sections of the system prompts: what is already known
 * about the user, the conversation state, what is still pending, the next
 * thing to ask for, and the prescription summary. The fixed instruction text
 * around them is product wording and is not modelled; a section is kept as
 * the structured list of its lines.
 *
 * Two builders share these sections: the session-driven prompt generator
 * (src/core/prompt_generator.py) and the prompt of the chat service
 * (src/services/openai_service.py). They differ in which known lines they
 * show, whether they greet first and how they read the patient's name.
 */
module Prompts {
  import opened Wrappers
  import opened Text
  import opened JsonValues
  import opened Sessions
  import opened Prescription
  import CoreSessions

  // ------------------------------------------------------------ pending information

  /** An item of "INFORMACIÓN PENDIENTE POR RECOPILAR", and the target of a "Preguntar ..." step. */
  datatype Item =
    | FormulaItem | ConsentItem | MedsItem | CityItem | CellphoneItem
    | BirthDateItem | RegimeItem | AddressItem | PharmacyItem

  /** The item is still to be collected: its field is falsy (medicines: also the placeholder). */
  predicate Missing(r: Record, x: Item) {
    match x
    case FormulaItem => !HasFormula(r)
    case ConsentItem => !r.consented
    case MedsItem => !MedsSpecified(r)
    case CityItem => r.city == ""
    case CellphoneItem => r.cellphone == ""
    case BirthDateItem => r.birthDate == ""
    case RegimeItem => r.regime == ""
    case AddressItem => r.address == ""
    case PharmacyItem => r.pharmacy == ""
  }

  /** The position of an item in the order in which both builders check and list them. */
  function Rank(x: Item): nat {
    match x
    case FormulaItem => 0 case ConsentItem => 1 case MedsItem => 2
    case CityItem => 3 case CellphoneItem => 4 case BirthDateItem => 5
    case RegimeItem => 6 case AddressItem => 7 case PharmacyItem => 8
  }

  const ITEMS: nat := 9

  function ItemAt(n: nat): Item
    requires n < ITEMS
  {
    if n == 0 then FormulaItem else if n == 1 then ConsentItem else if n == 2 then MedsItem
    else if n == 3 then CityItem else if n == 4 then CellphoneItem else if n == 5 then BirthDateItem
    else if n == 6 then RegimeItem else if n == 7 then AddressItem else PharmacyItem
  }

  lemma RankOfItemAt(n: nat)
    requires n < ITEMS
    ensures Rank(ItemAt(n)) == n
  {
  }

  /** The line of one pending check: the item, if it is missing. */
  function IfMissing(r: Record, x: Item): seq<Item> {
    if Missing(r, x) then [x] else []
  }

  /** The pending lines from position `n` of the order on. */
  function PendingFrom(r: Record, n: nat): seq<Item>
    decreases ITEMS - n
  {
    if n >= ITEMS then [] else IfMissing(r, ItemAt(n)) + PendingFrom(r, n + 1)
  }

  /** The pending section of both builders. */
  function PendingList(r: Record): seq<Item> { PendingFrom(r, 0) }

  lemma {:induction false} PendingFromMembers(r: Record, n: nat, x: Item)
    ensures x in PendingFrom(r, n) <==> n <= Rank(x) && Missing(r, x)
    decreases ITEMS - n
  {
    if n < ITEMS {
      PendingFromMembers(r, n + 1, x);
      RankOfItemAt(n);
      if Rank(x) == n {
        assert ItemAt(n) == x by {
          match x
          case FormulaItem => case ConsentItem => case MedsItem =>
          case CityItem => case CellphoneItem => case BirthDateItem =>
          case RegimeItem => case AddressItem => case PharmacyItem =>
        }
      }
    } else {
      assert Rank(x) < ITEMS;
    }
  }

  predicate RankSorted(items: seq<Item>) {
    forall i, j :: 0 <= i < j < |items| ==> Rank(items[i]) < Rank(items[j])
  }

  lemma {:induction false} PendingFromSorted(r: Record, n: nat)
    ensures RankSorted(PendingFrom(r, n))
    decreases ITEMS - n
  {
    if n < ITEMS {
      PendingFromSorted(r, n + 1);
      var t := PendingFrom(r, n + 1);
      if Missing(r, ItemAt(n)) {
        var p := [ItemAt(n)] + t;
        RankOfItemAt(n);
        forall i, j | 0 <= i < j < |p| ensures Rank(p[i]) < Rank(p[j]) {
          assert p[j] == t[j - 1];
          if i == 0 {
            PendingFromMembers(r, n + 1, t[j - 1]);
          } else {
            assert p[i] == t[i - 1];
          }
        }
      } else {
        assert PendingFrom(r, n) == [] + t;
      }
    }
  }

  /** The pending list follows the fixed order, so no item is listed twice. */
  lemma PendingListOrdered(r: Record)
    ensures RankSorted(PendingList(r))
  {
    PendingFromSorted(r, 0);
  }

  /** Exactly the missing items are listed as pending. */
  lemma PendingListMembers(r: Record, x: Item)
    ensures x in PendingList(r) <==> Missing(r, x)
  {
    PendingFromMembers(r, 0, x);
  }

  // ------------------------------------------------------------ next step

  datatype Action = Greet | Ask(item: Item) | PresentSummary

  /** "PRÓXIMA INFORMACIÓN A SOLICITAR" of the chat service: the first failing check, else the final summary. */
  function NextRequest(r: Record): Action {
    if !HasFormula(r) then Ask(FormulaItem)
    else if !r.consented then Ask(ConsentItem)
    else if !MedsSpecified(r) then Ask(MedsItem)
    else if r.city == "" then Ask(CityItem)
    else if r.cellphone == "" then Ask(CellphoneItem)
    else if r.birthDate == "" then Ask(BirthDateItem)
    else if r.regime == "" then Ask(RegimeItem)
    else if r.address == "" then Ask(AddressItem)
    else if r.pharmacy == "" then Ask(PharmacyItem)
    else PresentSummary
  }

  /** "PRÓXIMA ACCIÓN" of the prompt generator: greet first, then the same chain. */
  function NextAction(r: Record): Action {
    if !r.hasGreeted then Greet else NextRequest(r)
  }

  /** The first missing item from position `n` of the order on, else the final summary. */
  function NextFrom(r: Record, n: nat): Action
    decreases ITEMS - n
  {
    if n >= ITEMS then PresentSummary
    else if Missing(r, ItemAt(n)) then Ask(ItemAt(n))
    else NextFrom(r, n + 1)
  }

  lemma {:induction false} NextFromHeads(r: Record, n: nat)
    ensures NextFrom(r, n) == if PendingFrom(r, n) == [] then PresentSummary else Ask(PendingFrom(r, n)[0])
    decreases ITEMS - n
  {
    if n < ITEMS {
      NextFromHeads(r, n + 1);
      if !Missing(r, ItemAt(n)) {
        assert PendingFrom(r, n) == [] + PendingFrom(r, n + 1);
      }
    }
  }

  lemma NextRequestFollowsOrder(r: Record)
    ensures NextRequest(r) == NextFrom(r, 0)
  {
    assert NextFrom(r, 6) == if r.regime == "" then Ask(RegimeItem) else if r.address == "" then Ask(AddressItem)
      else if r.pharmacy == "" then Ask(PharmacyItem) else PresentSummary;
    assert NextFrom(r, 3) == if r.city == "" then Ask(CityItem) else if r.cellphone == "" then Ask(CellphoneItem)
      else if r.birthDate == "" then Ask(BirthDateItem) else NextFrom(r, 6);
  }

  /** The next request is always the head of the pending list; the final summary comes exactly when nothing is pending. */
  lemma NextRequestIsFirstPending(r: Record)
    ensures NextRequest(r) == if PendingList(r) == [] then PresentSummary else Ask(PendingList(r)[0])
  {
    NextRequestFollowsOrder(r);
    NextFromHeads(r, 0);
  }

  /** A user not yet greeted is always greeted first; afterwards both builders name the same next step. */
  lemma NextActionAfterGreeting(r: Record)
    ensures !r.hasGreeted <==> NextAction(r) == Greet
    ensures r.hasGreeted ==> NextAction(r) == if PendingList(r) == [] then PresentSummary else Ask(PendingList(r)[0])
  {
    NextRequestIsFirstPending(r);
  }

  // ------------------------------------------------------------ known information

  /** The label of a line of "INFORMACIÓN DEL USUARIO". */
  datatype Info =
    | NameInfo | FirstNameInfo | CityInfo | EpsInfo | MedsInfo
    | CellphoneInfo | BirthDateInfo | RegimeInfo | AddressInfo | PharmacyInfo

  datatype Known = Known(info: Info, value: Json)

  /** A line that the builder writes when `shown` holds. */
  datatype Candidate = Candidate(line: Known, shown: bool)

  /** The shown lines, in candidate order. */
  function Shown(cs: seq<Candidate>): (ks: seq<Known>)
    ensures forall k :: k in ks <==> Candidate(k, true) in cs
  {
    if cs == [] then []
    else (if cs[0].shown then [cs[0].line] else []) + Shown(cs[1..])
  }

  /** Some line of `ks` carries the label `info`. */
  predicate Shows(ks: seq<Known>, info: Info) {
    exists k | k in ks :: k.info == info
  }

  /** The label under which each collected item appears. */
  function InfoOf(x: Item): Info
    requires x != FormulaItem && x != ConsentItem
  {
    match x
    case MedsItem => MedsInfo
    case CityItem => CityInfo
    case CellphoneItem => CellphoneInfo
    case BirthDateItem => BirthDateInfo
    case RegimeItem => RegimeInfo
    case AddressItem => AddressInfo
    case PharmacyItem => PharmacyInfo
  }

  function CityLine(r: Record): Candidate { Candidate(Known(CityInfo, JStr(r.city)), r.city != "") }
  function CellphoneLine(r: Record): Candidate { Candidate(Known(CellphoneInfo, JStr(r.cellphone)), r.cellphone != "") }
  function BirthDateLine(r: Record): Candidate { Candidate(Known(BirthDateInfo, JStr(r.birthDate)), r.birthDate != "") }
  function RegimeLine(r: Record): Candidate { Candidate(Known(RegimeInfo, JStr(r.regime)), r.regime != "") }
  function AddressLine(r: Record): Candidate { Candidate(Known(AddressInfo, JStr(r.address)), r.address != "") }
  function PharmacyLine(r: Record): Candidate { Candidate(Known(PharmacyInfo, JStr(r.pharmacy)), r.pharmacy != "") }
  function EpsLine(r: Record): Candidate { Candidate(Known(EpsInfo, r.eps), Truthy(r.eps)) }

  /**
   * The known lines of the chat service: the name, then its first word,
   * and the medicines line whenever the field is set, even to the
   * placeholder. `s.split()[0]` of a name made only of spaces raises, and
   * the whole prompt fails (None).
   */
  function ServiceKnown(r: Record): (ks: Option<seq<Known>>)
    ensures ks.None? <==> r.name != "" && IsBlank(r.name)
  {
    WordsEmptyIffBlank(r.name);
    if r.name != "" && Words(r.name) == [] then None
    else
      var first := if r.name != "" then Words(r.name)[0] else "";
      Some(Shown([Candidate(Known(NameInfo, JStr(r.name)), r.name != ""),
                  Candidate(Known(FirstNameInfo, JStr(first)), r.name != ""),
                  CityLine(r), EpsLine(r),
                  Candidate(Known(MedsInfo, OptText(r.missingMeds)), HasMissingMeds(r)),
                  CellphoneLine(r), BirthDateLine(r), RegimeLine(r), AddressLine(r), PharmacyLine(r)]))
  }

  lemma ShowsAt(cs: seq<Candidate>, i: nat, info: Info)
    requires i < |cs| && cs[i].line.info == info
    requires forall j | 0 <= j < |cs| && j != i :: cs[j].line.info != info
    ensures Shows(Shown(cs), info) <==> cs[i].shown
  {
    if cs[i].shown {
      assert cs[i].line in Shown(cs);
    }
    if Shows(Shown(cs), info) {
      var k :| k in Shown(cs) && k.info == info;
      assert Candidate(k, true) in cs;
      var j :| 0 <= j < |cs| && cs[j] == Candidate(k, true);
    }
  }

  function GeneratorCandidates(r: Record): seq<Candidate> {
    [Candidate(Known(NameInfo, JStr(r.name)), r.name != ""),
     CityLine(r), EpsLine(r),
     Candidate(Known(MedsInfo, OptText(r.missingMeds)), MedsSpecified(r)),
     BirthDateLine(r), RegimeLine(r), AddressLine(r), PharmacyLine(r), CellphoneLine(r)]
  }

  /** The known lines of the prompt generator; the medicines line is hidden while it holds the placeholder. */
  function GeneratorKnown(r: Record): seq<Known> {
    Shown(GeneratorCandidates(r))
  }

  /**
   * In the prompt generator an item is listed as known exactly when it is
   * not listed as pending: the two sections never disagree.
   */
  lemma GeneratorKnownComplementsPending(r: Record, x: Item)
    requires x != FormulaItem && x != ConsentItem
    ensures Shows(GeneratorKnown(r), InfoOf(x)) <==> x !in PendingList(r)
  {
    var cs := GeneratorCandidates(r);
    var i := match x
      case MedsItem => 3
      case CityItem => 1
      case CellphoneItem => 8
      case BirthDateItem => 4
      case RegimeItem => 5
      case AddressItem => 6
      case PharmacyItem => 7;
    ShowsAt(cs, i, InfoOf(x));
    PendingListMembers(r, x);
  }

  /**
   * The chat service shows the placeholder "[aún no especificado]" as the
   * missing medicines and lists the medicines as pending at the same time;
   * the prompt generator hides it.
   */
  lemma PlaceholderShownAndPending(r: Record)
    requires r.missingMeds == Some(UNSPECIFIED_MEDS) && !IsBlank(r.name)
    ensures ServiceKnown(r).Some? && Known(MedsInfo, JStr(UNSPECIFIED_MEDS)) in ServiceKnown(r).value
    ensures MedsItem in PendingList(r)
    ensures !Shows(GeneratorKnown(r), MedsInfo)
  {
    GeneratorKnownComplementsPending(r, MedsItem);
  }

  // ------------------------------------------------------------ conversation state

  datatype Flag = FirstInteraction | HasGreeted | ConsentGiven | ProcessCompleted

  /** A "Sí"/"No" line of the state section. */
  datatype StatusLine = StatusLine(flag: Flag, yes: bool)

  /** `is_first_interaction` reads as true when the key is absent. */
  function FirstFlag(r: Record): StatusLine { StatusLine(FirstInteraction, r.isFirstInteraction != Some(false)) }

  function GeneratorStatus(r: Record): seq<StatusLine> {
    [FirstFlag(r), StatusLine(HasGreeted, r.hasGreeted), StatusLine(ConsentGiven, r.consented),
     StatusLine(ProcessCompleted, r.processCompleted == Some(true))]
  }

  function ServiceStatus(r: Record): seq<StatusLine> {
    [StatusLine(ConsentGiven, r.consented), FirstFlag(r), StatusLine(HasGreeted, r.hasGreeted)]
  }

  // ------------------------------------------------------------ prescription section

  /** The prescription section: the fixed "No proporcionada aún" line, or the fields with their defaults and the numbered medicines. */
  datatype FormulaContext =
    | NotProvided
    | Provided(patient: Json, docType: Json, docNumber: Json, doctor: Json, date: Json, eps: Json,
               medicines: seq<string>)

  /** The prescription section, the same in both builders. */
  function FormulaSection(r: Record): (c: FormulaContext)
    ensures c.NotProvided? <==> !HasFormula(r)
    ensures c.Provided? ==>
      |c.medicines| == |MedItems(r.formulaData.value)|
      && forall i :: 0 <= i < |c.medicines| ==>
           c.medicines[i] == "  " + NatToString(i + 1) + ". " + ItemText(MedItems(r.formulaData.value)[i])
    ensures c.Provided? ==> c.patient == Get(r.formulaData.value, "paciente", JStr("No disponible"))
  {
    if !HasFormula(r) then NotProvided
    else
      var f := r.formulaData.value;
      var lines := NumberedFrom(MedNames(f), 1);
      Provided(Get(f, "paciente", JStr("No disponible")), Get(f, "tipo_documento", JStr("")),
               Get(f, "numero_documento", JStr("")), Get(f, "doctor", JStr("No disponible")),
               Get(f, "fecha_atencion", JStr("No disponible")), Get(f, "eps", JStr("No disponible")),
               seq(|lines|, i requires 0 <= i < |lines| => "  " + lines[i]))
  }

  // ------------------------------------------------------------ the two prompts

  /** The user section of a prompt. */
  datatype UserContext = UserContext(known: seq<Known>, status: seq<StatusLine>, pending: seq<Item>, next: Action)

  /**
   * The patient-name line of `generate` as written: `formula_data` is read
   * with `.get("formula_data", {}).get(...)`, which raises on the session's
   * own default None; a truthy `paciente` that is not a string, or is only
   * spaces, raises at `split()[0]`.
   */
  function PatientNameAsWritten(r: Record): (n: Result<Option<Json>, ()>)
    ensures r.formulaData.None? ==> n.Err?
  {
    match r.formulaData
    case None => Err(())
    case Some(f) => PatientNameOf(f)
  }

  function PatientNameOf(f: map<string, Json>): (n: Result<Option<Json>, ()>)
    ensures n.Ok? && n.value.Some? ==> n.value.value.JStr? && !IsBlank(n.value.value.s)
    ensures n.Err? <==> Truthy(Get(f, "paciente", JStr(""))) && (!Get(f, "paciente", JStr("")).JStr? || IsBlank(Get(f, "paciente", JStr("")).s))
  {
    var p := Get(f, "paciente", JStr(""));
    if !Truthy(p) then Ok(None)
    else if !p.JStr? then Err(())
    else
      WordsEmptyIffBlank(p.s);
      if Words(p.s) == [] then Err(()) else Ok(Some(p))
  }

  /** The patient-name line as the `{}` default intends it: no prescription yet means no line. */
  function PatientName(r: Record): (n: Result<Option<Json>, ()>)
    ensures r.formulaData.None? ==> n == Ok(None)
    ensures r.formulaData.Some? ==> n == PatientNameAsWritten(r)
  {
    PatientNameOf(if r.formulaData.Some? then r.formulaData.value else map[])
  }

  /** Before any prescription arrives, `generate` as written always fails, on every new session. */
  lemma GenerateFailsOnNewSession(userId: string, nowMs: nat)
    ensures PatientNameAsWritten(CoreSessions.InitialRecord(userId, nowMs)).Err?
    ensures PatientName(CoreSessions.InitialRecord(userId, nowMs)) == Ok(None)
  {
    var r := CoreSessions.InitialRecord(userId, nowMs);
    assert r.formulaData.None? by { assert CoreSessions.FieldsCleared(r); }
  }

  datatype GeneratedPrompt = GeneratedPrompt(patientName: Option<Json>, user: UserContext, formula: FormulaContext)

  /** `SystemPromptGenerator.generate`, with the corrected patient-name line. */
  function Generate(r: Record): (p: Result<GeneratedPrompt, ()>)
    ensures p.Ok? ==> p.value.user.pending == PendingList(r) && p.value.user.next == NextAction(r)
    ensures p.Ok? ==> p.value.formula == FormulaSection(r)
    ensures p.Err? <==> PatientName(r).Err?
  {
    match PatientName(r)
    case Err(e) => Err(e)
    case Ok(n) =>
      Ok(GeneratedPrompt(n, UserContext(GeneratorKnown(r), GeneratorStatus(r), PendingList(r), NextAction(r)),
                         FormulaSection(r)))
  }

  datatype ServicePrompt = ServicePrompt(user: UserContext, formula: FormulaContext)

  /** `_generate_system_prompt` of the chat service. */
  function ServiceSystemPrompt(r: Record): (p: Option<ServicePrompt>)
    ensures p.None? <==> r.name != "" && IsBlank(r.name)
    ensures p.Some? ==> p.value.user.pending == PendingList(r) && p.value.user.next == NextRequest(r)
  {
    match ServiceKnown(r)
    case None => None
    case Some(ks) => Some(ServicePrompt(UserContext(ks, ServiceStatus(r), PendingList(r), NextRequest(r)), FormulaSection(r)))
  }
}
