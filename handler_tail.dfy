/**
 * The end of `process_text_message` in src/handler.py, reached when no step
 * of the chain took the text (lines 953-1029). First come the `patrones`
 * corrections: a city correction, or a `cambiar ...` request that clears one
 * field and goes back to the step that asks for it. Then comes the farewell,
 * which forces a save of an unsaved complaint, and then the COMPLETADO mark
 * once every field is known. The conversational reply after that is not
 * part of this model.
 *
 * The three regexes are recognisers at a position that make the choices of
 * Python's backtracking engine under `re.I`; `Search.SearchValue` takes the
 * leftmost position, as `re.search` does.
 */
module HandlerTail {
  import opened Wrappers
  import opened Text
  import opened Search
  import opened Steps
  import opened Sessions
  import opened ModelSessions
  import opened Questions
  import opened Warehouse
  import opened HandlerSave
  import DataExtractor
  import Dates

  /** The characters `[start, end)` of the text that a regex group captured. */
  datatype Span = Span(start: nat, end: nat)

  predicate NotLineBreak(c: char) { c != '\n' }

  // ------------------------------------------------------------ the city corrections

  /**
   * `\s+([A-Za-zÁáÉéÍíÓóÚúÜüÑñ\s]+)` at `e`. The spaces are taken greedily;
   * when no letter follows them, the engine gives the last space back so
   * that the group holds that one space.
   */
  function CityGroupAt(t: string, e: nat): (g: Option<Span>)
    ensures g.Some? ==> e < g.value.start < g.value.end <= |t|
    ensures g.Some? ==> forall i :: g.value.start <= i < g.value.end ==> DataExtractor.IsCityChar(t[i])
    ensures g.Some? ==> g.value.end == |t| || !DataExtractor.IsCityChar(t[g.value.end])
  {
    var n := DataExtractor.Run(t, e, IsSpace);
    var p := e + n;
    var c := DataExtractor.Run(t, p, DataExtractor.IsCityChar);
    if n == 0 then None
    else if c > 0 then Some(Span(p, p + c))
    else if n >= 2 then Some(Span(p - 1, p))
    else None
  }

  /** `me equivoqu[eé](?:,)?\s+(?:me encuentro|estoy) en\s+(...)` at `i`. */
  function EquivocadoAt(t: string, i: nat): (g: Option<Span>)
    ensures g.Some? ==> i < g.value.start < g.value.end <= |t|
  {
    var j := i + 11;
    var k := if j + 1 < |t| && t[j + 1] == ',' then j + 2 else j + 1;
    var n := DataExtractor.Run(t, k, IsSpace);
    var w := k + n;
    if !(Dates.WordAt(t, i, "me equivoqu") && (Dates.WordAt(t, j, "e") || Dates.WordAt(t, j, "é"))) || n == 0 then None
    else if Dates.WordAt(t, w, "me encuentro en") then CityGroupAt(t, w + 15)
    else if Dates.WordAt(t, w, "estoy en") then CityGroupAt(t, w + 8)
    else None
  }

  /** `,?\s+(?:sino|estoy) en\s+(...)` at `k`, where the run `[^,]+` before it ended. */
  function SinoAt(t: string, k: nat): (g: Option<Span>)
    ensures g.Some? ==> k < g.value.start < g.value.end <= |t|
  {
    var k1 := if k < |t| && t[k] == ',' then k + 1 else k;
    var n := DataExtractor.Run(t, k1, IsSpace);
    var w := k1 + n;
    if n == 0 then None
    else if Dates.WordAt(t, w, "sino en") then CityGroupAt(t, w + 7)
    else if Dates.WordAt(t, w, "estoy en") then CityGroupAt(t, w + 8)
    else None
  }

  /**
   * `no (?:vivo|resido|estoy) en\s+[^,]+,?\s+(?:sino|estoy) en\s+(...)` at
   * `i`. After "en" come at least one space and then `[^,]+`, so the run ends
   * somewhere from two characters after "en" up to the first comma; being
   * greedy, it ends at the last such place after which the rest matches.
   */
  function NoVivoAt(t: string, i: nat): (g: Option<Span>)
    ensures g.Some? ==> i < g.value.start < g.value.end <= |t|
  {
    var j := i + 3;
    var e := if Dates.WordAt(t, j, "vivo en") then j + 7
             else if Dates.WordAt(t, j, "resido en") then j + 9
             else if Dates.WordAt(t, j, "estoy en") then j + 8
             else 0;
    if !Dates.WordAt(t, i, "no ") || e == 0 || !(e < |t| && IsSpace(t[e])) then None
    else match Last(t, e + 2, e + 1 + DataExtractor.Run(t, e + 1, DataExtractor.NotComma), SinoAt)
      case None => None
      case Some(h) => Some(h.value)
  }

  // ------------------------------------------------------------ the field changes

  /** `cambiar (.*)` at `i`: the rest of the line after "cambiar ". */
  function CambiarAt(t: string, i: nat): (g: Option<Span>)
    ensures g.Some? ==> i < g.value.start <= g.value.end <= |t|
  {
    if Dates.WordAt(t, i, "cambiar ") then Some(Span(i + 8, i + 8 + DataExtractor.Run(t, i + 8, NotLineBreak)))
    else None
  }

  /** A branch of the `cambiar` chain: the words tested, the field cleared and the step set. */
  datatype Change = Change(words: seq<string>, f: Field, step: Step)

  /** The `if/elif` chain, in its order. */
  const Changes: seq<Change> := [
    Change(["ciudad"], City, EsperandoCiudad),
    Change(["régimen", "regimen"], Regime, EsperandoRegimen),
    Change(["fecha"], BirthDate, EsperandoFechaNacimiento),
    Change(["dirección", "direccion"], Address, EsperandoDireccion),
    Change(["farmacia"], Pharmacy, EsperandoFarmacia),
    Change(["celular", "teléfono", "telefono"], Cellphone, EsperandoCelular)
  ]

  /** The first branch from `k` on whose words occur in `campo_cambio`. */
  function ChangeFrom(campo: string, k: nat): (o: Option<nat>)
    ensures o.Some? ==> k <= o.value < |Changes| && ContainsAny(campo, Changes[o.value].words)
    ensures o.Some? ==> forall j :: k <= j < o.value ==> !ContainsAny(campo, Changes[j].words)
    ensures o.None? ==> forall j :: k <= j < |Changes| ==> !ContainsAny(campo, Changes[j].words)
    decreases |Changes| - k
  {
    if k >= |Changes| then None
    else if ContainsAny(campo, Changes[k].words) then Some(k)
    else ChangeFrom(campo, k + 1)
  }

  /** Each branch goes back to the step at which `get_next_question` asks for the field it clears. */
  lemma ChangesAskAgain(k: nat)
    requires k < |Changes|
    ensures Changes[k].step == AskStep(Changes[k].f) && Changes[k].f != MissingMeds
  {
  }

  /** Different branches clear different fields. */
  lemma ChangesDistinct(j: nat, k: nat)
    requires j < k < |Changes|
    ensures Changes[j].f != Changes[k].f
  {
  }

  // ------------------------------------------------------------ the `patrones` loop

  /** The three entries of `patrones`, in order; the first two write the city. */
  datatype Patron = Equivocado | NoVivo | Cambiar

  const Patrones: seq<Patron> := [Equivocado, NoVivo, Cambiar]

  /** `patron["regex"].search(text)`: the span of group 1 of the leftmost match. */
  function Found(t: string, p: Patron): (g: Option<Span>)
    ensures g.Some? ==> g.value.start <= g.value.end <= |t|
    ensures g.Some? && p != Cambiar ==> g.value.start < g.value.end
  {
    var h := match p
      case Equivocado => First(t, 0, EquivocadoAt)
      case NoVivo => First(t, 0, NoVivoAt)
      case Cambiar => First(t, 0, CambiarAt);
    if h.None? then None else Some(h.value.value)
  }

  /** What a matching entry asks for: a new city, or the branch of the `cambiar` chain. */
  datatype Fix = NewCity(city: string) | Clear(change: Change)

  /**
   * One entry: nothing when its regex does not match or group 1 is empty;
   * a city entry gives the stripped group; `cambiar` gives the first branch
   * named in the lower-cased, stripped group, or nothing when none is.
   */
  function PatronFix(t: string, p: Patron): (o: Option<Fix>)
    ensures o.Some? ==> Found(t, p).Some?
    ensures o.Some? && o.value.NewCity? ==> p != Cambiar
    ensures o.Some? && o.value.Clear? ==> p == Cambiar && o.value.change in Changes
  {
    match Found(t, p)
    case None => None
    case Some(g) =>
      var v := t[g.start..g.end];
      if v == "" then None
      else if p != Cambiar then Some(NewCity(Strip(v)))
      else match ChangeFrom(Strip(Lower(v)), 0)
        case None => None
        case Some(k) => Some(Clear(Changes[k]))
  }

  /** The first entry from `k` on that handles the text. */
  function FirstFix(t: string, k: nat): (o: Option<Fix>)
    ensures o.Some? ==> exists i :: k <= i < |Patrones| && PatronFix(t, Patrones[i]) == o
    ensures o.Some? && o.value.Clear? ==> o.value.change in Changes
    decreases |Patrones| - k
  {
    if k >= |Patrones| then None
    else match PatronFix(t, Patrones[k])
      case Some(x) => Some(x)
      case None => FirstFix(t, k + 1)
  }

  // ------------------------------------------------------------ the farewell

  /** `(no|nada|listo|ok|está bien|bien así|gracias|eso sería todo|es todo)`, with no word boundaries. */
  const FarewellWords := ["no", "nada", "listo", "ok", "está bien", "bien así", "gracias", "eso sería todo", "es todo"]

  predicate IsFarewell(text: string) { ContainsAny(Lower(text), FarewellWords) }

  /** The medicines and the six personal fields are all present (truthy). */
  predicate AllKnown(r: Record) {
    HasMissingMeds(r) && r.city != "" && r.birthDate != "" && r.regime != ""
    && r.address != "" && r.pharmacy != "" && r.cellphone != ""
  }

  /** The test at lines 1011-1018: the complaint is complete, or everything is known. */
  predicate Closable(r: Record) { AtStep(r, Completado) || AllKnown(r) }

  // ------------------------------------------------------------ the tail

  /** How the tail ended the turn; Conversed is the conversational reply, not part of this model. */
  datatype TailPath = CityCorrected | Rewound(f: Field) | SaidFarewell | Conversed

  datatype TailOut = TailOut(path: TailPath, data: Record, stored: seq<Row>, used: nat)

  /** A city correction: the field write, `get_next_question`, and the reply with the question as an assistant turn. */
  function CityFixed(a: Record, c: string): (u: Record)
    requires StepAware(a)
    ensures StepAware(u) && u.userId == a.userId && u.lastProcessedTime == a.lastProcessedTime
    ensures u.history == a.history + [Turn(Assistant, Fixed(CityUpdate))] && u.prior == a.prior
  {
    UpdateKeepsStepAware(a, "ciudad", c);
    var u := NextQuestion(UpdateField(a, "ciudad", c)).1;
    u.(history := u.history + [Turn(Assistant, Fixed(CityUpdate))])
  }

  /** A branch of the `cambiar` chain: the field emptied and the step set; the reply is not recorded. */
  function Cleared(a: Record, ch: Change): (u: Record)
    requires StepAware(a)
    ensures StepAware(u) && u.userId == a.userId && u.lastProcessedTime == a.lastProcessedTime
    ensures u.history == a.history && u.prior == a.prior
  {
    SetFieldFrame(a, ch.f, "");
    SetField(a, ch.f, "").(currentStep := Some(ch.step))
  }

  /** The farewell: the closing message as an assistant turn, then the forced save of an unsaved complaint. */
  function SaidGoodbye(a: Record, fecha: string, script: seq<Reply>): (o: TailOut)
    requires StepAware(a)
    ensures StepAware(o.data) && o.data.userId == a.userId && o.data.lastProcessedTime == a.lastProcessedTime
    ensures a.history <= o.data.history && a.prior <= o.data.prior
    ensures o.used <= 2 && |o.stored| <= 1
  {
    var u := a.(history := a.history + [Turn(Assistant, Fixed(FarewellMessage))]);
    if u.complaint.saved then TailOut(SaidFarewell, u, [], 0)
    else
      SaveKeeps(u, true, fecha, script);
      var sv := MonolithSave(u, true, fecha, script);
      TailOut(SaidFarewell, sv.data, sv.stored, sv.used)
  }

  /** `current_step = COMPLETADO` when the test at lines 1011-1018 holds, before the conversational reply. */
  function Marked(a: Record): (u: Record)
    requires StepAware(a)
    ensures StepAware(u) && u.userId == a.userId && u.lastProcessedTime == a.lastProcessedTime
    ensures u.history == a.history && u.prior == a.prior
  {
    if Closable(a) then a.(currentStep := Some(Completado)) else a
  }

  /** What a handled entry does to the record, and how the turn ends. */
  function Applied(a: Record, fx: Fix): (res: (TailPath, Record))
    requires StepAware(a)
    ensures StepAware(res.1) && res.1.userId == a.userId && res.1.lastProcessedTime == a.lastProcessedTime
    ensures a.history <= res.1.history && res.1.prior == a.prior
  {
    match fx
    case NewCity(c) => (CityCorrected, CityFixed(a, c))
    case Clear(ch) => (Rewound(ch.f), Cleared(a, ch))
  }

  /** Lines 1011-1029, once no entry of `patrones` has handled the text. */
  function Closing(a: Record, text: string, fecha: string, script: seq<Reply>): (o: TailOut)
    requires StepAware(a)
    ensures StepAware(o.data) && o.data.userId == a.userId && o.data.lastProcessedTime == a.lastProcessedTime
    ensures a.history <= o.data.history && a.prior <= o.data.prior
    ensures o.used <= 2 && |o.stored| <= 1
  {
    if Closable(a) && IsFarewell(text) then SaidGoodbye(a, fecha, script)
    else TailOut(Conversed, Marked(a), [], 0)
  }

  /** Lines 953-1029 on the record, once the step chain has taken nothing. */
  function Tail(a: Record, text: string, fecha: string, script: seq<Reply>): (o: TailOut)
    requires StepAware(a)
    ensures StepAware(o.data) && o.data.userId == a.userId && o.data.lastProcessedTime == a.lastProcessedTime
    ensures a.history <= o.data.history && a.prior <= o.data.prior
    ensures o.used <= 2 && |o.stored| <= 1
  {
    match FirstFix(text, 0)
    case Some(fx) => var pu := Applied(a, fx); TailOut(pu.0, pu.1, [], 0)
    case None => Closing(a, text, fecha, script)
  }

  // ------------------------------------------------------------ what the tail does

  /** `Cleared` on a branch of the chain: only its field and the step change. */
  lemma ClearedFacts(a: Record, ch: Change)
    requires StepAware(a) && ch in Changes
    ensures ch.f != MissingMeds && FieldValue(Cleared(a, ch), ch.f) == Some("")
    ensures forall g :: g != ch.f ==> FieldValue(Cleared(a, ch), g) == FieldValue(a, g)
    ensures OtherFields(Cleared(a, ch)) == OtherFields(a).(currentStep := Some(AskStep(ch.f)))
  {
    var k :| 0 <= k < |Changes| && Changes[k] == ch;
    ChangesAskAgain(k);
    SetFieldFrame(a, ch.f, "");
  }

  /** A `cambiar` branch empties exactly its field, goes back to the step that asks for it, and stores nothing. */
  lemma RewindClearsOneField(a: Record, text: string, fecha: string, script: seq<Reply>)
    requires StepAware(a) && Tail(a, text, fecha, script).path.Rewound?
    ensures var o := Tail(a, text, fecha, script); var f := o.path.f;
      f != MissingMeds && FieldValue(o.data, f) == Some("")
      && (forall g :: g != f ==> FieldValue(o.data, g) == FieldValue(a, g))
      && OtherFields(o.data) == OtherFields(a).(currentStep := Some(AskStep(f)))
      && o.stored == [] && o.used == 0
  {
    var ch := FirstFix(text, 0).value.change;
    assert Tail(a, text, fecha, script) == TailOut(Rewound(ch.f), Cleared(a, ch), [], 0);
    ClearedFacts(a, ch);
  }

  /** `CityFixed` writes only the city (when the value is not blank), then the step, the flags and the reply. */
  lemma CityFixedFacts(a: Record, c: string)
    requires StepAware(a)
    ensures var u := CityFixed(a, c);
      u.city == (if IsBlank(c) then a.city else c)
      && (forall g :: g != City ==> FieldValue(u, g) == FieldValue(a, g))
      && u.(currentStep := a.currentStep, collected := a.collected, history := a.history) == a.(city := u.city)
      && u.currentStep == NextQuestion(a.(city := u.city)).1.currentStep
  {
    var v := UpdateField(a, "ciudad", c);
    assert v == a.(city := v.city);
  }

  /**
   * A city correction writes the stripped group of a matching city entry when
   * it is not blank (and leaves the city alone when it is), changes no other
   * field, lets `get_next_question` set only the step and the flags, appends
   * the reply, and stores nothing.
   */
  lemma CityCorrectionFacts(a: Record, text: string, fecha: string, script: seq<Reply>)
    requires StepAware(a) && Tail(a, text, fecha, script).path == CityCorrected
    ensures var o := Tail(a, text, fecha, script);
      (exists p :: p != Cambiar && Found(text, p).Some?
         && (var g := Found(text, p).value; var c := Strip(text[g.start..g.end]);
             o.data.city == if IsBlank(c) then a.city else c))
      && (forall g :: g != City ==> FieldValue(o.data, g) == FieldValue(a, g))
      && o.data.(currentStep := a.currentStep, collected := a.collected, history := a.history) == a.(city := o.data.city)
      && o.data.currentStep == NextQuestion(a.(city := o.data.city)).1.currentStep
      && o.data.history == a.history + [Turn(Assistant, Fixed(CityUpdate))]
      && o.stored == [] && o.used == 0
  {
    var i :| 0 <= i < |Patrones| && PatronFix(text, Patrones[i]) == FirstFix(text, 0);
    var c := FirstFix(text, 0).value.city;
    assert Tail(a, text, fecha, script) == TailOut(CityCorrected, CityFixed(a, c), [], 0);
    assert Patrones[i] != Cambiar && Found(text, Patrones[i]).Some?;
    CityFixedFacts(a, c);
  }

  /**
   * The farewell is reached only with no correction, a closable record and a
   * farewell word in the text. It appends the closing message and leaves the
   * step alone; a saved complaint is not saved again, and an unsaved one is
   * saved with `force_save`, so that its row is stored on a first-try success
   * even when the prescription data is incomplete.
   */
  lemma FarewellForcesSave(a: Record, text: string, fecha: string, script: seq<Reply>)
    requires StepAware(a) && Tail(a, text, fecha, script).path == SaidFarewell
    ensures FirstFix(text, 0).None? && Closable(a) && IsFarewell(text)
    ensures var o := Tail(a, text, fecha, script);
      o.data.history == a.history + [Turn(Assistant, Fixed(FarewellMessage))]
      && o.data.currentStep == a.currentStep && o.data.collected == a.collected
      && (a.complaint.saved ==> o.stored == [] && o.used == 0 && o.data == a.(history := o.data.history))
      && (!a.complaint.saved && MonolithRow(a).Some? && Answer(script) == Stored ==>
            o.stored == [MonolithRow(a).value] && o.data.complaint == Complaint(a.complaint.id, true))
  {
    var u := a.(history := a.history + [Turn(Assistant, Fixed(FarewellMessage))]);
    assert Tail(a, text, fecha, script) == SaidGoodbye(a, fecha, script);
    SaveKeeps(u, true, fecha, script);
    if !a.complaint.saved && MonolithRow(a).Some? && Answer(script) == Stored {
      assert MonolithRow(u) == MonolithRow(a);
      FirstTryAppendsSummary(u, true, fecha, script);
    }
  }

  /**
   * Otherwise the turn goes on to the conversational reply, storing nothing;
   * the step becomes COMPLETADO exactly when the record is closable, and
   * nothing else changes.
   */
  lemma ConversedMarksComplete(a: Record, text: string, fecha: string, script: seq<Reply>)
    requires StepAware(a) && Tail(a, text, fecha, script).path == Conversed
    ensures FirstFix(text, 0).None? && !(Closable(a) && IsFarewell(text))
    ensures var o := Tail(a, text, fecha, script);
      o.stored == [] && o.used == 0
      && (AtStep(o.data, Completado) <==> Closable(a))
      && o.data.(currentStep := a.currentStep) == a
  {
    assert Tail(a, text, fecha, script) == TailOut(Conversed, Marked(a), [], 0);
  }

  /** No entry handles the text exactly when each of the three lets it through. */
  lemma NoFixIff(t: string)
    ensures FirstFix(t, 0).None? <==>
      PatronFix(t, Equivocado).None? && PatronFix(t, NoVivo).None? && PatronFix(t, Cambiar).None?
  {
    assert FirstFix(t, 3).None?;
  }

  /** An empty `cambiar` capture names no branch, so the test of group 1 adds nothing there. */
  lemma EmptyNamesNoBranch()
    ensures ChangeFrom(Strip(Lower("")), 0).None?
  {
    assert Lower("") == "";
    assert Strip("") == "";
    forall k, w | 0 <= k < |Changes| && w in Changes[k].words
      ensures !Contains("", w)
    {
    }
  }

  /** The branch the `cambiar` entry names, when its regex matches. */
  function Named(t: string): (k: Option<nat>)
    ensures k.Some? ==> k.value < |Changes|
  {
    match Found(t, Cambiar)
    case None => None
    case Some(g) => ChangeFrom(Strip(Lower(t[g.start..g.end])), 0)
  }

  /** A city entry handles the text exactly when its regex matches, since its group is never empty. */
  lemma CityEntryFix(t: string, p: Patron)
    requires p != Cambiar
    ensures PatronFix(t, p).Some? <==> Found(t, p).Some?
    ensures PatronFix(t, p).Some? ==> PatronFix(t, p).value.NewCity?
  {
  }

  /** The `cambiar` entry handles the text exactly when it names a branch, and clears that branch. */
  lemma CambiarEntryFix(t: string)
    ensures PatronFix(t, Cambiar) == if Named(t).Some? then Some(Clear(Changes[Named(t).value])) else None
  {
    EmptyNamesNoBranch();
  }

  /** The loop over the three entries, written out. */
  lemma FirstFixUnrolled(t: string)
    ensures FirstFix(t, 0) == if PatronFix(t, Equivocado).Some? then PatronFix(t, Equivocado)
                              else if PatronFix(t, NoVivo).Some? then PatronFix(t, NoVivo)
                              else PatronFix(t, Cambiar)
  {
    assert FirstFix(t, 3).None?;
    assert FirstFix(t, 2) == PatronFix(t, Cambiar);
  }

  /** The entries on the text alone: a city regex that matches wins, then a `cambiar` that names a branch. */
  lemma FirstFixCases(t: string)
    ensures (FirstFix(t, 0).Some? && FirstFix(t, 0).value.NewCity?) <==> Found(t, Equivocado).Some? || Found(t, NoVivo).Some?
    ensures (FirstFix(t, 0).Some? && FirstFix(t, 0).value.Clear?) <==>
      Found(t, Equivocado).None? && Found(t, NoVivo).None? && Named(t).Some?
    ensures FirstFix(t, 0).Some? && FirstFix(t, 0).value.Clear? ==> FirstFix(t, 0).value.change == Changes[Named(t).value]
  {
    FirstFixUnrolled(t);
    CityEntryFix(t, Equivocado);
    CityEntryFix(t, NoVivo);
    CambiarEntryFix(t);
  }

  /**
   * Which way the tail goes. A city entry whose regex matches always has a
   * non-empty group, so it corrects the city; failing both, `cambiar` rewinds
   * to the first branch its stripped, lower-cased rest of line names; failing
   * that, a closable record with a farewell word says goodbye.
   */
  lemma TailPaths(a: Record, text: string, fecha: string, script: seq<Reply>)
    requires StepAware(a)
    ensures var o := Tail(a, text, fecha, script);
      (o.path == CityCorrected <==> Found(text, Equivocado).Some? || Found(text, NoVivo).Some?)
      && (o.path.Rewound? <==> Found(text, Equivocado).None? && Found(text, NoVivo).None? && Named(text).Some?)
      && (o.path.Rewound? ==> o.path.f == Changes[Named(text).value].f)
      && (o.path == SaidFarewell <==> FirstFix(text, 0).None? && Closable(a) && IsFarewell(text))
  {
    FirstFixCases(text);
  }

  /** `me equivoqu` needs eleven characters. */
  lemma ShortNoEquivocado(t: string, k: nat)
    requires |t| < 8
    ensures EquivocadoAt(t, k).None?
  {
    assert !Dates.WordAt(t, k, "me equivoqu");
  }

  /** `no vivo en`, `no resido en` and `no estoy en` need ten characters or more. */
  lemma ShortNoNoVivo(t: string, k: nat)
    requires |t| < 8
    ensures NoVivoAt(t, k).None?
  {
    assert !Dates.WordAt(t, k + 3, "vivo en") && !Dates.WordAt(t, k + 3, "resido en") && !Dates.WordAt(t, k + 3, "estoy en");
  }

  /** `cambiar ` needs eight characters. */
  lemma ShortNoCambiar(t: string, k: nat)
    requires |t| < 8
    ensures CambiarAt(t, k).None?
  {
    assert !Dates.WordAt(t, k, "cambiar ");
  }

  /** No regex of the three matches a text shorter than eight characters. */
  lemma ShortNotFound(t: string, p: Patron)
    requires |t| < 8
    ensures Found(t, p).None?
  {
    match p
    case Equivocado =>
      var h := First(t, 0, EquivocadoAt);
      if h.Some? { ShortNoEquivocado(t, h.value.pos); }
    case NoVivo =>
      var h := First(t, 0, NoVivoAt);
      if h.Some? { ShortNoNoVivo(t, h.value.pos); }
    case Cambiar =>
      var h := First(t, 0, CambiarAt);
      if h.Some? { ShortNoCambiar(t, h.value.pos); }
  }

  /** Every entry needs at least eight characters ("cambiar " is the shortest), so a shorter text is never a correction. */
  lemma ShortTextNoFix(t: string)
    requires |t| < 8
    ensures FirstFix(t, 0).None?
  {
    ShortNotFound(t, Equivocado);
    ShortNotFound(t, NoVivo);
    ShortNotFound(t, Cambiar);
    FirstFixUnrolled(t);
  }

  /** A short text with a farewell word says goodbye at a closable record. */
  lemma ShortFarewell(a: Record, t: string, fecha: string, script: seq<Reply>)
    requires StepAware(a) && Closable(a) && |t| < 8 && IsFarewell(t)
    ensures Tail(a, t, fecha, script).path == SaidFarewell
  {
    ShortTextNoFix(t);
    TailPaths(a, t, fecha, script);
  }

  /** The farewell regex has no word boundaries, so "bueno", which contains "no", counts. */
  lemma BuenoIsFarewell()
    ensures IsFarewell("bueno")
  {
    assert Lower("bueno") == "bueno";
    assert "no" <= "bueno"[3..];
    assert Contains(Lower("bueno"), FarewellWords[0]);
  }

  /** So "bueno" at a closable record says goodbye, and saves the complaint when it is not saved yet. */
  lemma BuenoSaysGoodbye(a: Record, fecha: string, script: seq<Reply>)
    requires StepAware(a) && Closable(a)
    ensures Tail(a, "bueno", fecha, script).path == SaidFarewell
  {
    BuenoIsFarewell();
    ShortFarewell(a, "bueno", fecha, script);
  }

  // ------------------------------------------------------------ on the session

  lemma AnyOfOne(s: string, a: string)
    ensures ContainsAny(s, [a]) <==> Contains(s, a)
  {
    if Contains(s, a) { assert Contains(s, [a][0]); }
  }

  lemma AnyOfTwo(s: string, a: string, b: string)
    ensures ContainsAny(s, [a, b]) <==> Contains(s, a) || Contains(s, b)
  {
    if Contains(s, a) { assert Contains(s, [a, b][0]); }
    if Contains(s, b) { assert Contains(s, [a, b][1]); }
  }

  lemma AnyOfThree(s: string, a: string, b: string, c: string)
    ensures ContainsAny(s, [a, b, c]) <==> Contains(s, a) || Contains(s, b) || Contains(s, c)
  {
    if Contains(s, a) { assert Contains(s, [a, b, c][0]); }
    if Contains(s, b) { assert Contains(s, [a, b, c][1]); }
    if Contains(s, c) { assert Contains(s, [a, b, c][2]); }
  }

  /** The words of each branch, as the chain tests them. */
  lemma ChangeWords(campo: string)
    ensures ContainsAny(campo, Changes[0].words) <==> Contains(campo, "ciudad")
    ensures ContainsAny(campo, Changes[1].words) <==> Contains(campo, "régimen") || Contains(campo, "regimen")
    ensures ContainsAny(campo, Changes[2].words) <==> Contains(campo, "fecha")
    ensures ContainsAny(campo, Changes[3].words) <==> Contains(campo, "dirección") || Contains(campo, "direccion")
    ensures ContainsAny(campo, Changes[4].words) <==> Contains(campo, "farmacia")
    ensures ContainsAny(campo, Changes[5].words) <==> Contains(campo, "celular") || Contains(campo, "teléfono") || Contains(campo, "telefono")
  {
    AnyOfOne(campo, "ciudad");
    AnyOfTwo(campo, "régimen", "regimen");
    AnyOfOne(campo, "fecha");
    AnyOfTwo(campo, "dirección", "direccion");
    AnyOfOne(campo, "farmacia");
    AnyOfThree(campo, "celular", "teléfono", "telefono");
  }

  /** A branch whose words occur is taken. */
  lemma ChangeFromHit(campo: string, k: nat)
    requires k < |Changes| && ContainsAny(campo, Changes[k].words)
    ensures ChangeFrom(campo, k) == Some(k)
  {
  }

  /** A branch whose words do not occur passes the text to the next one. */
  lemma ChangeFromSkip(campo: string, k: nat)
    requires k < |Changes| && !ContainsAny(campo, Changes[k].words)
    ensures ChangeFrom(campo, k) == ChangeFrom(campo, k + 1)
  {
  }

  /** One turn of the loop over the entries. */
  lemma FirstFixStep(t: string, k: nat)
    requires k < |Patrones|
    ensures PatronFix(t, Patrones[k]).Some? ==> FirstFix(t, k) == PatronFix(t, Patrones[k])
    ensures PatronFix(t, Patrones[k]).None? ==> FirstFix(t, k) == FirstFix(t, k + 1)
  {
  }

  /** `Cleared` on each branch, written out as the chain assigns it. */
  lemma ClearedAt(d: Record, k: nat)
    requires StepAware(d) && k < |Changes|
    ensures k == 0 ==> Cleared(d, Changes[k]) == d.(city := "", currentStep := Some(EsperandoCiudad))
    ensures k == 1 ==> Cleared(d, Changes[k]) == d.(regime := "", currentStep := Some(EsperandoRegimen))
    ensures k == 2 ==> Cleared(d, Changes[k]) == d.(birthDate := "", currentStep := Some(EsperandoFechaNacimiento))
    ensures k == 3 ==> Cleared(d, Changes[k]) == d.(address := "", currentStep := Some(EsperandoDireccion))
    ensures k == 4 ==> Cleared(d, Changes[k]) == d.(pharmacy := "", currentStep := Some(EsperandoFarmacia))
    ensures k == 5 ==> Cleared(d, Changes[k]) == d.(cellphone := "", currentStep := Some(EsperandoCelular))
  {
  }

  /** The `if/elif` chain on `campo_cambio`, on the session: the first branch that matches clears its field. */
  method ChangeField(s: Session, campo: string) returns (done: Option<TailPath>)
    requires StepAware(s.data)
    modifies s
    ensures s.sessionId == old(s.sessionId)
    ensures done.None? <==> ChangeFrom(campo, 0).None?
    ensures done.None? ==> s.data == old(s.data)
    ensures done.Some? ==> (done.value, s.data) == Applied(old(s.data), Clear(Changes[ChangeFrom(campo, 0).value]))
  {
    var d := s.data;
    ChangeWords(campo);
    if Contains(campo, "ciudad") {
      ChangeFromHit(campo, 0);
      ClearedAt(d, 0);
      s.data := d.(city := "", currentStep := Some(EsperandoCiudad));
      return Some(Rewound(City));
    }
    ChangeFromSkip(campo, 0);
    if Contains(campo, "régimen") || Contains(campo, "regimen") {
      ChangeFromHit(campo, 1);
      ClearedAt(d, 1);
      s.data := d.(regime := "", currentStep := Some(EsperandoRegimen));
      return Some(Rewound(Regime));
    }
    ChangeFromSkip(campo, 1);
    if Contains(campo, "fecha") {
      ChangeFromHit(campo, 2);
      ClearedAt(d, 2);
      s.data := d.(birthDate := "", currentStep := Some(EsperandoFechaNacimiento));
      return Some(Rewound(BirthDate));
    }
    ChangeFromSkip(campo, 2);
    done := ChangeLaterField(s, campo);
  }

  /** The last three branches of the chain. */
  method ChangeLaterField(s: Session, campo: string) returns (done: Option<TailPath>)
    requires StepAware(s.data)
    modifies s
    ensures s.sessionId == old(s.sessionId)
    ensures done.None? <==> ChangeFrom(campo, 3).None?
    ensures done.None? ==> s.data == old(s.data)
    ensures done.Some? ==> done.value == Rewound(Changes[ChangeFrom(campo, 3).value].f)
    ensures done.Some? ==> s.data == Cleared(old(s.data), Changes[ChangeFrom(campo, 3).value])
  {
    var d := s.data;
    ChangeWords(campo);
    if Contains(campo, "dirección") || Contains(campo, "direccion") {
      ChangeFromHit(campo, 3);
      ClearedAt(d, 3);
      s.data := d.(address := "", currentStep := Some(EsperandoDireccion));
      return Some(Rewound(Address));
    }
    ChangeFromSkip(campo, 3);
    if Contains(campo, "farmacia") {
      ChangeFromHit(campo, 4);
      ClearedAt(d, 4);
      s.data := d.(pharmacy := "", currentStep := Some(EsperandoFarmacia));
      return Some(Rewound(Pharmacy));
    }
    ChangeFromSkip(campo, 4);
    if Contains(campo, "celular") || Contains(campo, "teléfono") || Contains(campo, "telefono") {
      ChangeFromHit(campo, 5);
      ClearedAt(d, 5);
      s.data := d.(cellphone := "", currentStep := Some(EsperandoCelular));
      return Some(Rewound(Cellphone));
    }
    ChangeFromSkip(campo, 5);
    return None;
  }

  /** One entry of `patrones` on the session: `Some` with the ending when it handled the text. */
  method ApplyPatron(s: Session, text: string, p: Patron) returns (done: Option<TailPath>)
    requires StepAware(s.data)
    modifies s
    ensures s.sessionId == old(s.sessionId)
    ensures done.None? <==> PatronFix(text, p).None?
    ensures done.None? ==> s.data == old(s.data)
    ensures done.Some? ==> (done.value, s.data) == Applied(old(s.data), PatronFix(text, p).value)
  {
    var m := Found(text, p);
    if m.None? {
      return None;
    }
    var grupo := text[m.value.start..m.value.end];
    if p != Cambiar && grupo != "" {
      var nueva := Strip(grupo);
      ghost var d := s.data;
      ActualizarDatosContexto(s, "ciudad", nueva);
      UpdateKeepsStepAware(d, "ciudad", nueva);
      var siguiente := GetNextQuestion(s);
      s.data := s.data.(history := s.data.history + [Turn(Assistant, Fixed(CityUpdate))]);
      return Some(CityCorrected);
    } else if p == Cambiar && grupo != "" {
      done := ChangeField(s, Strip(Lower(grupo)));
      return;
    }
    return None;
  }

  /** `for patron in patrones`: the first entry that handles the text ends the turn. */
  method ApplyPatrones(s: Session, text: string) returns (done: Option<TailPath>)
    requires StepAware(s.data)
    modifies s
    ensures s.sessionId == old(s.sessionId)
    ensures done.None? <==> FirstFix(text, 0).None?
    ensures done.None? ==> s.data == old(s.data)
    ensures done.Some? ==> (done.value, s.data) == Applied(old(s.data), FirstFix(text, 0).value)
  {
    for k := 0 to |Patrones|
      invariant FirstFix(text, 0) == FirstFix(text, k)
      invariant s.data == old(s.data) && s.sessionId == old(s.sessionId)
    {
      FirstFixStep(text, k);
      done := ApplyPatron(s, text, Patrones[k]);
      if done.Some? {
        return;
      }
    }
    return None;
  }

  /** Lines 953-1029 on the session and the table. */
  method FinishText(s: Session, t: Table, text: string, fecha: string) returns (path: TailPath)
    requires StepAware(s.data) && t.Valid()
    modifies s, t
    ensures t.Valid() && t.schema == old(t.schema) && s.sessionId == old(s.sessionId)
    ensures path == Tail(old(s.data), text, fecha, old(t.script)).path
    ensures s.data == Tail(old(s.data), text, fecha, old(t.script)).data
    ensures t.rows == old(t.rows) + Tail(old(s.data), text, fecha, old(t.script)).stored
    ensures t.script == Skip(old(t.script), Tail(old(s.data), text, fecha, old(t.script)).used)
  {
    var done := ApplyPatrones(s, text);
    if done.Some? {
      return done.value;
    }
    path := CloseTurn(s, t, text, fecha);
  }

  /** Lines 1011-1029 on the session and the table: the farewell and its forced save, or the COMPLETADO mark. */
  method CloseTurn(s: Session, t: Table, text: string, fecha: string) returns (path: TailPath)
    requires StepAware(s.data) && t.Valid()
    modifies s, t
    ensures t.Valid() && t.schema == old(t.schema) && s.sessionId == old(s.sessionId)
    ensures path == Closing(old(s.data), text, fecha, old(t.script)).path
    ensures s.data == Closing(old(s.data), text, fecha, old(t.script)).data
    ensures t.rows == old(t.rows) + Closing(old(s.data), text, fecha, old(t.script)).stored
    ensures t.script == Skip(old(t.script), Closing(old(s.data), text, fecha, old(t.script)).used)
  {
    if Closable(s.data) {
      if IsFarewell(text) {
        s.data := s.data.(history := s.data.history + [Turn(Assistant, Fixed(FarewellMessage))]);
        if !s.data.complaint.saved {
          var saved := SaveUserData(s, t, true, fecha);
        }
        return SaidFarewell;
      }
      s.data := s.data.(currentStep := Some(Completado));
    }
    return Conversed;
  }
}
