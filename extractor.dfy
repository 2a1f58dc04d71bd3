/**
 * `DataExtractor` of src/core/data_extractor.py: the regular-expression
 * harvest that copies a city, a phone number, a pharmacy, an address, a
 * health-insurance regime, the undelivered medicines and a birth date out of
 * every user message and every model reply into the session record.
 *
 * Each regex is a recogniser at a position that makes the choices Python's
 * backtracking engine makes (alternatives left to right, greedy runs longest
 * first, lazy runs shortest first); `Search.SearchValue` then takes the
 * leftmost position, as `re.search` does.
 */
module DataExtractor {
  import opened Wrappers
  import opened Text
  import opened Search
  import opened Steps
  import opened Sessions
  import Dates
  import opened MedicationSelection

  // ------------------------------------------------------------ character classes

  /** `[A-Za-zÁáÉéÍíÓóÚúÜüÑñ\s]`. */
  predicate IsCityChar(c: char) { IsAsciiLetter(c) || IsAccented(c) || IsSpace(c) }

  /** The bracketed classes of the labelled patterns; `NotNewline` is the `.` of the medicines pattern. */
  datatype CharClass = CityChars | PhoneChars | PharmacyChars | AddressChars | NotNewline

  predicate InClass(c: char, k: CharClass) {
    match k
    case CityChars => IsCityChar(c)
    case PhoneChars => IsDigit(c) || c == '+' || IsSpace(c) || c == '(' || c == ')' || c == '-'
    case PharmacyChars => IsCityChar(c) || IsDigit(c)
    case AddressChars => IsCityChar(c) || IsDigit(c) || c == '#' || c == '-' || c == '.'
    case NotNewline => c != '\n'
  }

  /** The closing group `(?:\.|\!|\n|,)`, and the pharmacy's `(?:\.|\!|\n|,|en)`. */
  datatype Ending = Punct | PunctOrEn

  predicate EndsAt(s: string, t: nat, e: Ending) {
    (t < |s| && (s[t] == '.' || s[t] == '!' || s[t] == '\n' || s[t] == ','))
    || (e == PunctOrEn && Dates.WordAt(s, t, "en"))
  }

  predicate IsSepChar(c: char) { c == ':' || IsSpace(c) }

  predicate IsSpaceOrComma(c: char) { IsSpace(c) || c == ',' }

  predicate NotComma(c: char) { c != ',' }

  predicate NotDot(c: char) { c != '.' }

  /** Length of the longest run of `ok` characters starting at `j`. */
  function Run(s: string, j: nat, ok: char -> bool): (n: nat)
    ensures j + n <= |s| || n == 0
    ensures forall i :: j <= i < j + n ==> ok(s[i])
    ensures j + n < |s| ==> !ok(s[j + n])
  {
    if j <= |s| then
      var n := SpanLen(s[j..], ok);
      assert forall i :: j <= i < j + n ==> s[i] == s[j..][i - j];
      n
    else 0
  }

  // ------------------------------------------------------------ the labelled patterns

  /** What follows `[:\s]+`: a lazy class run and its ending, `(Contributivo|Subsidiado)`, or a slash date. */
  datatype Group = Lazy(chars: CharClass, ending: Ending) | RegimeWord | SlashDate

  /** An entry of `patrones`: its key, its keyword alternatives in order, and what it captures. */
  datatype Pattern = Pattern(campo: string, keywords: seq<string>, group: Group)

  /** The table in its dict order; `ubicad[oa] en` and `medicamentos? no entregados?` are spelled out in backtracking order. */
  const Patterns: seq<Pattern> := [
    Pattern("ciudad", ["ciudad", "estás en", "vives en", "ubicado en", "ubicada en"], Lazy(CityChars, Punct)),
    Pattern("celular", ["celular", "teléfono", "número"], Lazy(PhoneChars, Punct)),
    Pattern("farmacia", ["farmacia"], Lazy(PharmacyChars, PunctOrEn)),
    Pattern("direccion", ["dirección"], Lazy(AddressChars, Punct)),
    Pattern("regimen", ["régimen", "afiliación"], RegimeWord),
    Pattern("medicamentos", ["medicamentos no entregados", "medicamentos no entregado",
                             "medicamento no entregados", "medicamento no entregado"], Lazy(NotNewline, Punct)),
    Pattern("fecha_nacimiento", ["nacimiento", "nació"], SlashDate)
  ]

  /** `campo_map`: every key is its own `tipo` except `fecha_nacimiento`. */
  function CampoMap(campo: string): string {
    if campo == "fecha_nacimiento" then "fechaNacimiento" else campo
  }

  /** The record field a pattern's value goes to. */
  function Writes(pat: Pattern): Option<Field> { FieldOf(CampoMap(pat.campo)) }

  /**
   * `(CLASS+?)(?:ENDING)` after the first character of the run: the least end
   * `r >= t` such that every character from `t - 1` up to `r` is in the class
   * and an ending follows at `r`.
   */
  function LazyEnd(s: string, t: nat, k: CharClass, e: Ending): (r: Option<nat>)
    requires 0 < t
    ensures r.Some? ==> t <= r.value <= |s| && EndsAt(s, r.value, e)
    ensures r.Some? ==> forall j :: t - 1 <= j < r.value ==> InClass(s[j], k)
    ensures r.Some? ==> forall u :: t <= u < r.value ==> !EndsAt(s, u, e)
    decreases |s| + 1 - t
  {
    if t > |s| || !InClass(s[t - 1], k) then None
    else if EndsAt(s, t, e) then Some(t)
    else LazyEnd(s, t + 1, k, e)
  }

  /**
   * What group 1 of each kind can hold: characters of the class (at least
   * one), one of the two regime words in any case, or the eight to ten
   * characters of a slash date.
   */
  predicate Fits(v: string, grp: Group) {
    match grp
    case Lazy(k, _) => |v| >= 1 && forall i :: 0 <= i < |v| ==> InClass(v[i], k)
    case RegimeWord => Lower(v) == "contributivo" || Lower(v) == "subsidiado"
    case SlashDate => 8 <= |v| <= 10 && IsDigit(v[0])
  }

  /** Group 1 of a labelled pattern when it starts at `g`. */
  function GroupAt(s: string, g: nat, grp: Group): (v: Option<string>)
    ensures v.Some? ==> Fits(v.value, grp)
  {
    match grp
    case Lazy(k, e) =>
      var t := LazyEnd(s, g + 1, k, e);
      if t.Some? then
        assert forall i :: 0 <= i < t.value - g ==> s[g..t.value][i] == s[g + i];
        Some(s[g..t.value])
      else None
    case RegimeWord =>
      if Dates.WordAt(s, g, "contributivo") then
        assert s[g..][..12] == s[g..g + 12];
        Some(s[g..g + 12])
      else if Dates.WordAt(s, g, "subsidiado") then
        assert s[g..][..10] == s[g..g + 10];
        Some(s[g..g + 10])
      else None
    case SlashDate =>
      var p := Dates.SlashAt(s, g);
      if p.Some? then Some(s[g..g + |p.value.day| + |p.value.month| + 6]) else None
  }

  /** `[:\s]+` gives back one character at a time, from its longest run `n` down to one. */
  function SepThen(s: string, e: nat, n: nat, grp: Group): (v: Option<string>)
    ensures v.Some? ==> Fits(v.value, grp)
    decreases n
  {
    if n == 0 then None
    else match GroupAt(s, e + n, grp)
      case Some(v) => Some(v)
      case None => SepThen(s, e, n - 1, grp)
  }

  /** The keyword alternatives from the `k`-th on, each followed by the separator and the group. */
  function KeywordsAt(s: string, p: nat, kws: seq<string>, k: nat, grp: Group): (v: Option<string>)
    ensures v.Some? ==> Fits(v.value, grp)
    decreases |kws| - k
  {
    if k >= |kws| then None
    else
      var e := p + |kws[k]|;
      var v := if Dates.WordAt(s, p, kws[k]) then SepThen(s, e, Run(s, e, IsSepChar), grp) else None;
      if v.Some? then v else KeywordsAt(s, p, kws, k + 1, grp)
  }

  function PatternAt(s: string, p: nat, pat: Pattern): (v: Option<string>)
    ensures v.Some? ==> Fits(v.value, pat.group)
  {
    KeywordsAt(s, p, pat.keywords, 0, pat.group)
  }

  /** `re.search(patron, texto, re.I).group(1)`. */
  function Capture(texto: string, pat: Pattern): (v: Option<string>)
    ensures v.Some? ==> Fits(v.value, pat.group)
  {
    SearchValue(texto, (s: string, p: nat) => PatternAt(s, p, pat))
  }

  /** The value the loop stores: the stripped group, when it is longer than two characters. */
  function Qualified(texto: string, pat: Pattern): (v: Option<string>)
    ensures v.Some? ==> |v.value| > 2 && !IsBlank(v.value)
  {
    match Capture(texto, pat)
    case None => None
    case Some(g) =>
      StripIsSlice(g);
      if |Strip(g)| > 2 then Some(Strip(g)) else None
  }

  /** One turn of the loop over `patrones`. */
  function LabelledStep(r: Record, texto: string, pat: Pattern): (u: Record)
    ensures OtherFields(u) == OtherFields(r)
    ensures forall f :: FieldValue(u, f) == (if Writes(pat) == Some(f) && Qualified(texto, pat).Some? then Qualified(texto, pat) else FieldValue(r, f))
  {
    match Qualified(texto, pat)
    case Some(v) => UpdateField(r, CampoMap(pat.campo), v)
    case None => r
  }

  /** The loop over the first `|pats|` patterns. */
  function Labelled(r: Record, texto: string, pats: seq<Pattern>): (u: Record)
    ensures OtherFields(u) == OtherFields(r)
    decreases |pats|
  {
    if pats == [] then r
    else LabelledStep(Labelled(r, texto, pats[..|pats| - 1]), texto, pats[|pats| - 1])
  }

  // ------------------------------------------------------------ the unlabelled checks

  /** `^([A-Za-zÁáÉéÍíÓóÚúÜüÑñ\s]{3,})$` on `texto.strip()`, and the group stripped again. */
  function BareCity(texto: string): Option<string> {
    var t := Strip(texto);
    if |t| >= 3 && forall i :: 0 <= i < |t| ==> IsCityChar(t[i]) then Some(Strip(t)) else None
  }

  /** `\b(\d{10})\b` at `i`. */
  function PhoneAt(s: string, i: nat): (v: Option<string>)
    ensures v.Some? ==> |v.value| == 10 && AllDigits(v.value)
  {
    if i + 10 <= |s| && AllDigits(s[i..i + 10])
       && (i == 0 || !IsWordChar(s[i - 1])) && (i + 10 == |s| || !IsWordChar(s[i + 10]))
    then Some(s[i..i + 10])
    else None
  }

  /** `me equivoqu[eé]` under `re.I`. */
  predicate OpensCorrection(s: string, p: nat) {
    Dates.WordAt(s, p, "me equivoque") || Dates.WordAt(s, p, "me equivoqué")
  }

  /** `([^\.]+)` at `j`, greedy; nothing follows it in the pattern. */
  function FieldValueAt(s: string, j: nat): Option<string> {
    var n := Run(s, j, NotDot);
    if n >= 1 then Some(s[j..j + n]) else None
  }

  /** `([^,]+) es ` tried with group 1 of length `n`, then shorter. */
  function NameThenValue(s: string, g: nat, n: nat): (r: Option<(string, string)>)
    requires n == 0 || g + n <= |s|
    decreases n
  {
    if n == 0 then None
    else if Dates.WordAt(s, g + n, " es ") && FieldValueAt(s, g + n + 4).Some? then
      Some((s[g..g + n], FieldValueAt(s, g + n + 4).value))
    else NameThenValue(s, g, n - 1)
  }

  /** `[\s,]*` gives back one character at a time, from `w` characters down to none. */
  function CorrectionFrom(s: string, e: nat, w: nat): Option<(string, string)>
    decreases w
  {
    var g := e + w;
    var got := NameThenValue(s, g, Run(s, g, NotComma));
    if got.Some? then got
    else if w == 0 then None
    else CorrectionFrom(s, e, w - 1)
  }

  /** `me equivoqu[eé][\s,]*([^,]+) es ([^\.]+)` at `p`, with its two groups. */
  function CorrectionAt(s: string, p: nat): Option<(string, string)> {
    if OpensCorrection(s, p) then CorrectionFrom(s, p + 12, Run(s, p + 12, IsSpaceOrComma)) else None
  }

  /** Where a correction goes, tested in the order of the `if`/`elif` chain. */
  datatype Target = ToCity | ToCellphone | ToAddress | ToPharmacy | ToBirthDate | ToRegime | Unrouted

  function Route(campo: string): Target {
    if Contains(campo, "ciudad") || Contains(campo, "vivo") then ToCity
    else if Contains(campo, "celular") || Contains(campo, "teléfono") || Contains(campo, "numero")
         || Contains(campo, "número") then ToCellphone
    else if Contains(campo, "direccion") || Contains(campo, "dirección") || Contains(campo, "vivo") then ToAddress
    else if Contains(campo, "farmacia") then ToPharmacy
    else if Contains(campo, "nacimiento") || Contains(campo, "nací") then ToBirthDate
    else if Contains(campo, "regimen") || Contains(campo, "régimen") then ToRegime
    else Unrouted
  }

  /** `"contributivo" in v.lower()` before `"subsidiado"`, as both regime checks test them. */
  function RegimeIn(v: string): Option<string> {
    if ContainsCI(v, "contributivo") then Some("Contributivo")
    else if ContainsCI(v, "subsidiado") then Some("Subsidiado")
    else None
  }

  function BareCityStep(r: Record, texto: string): (u: Record)
    ensures OtherFields(u) == OtherFields(r)
  {
    match BareCity(texto)
    case Some(c) => if r.currentStep == Some(EsperandoCiudad) && r.city == "" then UpdateField(r, "ciudad", c) else r
    case None => r
  }

  function PhoneStep(r: Record, texto: string): (u: Record)
    ensures OtherFields(u) == OtherFields(r)
  {
    match SearchValue(texto, PhoneAt)
    case Some(v) => UpdateField(r, "celular", v)
    case None => r
  }

  function DateStep(r: Record, texto: string, currentYear: nat): (u: Record)
    ensures OtherFields(u) == OtherFields(r)
  {
    match Dates.ExtraerFecha(texto, currentYear)
    case Some(d) => UpdateField(r, "fechaNacimiento", d)
    case None => r
  }

  function RegimeStep(r: Record, texto: string): (u: Record)
    ensures OtherFields(u) == OtherFields(r)
  {
    match RegimeIn(texto)
    case Some(v) => UpdateField(r, "regimen", v)
    case None => r
  }

  /** The `tipo` each branch of the chain passes to `actualizar_datos_contexto`. */
  function TipoOf(t: Target): string {
    match t
    case ToCity => "ciudad"
    case ToCellphone => "celular"
    case ToAddress => "direccion"
    case ToPharmacy => "farmacia"
    case ToBirthDate => "fechaNacimiento"
    case ToRegime => "regimen"
    case Unrouted => ""
  }

  /** The value a branch writes: the new value itself, the date it reads as, or the regime it names. */
  function CorrectionValue(t: Target, nuevo: string, currentYear: nat): Option<string> {
    match t
    case ToBirthDate => Dates.ExtraerFecha(nuevo, currentYear)
    case ToRegime => RegimeIn(nuevo)
    case Unrouted => None
    case _ => Some(nuevo)
  }

  /** The field each branch writes. */
  function TargetField(t: Target): Option<Field> {
    match t
    case ToCity => Some(City)
    case ToCellphone => Some(Cellphone)
    case ToAddress => Some(Address)
    case ToPharmacy => Some(Pharmacy)
    case ToBirthDate => Some(BirthDate)
    case ToRegime => Some(Regime)
    case Unrouted => None
  }

  lemma TipoOfWrites(t: Target)
    ensures FieldOf(TipoOf(t)) == TargetField(t)
  {
  }

  /**
   * A correction whose field name `campo` (lower-cased, stripped) and value
   * `nuevo` (stripped) are given: it changes the routed field alone.
   */
  function Corrected(r: Record, campo: string, nuevo: string, currentYear: nat): (u: Record)
    ensures OtherFields(u) == OtherFields(r)
    ensures forall f :: TargetField(Route(campo)) != Some(f) ==> FieldValue(u, f) == FieldValue(r, f)
  {
    var t := Route(campo);
    TipoOfWrites(t);
    match CorrectionValue(t, nuevo, currentYear)
    case Some(v) => UpdateField(r, TipoOf(t), v)
    case None => r
  }

  function CorrectionStep(r: Record, texto: string, currentYear: nat): (u: Record)
    ensures OtherFields(u) == OtherFields(r)
  {
    match SearchValue(texto, CorrectionAt)
    case Some(groups) => Corrected(r, Strip(Lower(groups.0)), Strip(groups.1), currentYear)
    case None => r
  }

  /** The new record, and whether the `KeyError` of a missing `current_step` escaped. */
  datatype Outcome = Outcome(data: Record, raised: bool)

  /**
   * `_extraer_datos_con_patrones`. The bare-city test reads `current_step`
   * only when the text looks like a city; a record without that key raises
   * there, after the labelled loop has already written its fields.
   */
  function Patrones(r: Record, texto: string, currentYear: nat): (o: Outcome)
    ensures OtherFields(o.data) == OtherFields(r)
  {
    var r1 := Labelled(r, texto, Patterns);
    if BareCity(texto).Some? && r1.currentStep.None? then Outcome(r1, true)
    else
      var r2 := BareCityStep(r1, texto);
      var r3 := PhoneStep(r2, texto);
      var r4 := DateStep(r3, texto, currentYear);
      var r5 := RegimeStep(r4, texto);
      Outcome(CorrectionStep(r5, texto, currentYear), false)
  }

  // ------------------------------------------------------------ the methods

  /** The loop `for campo, patron in patrones.items()`. */
  method HarvestLabelled(s: Session, texto: string)
    modifies s
    ensures s.data == Labelled(old(s.data), texto, Patterns)
    ensures s.sessionId == old(s.sessionId)
  {
    ghost var r := s.data;
    for k := 0 to |Patterns|
      invariant s.data == Labelled(r, texto, Patterns[..k])
      invariant s.sessionId == old(s.sessionId)
    {
      assert Patterns[..k + 1][..k] == Patterns[..k];
      var g := Capture(texto, Patterns[k]);
      if g.Some? && |Strip(g.value)| > 2 {
        ActualizarDatosContexto(s, CampoMap(Patterns[k].campo), Strip(g.value));
      }
    }
    assert Patterns[..|Patterns|] == Patterns;
  }

  /** The bare-city test; true when it raised on a missing `current_step`. */
  method HarvestBareCity(s: Session, texto: string) returns (raised: bool)
    modifies s
    ensures raised <==> BareCity(texto).Some? && old(s.data).currentStep.None?
    ensures raised ==> s.data == old(s.data)
    ensures !raised ==> s.data == BareCityStep(old(s.data), texto)
    ensures s.sessionId == old(s.sessionId)
  {
    var city := BareCity(texto);
    if city.Some? {
      if s.data.currentStep.None? {
        return true;
      }
      if s.data.currentStep == Some(EsperandoCiudad) && s.data.city == "" {
        ActualizarDatosContexto(s, "ciudad", city.value);
      }
    }
    return false;
  }

  /** The direct phone, date and regime checks. */
  method HarvestUnlabelled(s: Session, texto: string, currentYear: nat)
    modifies s
    ensures s.data == RegimeStep(DateStep(PhoneStep(old(s.data), texto), texto, currentYear), texto)
    ensures s.sessionId == old(s.sessionId)
  {
    var phone := SearchValue(texto, PhoneAt);
    if phone.Some? {
      ActualizarDatosContexto(s, "celular", phone.value);
    }
    var fecha := Dates.ExtraerFecha(texto, currentYear);
    if fecha.Some? {
      ActualizarDatosContexto(s, "fechaNacimiento", fecha.value);
    }
    if ContainsCI(texto, "contributivo") {
      ActualizarDatosContexto(s, "regimen", "Contributivo");
    } else if ContainsCI(texto, "subsidiado") {
      ActualizarDatosContexto(s, "regimen", "Subsidiado");
    }
  }

  /** The explicit-correction check. */
  method HarvestCorrection(s: Session, texto: string, currentYear: nat)
    modifies s
    ensures s.data == CorrectionStep(old(s.data), texto, currentYear)
    ensures s.sessionId == old(s.sessionId)
  {
    var correccion := SearchValue(texto, CorrectionAt);
    if correccion.Some? {
      ApplyCorrection(s, Strip(Lower(correccion.value.0)), Strip(correccion.value.1), currentYear);
    }
  }

  /** The `if`/`elif` chain over the corrected field name. */
  method ApplyCorrection(s: Session, campo: string, nuevo: string, currentYear: nat)
    modifies s
    ensures s.data == Corrected(old(s.data), campo, nuevo, currentYear)
    ensures s.sessionId == old(s.sessionId)
  {
    match Route(campo)
    case ToCity => ActualizarDatosContexto(s, "ciudad", nuevo);
    case ToCellphone => ActualizarDatosContexto(s, "celular", nuevo);
    case ToAddress => ActualizarDatosContexto(s, "direccion", nuevo);
    case ToPharmacy => ActualizarDatosContexto(s, "farmacia", nuevo);
    case ToBirthDate =>
      var corregida := Dates.ExtraerFecha(nuevo, currentYear);
      if corregida.Some? {
        ActualizarDatosContexto(s, "fechaNacimiento", corregida.value);
      }
    case ToRegime =>
      if ContainsCI(nuevo, "contributivo") {
        ActualizarDatosContexto(s, "regimen", "Contributivo");
      } else if ContainsCI(nuevo, "subsidiado") {
        ActualizarDatosContexto(s, "regimen", "Subsidiado");
      }
    case Unrouted =>
  }

  /** `_extraer_datos_con_patrones`. */
  method ExtraerDatosConPatrones(s: Session, texto: string, currentYear: nat) returns (raised: bool)
    modifies s
    ensures Outcome(s.data, raised) == Patrones(old(s.data), texto, currentYear)
    ensures s.sessionId == old(s.sessionId)
  {
    HarvestLabelled(s, texto);
    raised := HarvestBareCity(s, texto);
    if raised {
      return;
    }
    HarvestUnlabelled(s, texto, currentYear);
    HarvestCorrection(s, texto, currentYear);
  }

  /** `"próximas"`, `"horas"`, `"tramitaremos"` and `"queja"` all occur in the lower-cased reply. */
  predicate AnnouncesCompletion(respuesta: string) {
    ContainsCI(respuesta, "próximas") && ContainsCI(respuesta, "horas")
    && ContainsCI(respuesta, "tramitaremos") && ContainsCI(respuesta, "queja")
  }

  /** `extraer_datos_de_respuesta`: mark the conversation completed, then harvest the reply. */
  function Respuesta(r: Record, respuesta: string, currentYear: nat): Outcome {
    var r1 := if AnnouncesCompletion(respuesta) then r.(currentStep := Some(Completado)) else r;
    Patrones(r1, respuesta, currentYear)
  }

  method ExtraerDatosDeRespuesta(s: Session, respuesta: string, currentYear: nat) returns (raised: bool)
    modifies s
    ensures Outcome(s.data, raised) == Respuesta(old(s.data), respuesta, currentYear)
    ensures s.sessionId == old(s.sessionId)
  {
    if AnnouncesCompletion(respuesta) {
      s.data := s.data.(currentStep := Some(Completado));
    }
    raised := ExtraerDatosConPatrones(s, respuesta, currentYear);
  }

  /** The synchronous `_procesar_seleccion_medicamentos` as a record update. */
  function SelectionStep(r: Record, texto: string, meds: seq<string>): Record {
    match CoreChoice(texto, meds)
    case Some(sel) => UpdateField(r, "medicamentos", Join(sel, Separator))
    case None => r
  }

  /**
   * `extraer_datos_de_mensaje_usuario`. Its first line reads `current_step`,
   * so a record without the key raises before anything is written. At the
   * medicines step an empty medicine list ends the call; otherwise the
   * selection is stored before the harvest.
   */
  function Mensaje(r: Record, texto: string, currentYear: nat): Outcome {
    if r.currentStep.None? then Outcome(r, true)
    else if r.currentStep == Some(EsperandoMedicamentos) then
      if MedsArray(r) == [] then Outcome(r, false)
      else Patrones(SelectionStep(r, texto, MedsArray(r)), texto, currentYear)
    else Patrones(r, texto, currentYear)
  }

  method ExtraerDatosDeMensajeUsuario(s: Session, texto: string, currentYear: nat) returns (raised: bool)
    modifies s
    ensures Outcome(s.data, raised) == Mensaje(old(s.data), texto, currentYear)
    ensures s.sessionId == old(s.sessionId)
  {
    if s.data.currentStep.None? {
      return true;
    }
    if s.data.currentStep == Some(EsperandoMedicamentos) {
      var meds := MedsArray(s.data);
      if meds == [] {
        return false;
      }
      ProcesarSeleccionSync(s, texto, meds);
    }
    raised := ExtraerDatosConPatrones(s, texto, currentYear);
  }
}
