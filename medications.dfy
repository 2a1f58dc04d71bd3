/**
 * Choosing the undelivered medicines from a reply to the numbered list
 * of prescribed medicines: the core selector of src/core/data_extractor.py
 * (a synchronous and an asynchronous copy with the same choice) and the
 * monolith's selector of src/handler.py, which tries the rules in a
 * different order.
 */
module MedicationSelection {
  import opened Wrappers
  import opened Text
  import opened Sessions

  const NoneWords: seq<string> := ["ninguno", "ninguna", "ningun", "ningún"]
  const AllWords: seq<string> := ["todos", "todo"]
  const Separator := ", "

  /** `text.lower().strip()`. */
  function Normalise(texto: string): string { Strip(Lower(texto)) }

  /** The idioms that mean "none of them was delivered" in the core selector. */
  predicate MeansAll(t: string) {
    t in NoneWords || t in AllWords
    || Contains(t, "no me entregaron ninguno") || Contains(t, "todos los")
    || Contains(t, "no me entregaron nada")
  }

  // ------------------------------------------------------------ by number

  /** The medicine a 1-based number names, if it is in range. */
  function AtNumber(run: string, meds: seq<string>): (r: Option<string>)
    requires AllDigits(run)
    ensures r.Some? <==> 1 <= DigitsValue(run) <= |meds|
    ensures r.Some? ==> r.value == meds[DigitsValue(run) - 1]
  {
    var index := DigitsValue(run) - 1;
    if 0 <= index < |meds| then Some(meds[index]) else None
  }

  /** The medicines the numbers name, in text order; out-of-range numbers are dropped, repeats kept. */
  function Picked(runs: seq<string>, meds: seq<string>): (sel: seq<string>)
    requires forall k :: 0 <= k < |runs| ==> AllDigits(runs[k])
    ensures |sel| <= |runs|
    ensures forall x :: x in sel ==> x in meds
    ensures sel == [] <==> forall k :: 0 <= k < |runs| ==> AtNumber(runs[k], meds).None?
  {
    if runs == [] then []
    else
      var init := Picked(runs[..|runs| - 1], meds);
      var last := AtNumber(runs[|runs| - 1], meds);
      if last.Some? then init + [last.value] else init
  }

  method SelectByNumbers(runs: seq<string>, meds: seq<string>) returns (sel: seq<string>)
    requires forall k :: 0 <= k < |runs| ==> AllDigits(runs[k])
    ensures sel == Picked(runs, meds)
  {
    sel := [];
    for k := 0 to |runs|
      invariant sel == Picked(runs[..k], meds)
    {
      assert runs[..k + 1][..k] == runs[..k];
      var index := DigitsValue(runs[k]) - 1;
      if 0 <= index < |meds| {
        sel := sel + [meds[index]];
      }
    }
    assert runs[..|runs|] == runs;
  }

  // ------------------------------------------------------------ by name

  predicate StopsBaseName(c: char) { c == '(' || IsDigit(c) }

  /** `re.split(r'[\(\d]', med)[0]`: the text before the first "(" or digit. */
  function BaseName(med: string): (b: string)
    ensures b <= med
    ensures forall i :: 0 <= i < |b| ==> !StopsBaseName(b[i])
    ensures |b| < |med| ==> StopsBaseName(med[|b|])
  {
    med[..SpanLen(med, c => !StopsBaseName(c))]
  }

  /** The whitespace-separated words of the lower-cased, stripped base name. */
  function Keywords(med: string): seq<string> { Words(Lower(Strip(BaseName(med)))) }

  /** Some word of the base name longer than 3 characters occurs in the text. */
  predicate Mentioned(med: string, t: string) {
    exists w | w in Keywords(med) :: |w| > 3 && Contains(t, Lower(w))
  }

  /** The medicines the text mentions by name, in list order. */
  function Mentions(meds: seq<string>, t: string): (sel: seq<string>)
    ensures |sel| <= |meds|
    ensures forall m :: m in sel <==> m in meds && Mentioned(m, t)
  {
    if meds == [] then []
    else
      var init := Mentions(meds[..|meds| - 1], t);
      var m := meds[|meds| - 1];
      assert forall x :: x in meds <==> x in meds[..|meds| - 1] || x == m by {
        assert meds == meds[..|meds| - 1] + [m];
      }
      if Mentioned(m, t) then init + [m] else init
  }

  method MentionedWords(med: string, t: string) returns (found: bool)
    ensures found == Mentioned(med, t)
  {
    var ws := Keywords(med);
    found := false;
    for k := 0 to |ws|
      invariant found <==> exists j | 0 <= j < k :: |ws[j]| > 3 && Contains(t, Lower(ws[j]))
    {
      if |ws[k]| > 3 && Contains(t, Lower(ws[k])) {
        found := true;
      }
    }
  }

  method SelectByNames(meds: seq<string>, t: string) returns (sel: seq<string>)
    ensures sel == Mentions(meds, t)
  {
    sel := [];
    for k := 0 to |meds|
      invariant sel == Mentions(meds[..k], t)
    {
      assert meds[..k + 1][..k] == meds[..k];
      var hit := MentionedWords(meds[k], t);
      if hit {
        sel := sel + [meds[k]];
      }
    }
    assert meds[..|meds|] == meds;
  }

  // ------------------------------------------------------------ the core selector

  /** The list the core selector stores (joined by ", "), or None when it identifies nothing. */
  function CoreChoice(texto: string, meds: seq<string>): Option<seq<string>> {
    Choose(Normalise(texto), meds)
  }

  /** The core rules over the normalised text `t`. */
  function Choose(t: string, meds: seq<string>): Option<seq<string>> {
    if MeansAll(t) then Some(meds)
    else
      var picked := Picked(DigitRuns(t), meds);
      if picked != [] then Some(picked)
      else
        var named := Mentions(meds, t);
        if named != [] then Some(named) else None
  }

  /** Every medicine the core selector chooses is one of the prescribed ones. */
  lemma CoreChoiceSound(t: string, meds: seq<string>)
    ensures Choose(t, meds).Some? ==> forall x :: x in Choose(t, meds).value ==> x in meds
  {
  }

  /**
   * The core selector fails exactly when the text is no idiom, names no
   * in-range number and mentions no medicine by name.
   */
  lemma CoreChoiceNoneIff(t: string, meds: seq<string>)
    ensures Choose(t, meds).None? <==>
      !MeansAll(t)
      && (forall k :: 0 <= k < |DigitRuns(t)| ==> AtNumber(DigitRuns(t)[k], meds).None?)
      && (forall m :: m in meds ==> !Mentioned(m, t))
  {
    MentionsEmptyIff(meds, t);
  }

  lemma MentionsEmptyIff(meds: seq<string>, t: string)
    ensures Mentions(meds, t) == [] <==> forall m :: m in meds ==> !Mentioned(m, t)
  {
    var named := Mentions(meds, t);
    if named != [] {
      assert named[0] in named;
    }
  }

  /** An idiom stores the whole list, whatever numbers the text also carries. */
  lemma CoreIdiomFirst(t: string, meds: seq<string>)
    requires MeansAll(t)
    ensures Choose(t, meds) == Some(meds)
  {
  }

  /** Numbers are tried before names: one valid number decides the choice. */
  lemma CoreNumbersBeforeNames(t: string, meds: seq<string>, k: nat)
    requires !MeansAll(t)
    requires k < |DigitRuns(t)| && AtNumber(DigitRuns(t)[k], meds).Some?
    ensures Choose(t, meds) == Some(Picked(DigitRuns(t), meds))
  {
  }

  /** `_procesar_seleccion_medicamentos`: stores the choice, or writes nothing. */
  method ProcesarSeleccionSync(s: Session, texto: string, meds: seq<string>)
    modifies s
    ensures CoreChoice(texto, meds).None? ==> s.data == old(s.data)
    ensures CoreChoice(texto, meds).Some? ==>
      s.data == UpdateField(old(s.data), "medicamentos", Join(CoreChoice(texto, meds).value, Separator))
    ensures s.sessionId == old(s.sessionId)
  {
    var t := Normalise(texto);
    if MeansAll(t) {
      ActualizarDatosContexto(s, "medicamentos", Join(meds, Separator));
      return;
    }
    var picked := SelectByNumbers(DigitRuns(t), meds);
    if picked != [] {
      ActualizarDatosContexto(s, "medicamentos", Join(picked, Separator));
      return;
    }
    var named := SelectByNames(meds, t);
    if named != [] {
      ActualizarDatosContexto(s, "medicamentos", Join(named, Separator));
    }
  }

  /** The array `context_variables.get("medicamentos_array", [])`. */
  function MedsArray(r: Record): seq<string> {
    if r.context.medsArray.Some? then r.context.medsArray.value else []
  }

  /**
   * The asynchronous `procesar_seleccion_medicamentos`: the same choice over
   * the session's array, failing (`exito` False) on an empty array.
   */
  method ProcesarSeleccionMedicamentos(s: Session, texto: string) returns (exito: bool)
    modifies s
    ensures exito <==> MedsArray(old(s.data)) != [] && CoreChoice(texto, MedsArray(old(s.data))).Some?
    ensures exito ==> s.data == UpdateField(old(s.data), "medicamentos",
                                            Join(CoreChoice(texto, MedsArray(old(s.data))).value, Separator))
    ensures !exito ==> s.data == old(s.data)
    ensures s.sessionId == old(s.sessionId)
  {
    var meds := MedsArray(s.data);
    if meds == [] {
      return false;
    }
    ProcesarSeleccionSync(s, texto, meds);
    exito := CoreChoice(texto, meds).Some?;
  }

  // ------------------------------------------------------------ the monolith's selector

  /** `(?:n[uú]mero\s*)?(?:la\s*)?(\d{1,2})`: the first one or two digits of the first digit run. */
  function FirstNumber(t: string): (r: Option<string>)
    ensures r.Some? ==> 1 <= |r.value| <= 2 && AllDigits(r.value)
    ensures r.None? <==> DigitRuns(t) == []
  {
    var runs := DigitRuns(t);
    if runs == [] then None
    else if |runs[0]| <= 2 then Some(runs[0])
    else Some(runs[0][..2])
  }

  /** The first word of a medicine name, `med.split(' ')[0].lower()`. */
  function FirstWord(med: string): string { Lower(SplitOn(med, ' ')[0]) }

  /** The first medicine whose first word occurs in the text. */
  function FirstNamed(meds: seq<string>, t: string): (r: Option<nat>)
    ensures r.Some? ==> r.value < |meds| && Contains(t, FirstWord(meds[r.value]))
    ensures r.Some? ==> forall j :: 0 <= j < r.value ==> !Contains(t, FirstWord(meds[j]))
    ensures r.None? ==> forall j :: 0 <= j < |meds| ==> !Contains(t, FirstWord(meds[j]))
  {
    if meds == [] then None
    else if Contains(t, FirstWord(meds[0])) then Some(0)
    else
      var rest := FirstNamed(meds[1..], t);
      if rest.Some? then Some(rest.value + 1) else None
  }

  method FindFirstNamed(meds: seq<string>, t: string) returns (r: Option<nat>)
    ensures r == FirstNamed(meds, t)
  {
    var k := 0;
    while k < |meds|
      invariant k <= |meds|
      invariant forall j :: 0 <= j < k ==> !Contains(t, FirstWord(meds[j]))
    {
      if Contains(t, FirstWord(meds[k])) {
        FirstNamedIsLeast(meds, t, k);
        return Some(k);
      }
      k := k + 1;
    }
    FirstNamedIsLeast(meds, t, |meds|);
    return None;
  }

  /** `FirstNamed` is the least matching index. */
  lemma {:induction false} FirstNamedIsLeast(meds: seq<string>, t: string, k: nat)
    requires k <= |meds|
    requires forall j :: 0 <= j < k ==> !Contains(t, FirstWord(meds[j]))
    requires k < |meds| ==> Contains(t, FirstWord(meds[k]))
    ensures FirstNamed(meds, t) == if k < |meds| then Some(k) else None
  {
    var r := FirstNamed(meds, t);
    if r.Some? {
      assert !(r.value < k) && !(k < r.value);
    } else {
      assert k == |meds|;
    }
  }

  /** What the monolith's selector stores, or None. */
  function MonolithChoice(texto: string, meds: seq<string>): Option<string> {
    MonolithChoose(Normalise(texto), meds)
  }

  /** The monolith's rules over the normalised text `t`. */
  function MonolithChoose(t: string, meds: seq<string>): Option<string> {
    var n := FirstNumber(t);
    if meds == [] then None
    else if n.Some? && AtNumber(n.value, meds).Some? then AtNumber(n.value, meds)
    else if t in NoneWords then Some(Join(meds, Separator))
    else if t in AllWords || Contains(t, "todos los") then Some(Join(meds, Separator))
    else
      var i := FirstNamed(meds, t);
      if i.Some? then Some(meds[i.value]) else None
  }

  /** The monolith stores one prescribed medicine or the whole list, never another subset. */
  lemma MonolithChoiceSound(t: string, meds: seq<string>)
    ensures MonolithChoose(t, meds).Some? ==>
      MonolithChoose(t, meds).value in meds || MonolithChoose(t, meds).value == Join(meds, Separator)
  {
  }

  /** The monolith fails exactly on an empty list or when no rule applies. */
  lemma MonolithChoiceNoneIff(t: string, meds: seq<string>)
    ensures MonolithChoose(t, meds).None? <==>
      meds == []
      || ((FirstNumber(t).None? || AtNumber(FirstNumber(t).value, meds).None?)
          && t !in NoneWords && t !in AllWords && !Contains(t, "todos los")
          && forall j :: 0 <= j < |meds| ==> !Contains(t, FirstWord(meds[j])))
  {
  }

  /** A valid leading number wins in the monolith even when the text also says "todos los". */
  lemma MonolithNumberFirst(t: string, meds: seq<string>)
    requires meds != [] && FirstNumber(t).Some? && AtNumber(FirstNumber(t).value, meds).Some?
    ensures MonolithChoose(t, meds) == AtNumber(FirstNumber(t).value, meds)
  {
  }

  /** `procesar_seleccion_medicamentos` of src/handler.py. */
  method ProcesarSeleccionMonolith(s: Session, texto: string) returns (exito: bool)
    modifies s
    ensures exito <==> MonolithChoice(texto, MedsArray(old(s.data))).Some?
    ensures exito ==> s.data == UpdateField(old(s.data), "medicamentos", MonolithChoice(texto, MedsArray(old(s.data))).value)
    ensures !exito ==> s.data == old(s.data)
    ensures s.sessionId == old(s.sessionId)
  {
    var t := Normalise(texto);
    var meds := MedsArray(s.data);
    if meds == [] {
      return false;
    }
    var n := FirstNumber(t);
    if n.Some? {
      var index := DigitsValue(n.value) - 1;
      if 0 <= index < |meds| {
        ActualizarDatosContexto(s, "medicamentos", meds[index]);
        return true;
      }
    }
    if t in NoneWords {
      ActualizarDatosContexto(s, "medicamentos", Join(meds, Separator));
      return true;
    }
    if t in AllWords || Contains(t, "todos los") {
      ActualizarDatosContexto(s, "medicamentos", Join(meds, Separator));
      return true;
    }
    var i := FindFirstNamed(meds, t);
    if i.Some? {
      ActualizarDatosContexto(s, "medicamentos", meds[i.value]);
      return true;
    }
    return false;
  }
}
