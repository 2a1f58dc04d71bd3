/**
 * The check that both prescription readers apply to the vision model's
 * answer before a prescription enters a session
 * (src/services/image_processor.py and src/processor.py carry the same
 * code): cut out the JSON object, parse it, require a `datos` object, turn a
 * non-list medicine field into a list, and reject a prescription without
 * medicines. The model call itself is an oracle, and so is `json.loads`:
 * `parse` is whatever the decoder makes of the cut-out text.
 */
module FormulaValidation {
  import opened Wrappers
  import opened JsonValues
  import opened Sessions

  /** The reasons `process_medical_formula` raises. */
  datatype Failure =
    | NoJsonFound       // no "{...}" in the answer
    | Unparsable        // `json.loads` raised
    | WrongStructure    // no `datos` object at the top level
    | NoMedicines       // the medicine list is empty or only the "none detected" marker

  /** The marker the reader stores when the medicine field is neither a list nor a string. */
  const NO_MEDICINES := "No se detectaron medicamentos"

  /** Position of the first `c` in `s`. */
  function FirstIndex(s: string, c: char): (i: Option<nat>)
    ensures i.Some? ==> i.value < |s| && s[i.value] == c && forall k :: 0 <= k < i.value ==> s[k] != c
    ensures i.None? ==> forall k :: 0 <= k < |s| ==> s[k] != c
  {
    if s == [] then None
    else if s[0] == c then Some(0)
    else match FirstIndex(s[1..], c)
      case None => None
      case Some(k) => Some(k + 1)
  }

  /** Position of the last `c` in `s`. */
  function LastIndex(s: string, c: char): (i: Option<nat>)
    ensures i.Some? ==> i.value < |s| && s[i.value] == c && forall k :: i.value < k < |s| ==> s[k] != c
    ensures i.None? ==> forall k :: 0 <= k < |s| ==> s[k] != c
  {
    if s == [] then None
    else if s[|s| - 1] == c then Some(|s| - 1)
    else LastIndex(s[..|s| - 1], c)
  }

  /**
   * `re.search(r'\{[\s\S]*\}', text).group(0)`: from the first "{" to the
   * last "}" after it; None when no "}" follows a "{".
   */
  function JsonSpan(text: string): (span: Option<string>)
    ensures span.Some? ==> |span.value| >= 2 && span.value[0] == '{' && span.value[|span.value| - 1] == '}'
    ensures span.None? <==> !exists i, j :: 0 <= i < j < |text| && text[i] == '{' && text[j] == '}'
  {
    match (FirstIndex(text, '{'), LastIndex(text, '}'))
    case (Some(i), Some(j)) => if i < j then Some(text[i..j + 1]) else None
    case _ => None
  }

  /**
   * The rewrite of `datos["medicamentos"]`: a list stays, a string becomes
   * the one-element list, anything else becomes the "none detected" marker.
   * An absent field stays absent.
   */
  function NormaliseMedicines(datos: map<string, Json>): (d: map<string, Json>)
    ensures forall k :: k != "medicamentos" ==> (k in d <==> k in datos) && (k in datos ==> d[k] == datos[k])
    ensures "medicamentos" in d <==> "medicamentos" in datos
    ensures "medicamentos" in d ==> d["medicamentos"].JArr?
  {
    var m := Get(datos, "medicamentos", JArr([]));
    if m.JArr? then datos
    else if m.JStr? then datos["medicamentos" := JArr([m])]
    else datos["medicamentos" := JArr([JStr(NO_MEDICINES)])]
  }

  /** The medicine list after the rewrite, as `len` and `[0]` see it (absent: the empty list). */
  function MedicineList(datos: map<string, Json>): seq<Json> {
    var m := Get(datos, "medicamentos", JArr([]));
    if m.JArr? then m.items else []
  }

  /** A usable list: not empty, and not only the "none detected" marker. */
  predicate HasMedicines(items: seq<Json>) {
    |items| > 0 && !(|items| == 1 && items[0] == JStr(NO_MEDICINES))
  }

  /** The validation of `process_medical_formula` after the model has answered `reply`. */
  function Validate(reply: string, parse: string -> Option<Json>): (v: Result<FormulaResult, Failure>)
    ensures v.Ok? ==> var m := Get(v.value.datos, "medicamentos", JNull); m.JArr? && HasMedicines(m.items)
  {
    match JsonSpan(reply)
    case None => Err(NoJsonFound)
    case Some(span) =>
      match parse(span)
      case None => Err(Unparsable)
      case Some(doc) =>
        if !doc.JObj? || "datos" !in doc.fields || !doc.fields["datos"].JObj? then Err(WrongStructure)
        else
          var datos := NormaliseMedicines(doc.fields["datos"].fields);
          if HasMedicines(MedicineList(datos)) then Ok(FormulaResult(datos)) else Err(NoMedicines)
  }

  // ------------------------------------------------------------ properties

  /** The answer reaches the decoder exactly as the span between its first "{" and the last "}". */
  lemma SpanIsOuterObject(text: string, i: nat, j: nat)
    requires 0 <= i < j < |text| && text[i] == '{' && text[j] == '}'
    requires forall k :: 0 <= k < i ==> text[k] != '{'
    requires forall k :: j < k < |text| ==> text[k] != '}'
    ensures JsonSpan(text) == Some(text[i..j + 1])
  {
    assert FirstIndex(text, '{') == Some(i);
    assert LastIndex(text, '}') == Some(j);
  }

  /** A medicine list the model already returned as a usable list is kept as it is, with every other field. */
  lemma UsableListKept(reply: string, parse: string -> Option<Json>, datos: map<string, Json>)
    requires JsonSpan(reply).Some? && parse(JsonSpan(reply).value) == Some(JObj(map["datos" := JObj(datos)]))
    requires "medicamentos" in datos && datos["medicamentos"].JArr? && HasMedicines(datos["medicamentos"].items)
    ensures Validate(reply, parse) == Ok(FormulaResult(datos))
  {
  }

  /** A single medicine given as a string is accepted as the one-element list, unless it is the marker itself. */
  lemma StringMedicineWrapped(reply: string, parse: string -> Option<Json>, datos: map<string, Json>, s: string)
    requires JsonSpan(reply).Some? && parse(JsonSpan(reply).value) == Some(JObj(map["datos" := JObj(datos)]))
    requires "medicamentos" in datos && datos["medicamentos"] == JStr(s)
    ensures s != NO_MEDICINES ==> Validate(reply, parse) == Ok(FormulaResult(datos["medicamentos" := JArr([JStr(s)])]))
    ensures s == NO_MEDICINES ==> Validate(reply, parse) == Err(NoMedicines)
  {
    var d := NormaliseMedicines(datos);
    assert d == datos["medicamentos" := JArr([JStr(s)])];
    assert MedicineList(d) == [JStr(s)];
  }

  /** A medicine field that is missing, empty, or neither list nor string makes the reader fail. */
  lemma UnusableMedicinesRejected(reply: string, parse: string -> Option<Json>, datos: map<string, Json>)
    requires JsonSpan(reply).Some? && parse(JsonSpan(reply).value) == Some(JObj(map["datos" := JObj(datos)]))
    requires "medicamentos" !in datos || datos["medicamentos"] == JArr([])
          || !(datos["medicamentos"].JArr? || datos["medicamentos"].JStr?)
    ensures Validate(reply, parse) == Err(NoMedicines)
  {
    var d := NormaliseMedicines(datos);
    if "medicamentos" in datos && !(datos["medicamentos"].JArr? || datos["medicamentos"].JStr?) {
      assert d == datos["medicamentos" := JArr([JStr(NO_MEDICINES)])];
      assert MedicineList(d) == [JStr(NO_MEDICINES)];
    }
  }
}
