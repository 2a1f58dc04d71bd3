/**
 * `save_user_data` of src/handler.py: builds the row, skips incomplete or
 * already saved complaints, inserts once, and after an insert that fails
 * with "no such field" errors drops those columns and inserts once more.
 * It never raises: every failure is a `False` result.
 */
module HandlerSave {
  import opened Wrappers
  import opened Text
  import opened Search
  import opened JsonValues
  import opened Sessions
  import opened Warehouse

  /** `datos_obligatorios_completos`: a prescription and a real missing-medicines answer. */
  predicate Complete(r: Record) {
    HasFormula(r) && MedsSpecified(r)
  }

  const NotAvailable := JStr("No disponible")

  /**
   * The row dict, or None when building it raises: `formula_data` is None
   * (`.get` on None), the attention date is not text, or the medicine list
   * cannot be joined.
   */
  function MonolithRow(r: Record): (row: Option<Row>)
    ensures row.Some? <==> r.formulaData.Some? && AttentionDate(r.formulaData.value).Ok?
                           && MedicinesCell(r.formulaData.value).Some?
    ensures row.Some? ==> |row.value| == 18 && row.value[0] == Column("PK", JStr(r.complaint.id))
    ensures row.Some? ==> row.value[4] == Column("fecha_atencion", OptText(AttentionDate(r.formulaData.value).value))
    ensures row.Some? ==> row.value[11] == Column("no_entregado", OptText(r.missingMeds))
  {
    if r.formulaData.None? then None
    else
      var f := r.formulaData.value;
      match (AttentionDate(f), MedicinesCell(f))
      case (Ok(fecha), Some(meds)) =>
        Some([
          Column("PK", JStr(r.complaint.id)),
          Column("tipo_documento", Get(f, "tipo_documento", NotAvailable)),
          Column("numero_documento", Get(f, "numero_documento", NotAvailable)),
          Column("paciente", Get(f, "paciente", NotAvailable)),
          Column("fecha_atencion", OptText(fecha)),
          Column("eps", Get(f, "eps", NotAvailable)),
          Column("doctor", Get(f, "doctor", NotAvailable)),
          Column("ips", Get(f, "ips", NotAvailable)),
          Column("diagnostico", Get(f, "diagnostico", NotAvailable)),
          Column("medicamentos", JStr(meds)),
          Column("image_url", JStr("")),
          Column("no_entregado", OptText(r.missingMeds)),
          Column("fecha_nacimiento", JStr(r.birthDate)),
          Column("telefono", JStr(r.cellphone)),
          Column("regimen", JStr(r.regime)),
          Column("municipio", JStr(r.city)),
          Column("direccion", JStr(r.address)),
          Column("farmacia", JStr(r.pharmacy))])
      case _ => None
  }

  // ------------------------------------------------------------ "no such field" errors

  const NoSuchField := "no such field: "

  /** `no such field: ([^.]+)` at `p`: the longest run of non-dots after the prefix. */
  function NoSuchFieldAt(s: string, p: nat): (name: Option<string>)
    ensures name.Some? ==> name.value != "" && '.' !in name.value
  {
    if p + |NoSuchField| <= |s| && s[p..p + |NoSuchField|] == NoSuchField then
      var rest := s[p + |NoSuchField|..];
      var n := SpanLen(rest, c => c != '.');
      if n > 0 then Some(rest[..n]) else None
    else None
  }

  /** The field named by the first "no such field" in a message. */
  function FieldNamed(msg: string): (name: Option<string>)
    ensures name.Some? ==> name.value != "" && '.' !in name.value
  {
    var h := First(msg, 0, NoSuchFieldAt);
    if h.Some? then Some(h.value.value) else None
  }

  /** `problematicos`: the named fields, one per message that names one, in message order. */
  function ProblemFields(msgs: seq<string>): (names: seq<string>)
    ensures |names| <= |msgs|
    ensures forall k :: 0 <= k < |names| ==> names[k] != "" && '.' !in names[k]
  {
    if msgs == [] then []
    else
      var last := FieldNamed(msgs[|msgs| - 1]);
      ProblemFields(msgs[..|msgs| - 1]) + (if last.Some? then [last.value] else [])
  }

  /** The loop over the error details that collects `problematicos`. */
  method CollectProblemFields(msgs: seq<string>) returns (names: seq<string>)
    ensures names == ProblemFields(msgs)
  {
    names := [];
    for i := 0 to |msgs|
      invariant names == ProblemFields(msgs[..i])
    {
      assert msgs[..i + 1][..i] == msgs[..i];
      var m := FieldNamed(msgs[i]);
      if m.Some? {
        names := names + [m.value];
      }
    }
    assert msgs[..|msgs|] == msgs;
  }

  // ------------------------------------------------------------ the save

  /** The outcome of one call: the result, the new record, the rows stored and the inserts used. */
  datatype SaveResult = SaveResult(ok: bool, data: Record, stored: seq<Row>, used: nat)

  /** The summary a first-try success appends to `quejas_anteriores`. */
  function SavedSummary(r: Record, fecha: string): PriorEntry
    requires r.formulaData.Some?
  {
    Summary(r.complaint.id, fecha, Get(r.formulaData.value, "paciente", NotAvailable), OptText(r.missingMeds))
  }

  /** The script after `n` inserts. */
  function Skip(script: seq<Reply>, n: nat): (rest: seq<Reply>)
    ensures n == 1 ==> rest == Rest(script)
    ensures n == 2 ==> rest == Rest(Rest(script))
  {
    if n == 0 then script else Skip(Rest(script), n - 1)
  }

  /** `await save_user_data(user_data, force_save)` against a table whose next answers are `script`. */
  function MonolithSave(r: Record, force: bool, fecha: string, script: seq<Reply>): (res: SaveResult)
    ensures res.used <= 2 && |res.stored| <= 1
    ensures !res.ok ==> res.data == r && res.stored == []
    ensures res.ok ==> res.data.complaint.saved
    ensures res.stored != [] ==> !r.complaint.saved
    ensures res.data.(complaint := r.complaint, prior := r.prior) == r
    ensures res.data.complaint.id == r.complaint.id
  {
    if !Complete(r) && !force then SaveResult(false, r, [], 0)
    else match MonolithRow(r)
      case None => SaveResult(false, r, [], 0)
      case Some(row) =>
        if r.complaint.saved then SaveResult(true, r, [], 0)
        else Inserted(r, row, fecha, script)
  }

  /** The insert of a built row for a complaint not yet saved, with the one retry. */
  function Inserted(r: Record, row: Row, fecha: string, script: seq<Reply>): (res: SaveResult)
    requires r.formulaData.Some?
    ensures res.used <= 2 && |res.stored| <= 1
    ensures res.ok <==> res.stored != []
    ensures !res.ok ==> res.data == r
    ensures res.ok ==> res.data.complaint == r.complaint.(saved := true)
    ensures res.data.(complaint := r.complaint, prior := r.prior) == r
  {
    var saved := r.(complaint := r.complaint.(saved := true));
    match Answer(script)
    case Stored => SaveResult(true, saved.(prior := r.prior + [SavedSummary(r, fecha)]), [row], 1)
    case Rejected => SaveResult(false, r, [], 1)
    case Failed(msgs) =>
      var names := ProblemFields(msgs);
      if names == [] then SaveResult(false, r, [], 1)
      else if Answer(Rest(script)) == Stored then SaveResult(true, saved, [Without(row, names)], 2)
      else SaveResult(false, r, [], 2)
  }

  /**
   * The imperative `save_user_data`: the checks, then `InsertRow`. It
   * returns what `MonolithSave` computes, leaves the session and the
   * table as it says, and consumes one scripted answer per insert.
   */
  method SaveUserData(s: Session, t: Table, force: bool, fecha: string) returns (ok: bool)
    requires t.Valid()
    modifies s, t
    ensures t.Valid() && t.schema == old(t.schema) && s.sessionId == old(s.sessionId)
    ensures ok == MonolithSave(old(s.data), force, fecha, old(t.script)).ok
    ensures s.data == MonolithSave(old(s.data), force, fecha, old(t.script)).data
    ensures t.rows == old(t.rows) + MonolithSave(old(s.data), force, fecha, old(t.script)).stored
    ensures t.script == Skip(old(t.script), MonolithSave(old(s.data), force, fecha, old(t.script)).used)
  {
    var d := s.data;
    if !(HasFormula(d) && MedsSpecified(d)) && !force {
      return false;
    }
    var built := MonolithRow(d);
    if built.None? {
      return false;
    }
    if d.complaint.saved {
      return true;
    }
    ok := InsertRow(s, t, built.value, fecha);
  }

  /** The `try` block of `save_user_data`: insert, and on "no such field" errors drop those columns and insert again. */
  method InsertRow(s: Session, t: Table, row: Row, fecha: string) returns (ok: bool)
    requires t.Valid() && s.data.formulaData.Some?
    modifies s, t
    ensures t.Valid() && t.schema == old(t.schema) && s.sessionId == old(s.sessionId)
    ensures ok == Inserted(old(s.data), row, fecha, old(t.script)).ok
    ensures s.data == Inserted(old(s.data), row, fecha, old(t.script)).data
    ensures t.rows == old(t.rows) + Inserted(old(s.data), row, fecha, old(t.script)).stored
    ensures t.script == Skip(old(t.script), Inserted(old(s.data), row, fecha, old(t.script)).used)
  {
    var d := s.data;
    var reply := t.Insert(row);
    match reply
    case Stored =>
      s.data := d.(complaint := d.complaint.(saved := true), prior := d.prior + [SavedSummary(d, fecha)]);
      return true;
    case Rejected =>
      return false;
    case Failed(msgs) =>
      ok := Retry(s, t, row, msgs);
  }

  /** The `except` block: collect the named fields, and if there are any, drop them and insert once more. */
  method Retry(s: Session, t: Table, row: Row, msgs: seq<string>) returns (ok: bool)
    requires t.Valid()
    modifies s, t
    ensures t.Valid() && t.schema == old(t.schema) && s.sessionId == old(s.sessionId)
    ensures ok <==> ProblemFields(msgs) != [] && Answer(old(t.script)) == Stored
    ensures s.data == if ok then old(s.data).(complaint := old(s.data).complaint.(saved := true)) else old(s.data)
    ensures t.rows == old(t.rows) + (if ok then [Without(row, ProblemFields(msgs))] else [])
    ensures t.script == if ProblemFields(msgs) == [] then old(t.script) else Rest(old(t.script))
  {
    var names := CollectProblemFields(msgs);
    if names == [] {
      return false;
    }
    var smaller := DropColumns(row, names);
    var retry := t.Insert(smaller);
    if retry == Stored {
      s.data := s.data.(complaint := s.data.complaint.(saved := true));
      return true;
    }
    return false;
  }

  // ------------------------------------------------------------ properties

  /** A save changes only the complaint and the earlier complaints, and only by marking and appending. */
  lemma SaveKeeps(r: Record, force: bool, fecha: string, script: seq<Reply>)
    ensures MonolithSave(r, force, fecha, script).data.userId == r.userId
    ensures MonolithSave(r, force, fecha, script).data.history == r.history
    ensures MonolithSave(r, force, fecha, script).data.lastProcessedTime == r.lastProcessedTime
    ensures MonolithSave(r, force, fecha, script).data.currentStep == r.currentStep
    ensures MonolithSave(r, force, fecha, script).data.summaryShown == r.summaryShown
    ensures MonolithSave(r, force, fecha, script).data.collected == r.collected
    ensures r.prior <= MonolithSave(r, force, fecha, script).data.prior
  {
  }

  /** Incomplete data without `force_save` returns False before any insert. */
  lemma IncompleteNotSaved(r: Record, fecha: string, script: seq<Reply>)
    requires !Complete(r)
    ensures MonolithSave(r, false, fecha, script) == SaveResult(false, r, [], 0)
  {
  }

  /** An already saved complaint returns True with no insert, once the row can be built. */
  lemma SavedIsNotInsertedAgain(r: Record, force: bool, fecha: string, script: seq<Reply>)
    requires r.complaint.saved && (Complete(r) || force) && MonolithRow(r).Some?
    ensures MonolithSave(r, force, fecha, script) == SaveResult(true, r, [], 0)
  {
  }

  /** A forced save without a prescription dict fails (the row cannot be built) and inserts nothing. */
  lemma NoPrescriptionFails(r: Record, force: bool, fecha: string, script: seq<Reply>)
    requires r.formulaData.None?
    ensures MonolithSave(r, force, fecha, script) == SaveResult(false, r, [], 0)
  {
  }

  /** A first-try success stores the row, marks the complaint saved and appends exactly one summary. */
  lemma FirstTryAppendsSummary(r: Record, force: bool, fecha: string, script: seq<Reply>)
    requires (Complete(r) || force) && MonolithRow(r).Some? && !r.complaint.saved
    requires Answer(script) == Stored
    ensures MonolithSave(r, force, fecha, script).ok
    ensures MonolithSave(r, force, fecha, script).stored == [MonolithRow(r).value]
    ensures MonolithSave(r, force, fecha, script).data.prior == r.prior + [SavedSummary(r, fecha)]
    ensures MonolithSave(r, force, fecha, script).data.complaint == Complaint(r.complaint.id, true)
  {
  }

  /** The retry stores the row without the named columns and marks the complaint saved, appending nothing. */
  lemma RetryAppendsNothing(r: Record, force: bool, fecha: string, script: seq<Reply>, msgs: seq<string>)
    requires (Complete(r) || force) && MonolithRow(r).Some? && !r.complaint.saved
    requires Answer(script) == Failed(msgs) && ProblemFields(msgs) != [] && Answer(Rest(script)) == Stored
    ensures MonolithSave(r, force, fecha, script).ok
    ensures MonolithSave(r, force, fecha, script).stored == [Without(MonolithRow(r).value, ProblemFields(msgs))]
    ensures MonolithSave(r, force, fecha, script).data.prior == r.prior
    ensures MonolithSave(r, force, fecha, script).data.complaint.saved
  {
  }

  /** Any other insert failure returns False and leaves `guardada` and the record as they were. */
  lemma OtherFailuresChangeNothing(r: Record, force: bool, fecha: string, script: seq<Reply>)
    requires !r.complaint.saved
    requires Answer(script) == Rejected
      || (Answer(script).Failed? && ProblemFields(Answer(script).messages) == [])
      || (Answer(script).Failed? && Answer(Rest(script)) != Stored)
    ensures !MonolithSave(r, force, fecha, script).ok
    ensures MonolithSave(r, force, fecha, script).data == r
    ensures MonolithSave(r, force, fecha, script).stored == []
  {
  }

  /** At most one row per complaint: after a call that stored a row, a later call stores none. */
  lemma AtMostOneRow(r: Record, f1: bool, f2: bool, d1: string, d2: string, s1: seq<Reply>, s2: seq<Reply>)
    requires MonolithSave(r, f1, d1, s1).stored != []
    ensures MonolithSave(MonolithSave(r, f1, d1, s1).data, f2, d2, s2).stored == []
  {
  }
}
