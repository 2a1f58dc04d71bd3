/**
 * `BigQueryService.save_user_data` of src/services/bigquery_service.py, the
 * save of the split revision: skip incomplete data unless forced, give the
 * complaint an id, skip a complaint already saved, build the row with the
 * cleaned city and pharmacy, keep the columns the table has, replace blank
 * or article-only strings by "No disponible", insert once, and on success
 * record the complaint in the earlier complaints and the patient's history.
 * It never raises: every failure is a `False` result. The clock gives the
 * complaint id (`nowMs`) and the saved-at text (`stamp`).
 */
module TableSave {
  import opened Wrappers
  import opened Text
  import opened JsonValues
  import opened Sessions
  import opened Warehouse
  import opened Cleanup
  import opened HandlerSave

  /** The column names of the row, in dict order. */
  const COLUMNS: seq<string> := ["PK", "tipo_documento", "numero_documento", "paciente", "fecha_atencion",
    "eps", "doctor", "ips", "diagnostico", "medicamentos", "image_url", "no_entregado",
    "fecha_nacimiento", "telefono", "regimen", "municipio", "direccion", "farmacia"]

  /** The strings the last check before the insert treats as empty. */
  const ARTICLES: seq<string> := ["y", "la", "el", "los", "las"]

  /** The values of the row dict of the split revision, in the order of `COLUMNS`. */
  function Cells(r: Record, f: map<string, Json>, fecha: Option<string>, meds: string): (v: seq<Json>)
    ensures |v| == |COLUMNS|
  {
    [JStr(r.complaint.id),                     // PK
     Get(f, "tipo_documento", NotAvailable),
     Get(f, "numero_documento", NotAvailable),
     Get(f, "paciente", NotAvailable),
     OptText(fecha),                           // fecha_atencion
     Get(f, "eps", NotAvailable),
     Get(f, "doctor", NotAvailable),
     Get(f, "ips", NotAvailable),
     Get(f, "diagnostico", NotAvailable),
     JStr(meds),                               // medicamentos
     JStr(""),                                 // image_url
     OptText(r.missingMeds),                   // no_entregado
     JStr(r.birthDate),                        // fecha_nacimiento
     JStr(r.cellphone),                        // telefono
     JStr(r.regime),                           // regimen
     JStr(CityCell(r.city)),                   // municipio
     JStr(r.address),                          // direccion
     JStr(PharmacyCell(r.pharmacy))]           // farmacia
  }

  /** The row dict: each name of `COLUMNS` with its value. */
  function ServiceRow(r: Record, f: map<string, Json>, fecha: Option<string>, meds: string): (row: Row)
    ensures |row| == |COLUMNS| && forall k :: 0 <= k < |row| ==> row[k].name == COLUMNS[k]
  {
    var v := Cells(r, f, fecha, meds);
    seq(|COLUMNS|, k requires 0 <= k < |COLUMNS| => Column(COLUMNS[k], v[k]))
  }

  /** `{k: v for k, v in row.items() if k in schema_fields}`: the columns the table has, in their order. */
  function Restrict(row: Row, schema: set<string>): (out: Row)
    ensures |out| <= |row|
  {
    if row == [] then []
    else (if row[0].name in schema then [row[0]] else []) + Restrict(row[1..], schema)
  }

  /** A string value that is blank or a lone article once stripped. */
  predicate Hollow(v: Json) {
    v.JStr? && (IsBlank(v.s) || Strip(v.s) in ARTICLES)
  }

  /** One step of the last check: a hollow string becomes "No disponible". */
  function Placeholder(c: Column): Column {
    if Hollow(c.value) then Column(c.name, NotAvailable) else c
  }

  /** The loop of the last check over the filtered row. */
  method FillPlaceholders(row: Row) returns (out: Row)
    ensures |out| == |row|
    ensures forall k :: 0 <= k < |row| ==> out[k] == Placeholder(row[k])
  {
    out := row;
    for k := 0 to |row|
      invariant |out| == |row|
      invariant forall i :: 0 <= i < k ==> out[i] == Placeholder(row[i])
      invariant forall i :: k <= i < |row| ==> out[i] == row[i]
    {
      var v := out[k].value;
      if v.JStr? && (IsBlank(v.s) || Strip(v.s) in ARTICLES) {
        out := out[k := Column(out[k].name, NotAvailable)];
      }
    }
  }

  /** The row that reaches the insert. */
  function Cleaned(row: Row): (out: Row)
    ensures |out| == |row| && forall k :: 0 <= k < |row| ==> out[k] == Placeholder(row[k])
  {
    seq(|row|, k requires 0 <= k < |row| => Placeholder(row[k]))
  }

  /** `if not queja_actual.get("id")`: a complaint without an id gets a fresh, unsaved one. */
  function WithComplaintId(r: Record, nowMs: nat): (u: Record)
    ensures u.complaint.id != ""
    ensures r.complaint.id != "" ==> u == r
    ensures r.complaint.id == "" ==> u == r.(complaint := Complaint(ComplaintId(r.userId, nowMs), false))
  {
    if r.complaint.id == "" then r.(complaint := Complaint(ComplaintId(r.userId, nowMs), false)) else r
  }

  /** The entry appended to the patient's `quejas`. */
  function PatientEntry(r: Record, f: map<string, Json>, stamp: string): PatientComplaint {
    PatientComplaint(r.complaint.id, stamp, OptText(r.missingMeds), Get(f, "eps", JStr("")), Get(f, "diagnostico", JStr("")))
  }

  /** `patient_history` after a saved complaint of the patient with document `pid`. */
  function WithPatientComplaint(ph: Option<map<Json, PatientRecord>>, pid: Json, nombre: Json, entry: PatientComplaint)
    : (out: map<Json, PatientRecord>)
  {
    var old_ := if ph.Some? then ph.value else map[];
    var rec := if pid in old_ then old_[pid] else PatientRecord(nombre, []);
    old_[pid := rec.(quejas := rec.quejas + [entry])]
  }

  /**
   * The patient's complaints end with the new one, after the earlier ones
   * or, for a patient not seen before, alone under the given name; the other
   * patients are untouched.
   */
  lemma PatientComplaintAppended(ph: Option<map<Json, PatientRecord>>, pid: Json, nombre: Json, entry: PatientComplaint)
    ensures var out := WithPatientComplaint(ph, pid, nombre, entry);
      pid in out && |out[pid].quejas| > 0 && out[pid].quejas[|out[pid].quejas| - 1] == entry
      && (ph.Some? && pid in ph.value ==> out[pid] == ph.value[pid].(quejas := ph.value[pid].quejas + [entry]))
      && (!(ph.Some? && pid in ph.value) ==> out[pid] == PatientRecord(nombre, [entry]))
      && (forall k :: k != pid ==> (k in out <==> ph.Some? && k in ph.value))
      && (ph.Some? ==> forall k :: k in ph.value && k != pid ==> out[k] == ph.value[k])
  {
  }

  /** What a stored row does to the record: mark it saved, archive its summary, extend the patient's history. */
  function Recorded(r: Record, f: map<string, Json>, stamp: string): (u: Record)
    ensures u.complaint == r.complaint.(saved := true) && u.formulaData == r.formulaData
    ensures u.prior == r.prior + [Summary(r.complaint.id, stamp, Get(f, "paciente", NotAvailable), OptText(r.missingMeds))]
  {
    var nombre := Get(f, "paciente", NotAvailable);
    var marked := r.(complaint := r.complaint.(saved := true),
                     prior := r.prior + [Summary(r.complaint.id, stamp, nombre, OptText(r.missingMeds))]);
    var pid := Get(f, "numero_documento", JStr(""));
    if Truthy(pid) then
      marked.(patientHistory := Some(WithPatientComplaint(r.patientHistory, pid, nombre, PatientEntry(r, f, stamp))))
    else marked
  }

  /** The checks before the complaint id: complete data or `force_save`, a prescription dict, a readable date. */
  predicate Ready(r: Record, force: bool) {
    (Complete(r) || force) && r.formulaData.Some? && AttentionDate(r.formulaData.value).Ok?
  }

  /** The row that reaches the insert: the table's columns of the row dict, with the placeholders filled. */
  function InsertedRow(r: Record, schema: set<string>): Row
    requires r.formulaData.Some? && AttentionDate(r.formulaData.value).Ok? && MedicinesCell(r.formulaData.value).Some?
  {
    var f := r.formulaData.value;
    Cleaned(Restrict(ServiceRow(r, f, AttentionDate(f).value, MedicinesCell(f).value), schema))
  }

  /**
   * `await save_user_data(user_data, force_save)` against a table with
   * columns `schema` whose next answers are `script`.
   */
  function ServiceSave(r: Record, force: bool, nowMs: nat, stamp: string, schema: set<string>, script: seq<Reply>)
    : (res: SaveResult)
  {
    if !Ready(r, force) then SaveResult(false, r, [], 0)
    else Submit(WithComplaintId(r, nowMs), stamp, schema, script)
  }

  /** The part after the complaint has an id: the saved check, the medicine text and the insert. */
  function Submit(r: Record, stamp: string, schema: set<string>, script: seq<Reply>): (res: SaveResult)
    requires r.formulaData.Some? && AttentionDate(r.formulaData.value).Ok?
  {
    if r.complaint.saved then SaveResult(true, r, [], 0)
    else if MedicinesCell(r.formulaData.value).None? then SaveResult(false, r, [], 0)
    else if Answer(script) == Stored then SaveResult(true, Recorded(r, r.formulaData.value, stamp), [InsertedRow(r, schema)], 1)
    else SaveResult(false, r, [], 1)
  }

  // ------------------------------------------------------------ the imperative save

  /**
   * The imperative `save_user_data`: the checks, the complaint id, then
   * `SubmitComplaint`. It returns what `ServiceSave` computes, leaves the
   * session and the table as it says, and consumes one scripted answer per
   * insert.
   */
  method SaveUserData(s: Session, t: Table, force: bool, nowMs: nat, stamp: string) returns (ok: bool)
    requires t.Valid()
    modifies s, t
    ensures t.Valid() && t.schema == old(t.schema) && s.sessionId == old(s.sessionId)
    ensures ok == ServiceSave(old(s.data), force, nowMs, stamp, old(t.schema), old(t.script)).ok
    ensures s.data == ServiceSave(old(s.data), force, nowMs, stamp, old(t.schema), old(t.script)).data
    ensures t.rows == old(t.rows) + ServiceSave(old(s.data), force, nowMs, stamp, old(t.schema), old(t.script)).stored
    ensures t.script == Skip(old(t.script), ServiceSave(old(s.data), force, nowMs, stamp, old(t.schema), old(t.script)).used)
  {
    var d := s.data;
    if !(HasFormula(d) && MedsSpecified(d)) && !force {
      return false;
    }
    if d.formulaData.None? {
      return false;
    }
    var fecha := AttentionDate(d.formulaData.value);
    if fecha.Err? {
      return false;
    }
    if d.complaint.id == "" {
      s.data := d.(complaint := Complaint(ComplaintId(d.userId, nowMs), false));
    }
    assert s.data == WithComplaintId(d, nowMs);
    ok := SubmitComplaint(s, t, stamp);
  }

  /** From the saved check to the insert, on a complaint that has its id. */
  method SubmitComplaint(s: Session, t: Table, stamp: string) returns (ok: bool)
    requires t.Valid() && s.data.formulaData.Some? && AttentionDate(s.data.formulaData.value).Ok?
    modifies s, t
    ensures t.Valid() && t.schema == old(t.schema) && s.sessionId == old(s.sessionId)
    ensures ok == Submit(old(s.data), stamp, old(t.schema), old(t.script)).ok
    ensures s.data == Submit(old(s.data), stamp, old(t.schema), old(t.script)).data
    ensures t.rows == old(t.rows) + Submit(old(s.data), stamp, old(t.schema), old(t.script)).stored
    ensures t.script == Skip(old(t.script), Submit(old(s.data), stamp, old(t.schema), old(t.script)).used)
  {
    if s.data.complaint.saved {
      return true;
    }
    var f := s.data.formulaData.value;
    var meds := MedicinesCell(f);
    if meds.None? {
      return false;
    }
    var filtered := Restrict(ServiceRow(s.data, f, AttentionDate(f).value, meds.value), t.schema);
    var clean := FillPlaceholders(filtered);
    assert clean == InsertedRow(s.data, t.schema);
    var reply := t.Insert(clean);
    if reply != Stored {
      return false;
    }
    RecordSaved(s, f, stamp);
    return true;
  }

  /** The bookkeeping after a stored row. */
  method RecordSaved(s: Session, f: map<string, Json>, stamp: string)
    modifies s
    ensures s.data == Recorded(old(s.data), f, stamp) && s.sessionId == old(s.sessionId)
  {
    var d := s.data;
    var nombre := Get(f, "paciente", NotAvailable);
    var entry := PatientEntry(d, f, stamp);
    var pid := Get(f, "numero_documento", JStr(""));
    var marked := d.(complaint := d.complaint.(saved := true),
                     prior := d.prior + [Summary(d.complaint.id, stamp, nombre, OptText(d.missingMeds))]);
    if Truthy(pid) {
      var ph := AddPatientComplaint(d.patientHistory, pid, nombre, entry);
      s.data := marked.(patientHistory := Some(ph));
    } else {
      s.data := marked;
    }
  }

  /** The update of `patient_history`: create the patient's entry when missing, then append the complaint. */
  method AddPatientComplaint(ph: Option<map<Json, PatientRecord>>, pid: Json, nombre: Json, entry: PatientComplaint)
    returns (out: map<Json, PatientRecord>)
    ensures out == WithPatientComplaint(ph, pid, nombre, entry)
  {
    out := if ph.Some? then ph.value else map[];
    if pid !in out {
      out := out[pid := PatientRecord(nombre, [])];
    }
    var rec := out[pid];
    out := out[pid := rec.(quejas := rec.quejas + [entry])];
  }

  // ------------------------------------------------------------ properties

  /** A column survives the schema filter exactly when the row had it and the table has its name. */
  lemma {:induction false} RestrictKeeps(row: Row, schema: set<string>, c: Column)
    ensures c in Restrict(row, schema) <==> c in row && c.name in schema
    decreases |row|
  {
    if row != [] {
      RestrictKeeps(row[1..], schema, c);
      assert row == [row[0]] + row[1..];
    }
  }

  /** The last check keeps the name, leaves non-strings and meaningful strings alone, and leaves nothing hollow. */
  lemma PlaceholderFacts(c: Column)
    ensures Placeholder(c).name == c.name
    ensures !Hollow(c.value) ==> Placeholder(c) == c
    ensures !Hollow(Placeholder(c).value)
  {
    var n := "No disponible";
    assert !IsSpace(n[0]);
    StripOfStripped(n);
  }

  /** The filter and the last check keep only columns of the table whose names the row had, and leave nothing hollow. */
  lemma CleanedRestrictFacts(full: Row, schema: set<string>)
    ensures forall c :: c in Cleaned(Restrict(full, schema)) ==>
      c.name in schema && (exists j :: 0 <= j < |full| && full[j].name == c.name) && !Hollow(c.value)
  {
    var kept := Restrict(full, schema);
    forall c | c in Cleaned(kept)
      ensures c.name in schema && (exists j :: 0 <= j < |full| && full[j].name == c.name) && !Hollow(c.value)
    {
      var k :| 0 <= k < |kept| && Cleaned(kept)[k] == c;
      PlaceholderFacts(kept[k]);
      RestrictKeeps(full, schema, kept[k]);
    }
  }

  /** The row that reaches the insert holds only columns of the row dict that the table has, and no hollow string. */
  lemma InsertedRowFacts(r: Record, schema: set<string>)
    requires r.formulaData.Some? && AttentionDate(r.formulaData.value).Ok? && MedicinesCell(r.formulaData.value).Some?
    ensures forall c :: c in InsertedRow(r, schema) ==> c.name in schema && c.name in COLUMNS && !Hollow(c.value)
  {
    var f := r.formulaData.value;
    var full := ServiceRow(r, f, AttentionDate(f).value, MedicinesCell(f).value);
    CleanedRestrictFacts(full, schema);
  }

  /** Every stored row is that row. */
  lemma StoredRowFacts(r: Record, force: bool, nowMs: nat, stamp: string, schema: set<string>, script: seq<Reply>)
    ensures var res := ServiceSave(r, force, nowMs, stamp, schema, script);
      forall row, c :: row in res.stored && c in row ==> c.name in schema && c.name in COLUMNS && !Hollow(c.value)
  {
    if Ready(r, force) {
      var r1 := WithComplaintId(r, nowMs);
      if !r1.complaint.saved && MedicinesCell(r1.formulaData.value).Some? {
        InsertedRowFacts(r1, schema);
      }
    }
  }

  /** At most one insert per call, and a row is stored exactly when the call succeeds with an insert. */
  lemma SaveBounds(r: Record, force: bool, nowMs: nat, stamp: string, schema: set<string>, script: seq<Reply>)
    ensures var res := ServiceSave(r, force, nowMs, stamp, schema, script);
      res.used <= 1 && |res.stored| <= 1 && |res.stored| <= res.used
      && (res.stored != [] <==> res.ok && res.used == 1)
  {
  }

  /** Incomplete data without `force_save` returns False before anything else, changing nothing. */
  lemma IncompleteNotSaved(r: Record, nowMs: nat, stamp: string, schema: set<string>, script: seq<Reply>)
    requires !Complete(r)
    ensures ServiceSave(r, false, nowMs, stamp, schema, script) == SaveResult(false, r, [], 0)
  {
  }

  /** A forced save without a prescription dict fails and inserts nothing. */
  lemma NoPrescriptionFails(r: Record, force: bool, nowMs: nat, stamp: string, schema: set<string>, script: seq<Reply>)
    requires r.formulaData.None?
    ensures ServiceSave(r, force, nowMs, stamp, schema, script) == SaveResult(false, r, [], 0)
  {
  }

  /** An already saved complaint returns True with no insert, but only once the completeness check has passed. */
  lemma SavedIsNotInsertedAgain(r: Record, force: bool, nowMs: nat, stamp: string, schema: set<string>, script: seq<Reply>)
    requires r.complaint.saved && r.complaint.id != ""
    ensures (Complete(r) || force) && r.formulaData.Some? && AttentionDate(r.formulaData.value).Ok?
            ==> ServiceSave(r, force, nowMs, stamp, schema, script) == SaveResult(true, r, [], 0)
    ensures !Complete(r) && !force ==> !ServiceSave(r, force, nowMs, stamp, schema, script).ok
  {
  }

  /**
   * A failed save stores nothing, and the only change it can make is the
   * fresh, unsaved complaint it gave an id-less record.
   */
  lemma FailureKeepsSaved(r: Record, force: bool, nowMs: nat, stamp: string, schema: set<string>, script: seq<Reply>)
    ensures var res := ServiceSave(r, force, nowMs, stamp, schema, script);
      !res.ok ==> res.stored == []
                  && (res.data == r || (res.data == WithComplaintId(r, nowMs) && !res.data.complaint.saved))
  {
  }

  /**
   * A stored row marks the complaint saved under its id, appends exactly one
   * summary to the earlier complaints, and, when there is a document number,
   * ends that patient's complaints with this one.
   */
  lemma StoredRecords(r: Record, force: bool, nowMs: nat, stamp: string, schema: set<string>, script: seq<Reply>)
    requires ServiceSave(r, force, nowMs, stamp, schema, script).stored != []
    ensures var res := ServiceSave(r, force, nowMs, stamp, schema, script);
      var id := WithComplaintId(r, nowMs).complaint.id;
      var f := r.formulaData.value;
      res.ok && res.data.complaint == Complaint(id, true)
      && res.data.prior == r.prior + [Summary(id, stamp, Get(f, "paciente", NotAvailable), OptText(r.missingMeds))]
      && (Truthy(Get(f, "numero_documento", JStr(""))) ==>
            var q := res.data.patientHistory.value[Get(f, "numero_documento", JStr(""))].quejas;
            |q| > 0 && q[|q| - 1].id == id && q[|q| - 1].fecha == stamp)
  {
  }

  /** A save changes only the complaint, the earlier complaints and the patient history. */
  lemma SaveKeeps(r: Record, force: bool, nowMs: nat, stamp: string, schema: set<string>, script: seq<Reply>)
    ensures ServiceSave(r, force, nowMs, stamp, schema, script).data.(complaint := r.complaint, prior := r.prior,
              patientHistory := r.patientHistory) == r
    ensures r.prior <= ServiceSave(r, force, nowMs, stamp, schema, script).data.prior
  {
    if Ready(r, force) {
      SubmitKeeps(WithComplaintId(r, nowMs), stamp, schema, script);
    }
  }

  lemma SubmitKeeps(r: Record, stamp: string, schema: set<string>, script: seq<Reply>)
    requires r.formulaData.Some? && AttentionDate(r.formulaData.value).Ok?
    ensures Submit(r, stamp, schema, script).data.(complaint := r.complaint, prior := r.prior,
              patientHistory := r.patientHistory) == r
    ensures r.prior <= Submit(r, stamp, schema, script).data.prior
  {
    RecordedFrame(r, r.formulaData.value, stamp);
  }

  lemma RecordedFrame(r: Record, f: map<string, Json>, stamp: string)
    ensures Recorded(r, f, stamp).(complaint := r.complaint, prior := r.prior, patientHistory := r.patientHistory) == r
  {
  }

  /** At most one row per complaint: after a call that stored a row, a later call stores none. */
  lemma AtMostOneRow(r: Record, f1: bool, f2: bool, n1: nat, n2: nat, d1: string, d2: string,
                     c1: set<string>, c2: set<string>, s1: seq<Reply>, s2: seq<Reply>)
    requires ServiceSave(r, f1, n1, d1, c1, s1).stored != []
    ensures ServiceSave(ServiceSave(r, f1, n1, d1, c1, s1).data, f2, n2, d2, c2, s2).stored == []
  {
    var u := ServiceSave(r, f1, n1, d1, c1, s1).data;
    assert u.complaint.saved && u.complaint.id != "";
    assert u.formulaData == r.formulaData;
  }
}
