/**
 * The complaints table that both revisions insert into. The table service
 * is an oracle: the answers to the next inserts are a script, and the ghost
 * `writes` counts the rows it accepted. Also the column helpers the two
 * `save_user_data` functions share.
 */
module Warehouse {
  import opened Wrappers
  import opened Text
  import opened JsonValues
  import opened Prescription

  /** A column of a row dict, in insertion order. */
  datatype Column = Column(name: string, value: Json)

  /** A row for `insert_rows_json`: its columns in dict order. */
  type Row = seq<Column>

  /** `key in row`. */
  predicate HasColumn(row: Row, key: string) {
    exists k | 0 <= k < |row| :: row[k].name == key
  }

  /** The answer of the table service to one insert. */
  datatype Reply =
    | Stored                         // an empty error list: the row is in the table
    | Rejected                       // a non-empty error list
    | Failed(messages: seq<string>)  // an exception, with the messages of its error details

  /** The answer to the next insert; an exhausted script answers with a bare exception. */
  function Answer(script: seq<Reply>): Reply {
    if script == [] then Failed([]) else script[0]
  }

  function Rest(script: seq<Reply>): seq<Reply> {
    if script == [] then [] else script[1..]
  }

  class Table {
    /** The column names of the table schema. */
    var schema: set<string>
    var script: seq<Reply>
    var rows: seq<Row>
    ghost var writes: nat

    ghost predicate Valid()
      reads this
    {
      writes == |rows|
    }

    constructor (schema: set<string>, script: seq<Reply>)
      ensures Valid() && this.schema == schema && this.script == script && rows == []
    {
      this.schema := schema;
      this.script := script;
      rows := [];
      writes := 0;
    }

    /** One `insert_rows_json(table, [row])`. */
    method Insert(row: Row) returns (reply: Reply)
      requires Valid()
      modifies this
      ensures Valid()
      ensures reply == Answer(old(script)) && script == Rest(old(script)) && schema == old(schema)
      ensures rows == old(rows) + (if reply == Stored then [row] else [])
      ensures writes == old(writes) + (if reply == Stored then 1 else 0)
    {
      reply := Answer(script);
      script := Rest(script);
      if reply == Stored {
        rows := rows + [row];
        writes := writes + 1;
      }
    }
  }

  // ------------------------------------------------------------ shared column values

  /**
   * `fecha_atencion` of the row: a "D/M/Y" text becomes "Y-MM-DD" (the
   * calendar-date form of ISO 8601:2004, section 4.1.2.2), any other split
   * count gives None, and no range is checked. `Err` when the value is
   * truthy but not a string, where `.split` raises.
   */
  function AttentionDate(f: map<string, Json>): (d: Result<Option<string>, ()>)
    ensures d.Ok? && d.value.Some? ==> Get(f, "fecha_atencion", JNull).JStr?
  {
    var v := Get(f, "fecha_atencion", JNull);
    if !Truthy(v) then Ok(None)
    else if !v.JStr? then Err(())
    else
      var parts := SplitOn(v.s, '/');
      if |parts| == 3 then Ok(Some(IsoDate(parts[0], parts[1], parts[2]))) else Ok(None)
  }

  /** `f"{anio}-{mes.zfill(2)}-{dia.zfill(2)}"`. */
  function IsoDate(dia: string, mes: string, anio: string): string {
    anio + "-" + ZFill(mes, 2) + "-" + ZFill(dia, 2)
  }

  /** A date "D/M/YYYY" with one- or two-digit day and month becomes the ten-character "YYYY-MM-DD". */
  lemma IsoDateShape(dia: string, mes: string, anio: string)
    requires 1 <= |dia| <= 2 && 1 <= |mes| <= 2 && |anio| == 4
    requires AllDigits(dia) && AllDigits(mes) && AllDigits(anio)
    ensures |IsoDate(dia, mes, anio)| == 10
    ensures IsoDate(dia, mes, anio)[4] == '-' && IsoDate(dia, mes, anio)[7] == '-'
    ensures IsoDate(dia, mes, anio)[..4] == anio
    ensures AllDigits(IsoDate(dia, mes, anio)[5..7]) && AllDigits(IsoDate(dia, mes, anio)[8..])
  {
    var m := ZFill(mes, 2);
    var d := ZFill(dia, 2);
    var r := IsoDate(dia, mes, anio);
    assert r == anio + "-" + m + "-" + d;
    assert r[5..7] == m && r[8..] == d;
  }

  lemma ZFillKeepsDashFree(s: string, width: nat)
    requires '-' !in s
    ensures '-' !in ZFill(s, width)
  {
    if |s| < width {
      var z := Zeros(width - |s|);
      assert '-' !in z;
      if |s| > 0 && s[0] in "+-" {
        assert ZFill(s, width) == [s[0]] + z + s[1..];
        assert '-' !in s[1..];
      } else {
        assert ZFill(s, width) == z + s;
      }
    }
  }

  /** The ISO form splits at '-' back into the year and the padded month and day. */
  lemma IsoDateSplits(dia: string, mes: string, anio: string)
    requires '-' !in dia && '-' !in mes && '-' !in anio
    requires |dia| > 0 && |mes| > 0
    ensures SplitOn(IsoDate(dia, mes, anio), '-') == [anio, ZFill(mes, 2), ZFill(dia, 2)]
  {
    var m := ZFill(mes, 2);
    var d := ZFill(dia, 2);
    ZFillKeepsDashFree(mes, 2);
    ZFillKeepsDashFree(dia, 2);
    SplitWithoutSep(d, '-');
    SplitAfterSep(m, d, '-');
    assert IsoDate(dia, mes, anio) == anio + ['-'] + (m + ['-'] + d);
    SplitAfterSep(anio, m + ['-'] + d, '-');
  }

  /**
   * `", ".join(formula.get("medicamentos", [])) or "No disponible"`: a list
   * of strings is joined, a string is joined character by character, and
   * anything else makes `join` raise (`None`).
   */
  function MedicinesCell(f: map<string, Json>): (c: Option<string>)
    ensures c.Some? ==> c.value != ""
  {
    var m := Get(f, "medicamentos", JArr([]));
    var joined :=
      if m.JArr? && forall k :: 0 <= k < |m.items| ==> m.items[k].JStr? then Some(Join(Texts(m.items), ", "))
      else if m.JStr? then Some(Join(seq(|m.s|, k requires 0 <= k < |m.s| => [m.s[k]]), ", "))
      else None;
    match joined
    case None => None
    case Some(j) => Some(if j == "" then "No disponible" else j)
  }

  /** The row without the columns named in `names`, the others in their order. */
  function Without(row: Row, names: seq<string>): (out: Row)
    ensures |out| <= |row|
  {
    if row == [] then []
    else (if row[0].name in names then [] else [row[0]]) + Without(row[1..], names)
  }

  /** A column survives exactly when it was in the row and is not named. */
  lemma {:induction false} WithoutKeeps(row: Row, names: seq<string>, c: Column)
    ensures c in Without(row, names) <==> c in row && c.name !in names
    decreases |row|
  {
    if row != [] {
      WithoutKeeps(row[1..], names, c);
      assert row == [row[0]] + row[1..];
    }
  }

  lemma {:induction false} WithoutOneMore(row: Row, names: seq<string>, n: string)
    ensures Without(Without(row, names), [n]) == Without(row, names + [n])
    decreases |row|
  {
    if row != [] {
      WithoutOneMore(row[1..], names, n);
      var head := if row[0].name in names then [] else [row[0]];
      assert Without(row, names) == head + Without(row[1..], names);
      WithoutConcat(head, Without(row[1..], names), [n]);
    }
  }

  lemma {:induction false} WithoutConcat(a: Row, b: Row, names: seq<string>)
    ensures Without(a + b, names) == Without(a, names) + Without(b, names)
    decreases |a|
  {
    if a != [] {
      WithoutConcat(a[1..], b, names);
      assert (a + b)[0] == a[0] && (a + b)[1..] == a[1..] + b;
    } else {
      assert a + b == b;
    }
  }

  /** The loop `for campo in problematicos: if campo in row: del row[campo]`. */
  method DropColumns(row: Row, names: seq<string>) returns (out: Row)
    ensures out == Without(row, names)
  {
    out := row;
    assert Without(row, []) == row by { WithoutNothing(row); }
    for i := 0 to |names|
      invariant out == Without(row, names[..i])
    {
      if HasColumn(out, names[i]) {
        WithoutOneMore(row, names[..i], names[i]);
        assert names[..i + 1] == names[..i] + [names[i]];
        out := Without(out, [names[i]]);
      } else {
        WithoutAbsent(out, names[i]);
        WithoutOneMore(row, names[..i], names[i]);
        assert names[..i + 1] == names[..i] + [names[i]];
      }
    }
    assert names[..|names|] == names;
  }

  lemma {:induction false} WithoutNothing(row: Row)
    ensures Without(row, []) == row
    decreases |row|
  {
    if row != [] {
      WithoutNothing(row[1..]);
      assert [row[0]] + row[1..] == row;
    }
  }

  /** Deleting a column the row does not have changes nothing. */
  lemma {:induction false} WithoutAbsent(row: Row, n: string)
    requires !HasColumn(row, n)
    ensures Without(row, [n]) == row
    decreases |row|
  {
    if row != [] {
      assert row[0].name != n;
      assert !HasColumn(row[1..], n) by {
        forall k | 0 <= k < |row[1..]| ensures row[1..][k].name != n {
          assert row[1..][k] == row[k + 1];
        }
      }
      WithoutAbsent(row[1..], n);
      assert [row[0]] + row[1..] == row;
    }
  }
}
