/**
 * The medicine list of an analysed prescription and the numbered text that
 * several modules build from it (`f"{i + 1}. {med}"` per entry, joined by
 * newlines).
 */
module Prescription {
  import opened Wrappers
  import opened Text
  import opened JsonValues

  /** `f"{med}"` for an entry of the medicine list; only string entries are modelled. */
  function ItemText(j: Json): string {
    if j.JStr? then j.s else ""
  }

  /** `datos.get("medicamentos", [])` as a list. */
  function MedItems(datos: map<string, Json>): seq<Json> {
    var m := Get(datos, "medicamentos", JArr([]));
    if m.JArr? then m.items else []
  }

  /** The entries of the medicine list as text, in list order. */
  function MedNames(datos: map<string, Json>): (ns: seq<string>)
    ensures |ns| == |MedItems(datos)|
    ensures forall i :: 0 <= i < |ns| ==> ns[i] == ItemText(MedItems(datos)[i])
  {
    Texts(MedItems(datos))
  }

  function Texts(items: seq<Json>): (ns: seq<string>)
    ensures |ns| == |items|
    ensures forall i :: 0 <= i < |ns| ==> ns[i] == ItemText(items[i])
  {
    if items == [] then [] else [ItemText(items[0])] + Texts(items[1..])
  }

  /** The lines "n. name", "n+1. name", ... for the entries of `names`. */
  function NumberedFrom(names: seq<string>, n: nat): (lines: seq<string>)
    ensures |lines| == |names|
    ensures forall i :: 0 <= i < |names| ==> lines[i] == NatToString(n + i) + ". " + names[i]
  {
    if names == [] then [] else [NatToString(n) + ". " + names[0]] + NumberedFrom(names[1..], n + 1)
  }

  /** `"\n".join(f"{i + 1}. {med}" for i, med in enumerate(names))`. */
  function Numbered(names: seq<string>): string {
    Join(NumberedFrom(names, 1), "\n")
  }

  predicate NoNewline(s: string) { '\n' !in s }

  lemma {:induction false} SplitWithoutSep(a: string, sep: char)
    requires sep !in a
    ensures SplitOn(a, sep) == [a]
    decreases |a|
  {
    if |a| > 0 {
      SplitWithoutSep(a[1..], sep);
      assert [a[0]] + a[1..] == a;
    }
  }

  lemma {:induction false} SplitAfterSep(a: string, b: string, sep: char)
    requires sep !in a
    ensures SplitOn(a + [sep] + b, sep) == [a] + SplitOn(b, sep)
    decreases |a|
  {
    var s := a + [sep] + b;
    if |a| == 0 {
      assert s[0] == sep && s[1..] == b;
    } else {
      assert s[0] == a[0] && s[1..] == a[1..] + [sep] + b;
      SplitAfterSep(a[1..], b, sep);
      assert [a[0]] + a[1..] == a;
    }
  }

  /** Splitting the newline-joined lines at newlines gives the lines back. */
  lemma {:induction false} JoinThenSplit(lines: seq<string>)
    requires |lines| >= 1
    requires forall k :: 0 <= k < |lines| ==> NoNewline(lines[k])
    ensures SplitOn(Join(lines, "\n"), '\n') == lines
    decreases |lines|
  {
    if |lines| == 1 {
      SplitWithoutSep(lines[0], '\n');
    } else {
      JoinThenSplit(lines[1..]);
      assert Join(lines, "\n") == lines[0] + ['\n'] + Join(lines[1..], "\n");
      SplitAfterSep(lines[0], Join(lines[1..], "\n"), '\n');
      assert [lines[0]] + lines[1..] == lines;
    }
  }

  lemma DigitsHaveNoNewline(d: string, name: string)
    requires AllDigits(d) && NoNewline(name)
    ensures NoNewline(d + ". " + name)
  {
    assert forall k :: 0 <= k < |d| ==> d[k] != '\n';
  }

  /**
   * The numbered text has one line per medicine, in list order, with its
   * 1-based number: splitting it at newlines gives line `i` as "i+1. name".
   */
  lemma NumberedLines(names: seq<string>)
    requires |names| >= 1
    requires forall k :: 0 <= k < |names| ==> NoNewline(names[k])
    ensures |SplitOn(Numbered(names), '\n')| == |names|
    ensures forall i :: 0 <= i < |names| ==>
      SplitOn(Numbered(names), '\n')[i] == NatToString(i + 1) + ". " + names[i]
  {
    var lines := NumberedFrom(names, 1);
    forall k | 0 <= k < |lines| ensures NoNewline(lines[k]) {
      DigitsHaveNoNewline(NatToString(1 + k), names[k]);
    }
    JoinThenSplit(lines);
  }
}
