/**
 * Worked replies to the prescription ["Losartan 50mg", "Metformin 850mg"].
 * Each reply is given already lower-cased and stripped, as both selectors
 * see it.
 */
module MedicationExamples {
  import opened Wrappers
  import opened Text
  import opened MedicationSelection

  const Meds: seq<string> := ["Losartan 50mg", "Metformin 850mg"]

  lemma DigitRunsSingle(s: string)
    requires |s| == 1 && IsDigit(s[0])
    ensures DigitRuns(s) == [s]
  {
    assert SpanLen(s, IsDigit) == 1;
    assert s[..1] == s && s[1..] == "";
  }

  lemma TwoIsSecond()
    ensures DigitRuns("2") == ["2"] && AtNumber("2", Meds) == Some("Metformin 850mg")
  {
    DigitRunsSingle("2");
    assert DigitsValue("2") == 2 by {
      assert "2"[..0] == "";
    }
  }

  lemma RunsOfElTwo(t: string)
    requires |t| == 4 && t[..3] == "el " && t[3] == '2'
    ensures DigitRuns(t) == ["2"]
  {
    assert forall j :: 0 <= j < 3 ==> t[j] == "el "[j];
    DigitRunsSkip(t, 3);
    assert t[3..] == "2";
    TwoIsSecond();
  }

  lemma RunsOfTodosLosTwo(t: string)
    requires |t| == 11 && t[..10] == "todos los " && t[10] == '2'
    ensures DigitRuns(t) == ["2"]
  {
    assert forall j :: 0 <= j < 10 ==> t[j] == "todos los "[j];
    DigitRunsSkip(t, 10);
    assert t[10..] == "2";
    TwoIsSecond();
  }

  /** A bare number picks that medicine alone. */
  lemma CoreByNumber(t: string)
    requires t == "el 2"
    ensures Choose(t, Meds) == Some(["Metformin 850mg"])
  {
    ContainsLonger(t, "no me entregaron ninguno");
    ContainsLonger(t, "todos los");
    ContainsLonger(t, "no me entregaron nada");
    assert !MeansAll(t);
    assert t[..3] == "el ";
    RunsOfElTwo(t);
    TwoIsSecond();
    CoreNumbersBeforeNames(t, Meds, 0);
    assert Picked(["2"], Meds) == ["Metformin 850mg"] by {
      assert ["2"][..0] == [];
    }
  }

  /** "todos los 2": the core takes the idiom, the monolith takes the number. */
  lemma PriorityDiffers(t: string)
    requires t == "todos los 2"
    ensures Choose(t, Meds) == Some(Meds)
    ensures MonolithChoose(t, Meds) == Some("Metformin 850mg")
  {
    ContainsWitness(t, "todos los", 0);
    assert t[..10] == "todos los ";
    RunsOfTodosLosTwo(t);
    TwoIsSecond();
  }

  /**
   * A reply of at most three characters with no digits and no idiom names
   * nothing in the core: every keyword it could contain is longer.
   */
  lemma ShortReplyCore(t: string, meds: seq<string>)
    requires |t| <= 3 && DigitRuns(t) == [] && !MeansAll(t)
    ensures Choose(t, meds).None?
  {
    forall m | m in meds ensures !Mentioned(m, t) {
      forall w | w in Keywords(m) && |w| > 3 ensures !Contains(t, Lower(w)) {
        ContainsLonger(t, Lower(w));
      }
    }
    MentionsEmptyIff(meds, t);
  }

  /** The same for the monolith, once every first word is longer than the reply. */
  lemma ShortReplyMonolith(t: string, meds: seq<string>)
    requires DigitRuns(t) == [] && t !in NoneWords && t !in AllWords && !Contains(t, "todos los")
    requires forall j :: 0 <= j < |meds| ==> |FirstWord(meds[j])| > |t|
    ensures MonolithChoose(t, meds).None?
  {
    forall j | 0 <= j < |meds| ensures !Contains(t, FirstWord(meds[j])) {
      ContainsLonger(t, FirstWord(meds[j]));
    }
    assert FirstNumber(t).None?;
    MonolithChoiceNoneIff(t, meds);
  }

  lemma FirstWordOf(m: string, k: nat)
    requires k <= |m| && (k == |m| || m[k] == ' ')
    requires forall j :: 0 <= j < k ==> m[j] != ' '
    ensures FirstWord(m) == Lower(m[..k])
  {
    SplitOnHead(m, ' ', k);
  }

  lemma LosartanWord(m: string)
    requires m == "Losartan 50mg"
    ensures |FirstWord(m)| == 8
  {
    FirstWordOf(m, 8);
  }

  lemma MetforminWord(m: string)
    requires m == "Metformin 850mg"
    ensures |FirstWord(m)| == 9
  {
    FirstWordOf(m, 9);
  }

  lemma XyzFacts(t: string)
    requires |t| == 3 && t[0] == 'x' && t[1] == 'y' && t[2] == 'z'
    ensures DigitRuns(t) == [] && !MeansAll(t)
    ensures t !in NoneWords && t !in AllWords && !Contains(t, "todos los")
  {
    ContainsLonger(t, "no me entregaron ninguno");
    ContainsLonger(t, "todos los");
    ContainsLonger(t, "no me entregaron nada");
    DigitRunsSkip(t, 3);
    assert DigitRuns(t[3..]) == [];
  }

  /** A reply with no idiom, number or name fails in the core selector. */
  lemma NothingIdentifiedCore(t: string)
    requires |t| == 3 && t[0] == 'x' && t[1] == 'y' && t[2] == 'z'
    ensures Choose(t, Meds).None?
  {
    XyzFacts(t);
    ShortReplyCore(t, Meds);
  }

  /** ... and in the monolith's. */
  lemma NothingIdentifiedMonolith(t: string)
    requires |t| == 3 && t[0] == 'x' && t[1] == 'y' && t[2] == 'z'
    ensures MonolithChoose(t, Meds).None?
  {
    XyzFacts(t);
    LosartanWord(Meds[0]);
    MetforminWord(Meds[1]);
    ShortReplyMonolith(t, Meds);
  }
}
