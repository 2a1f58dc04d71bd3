/**
 * `get_next_question` and `generar_resumen_final` of src/handler.py: the
 * next-question state machine of the monolith. Each of the six personal
 * fields has an "already asked" flag in `data_collected`; the missing
 * medicines have none.
 */
module Questions {
  import opened Wrappers
  import opened Text
  import opened Steps
  import opened Sessions
  import opened ModelSessions

  /** The six flagged fields, in the order `get_next_question` visits them. */
  const Asked: seq<Field> := [City, Cellphone, BirthDate, Regime, Address, Pharmacy]

  /** The `data_collected` flag of a field; the missing medicines have none. */
  function Flag(fl: Flags, f: Field): bool {
    match f
    case City => fl.ciudad
    case Cellphone => fl.celular
    case BirthDate => fl.fechaNacimiento
    case Regime => fl.regimen
    case Address => fl.direccion
    case Pharmacy => fl.farmacia
    case MissingMeds => false
  }

  /** `data_collected[<field>] = True`. */
  function Raise(fl: Flags, f: Field): (g: Flags)
    ensures f != MissingMeds ==> Flag(g, f)
    ensures forall h :: h != f ==> Flag(g, h) == Flag(fl, h)
  {
    match f
    case City => fl.(ciudad := true)
    case Cellphone => fl.(celular := true)
    case BirthDate => fl.(fechaNacimiento := true)
    case Regime => fl.(regimen := true)
    case Address => fl.(direccion := true)
    case Pharmacy => fl.(farmacia := true)
    case MissingMeds => fl
  }

  /** The step `get_next_question` sets when it asks for a field. */
  function AskStep(f: Field): Step {
    match f
    case MissingMeds => EsperandoMedicamentos
    case City => EsperandoCiudad
    case Cellphone => EsperandoCelular
    case BirthDate => EsperandoFechaNacimiento
    case Regime => EsperandoRegimen
    case Address => EsperandoDireccion
    case Pharmacy => EsperandoFarmacia
  }

  /** A flagged field still to be asked: empty and never asked before. */
  predicate Unanswered(r: Record, f: Field)
    requires r.collected.Some?
  {
    FieldValue(r, f) == Some("") && !Flag(r.collected.value, f)
  }

  /** The first position `>= i` of `Asked` whose field is still to be asked. */
  function FirstUnanswered(r: Record, i: nat): (o: Option<nat>)
    requires r.collected.Some? && i <= |Asked|
    ensures o.Some? ==> i <= o.value < |Asked| && Unanswered(r, Asked[o.value])
    ensures o.Some? ==> forall j :: i <= j < o.value ==> !Unanswered(r, Asked[j])
    ensures o.None? ==> forall j :: i <= j < |Asked| ==> !Unanswered(r, Asked[j])
    decreases |Asked| - i
  {
    if i == |Asked| then None
    else if Unanswered(r, Asked[i]) then Some(i)
    else FirstUnanswered(r, i + 1)
  }

  /** The closing reply of `generar_resumen_final`. */
  datatype FinalReply = MedsFirst | Recap(meds: string, pharmacy: string, city: string)

  /** What `get_next_question` returns when it returns a string. */
  datatype Question = AskFor(f: Field) | Closing(reply: FinalReply)

  /** FORMULA_ANALIZADA before the prescription summary was shown: no question yet. */
  predicate Paused(r: Record) {
    r.currentStep == Some(FormulaAnalizada) && r.summaryShown == Some(false)
  }

  /**
   * `generar_resumen_final`: asks for the medicines again (and moves back to
   * ESPERANDO_MEDICAMENTOS) when they are missing, else recaps them with the
   * pharmacy and the city.
   */
  function ResumenFinal(r: Record): (res: (FinalReply, Record))
    ensures res.0.MedsFirst? <==> !MedsSpecified(r)
    ensures res.0.MedsFirst? ==> res.1 == r.(currentStep := Some(EsperandoMedicamentos))
    ensures res.0.Recap? ==> res.1 == r && res.0.meds == r.missingMeds.value
  {
    if !MedsSpecified(r) then (MedsFirst, r.(currentStep := Some(EsperandoMedicamentos)))
    else (Recap(r.missingMeds.value, r.pharmacy, r.city), r)
  }

  /**
   * `get_next_question(user_data)`: the question (None when paused) and the
   * record with its new step and flags.
   */
  function NextQuestion(r: Record): (res: (Option<Question>, Record))
    requires StepAware(r)
    ensures StepAware(res.1)
    ensures res.1.(currentStep := r.currentStep, collected := r.collected) == r
    ensures forall f :: Flag(r.collected.value, f) ==> Flag(res.1.collected.value, f)
    ensures res.0.None? <==> Paused(r)
    ensures res.0.None? ==> res.1 == r
    ensures res.0.Some? && res.0.value.AskFor? ==> res.1.currentStep == Some(AskStep(res.0.value.f))
    ensures res.0.Some? && res.0.value.Closing? ==>
      res.0.value.reply.Recap? && res.1.currentStep == Some(Completado) && res.1.collected == r.collected
  {
    if Paused(r) then (None, r)
    else if !MedsSpecified(r) then (Some(AskFor(MissingMeds)), r.(currentStep := Some(EsperandoMedicamentos)))
    else match FirstUnanswered(r, 0)
      case Some(i) =>
        (Some(AskFor(Asked[i])),
         r.(currentStep := Some(AskStep(Asked[i])), collected := Some(Raise(r.collected.value, Asked[i]))))
      case None =>
        var fin := ResumenFinal(r.(currentStep := Some(Completado)));
        (Some(Closing(fin.0)), fin.1)
  }

  /** The explicit result when the first field still to be asked is `Asked[k]`. */
  lemma NextAsks(r: Record, k: nat)
    requires StepAware(r) && !Paused(r) && MedsSpecified(r) && k < |Asked|
    requires Unanswered(r, Asked[k]) && forall j :: 0 <= j < k ==> !Unanswered(r, Asked[j])
    ensures NextQuestion(r) == (Some(AskFor(Asked[k])),
      r.(currentStep := Some(AskStep(Asked[k])), collected := Some(Raise(r.collected.value, Asked[k]))))
  {
    assert FirstUnanswered(r, 0) == Some(k);
  }

  /** `get_next_question` on the session's record, one `if` per item as the source has it. */
  method GetNextQuestion(s: Session) returns (q: Option<Question>)
    requires StepAware(s.data)
    modifies s
    ensures (q, s.data) == NextQuestion(old(s.data))
    ensures s.sessionId == old(s.sessionId)
  {
    var d := s.data;
    if d.currentStep == Some(FormulaAnalizada) && !d.summaryShown.value {
      return None;
    }
    if !d.missingMeds.Some? || d.missingMeds.value == "" || d.missingMeds.value == UNSPECIFIED_MEDS {
      s.data := d.(currentStep := Some(EsperandoMedicamentos));
      return Some(AskFor(MissingMeds));
    }
    q := AskFlagged(s);
  }

  /** The six flagged questions and the closing reply, once the medicines are known. */
  method AskFlagged(s: Session) returns (q: Option<Question>)
    requires StepAware(s.data) && !Paused(s.data) && MedsSpecified(s.data)
    modifies s
    ensures (q, s.data) == NextQuestion(old(s.data))
    ensures s.sessionId == old(s.sessionId)
  {
    var d := s.data;
    var fl := d.collected.value;
    if d.city == "" && !fl.ciudad {
      NextAsks(d, 0);
      s.data := d.(currentStep := Some(EsperandoCiudad), collected := Some(fl.(ciudad := true)));
      return Some(AskFor(City));
    }
    assert !Unanswered(d, Asked[0]);
    if d.cellphone == "" && !fl.celular {
      NextAsks(d, 1);
      s.data := d.(currentStep := Some(EsperandoCelular), collected := Some(fl.(celular := true)));
      return Some(AskFor(Cellphone));
    }
    assert !Unanswered(d, Asked[1]);
    if d.birthDate == "" && !fl.fechaNacimiento {
      NextAsks(d, 2);
      s.data := d.(currentStep := Some(EsperandoFechaNacimiento), collected := Some(fl.(fechaNacimiento := true)));
      return Some(AskFor(BirthDate));
    }
    assert !Unanswered(d, Asked[2]);
    q := AskLater(s);
  }

  /** The second half of `AskFlagged`: regime, address, pharmacy, then the closing reply. */
  method AskLater(s: Session) returns (q: Option<Question>)
    requires StepAware(s.data) && !Paused(s.data) && MedsSpecified(s.data)
    requires forall j :: 0 <= j < 3 ==> !Unanswered(s.data, Asked[j])
    modifies s
    ensures (q, s.data) == NextQuestion(old(s.data))
    ensures s.sessionId == old(s.sessionId)
  {
    var d := s.data;
    var fl := d.collected.value;
    if d.regime == "" && !fl.regimen {
      NextAsks(d, 3);
      s.data := d.(currentStep := Some(EsperandoRegimen), collected := Some(fl.(regimen := true)));
      return Some(AskFor(Regime));
    }
    assert !Unanswered(d, Asked[3]);
    if d.address == "" && !fl.direccion {
      NextAsks(d, 4);
      s.data := d.(currentStep := Some(EsperandoDireccion), collected := Some(fl.(direccion := true)));
      return Some(AskFor(Address));
    }
    assert !Unanswered(d, Asked[4]);
    if d.pharmacy == "" && !fl.farmacia {
      NextAsks(d, 5);
      s.data := d.(currentStep := Some(EsperandoFarmacia), collected := Some(fl.(farmacia := true)));
      return Some(AskFor(Pharmacy));
    }
    assert !Unanswered(d, Asked[5]);
    assert FirstUnanswered(d, 0).None?;
    s.data := d.(currentStep := Some(Completado));
    var fin := ResumenFinal(s.data);
    s.data := fin.1;
    return Some(Closing(fin.0));
  }

  // ------------------------------------------------------------ properties

  /** With the medicines given, the question is for the first flagged field still to be asked, in `Asked` order. */
  lemma AsksFirstUnanswered(r: Record, i: nat)
    requires StepAware(r) && !Paused(r) && MedsSpecified(r) && i < |Asked|
    ensures NextQuestion(r).0 == Some(AskFor(Asked[i])) <==>
      Unanswered(r, Asked[i]) && forall j :: 0 <= j < i ==> !Unanswered(r, Asked[j])
  {
    var o := FirstUnanswered(r, 0);
    if o.Some? && o.value != i {
      assert Asked[o.value] != Asked[i];
    }
  }

  /** With the medicines given, the closing reply comes exactly when no flagged field is left to ask. */
  lemma ClosesWhenAllAsked(r: Record)
    requires StepAware(r) && !Paused(r) && MedsSpecified(r)
    ensures NextQuestion(r).0.value.Closing? <==> forall j :: 0 <= j < |Asked| ==> !Unanswered(r, Asked[j])
  {
  }

  /** Missing medicines are asked first, with no flag, so the question repeats on every call. */
  lemma MedsAskedAgain(r: Record)
    requires StepAware(r) && !Paused(r) && !MedsSpecified(r)
    ensures NextQuestion(r) == (Some(AskFor(MissingMeds)), r.(currentStep := Some(EsperandoMedicamentos)))
    ensures NextQuestion(NextQuestion(r).1) == NextQuestion(r)
  {
  }

  /** A flagged field is asked at most once: asked and left unanswered, it is skipped by the next call. */
  lemma AskedOnlyOnce(r: Record, f: Field)
    requires StepAware(r) && f != MissingMeds
    requires NextQuestion(r).0 == Some(AskFor(f))
    ensures NextQuestion(NextQuestion(r).1).0 != Some(AskFor(f))
  {
    var u := NextQuestion(r).1;
    assert Flag(u.collected.value, f);
    var o := FirstUnanswered(u, 0);
    if o.Some? {
      assert Unanswered(u, Asked[o.value]);
    }
  }

  /** `get_next_question` applied `n` times. */
  function AskTimes(r: Record, n: nat): (u: Record)
    requires StepAware(r)
    ensures StepAware(u)
  {
    if n == 0 then r else NextQuestion(AskTimes(r, n - 1)).1
  }

  /** Every field empty and never asked, the medicines given. */
  predicate Blank(r: Record) {
    StepAware(r) && !Paused(r) && MedsSpecified(r) && r.collected == Some(NoFlags)
    && r.city == "" && r.cellphone == "" && r.birthDate == "" && r.regime == ""
    && r.address == "" && r.pharmacy == ""
  }

  /** The flags after the first `n` questions of a blank record. */
  function FlagsBefore(n: nat): Flags {
    Flags(ciudad := n > 0, fechaNacimiento := n > 2, regimen := n > 3,
          direccion := n > 4, farmacia := n > 5, celular := n > 1)
  }

  lemma RaiseNext(n: nat)
    requires n < |Asked|
    ensures Raise(FlagsBefore(n), Asked[n]) == FlagsBefore(n + 1)
  {
  }

  /** From a blank record, the `n`-th call asks for `Asked[n-1]` and raises its flag; nothing else changes. */
  lemma {:induction false} AsksInOrder(r: Record, n: nat)
    requires Blank(r) && n <= |Asked|
    ensures AskTimes(r, n) ==
      r.(currentStep := if n == 0 then r.currentStep else Some(AskStep(Asked[n - 1])),
         collected := Some(FlagsBefore(n)))
  {
    if n > 0 {
      AsksInOrder(r, n - 1);
      RaiseNext(n - 1);
      AsksAfter(AskTimes(r, n - 1), n - 1);
    }
  }

  /** With the first `n` flags raised and every field empty, the next call asks for `Asked[n]`. */
  lemma AsksAfter(u: Record, n: nat)
    requires StepAware(u) && !Paused(u) && MedsSpecified(u) && n < |Asked|
    requires u.collected == Some(FlagsBefore(n))
    requires u.city == "" && u.cellphone == "" && u.birthDate == "" && u.regime == ""
    requires u.address == "" && u.pharmacy == ""
    ensures NextQuestion(u) == (Some(AskFor(Asked[n])),
      u.(currentStep := Some(AskStep(Asked[n])), collected := Some(Raise(FlagsBefore(n), Asked[n]))))
  {
    assert forall j :: 0 <= j < n ==> !Unanswered(u, Asked[j]);
    NextAsks(u, n);
  }

  /**
   * Never answering any question still completes the conversation: after
   * the six questions the seventh call moves to COMPLETADO with every
   * personal field empty.
   */
  lemma CompletesUnanswered(r: Record)
    requires Blank(r)
    ensures NextQuestion(AskTimes(r, |Asked|)).0 == Some(Closing(Recap(r.missingMeds.value, "", "")))
    ensures NextQuestion(AskTimes(r, |Asked|)).1.currentStep == Some(Completado)
    ensures NextQuestion(AskTimes(r, |Asked|)).1.city == "" && NextQuestion(AskTimes(r, |Asked|)).1.cellphone == ""
  {
    AsksInOrder(r, |Asked|);
    var u := AskTimes(r, |Asked|);
    assert !Paused(u);
    ClosesWhenAllAsked(u);
  }
}
