/** The diagnosis shown on the result screen: a first-match-wins cascade of
    four rules over the strand state and the selected difficulties. */
module Diagnosis {
  import opened Answers

  /** The four canned diagnoses, listed in rule order. The headline and
      recommendation texts are presentation and are kept as tags. */
  datatype Diagnostico =
    | Hidratacao    // dryness and loss of shine: hydration and nutrition
    | Reconstrucao  // weakened strands: protein and keratin reconstruction
    | Alinhamento   // frizz: alignment and cuticle sealing
    | Manutencao    // good state: a maintenance schedule

  /** The rule cascade over the answers: the rule chosen fires, and no rule
      before it does. */
  function GetDiagnostico(a: QuizAnswers): (d: Diagnostico)
    ensures Fires(a, d)
    ensures forall e :: Rank(e) < Rank(d) ==> !Fires(a, e)
  {
    if a.estadoFios == Some(Ressecados) || Ressecamento in a.dificuldades then Hidratacao
    else if a.estadoFios == Some(Quebradicos) || Pontas in a.dificuldades then Reconstrucao
    else if Frizz in a.dificuldades then Alinhamento
    else Manutencao
  }

  /** Position of a diagnosis in the rule list (0 is tried first). */
  function Rank(d: Diagnostico): (n: nat)
  {
    match d
    case Hidratacao => 0
    case Reconstrucao => 1
    case Alinhamento => 2
    case Manutencao => 3
  }

  /** The condition of the rule that yields `d`, read on its own, without
      regard to the other rules; the last rule always fires. */
  predicate Fires(a: QuizAnswers, d: Diagnostico)
  {
    match d
    case Hidratacao => a.estadoFios == Some(Ressecados) || Ressecamento in a.dificuldades
    case Reconstrucao => a.estadoFios == Some(Quebradicos) || Pontas in a.dificuldades
    case Alinhamento => Frizz in a.dificuldades
    case Manutencao => true
  }

  /** First match wins: the result is the rule that fires and comes before
      every other rule that fires. */
  lemma FirstMatchWins(a: QuizAnswers, d: Diagnostico)
    ensures GetDiagnostico(a) == d <==>
      (Fires(a, d) && forall e :: Rank(e) < Rank(d) ==> !Fires(a, e))
  {
    // the universally quantified rules before `d` are named one by one
    match d
    case Hidratacao =>
    case Reconstrucao =>
      assert Rank(Hidratacao) < Rank(d);
    case Alinhamento =>
      assert Rank(Hidratacao) < Rank(d) && Rank(Reconstrucao) < Rank(d);
    case Manutencao =>
      assert Rank(Hidratacao) < Rank(d) && Rank(Reconstrucao) < Rank(d) && Rank(Alinhamento) < Rank(d);
  }

  /** Rule 1 short-circuits the others: dry strands or dryness among the
      difficulties give the hydration diagnosis whatever else was answered. */
  lemma DrynessWins(a: QuizAnswers)
    requires a.estadoFios == Some(Ressecados) || Ressecamento in a.dificuldades
    ensures GetDiagnostico(a) == Hidratacao
  {
  }

  /** The hydration diagnosis is given exactly when rule 1 fires. */
  lemma HydrationExactly(a: QuizAnswers)
    ensures GetDiagnostico(a) == Hidratacao <==>
      (a.estadoFios == Some(Ressecados) || Ressecamento in a.dificuldades)
  {
  }

  /** The reconstruction diagnosis is given exactly when rule 1 does not
      fire and brittle strands or split ends are reported. */
  lemma BreakageExactly(a: QuizAnswers)
    ensures GetDiagnostico(a) == Reconstrucao <==>
      (a.estadoFios != Some(Ressecados) && Ressecamento !in a.dificuldades
       && (a.estadoFios == Some(Quebradicos) || Pontas in a.dificuldades))
  {
  }

  /** The alignment diagnosis is given exactly when frizz is selected and
      neither of the two earlier rules fires. */
  lemma FrizzExactly(a: QuizAnswers)
    ensures GetDiagnostico(a) == Alinhamento <==>
      (a.estadoFios != Some(Ressecados) && a.estadoFios != Some(Quebradicos)
       && Ressecamento !in a.dificuldades && Pontas !in a.dificuldades
       && Frizz in a.dificuldades)
  {
  }

  /** The maintenance diagnosis is given exactly when none of dry strands,
      brittle strands, dryness, split ends and frizz applies. */
  lemma MaintenanceExactly(a: QuizAnswers)
    ensures GetDiagnostico(a) == Manutencao <==>
      (a.estadoFios != Some(Ressecados) && a.estadoFios != Some(Quebradicos)
       && Ressecamento !in a.dificuldades && Pontas !in a.dificuldades
       && Frizz !in a.dificuldades)
  {
  }

  /** Split ends win over frizz: rule 2 is tried before rule 3. */
  lemma BreakageBeforeFrizz(a: QuizAnswers)
    requires a.estadoFios == Some(Mistos)
    requires Pontas in a.dificuldades && Frizz in a.dificuldades
    requires Ressecamento !in a.dificuldades
    ensures GetDiagnostico(a) == Reconstrucao
  {
  }

  /** Scalp oiliness and chemical treatments are collected but never consulted. */
  lemma IgnoresOilinessAndChemistry(a: QuizAnswers, o: Option<Oleosidade>, q: Option<Quimica>)
    ensures GetDiagnostico(a.(oleosidade := o, quimica := q)) == GetDiagnostico(a)
  {
  }

  /** Only which difficulties are selected matters, not their order. */
  lemma IgnoresSelectionOrder(a: QuizAnswers, b: QuizAnswers)
    requires a.estadoFios == b.estadoFios
    requires forall x :: x in a.dificuldades <==> x in b.dificuldades
    ensures GetDiagnostico(a) == GetDiagnostico(b)
  {
  }

  /** Healthy strands and no difficulty give the maintenance diagnosis. */
  lemma HealthyAndNoDifficulty(a: QuizAnswers)
    requires a.estadoFios == Some(Saudaveis) && a.dificuldades == []
    ensures GetDiagnostico(a) == Manutencao
  {
  }
}
