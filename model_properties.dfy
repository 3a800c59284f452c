/**
 * What the drug ranking guarantees: when it fails, how many entries it
 * returns, that each entry comes from its own drug's isolated run and is on
 * the scale, that the order is the stable best-first order, and that on
 * equal draws a drug without toxicity outranks an otherwise identical toxic one.
 */
module RankingProperties {
  import opened Wrappers
  import opened Forecast
  import opened ForecastProperties
  import opened Ranking

  /** "Generic" is not a known disease: its runs use strength 1 and stress no organ. */
  lemma GenericIsFallback()
    ensures GENERIC !in DISEASE_PARAMS
    ensures Lookup(GENERIC) == FALLBACK
  {
    assert GENERIC[0] == 'G';
    assert DISEASE_PARAMS.Keys == {"Influenza", "Malaria", "Common Cold", "COVID-19", "Dengue", "Synthetic Pathogen"};
  }

  /** Entry `i` comes from drug `i` and the final record of drug `i`'s own run. */
  lemma {:induction false} EntriesAt(q: Request, k: nat, i: nat)
    requires EnoughDraws(q) && k <= |q.drugs| && q.reference != []
    requires i < k
    ensures Entries(q, k)[i] == EntryOf(q.drugs[i], FinalRecord(q, i))
    decreases k
  {
    if i < k - 1 {
      EntriesAt(q, k - 1, i);
    }
  }

  /**
   * The outcome's shape: an error exactly when there are drugs but no
   * reference rows; no drugs give an empty ranking with an empty explanation;
   * otherwise one entry per drug and the fixed explanation.
   */
  lemma RankOutcome(q: Request)
    requires EnoughDraws(q)
    ensures Rank(q).Err? <==> q.drugs != [] && q.reference == []
    ensures q.drugs == [] ==> Rank(q) == Ok(Ranked([], map[]))
    ensures Rank(q).Ok? ==> |Rank(q).value.entries| == |q.drugs|
    ensures Rank(q).Ok? && q.drugs != [] ==> Rank(q).value.explainability == EXPLAINABILITY
  {
    if q.drugs != [] && q.reference != [] {
      var entries := Entries(q, |q.drugs|);
      assert |multiset(SortByScore(entries))| == |multiset(entries)|;
    }
  }

  /**
   * The ranking reorders the entries, best score first, keeping drugs with
   * equal scores in input order; so its first entry scores at least as well as
   * every drug.
   */
  lemma RankIsStableSort(q: Request)
    requires EnoughDraws(q) && q.drugs != [] && q.reference != []
    ensures Rank(q).Ok?
    ensures multiset(Rank(q).value.entries) == multiset(Entries(q, |q.drugs|))
    ensures Descending(Rank(q).value.entries)
    ensures forall x :: WithScore(Rank(q).value.entries, x) == WithScore(Entries(q, |q.drugs|), x)
    ensures forall i :: 0 <= i < |q.drugs| ==> Rank(q).value.entries[0].score >= Entries(q, |q.drugs|)[i].score
  {
    var entries := Entries(q, |q.drugs|);
    var ranked := Rank(q).value.entries;
    forall x
      ensures WithScore(ranked, x) == WithScore(entries, x)
    {
      SortStable(entries, x);
    }
    forall i | 0 <= i < |q.drugs|
      ensures ranked[0].score >= entries[i].score
    {
      assert entries[i] in multiset(ranked);
      DescendingHead(ranked, entries[i]);
    }
  }

  /**
   * The final record of drug `i`'s run: on the scale, lungs untouched so the
   * average organ health is at least 25, and the toxicity of drug `i` alone on
   * the last day.
   */
  lemma FinalRecordFacts(q: Request, i: nat)
    requires EnoughDraws(q) && i < |q.drugs| && q.reference != []
    ensures RecordInScale(FinalRecord(q, i))
    ensures FinalRecord(q, i).lungs == 100.0
    ensures FinalRecord(q, i).avgOrganHealth >= 25.0
    ensures FinalRecord(q, i).drugToxicity == DrugEffect(q.drugs[i], |q.reference| - 1, q.exp).1
  {
    var s := IsolatedSetup(q, i);
    var n := |q.reference|;
    assert IsolatedRun(q, i) == Rows(s, n);
    GenericIsFallback();
    RowInScale(s, n, n - 1);
    RowUnknownDiseaseLungs(s, n, n - 1);
    RowDrugTerms(s, n, n - 1);
    DailyTotalsSingle(q.drugs[i], n - 1, q.exp);
  }

  /** An entry on the scale, at least 25 average organ health, with the score its own values give. */
  predicate EntryWellFormed(e: Entry) {
    InScale(e.finalViral) && InScale(e.finalSymptoms) && InScale(e.avgOrganHealth)
    && e.avgOrganHealth >= 25.0
    && e.score == Formula(e.finalViral, e.finalSymptoms, e.avgOrganHealth, e.drugToxicity)
  }

  /**
   * Entry `i` carries drug `i`'s name and last-day toxicity, is well formed,
   * and scores between 5 and 100 points less twice that toxicity.
   */
  lemma EntryFacts(q: Request, i: nat)
    requires EnoughDraws(q) && i < |q.drugs| && q.reference != []
    ensures Entries(q, |q.drugs|)[i].name == DrugName(q.drugs[i])
    ensures Entries(q, |q.drugs|)[i].drugToxicity == DrugEffect(q.drugs[i], |q.reference| - 1, q.exp).1
    ensures EntryWellFormed(Entries(q, |q.drugs|)[i])
    ensures 5.0 - Entries(q, |q.drugs|)[i].drugToxicity * 2.0 <= Entries(q, |q.drugs|)[i].score
         <= 100.0 - Entries(q, |q.drugs|)[i].drugToxicity * 2.0
  {
    EntriesAt(q, |q.drugs|, i);
    FinalRecordFacts(q, i);
  }

  /** Every ranked entry is the entry of one of the drugs. */
  lemma RankedFromEntries(q: Request, e: Entry)
    requires EnoughDraws(q) && q.drugs != [] && q.reference != []
    requires e in Rank(q).value.entries
    ensures exists i :: 0 <= i < |q.drugs| && Entries(q, |q.drugs|)[i] == e
  {
    assert e in multiset(Entries(q, |q.drugs|));
  }

  /**
   * Every ranked entry is well formed and belongs to one of the drugs: it has
   * that drug's name and last-day toxicity.
   */
  lemma RankedEntries(q: Request)
    requires EnoughDraws(q) && q.drugs != [] && q.reference != []
    ensures Rank(q).Ok?
    ensures forall e :: e in Rank(q).value.entries ==> EntryWellFormed(e)
    ensures forall e :: e in Rank(q).value.entries ==>
      exists i :: 0 <= i < |q.drugs| && e.name == DrugName(q.drugs[i])
                  && e.drugToxicity == DrugEffect(q.drugs[i], |q.reference| - 1, q.exp).1
  {
    var entries := Entries(q, |q.drugs|);
    var ranked := Rank(q).value.entries;
    forall e | e in ranked
      ensures EntryWellFormed(e)
      ensures exists i :: 0 <= i < |q.drugs| && e.name == DrugName(q.drugs[i])
                          && e.drugToxicity == DrugEffect(q.drugs[i], |q.reference| - 1, q.exp).1
    {
      RankedFromEntries(q, e);
      var i :| 0 <= i < |q.drugs| && entries[i] == e;
      EntryFacts(q, i);
    }
  }

  /** With non-negative drugs and decay, no drug scores above 100. */
  lemma RankedScoresAtMost100(q: Request)
    requires EnoughDraws(q) && q.drugs != [] && q.reference != []
    requires AllNonNegative(q.drugs) && NonNegativeExp(q.exp)
    ensures Rank(q).Ok?
    ensures forall e :: e in Rank(q).value.entries ==> e.score <= 100.0
  {
    var entries := Entries(q, |q.drugs|);
    var ranked := Rank(q).value.entries;
    forall e | e in ranked
      ensures e.score <= 100.0
    {
      RankedFromEntries(q, e);
      var i :| 0 <= i < |q.drugs| && entries[i] == e;
      EntryFacts(q, i);
      DrugEffectNonNegative(q.drugs[i], |q.reference| - 1, q.exp);
    }
  }

  /**
   * Each drug is simulated alone: its entry depends only on the drug, the
   * patient, the decay function, the number of reference rows and its own
   * block of draws, whatever the other drugs are.
   */
  lemma EntryIsolated(q1: Request, q2: Request, i: nat)
    requires EnoughDraws(q1) && i < |q1.drugs| && q1.reference != []
    requires EnoughDraws(q2) && i < |q2.drugs| && q2.reference != []
    requires q1.drugs[i] == q2.drugs[i] && q1.patient == q2.patient && q1.exp == q2.exp
    requires |q1.reference| == |q2.reference|
    requires IsolatedSetup(q1, i).noise == IsolatedSetup(q2, i).noise
    ensures Entries(q1, |q1.drugs|)[i] == Entries(q2, |q2.drugs|)[i]
  {
    assert IsolatedSetup(q1, i) == IsolatedSetup(q2, i);
    assert FinalRecord(q1, i) == FinalRecord(q2, i);
    EntriesAt(q1, |q1.drugs|, i);
    EntriesAt(q2, |q2.drugs|, i);
  }

  // ---------------- Toxicity and the order ----------------

  /** A drug without toxicity ends its run with every organ but the immune entry at 100 and no toxicity. */
  lemma NonToxicFinalRecord(q: Request, i: nat)
    requires EnoughDraws(q) && i < |q.drugs| && q.reference != []
    requires Toxicity(q.drugs[i]) == 0.0
    ensures FinalRecord(q, i).avgOrganHealth == 100.0
    ensures FinalRecord(q, i).drugToxicity == 0.0
  {
    var s := IsolatedSetup(q, i);
    var n := |q.reference|;
    assert IsolatedRun(q, i) == Rows(s, n);
    GenericIsFallback();
    NonToxicKeepsOrgans(s, n);
    RowAt(s, n, n - 1);
    DailyTotalsSingle(q.drugs[i], n - 1, q.exp);
  }

  /** A toxic drug with a positive dose and a positive decay ends its run with positive toxicity. */
  lemma ToxicFinalRecord(q: Request, j: nat)
    requires EnoughDraws(q) && j < |q.drugs| && q.reference != []
    requires Toxicity(q.drugs[j]) > 0.0 && Dose(q.drugs[j]) > 0.0 && PositiveExp(q.exp)
    ensures FinalRecord(q, j).drugToxicity > 0.0
  {
    FinalRecordFacts(q, j);
    ToxicDrugEffectPositive(q.drugs[j], |q.reference| - 1, q.exp);
  }

  /**
   * Two drugs that differ only in toxicity, run on the same draws, end with the
   * same viral load and symptoms: toxicity only reaches the organs.
   */
  lemma SameCourseFinalRecords(q: Request, i: nat, j: nat)
    requires EnoughDraws(q) && i < |q.drugs| && j < |q.drugs| && q.reference != []
    requires DifferOnlyInToxicity(q.drugs[i], q.drugs[j])
    requires IsolatedSetup(q, i).noise == IsolatedSetup(q, j).noise
    ensures FinalRecord(q, i).viralLoad == FinalRecord(q, j).viralLoad
    ensures FinalRecord(q, i).symptomSeverity == FinalRecord(q, j).symptomSeverity
  {
    var si, sj := IsolatedSetup(q, i), IsolatedSetup(q, j);
    var n := |q.reference|;
    SameEffectDrugs(q.drugs[i], q.drugs[j], q.exp);
    SameEffectSameCourse(si, sj, n);
    assert IsolatedRun(q, i) == Rows(si, n);
    assert IsolatedRun(q, j) == Rows(sj, n);
    RowAt(si, n, n - 1);
    RowAt(sj, n, n - 1);
  }

  /**
   * The ranking favours lower toxicity: of two drugs that differ only in
   * toxicity, run on the same draws, the one without toxicity scores strictly
   * higher than one with positive toxicity (positive dose and decay).
   */
  lemma NonToxicScoresHigher(q: Request, i: nat, j: nat)
    requires EnoughDraws(q) && i < |q.drugs| && j < |q.drugs| && q.reference != []
    requires DifferOnlyInToxicity(q.drugs[i], q.drugs[j])
    requires Toxicity(q.drugs[i]) == 0.0 < Toxicity(q.drugs[j])
    requires Dose(q.drugs[j]) > 0.0 && PositiveExp(q.exp)
    requires IsolatedSetup(q, i).noise == IsolatedSetup(q, j).noise
    ensures Entries(q, |q.drugs|)[i].score > Entries(q, |q.drugs|)[j].score
  {
    SameCourseFinalRecords(q, i, j);
    NonToxicFinalRecord(q, i);
    ToxicFinalRecord(q, j);
    FinalRecordFacts(q, j);
    EntriesAt(q, |q.drugs|, i);
    EntriesAt(q, |q.drugs|, j);
  }

  /** In the ranking, such a drug without toxicity is listed ahead of the toxic one. */
  lemma NonToxicRankedFirst(q: Request, i: nat, j: nat, a: nat, b: nat)
    requires EnoughDraws(q) && i < |q.drugs| && j < |q.drugs| && q.reference != []
    requires DifferOnlyInToxicity(q.drugs[i], q.drugs[j])
    requires Toxicity(q.drugs[i]) == 0.0 < Toxicity(q.drugs[j])
    requires Dose(q.drugs[j]) > 0.0 && PositiveExp(q.exp)
    requires IsolatedSetup(q, i).noise == IsolatedSetup(q, j).noise
    requires a < |Rank(q).value.entries| && Rank(q).value.entries[a] == Entries(q, |q.drugs|)[i]
    requires b < |Rank(q).value.entries| && Rank(q).value.entries[b] == Entries(q, |q.drugs|)[j]
    ensures a < b
  {
    NonToxicScoresHigher(q, i, j);
    RankIsStableSort(q);
  }
}
