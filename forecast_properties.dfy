/**
 * What the simulation engine guarantees: bounds on every state value, the
 * shape of the table, the immune entry, the drug terms, and the fallback
 * for unknown diseases.
 */
module ForecastProperties {
  import opened Forecast

  /** The decay function never goes negative, as `np.exp` does not. */
  ghost predicate NonNegativeExp(exp: real -> real) {
    forall x :: exp(x) >= 0.0
  }

  /** The decay function is positive, as `np.exp` is. */
  ghost predicate PositiveExp(exp: real -> real) {
    forall x :: exp(x) > 0.0
  }

  /** A drug whose efficacy, toxicity and dose (after defaults) are non-negative. */
  predicate NonNegativeDrug(d: Drug) {
    Efficacy(d) >= 0.0 && Toxicity(d) >= 0.0 && Dose(d) >= 0.0
  }

  predicate AllNonNegative(drugs: seq<Drug>) {
    forall i :: 0 <= i < |drugs| ==> NonNegativeDrug(drugs[i])
  }

  // ---------------- Drug effect ----------------

  /** Non-negative coefficients and decay give a non-negative effect and toxicity. */
  lemma DrugEffectNonNegative(d: Drug, day: nat, exp: real -> real)
    requires NonNegativeDrug(d) && NonNegativeExp(exp)
    ensures DrugEffect(d, day, exp).0 >= 0.0 && DrugEffect(d, day, exp).1 >= 0.0
  {
    assert Concentration(Dose(d), DecayRate(d), day, exp) >= 0.0;
  }

  /** The day's totals are non-negative when every drug is. */
  lemma {:induction false} DailyTotalsNonNegative(drugs: seq<Drug>, day: nat, exp: real -> real)
    requires AllNonNegative(drugs) && NonNegativeExp(exp)
    ensures DailyTotals(drugs, day, exp).0 >= 0.0 && DailyTotals(drugs, day, exp).1 >= 0.0
    decreases |drugs|
  {
    if drugs != [] {
      var init := drugs[..|drugs| - 1];
      assert AllNonNegative(init) by {
        forall i | 0 <= i < |init|
          ensures NonNegativeDrug(init[i])
        {
          assert init[i] == drugs[i];
        }
      }
      DailyTotalsNonNegative(init, day, exp);
      DrugEffectNonNegative(drugs[|drugs| - 1], day, exp);
    }
  }

  /** Drugs whose toxicity is 0 add up to no toxicity, whatever their dose and decay. */
  lemma {:induction false} DailyTotalsNonToxic(drugs: seq<Drug>, day: nat, exp: real -> real)
    requires forall i :: 0 <= i < |drugs| ==> Toxicity(drugs[i]) == 0.0
    ensures DailyTotals(drugs, day, exp).1 == 0.0
    decreases |drugs|
  {
    if drugs != [] {
      var init := drugs[..|drugs| - 1];
      assert forall i :: 0 <= i < |init| ==> init[i] == drugs[i];
      DailyTotalsNonToxic(init, day, exp);
    }
  }

  /** With a single drug the day's totals are that drug's effect and toxicity. */
  lemma DailyTotalsSingle(d: Drug, day: nat, exp: real -> real)
    ensures DailyTotals([d], day, exp) == DrugEffect(d, day, exp)
  {
    assert [d][..0] == [];
  }

  /** A toxic drug with a positive dose and a positive decay has positive toxicity every day. */
  lemma ToxicDrugEffectPositive(d: Drug, day: nat, exp: real -> real)
    requires Toxicity(d) > 0.0 && Dose(d) > 0.0 && PositiveExp(exp)
    ensures DrugEffect(d, day, exp).1 > 0.0
  {
    assert Concentration(Dose(d), DecayRate(d), day, exp) > 0.0;
  }

  /** Drugs that may differ in name and toxicity but share efficacy, half-life and dose. */
  predicate DifferOnlyInToxicity(a: Drug, b: Drug) {
    a.efficacy == b.efficacy && a.halfLife == b.halfLife && a.dose == b.dose
  }

  /** Drugs that differ only in toxicity have the same effect every day. */
  lemma SameEffectDrugs(a: Drug, b: Drug, exp: real -> real)
    requires DifferOnlyInToxicity(a, b)
    ensures forall day: nat :: DailyTotals([a], day, exp).0 == DailyTotals([b], day, exp).0
  {
    assert Efficacy(a) == Efficacy(b) && Dose(a) == Dose(b) && DecayRate(a) == DecayRate(b);
    forall day: nat
      ensures DailyTotals([a], day, exp).0 == DailyTotals([b], day, exp).0
    {
      DailyTotalsSingle(a, day, exp);
      DailyTotalsSingle(b, day, exp);
    }
  }

  // ---------------- Organ update ----------------

  /** Toxicity never reaches the lungs or the immune entry: only liver, kidney and heart feel it. */
  lemma ToxicitySparesLungsAndImmune(h: Health, t1: real, t2: real, weights: map<Organ, real>, symptom: real)
    ensures UpdatedHealth(h, t1, weights, symptom).Get(Lungs) == UpdatedHealth(h, t2, weights, symptom).Get(Lungs)
    ensures UpdatedHealth(h, t1, weights, symptom).Get(Immune) == UpdatedHealth(h, t2, weights, symptom).Get(Immune)
  {
  }

  /** The immune entry is only ever clamped: no disease weights it and toxicity skips it. */
  lemma ImmuneOnlyClamped(h: Health, toxicity: real, name: string, symptom: real)
    ensures UpdatedHealth(h, toxicity, Lookup(name).organWeights, symptom).Get(Immune) == Clamp(h.Get(Immune))
  {
    assert Immune !in Lookup(name).organWeights;
  }

  /** Under an unknown disease the symptom severity has no effect on the organs. */
  lemma UnknownDiseaseNoStress(h: Health, toxicity: real, name: string, s1: real, s2: real)
    requires name !in DISEASE_PARAMS
    ensures UpdatedHealth(h, toxicity, Lookup(name).organWeights, s1)
         == UpdatedHealth(h, toxicity, Lookup(name).organWeights, s2)
  {
    assert Lookup(name).organWeights == map[];
  }

  /** A day without toxicity or stress leaves a table already on the scale exactly as it was. */
  lemma QuietDayKeepsTable(h: Health, symptom: real)
    requires TableInScale(h)
    ensures UpdatedHealth(h, 0.0, map[], symptom) == h
  {
    var r := UpdatedHealth(h, 0.0, map[], symptom);
    forall o
      ensures r.Get(o) == h.Get(o)
    {
      assert InScale(h.Get(o));
      ClampFixesScale(h.Get(o));
    }
    HealthExtensional(r, h);
  }

  /** Taking a non-negative loss off a value on the scale never raises it. */
  lemma ClampedLossNoGain(x: real, loss: real)
    requires InScale(x) && loss >= 0.0
    ensures Clamp(x - loss) <= x
  {
    ClampFixesScale(x - loss);
  }

  /**
   * With non-negative toxicity, symptom and weights, no organ of a table on the
   * scale ever improves in a day.
   */
  lemma UpdateNeverHeals(h: Health, toxicity: real, weights: map<Organ, real>, symptom: real)
    requires TableInScale(h)
    requires toxicity >= 0.0 && symptom >= 0.0
    requires forall o :: o in weights ==> weights[o] >= 0.0
    ensures forall o :: UpdatedHealth(h, toxicity, weights, symptom).Get(o) <= h.Get(o)
  {
    var r := UpdatedHealth(h, toxicity, weights, symptom);
    forall o
      ensures r.Get(o) <= h.Get(o)
    {
      var stress := DiseaseStress(o, weights, symptom);
      assert stress >= 0.0 by {
        if o in weights {
          assert symptom * weights[o] >= 0.0;
        }
      }
      var loss := ToxicityLoss(o, toxicity);
      assert loss >= 0.0;
      assert InScale(h.Get(o));
      ClampedLossNoGain(h.Get(o), loss + stress);
      assert r.Get(o) == Clamp(h.Get(o) - (loss + stress));
    }
  }

  // ---------------- Disease state ----------------

  /** The new state does not depend on the incoming symptom severity: it is recomputed. */
  lemma SymptomArgumentIgnored(
    viral: real, s1: real, s2: real, drugEffect: real, immuneFactor: real, strength: real,
    viralNoise: real, symptomNoise: real)
    ensures UpdateDiseaseState(viral, s1, drugEffect, immuneFactor, strength, viralNoise, symptomNoise)
         == UpdateDiseaseState(viral, s2, drugEffect, immuneFactor, strength, viralNoise, symptomNoise)
  {
  }

  /**
   * A cleared infection stays cleared while the drug effect and immune factor
   * are non-negative and the viral noise is not positive.
   */
  lemma ClearedStaysCleared(
    symptom: real, drugEffect: real, immuneFactor: real, strength: real,
    viralNoise: real, symptomNoise: real)
    requires drugEffect >= 0.0 && immuneFactor >= 0.0 && viralNoise <= 0.0
    ensures UpdateDiseaseState(0.0, symptom, drugEffect, immuneFactor, strength, viralNoise, symptomNoise).0 == 0.0
  {
    ClampFixesScale(0.0 - drugEffect * 4.5 - immuneFactor * 2.0 + viralNoise);
  }

  // ---------------- The run ----------------

  /** A run's initial state under an unknown disease: strength 1, viral load 50, symptoms 35. */
  lemma UnknownDiseaseStart(s: Setup)
    requires s.diseaseName !in DISEASE_PARAMS
    ensures Lookup(s.diseaseName) == FALLBACK
    ensures InitialState(s).viral == 50.0 && InitialState(s).symptom == 35.0
  {
  }

  /** Row `i` of the first `n` days is day `i`'s record, taken after day `i`. */
  lemma {:induction false} RowAt(s: Setup, n: nat, i: nat)
    requires 2 * n <= |s.noise|
    requires i < n
    ensures Rows(s, n)[i] == DayRecord(s, i, StateAfter(s, i + 1))
    ensures Rows(s, n)[i].day == i
    decreases n
  {
    if i < n - 1 {
      RowAt(s, n - 1, i);
    }
  }

  /** Running fewer days gives a prefix of the table: each day only appends. */
  lemma {:induction false} RowsPrefix(s: Setup, m: nat, n: nat)
    requires m <= n && 2 * n <= |s.noise|
    ensures Rows(s, m) == Rows(s, n)[..m]
    decreases n - m
  {
    if m < n {
      RowsPrefix(s, m, n - 1);
      var last := DayRecord(s, n - 1, StateAfter(s, n));
      assert Rows(s, n) == Rows(s, n - 1) + [last];
      assert (Rows(s, n - 1) + [last])[..m] == Rows(s, n - 1)[..m];
    }
  }

  /** Every state after day 0 has all organs, viral load and symptoms on the scale. */
  lemma StateInScale(s: Setup, n: nat)
    requires 2 * n <= |s.noise| && n >= 1
    ensures TableInScale(StateAfter(s, n).organs)
    ensures InScale(StateAfter(s, n).viral) && InScale(StateAfter(s, n).symptom)
  {
  }

  /** After the first day the immune entry is the clamped baseline, and stays so. */
  lemma {:induction false} ImmuneSettles(s: Setup, n: nat)
    requires 2 * n <= |s.noise| && n >= 1
    ensures StateAfter(s, n).organs.Get(Immune) == Clamp(BaselineImmune(s.patient))
    decreases n
  {
    var prev := StateAfter(s, n - 1);
    var totals := DailyTotals(s.drugs, n - 1, s.exp);
    ImmuneOnlyClamped(prev.organs, totals.1, s.diseaseName, prev.symptom);
    if n > 1 {
      ImmuneSettles(s, n - 1);
      ClampFixesScale(Clamp(BaselineImmune(s.patient)));
    }
  }

  /** Under an unknown disease the lungs are never touched: they stay at 100. */
  lemma {:induction false} UnknownDiseaseSparesLungs(s: Setup, n: nat)
    requires 2 * n <= |s.noise|
    requires s.diseaseName !in DISEASE_PARAMS
    ensures StateAfter(s, n).organs.Get(Lungs) == 100.0
    decreases n
  {
    if n > 0 {
      UnknownDiseaseSparesLungs(s, n - 1);
      ClampFixesScale(100.0);
    }
  }

  /** Two states with the same viral load, symptoms and immune entry; the other organs may differ. */
  predicate SameCourse(a: SimState, b: SimState) {
    a.viral == b.viral && a.symptom == b.symptom && a.organs.Get(Immune) == b.organs.Get(Immune)
  }

  /**
   * Toxicity does not reach the disease: two runs of the same patient, disease
   * and draws whose drugs add up to the same daily effect have the same viral
   * load, symptoms and immune entry on every day, whatever their toxicities.
   */
  lemma {:induction false} SameEffectSameCourse(s1: Setup, s2: Setup, n: nat)
    requires s1.patient == s2.patient && s1.diseaseName == s2.diseaseName
    requires s1.exp == s2.exp && s1.noise == s2.noise
    requires 2 * n <= |s1.noise|
    requires forall day: nat :: DailyTotals(s1.drugs, day, s1.exp).0 == DailyTotals(s2.drugs, day, s2.exp).0
    ensures SameCourse(StateAfter(s1, n), StateAfter(s2, n))
    decreases n
  {
    if n == 0 {
      assert InitialState(s1) == InitialState(s2);
    } else {
      SameEffectSameCourse(s1, s2, n - 1);
      SameEffectSameDay(s1, s2, n - 1);
    }
  }

  /** One day of SameEffectSameCourse. */
  lemma SameEffectSameDay(s1: Setup, s2: Setup, day: nat)
    requires s1.patient == s2.patient && s1.diseaseName == s2.diseaseName
    requires s1.exp == s2.exp && s1.noise == s2.noise
    requires 2 * day + 2 <= |s1.noise|
    requires DailyTotals(s1.drugs, day, s1.exp).0 == DailyTotals(s2.drugs, day, s2.exp).0
    requires SameCourse(StateAfter(s1, day), StateAfter(s2, day))
    ensures SameCourse(StateAfter(s1, day + 1), StateAfter(s2, day + 1))
  {
    var st1, st2 := StateAfter(s1, day), StateAfter(s2, day);
    ImmuneOnlyClamped(st1.organs, DailyTotals(s1.drugs, day, s1.exp).1, s1.diseaseName, st1.symptom);
    ImmuneOnlyClamped(st2.organs, DailyTotals(s2.drugs, day, s2.exp).1, s2.diseaseName, st2.symptom);
    assert StateAfter(s1, day + 1) == Advance(s1, st1, day);
    assert StateAfter(s2, day + 1) == Advance(s2, st2, day);
  }

  /** Under an unknown disease, drugs without toxicity leave heart, liver, kidney and lungs at 100. */
  lemma {:induction false} NonToxicKeepsOrgans(s: Setup, n: nat)
    requires 2 * n <= |s.noise|
    requires s.diseaseName !in DISEASE_PARAMS
    requires forall k :: 0 <= k < |s.drugs| ==> Toxicity(s.drugs[k]) == 0.0
    ensures forall o :: o != Immune ==> StateAfter(s, n).organs.Get(o) == 100.0
    decreases n
  {
    if n > 0 {
      NonToxicKeepsOrgans(s, n - 1);
      var prev := StateAfter(s, n - 1);
      DailyTotalsNonToxic(s.drugs, n - 1, s.exp);
      ClampFixesScale(100.0);
      forall o | o != Immune
        ensures UpdatedHealth(prev.organs, 0.0, map[], prev.symptom).Get(o) == 100.0
      {
        assert ToxicityLoss(o, 0.0) == 0.0;
        assert UpdatedHealth(prev.organs, 0.0, map[], prev.symptom).Get(o)
            == UpdatedEntry(prev.organs, o, 0.0, map[], prev.symptom);
      }
    }
  }

  /** The run has one row per day `0..days`, in ascending order (none for negative `days`). */
  lemma SimulateDays(s: Setup, days: int)
    requires NoiseDraws(days) <= |s.noise|
    ensures days >= 0 ==> |Simulate(s, days)| == days + 1
    ensures days < 0 ==> Simulate(s, days) == []
    ensures forall i :: 0 <= i < |Simulate(s, days)| ==> Simulate(s, days)[i].day == i
  {
    var n := RowCount(days);
    forall i | 0 <= i < n
      ensures Rows(s, n)[i].day == i
    {
      RowAt(s, n, i);
    }
  }

  /** A record whose state values all lie on the scale, the average included. */
  predicate RecordInScale(r: Record) {
    InScale(r.viralLoad) && InScale(r.symptomSeverity) && InScale(r.immuneStrength)
    && InScale(r.heart) && InScale(r.liver) && InScale(r.kidney) && InScale(r.lungs)
    && InScale(r.avgOrganHealth)
  }

  /** The record of a day is on the scale, and its average is the mean of the four non-immune organs. */
  lemma RowInScale(s: Setup, n: nat, i: nat)
    requires 2 * n <= |s.noise| && i < n
    ensures RecordInScale(Rows(s, n)[i])
    ensures Rows(s, n)[i].avgOrganHealth * 4.0
         == Rows(s, n)[i].heart + Rows(s, n)[i].liver + Rows(s, n)[i].kidney + Rows(s, n)[i].lungs
  {
    RowAt(s, n, i);
    StateInScale(s, i + 1);
  }

  /**
   * Every record of a run has viral load, symptoms, every organ and the
   * average organ health in [0,100], and the average is the mean of the four
   * organs other than the immune entry.
   */
  lemma SimulateBounded(s: Setup, days: int)
    requires NoiseDraws(days) <= |s.noise|
    ensures forall r :: r in Simulate(s, days) ==> RecordInScale(r)
    ensures forall r :: r in Simulate(s, days) ==>
      r.avgOrganHealth * 4.0 == r.heart + r.liver + r.kidney + r.lungs
  {
    var n := RowCount(days);
    forall i | 0 <= i < n
      ensures RecordInScale(Rows(s, n)[i])
      ensures Rows(s, n)[i].avgOrganHealth * 4.0
           == Rows(s, n)[i].heart + Rows(s, n)[i].liver + Rows(s, n)[i].kidney + Rows(s, n)[i].lungs
    {
      RowInScale(s, n, i);
    }
  }

  /** The record of a day reports the clamped baseline as its immune strength. */
  lemma RowImmune(s: Setup, n: nat, i: nat)
    requires 2 * n <= |s.noise| && i < n
    ensures Rows(s, n)[i].immuneStrength == Clamp(BaselineImmune(s.patient))
  {
    RowAt(s, n, i);
    ImmuneSettles(s, i + 1);
  }

  /**
   * Every record's immune strength is the patient's baseline clamped to
   * [0,100]; a baseline already on the scale is reported unchanged.
   */
  lemma SimulateImmune(s: Setup, days: int)
    requires NoiseDraws(days) <= |s.noise|
    ensures forall r :: r in Simulate(s, days) ==> r.immuneStrength == Clamp(BaselineImmune(s.patient))
    ensures InScale(BaselineImmune(s.patient)) ==>
      forall r :: r in Simulate(s, days) ==> r.immuneStrength == BaselineImmune(s.patient)
  {
    var n := RowCount(days);
    forall i | 0 <= i < n
      ensures Rows(s, n)[i].immuneStrength == Clamp(BaselineImmune(s.patient))
    {
      RowImmune(s, n, i);
    }
    ClampFixesScale(BaselineImmune(s.patient));
  }

  /** The record of a day carries that day's drug totals. */
  lemma RowDrugTerms(s: Setup, n: nat, i: nat)
    requires 2 * n <= |s.noise| && i < n
    ensures Rows(s, n)[i].drugEffectTotal == DailyTotals(s.drugs, i, s.exp).0
    ensures Rows(s, n)[i].drugToxicity == DailyTotals(s.drugs, i, s.exp).1
  {
    RowAt(s, n, i);
  }

  /** Without drugs, every record has zero drug effect and zero toxicity. */
  lemma SimulateWithoutDrugs(s: Setup, days: int)
    requires NoiseDraws(days) <= |s.noise|
    requires s.drugs == []
    ensures forall r :: r in Simulate(s, days) ==> r.drugEffectTotal == 0.0 && r.drugToxicity == 0.0
  {
    var n := RowCount(days);
    forall i | 0 <= i < n
      ensures Rows(s, n)[i].drugEffectTotal == 0.0 && Rows(s, n)[i].drugToxicity == 0.0
    {
      RowDrugTerms(s, n, i);
    }
  }

  /** Non-negative drugs and decay give non-negative drug terms in every record. */
  lemma SimulateDrugTermsNonNegative(s: Setup, days: int)
    requires NoiseDraws(days) <= |s.noise|
    requires AllNonNegative(s.drugs) && NonNegativeExp(s.exp)
    ensures forall r :: r in Simulate(s, days) ==> r.drugEffectTotal >= 0.0 && r.drugToxicity >= 0.0
  {
    var n := RowCount(days);
    forall i | 0 <= i < n
      ensures Rows(s, n)[i].drugEffectTotal >= 0.0 && Rows(s, n)[i].drugToxicity >= 0.0
    {
      RowDrugTerms(s, n, i);
      DailyTotalsNonNegative(s.drugs, i, s.exp);
    }
  }

  /** Under an unknown disease the record of a day reports the lungs at 100. */
  lemma RowUnknownDiseaseLungs(s: Setup, n: nat, i: nat)
    requires 2 * n <= |s.noise| && i < n
    requires s.diseaseName !in DISEASE_PARAMS
    ensures Rows(s, n)[i].lungs == 100.0
  {
    RowAt(s, n, i);
    UnknownDiseaseSparesLungs(s, i + 1);
  }

  /** Under an unknown disease every record reports the lungs at 100. */
  lemma SimulateUnknownDiseaseLungs(s: Setup, days: int)
    requires NoiseDraws(days) <= |s.noise|
    requires s.diseaseName !in DISEASE_PARAMS
    ensures forall r :: r in Simulate(s, days) ==> r.lungs == 100.0
  {
    var n := RowCount(days);
    forall i | 0 <= i < n
      ensures Rows(s, n)[i].lungs == 100.0
    {
      RowUnknownDiseaseLungs(s, n, i);
    }
  }
}
