/**
 * The simulation engine of the virtual patient: the disease table, the daily
 * drug effect, the organ table, the disease state, and the day-by-day run
 * that produces one record per day.
 *
 * Quantities are exact reals. The exponential of the drug decay and the
 * Gaussian noise are inputs: `exp` is any function on reals, and `noise`
 * holds the draws in the order the run consumes them, two per day (viral
 * load first, then symptom severity).
 */
module Forecast {
  import opened Wrappers

  // ---------------- Bounds ----------------

  /** A health, load or severity value inside the scale [0,100]. */
  predicate InScale(x: real) {
    0.0 <= x <= 100.0
  }

  /** Python's `max(a, b)`: `a` unless `b` is strictly larger. */
  function Max(a: real, b: real): real {
    if b > a then b else a
  }

  /** Python's `min(a, b)`: `a` unless `b` is strictly smaller. */
  function Min(a: real, b: real): real {
    if b < a then b else a
  }

  /** `max(0.0, min(100.0, x))`, the clamp the engine applies to every state value. */
  function Clamp(x: real): (r: real)
    ensures InScale(r)
  {
    Max(0.0, Min(100.0, x))
  }

  /** Clamping leaves a value on the scale alone and saturates one off it. */
  lemma ClampFixesScale(x: real)
    ensures InScale(x) ==> Clamp(x) == x
    ensures x < 0.0 ==> Clamp(x) == 0.0
    ensures x > 100.0 ==> Clamp(x) == 100.0
  {
  }

  // ---------------- Organs ----------------

  /** The keys of the organ table. */
  datatype Organ = Heart | Liver | Kidney | Lungs | Immune

  /** The order in which the organ table's keys are created, and so visited. */
  const TABLE_ORDER: seq<Organ> := [Heart, Liver, Kidney, Lungs, Immune]

  lemma InTableOrder(o: Organ)
    ensures o in TABLE_ORDER
  {
    match o
    case Heart => assert TABLE_ORDER[0] == Heart;
    case Liver => assert TABLE_ORDER[1] == Liver;
    case Kidney => assert TABLE_ORDER[2] == Kidney;
    case Lungs => assert TABLE_ORDER[3] == Lungs;
    case Immune => assert TABLE_ORDER[4] == Immune;
  }

  /**
   * The organ table: a dictionary whose keys are always exactly the five
   * organs, so one value per organ, read and written by key.
   */
  datatype Health = Health(heart: real, liver: real, kidney: real, lungs: real, immune: real) {

    /** `organs[o]` */
    function Get(o: Organ): real {
      match o
      case Heart => heart
      case Liver => liver
      case Kidney => kidney
      case Lungs => lungs
      case Immune => immune
    }

    /** The table after `organs[o] = v`: entry `o` is `v`, every other entry is unchanged. */
    function With(o: Organ, v: real): (r: Health)
      ensures r.Get(o) == v
      ensures forall p :: p != o ==> r.Get(p) == Get(p)
    {
      match o
      case Heart => this.(heart := v)
      case Liver => this.(liver := v)
      case Kidney => this.(kidney := v)
      case Lungs => this.(lungs := v)
      case Immune => this.(immune := v)
    }
  }

  /** Two tables that agree on every organ are the same table. */
  lemma HealthExtensional(a: Health, b: Health)
    requires forall o :: a.Get(o) == b.Get(o)
    ensures a == b
  {
    assert a.Get(Heart) == b.Get(Heart) && a.Get(Liver) == b.Get(Liver) && a.Get(Kidney) == b.Get(Kidney);
    assert a.Get(Lungs) == b.Get(Lungs) && a.Get(Immune) == b.Get(Immune);
  }

  /** Every entry of the table lies in [0,100]. */
  predicate TableInScale(h: Health) {
    InScale(h.heart) && InScale(h.liver) && InScale(h.kidney) && InScale(h.lungs) && InScale(h.immune)
  }

  /** The table a run starts from: every organ at 100 except the immune entry. */
  function InitialHealth(immune: real): (h: Health)
    ensures h.Get(Immune) == immune
    ensures forall o :: o != Immune ==> h.Get(o) == 100.0
  {
    Health(100.0, 100.0, 100.0, 100.0, immune)
  }

  // ---------------- Diseases ----------------

  /** A disease's progression multiplier and its stress coefficient per organ. */
  datatype DiseaseProfile = DiseaseProfile(strength: real, organWeights: map<Organ, real>)

  /** The fixed table of known diseases. */
  const DISEASE_PARAMS: map<string, DiseaseProfile> := map[
    "Influenza" := DiseaseProfile(0.8, map[Lungs := 0.3, Heart := 0.1, Liver := 0.1, Kidney := 0.05]),
    "Malaria" := DiseaseProfile(1.2, map[Liver := 0.4, Kidney := 0.2]),
    "Common Cold" := DiseaseProfile(0.5, map[Lungs := 0.2]),
    "COVID-19" := DiseaseProfile(1.3, map[Lungs := 0.5, Heart := 0.2]),
    "Dengue" := DiseaseProfile(1.1, map[Liver := 0.3, Kidney := 0.2]),
    "Synthetic Pathogen" := DiseaseProfile(1.5, map[Lungs := 0.2, Liver := 0.2, Heart := 0.2, Kidney := 0.2])
  ]

  /** What a name missing from the table resolves to: strength 1.0, no organ stress. */
  const FALLBACK: DiseaseProfile := DiseaseProfile(1.0, map[])

  /**
   * The profile of a disease name, with the fallback for unknown names. Every
   * profile has a positive strength, weights in [0,1], and no weight on the
   * immune entry.
   */
  function Lookup(name: string): (p: DiseaseProfile)
    ensures name !in DISEASE_PARAMS ==> p.strength == 1.0 && p.organWeights == map[]
    ensures p.strength > 0.0
    ensures Immune !in p.organWeights
    ensures forall o :: o in p.organWeights ==> 0.0 <= p.organWeights[o] <= 1.0
  {
    if name in DISEASE_PARAMS then DISEASE_PARAMS[name] else FALLBACK
  }

  // ---------------- Drugs ----------------

  /** A drug as a dictionary: each field may be absent, and then takes its default. */
  datatype Drug = Drug(
    name: Option<string>,
    efficacy: Option<real>,
    halfLife: Option<real>,
    toxicity: Option<real>,
    dose: Option<real>)

  function Efficacy(d: Drug): real {
    d.efficacy.GetOr(0.5)
  }

  function Toxicity(d: Drug): real {
    d.toxicity.GetOr(0.1)
  }

  function Dose(d: Drug): real {
    d.dose.GetOr(1.0)
  }

  /** The double closest to the natural logarithm of 2. */
  const LN2: real := 0.6931471805599453

  /** The half-life in use: the given one (12 if absent), floored at 0.1. */
  function HalfLife(d: Drug): (h: real)
    ensures h >= 0.1
    ensures h >= d.halfLife.GetOr(12.0)
    ensures d.halfLife.GetOr(12.0) >= 0.1 ==> h == d.halfLife.GetOr(12.0)
    ensures d.halfLife.GetOr(12.0) < 0.1 ==> h == 0.1
  {
    Max(0.1, d.halfLife.GetOr(12.0))
  }

  /**
   * The first-order decay constant ln 2 / half-life: positive and at most
   * 10 ln 2, which it reaches for every half-life floored to 0.1.
   */
  function DecayRate(d: Drug): (k: real)
    ensures 0.0 < k <= LN2 * 10.0
    ensures d.halfLife.GetOr(12.0) <= 0.1 ==> k == LN2 * 10.0
  {
    var h := HalfLife(d);
    assert LN2 / h <= LN2 / 0.1 by {
      assert LN2 / h * h == LN2;
    }
    LN2 / h
  }

  /** `dose * exp(-k * day)`: what is left of a dose after `day` steps of first-order decay at rate `k`. */
  function Concentration(dose: real, k: real, day: nat, exp: real -> real): real {
    dose * exp(-k * day as real)
  }

  /**
   * The day's (efficacy, toxicity) of one drug: both are its coefficient times
   * the same concentration `dose * exp(-k * day)`, so they stand in the ratio of
   * the coefficients, and a drug with toxicity 0 contributes no toxicity.
   */
  function DrugEffect(d: Drug, day: nat, exp: real -> real): (r: (real, real))
    ensures Toxicity(d) == 0.0 ==> r.1 == 0.0
    ensures Efficacy(d) == 0.0 ==> r.0 == 0.0
    ensures Toxicity(d) * r.0 == Efficacy(d) * r.1
  {
    var concentration := Concentration(Dose(d), DecayRate(d), day, exp);
    (Efficacy(d) * concentration, Toxicity(d) * concentration)
  }

  /** The day's summed (efficacy, toxicity) over a list of drugs. */
  function DailyTotals(drugs: seq<Drug>, day: nat, exp: real -> real): (real, real)
  {
    if drugs == [] then (0.0, 0.0)
    else
      var sum := DailyTotals(drugs[..|drugs| - 1], day, exp);
      var last := DrugEffect(drugs[|drugs| - 1], day, exp);
      (sum.0 + last.0, sum.1 + last.1)
  }

  // ---------------- Organ update ----------------

  /** How much a day's drug toxicity takes off an organ: liver 1.2x, kidney 1.0x, heart 0.5x. */
  function ToxicityLoss(o: Organ, toxicity: real): real {
    match o
    case Liver => toxicity * 1.2
    case Kidney => toxicity * 1.0
    case Heart => toxicity * 0.5
    case _ => 0.0
  }

  /** How much disease stress takes off an organ: symptom * weight * 0.1, or nothing if unweighted. */
  function DiseaseStress(o: Organ, weights: map<Organ, real>, symptom: real): real {
    if o in weights then symptom * weights[o] * 0.1 else 0.0
  }

  /** One entry after the day's toxicity and disease stress, clamped to [0,100]. */
  function UpdatedEntry(h: Health, o: Organ, toxicity: real, weights: map<Organ, real>, symptom: real): real {
    Clamp(h.Get(o) - ToxicityLoss(o, toxicity) - DiseaseStress(o, weights, symptom))
  }

  /** The organ table after one day's toxicity and disease stress, every entry clamped to [0,100]. */
  function UpdatedHealth(h: Health, toxicity: real, weights: map<Organ, real>, symptom: real): (r: Health)
    ensures TableInScale(r)
  {
    Health(
      UpdatedEntry(h, Heart, toxicity, weights, symptom),
      UpdatedEntry(h, Liver, toxicity, weights, symptom),
      UpdatedEntry(h, Kidney, toxicity, weights, symptom),
      UpdatedEntry(h, Lungs, toxicity, weights, symptom),
      UpdatedEntry(h, Immune, toxicity, weights, symptom))
  }

  /** The three steps of the organ update compose to UpdatedHealth. */
  lemma UpdateSteps(
    start: Health, poisoned: Health, stressed: Health, clamped: Health,
    toxicity: real, weights: map<Organ, real>, symptom: real)
    requires forall o :: poisoned.Get(o) == start.Get(o) - ToxicityLoss(o, toxicity)
    requires forall o :: stressed.Get(o) == poisoned.Get(o) - DiseaseStress(o, weights, symptom)
    requires forall o :: clamped.Get(o) == Clamp(stressed.Get(o))
    ensures clamped == UpdatedHealth(start, toxicity, weights, symptom)
  {
    var expected := UpdatedHealth(start, toxicity, weights, symptom);
    forall o
      ensures clamped.Get(o) == expected.Get(o)
    {
      assert expected.Get(o) == UpdatedEntry(start, o, toxicity, weights, symptom);
    }
    HealthExtensional(clamped, expected);
  }

  /** The organ table of a run, updated in place once per day. */
  class OrganTable {
    var health: Health

    constructor (immune: real)
      ensures health == InitialHealth(immune)
    {
      health := Health(100.0, 100.0, 100.0, 100.0, immune);
    }

    /**
     * Subtracts the drug toxicity and the disease's organ stress, then clamps
     * every entry to [0,100].
     */
    method Update(drugToxicity: real, diseaseName: string, symptom: real)
      modifies this
      ensures health == UpdatedHealth(old(health), drugToxicity, Lookup(diseaseName).organWeights, symptom)
    {
      ApplyToxicity(drugToxicity);
      ghost var poisoned := health;
      var weights := Lookup(diseaseName).organWeights;
      ApplyStress(weights, symptom);
      ghost var stressed := health;
      ClampEntries();

      UpdateSteps(old(health), poisoned, stressed, health, drugToxicity, weights, symptom);
    }

    /** Drug toxicity: liver loses 1.2x, kidney 1.0x and heart 0.5x of it. */
    method ApplyToxicity(drugToxicity: real)
      modifies this
      ensures forall o :: health.Get(o) == old(health).Get(o) - ToxicityLoss(o, drugToxicity)
    {
      health := health.With(Liver, health.Get(Liver) - drugToxicity * 1.2);
      health := health.With(Kidney, health.Get(Kidney) - drugToxicity * 1.0);
      health := health.With(Heart, health.Get(Heart) - drugToxicity * 0.5);
    }

    /** The loop over the disease's weights: each weighted organ loses symptom * weight * 0.1. */
    method ApplyStress(weights: map<Organ, real>, symptom: real)
      modifies this
      ensures forall o :: health.Get(o) == old(health).Get(o) - DiseaseStress(o, weights, symptom)
    {
      var pending := weights.Keys;
      while pending != {}
        invariant pending <= weights.Keys
        invariant forall o ::
                    health.Get(o) == old(health).Get(o) - (if o in pending then 0.0 else DiseaseStress(o, weights, symptom))
        decreases pending
      {
        var organ :| organ in pending;
        health := health.With(organ, health.Get(organ) - symptom * weights[organ] * 0.1);
        pending := pending - {organ};
      }
    }

    /** The loop over the table's keys: every entry is clamped to [0,100]. */
    method ClampEntries()
      modifies this
      ensures forall o :: health.Get(o) == Clamp(old(health).Get(o))
    {
      for i := 0 to |TABLE_ORDER|
        invariant forall o ::
                    health.Get(o) == if o in TABLE_ORDER[..i] then Clamp(old(health).Get(o)) else old(health).Get(o)
      {
        var key := TABLE_ORDER[i];
        assert TABLE_ORDER[..i + 1] == TABLE_ORDER[..i] + [key];
        health := health.With(key, Clamp(health.Get(key)));
      }
      assert TABLE_ORDER[..|TABLE_ORDER|] == TABLE_ORDER;
      forall o
        ensures o in TABLE_ORDER
      {
        InTableOrder(o);
      }
    }
  }

  // ---------------- Disease state ----------------

  /**
   * One day's (viral load, symptom severity): viral load grows with the disease
   * strength, is suppressed by the drug effect and the immune factor, takes its
   * noise and is clamped; symptom severity is recomputed from the new viral
   * load and the drug effect, takes its noise and is clamped.
   */
  function UpdateDiseaseState(
    viral: real, symptom: real, drugEffect: real, immuneFactor: real, diseaseStrength: real,
    viralNoise: real, symptomNoise: real): (r: (real, real))
    ensures InScale(r.0) && InScale(r.1)
  {
    var grown := viral + (viral * 0.05 * diseaseStrength - drugEffect * 4.5 - immuneFactor * 2.0);
    var newViral := Clamp(grown + viralNoise);
    var blended := Clamp(newViral * 0.85 + drugEffect * 0.5);
    (newViral, Clamp(blended + symptomNoise))
  }

  // ---------------- The run ----------------

  /** A patient as a dictionary; only the baseline immune value enters the simulation. */
  datatype Patient = Patient(immune: Option<real>)

  function BaselineImmune(p: Patient): real {
    p.immune.GetOr(60.0)
  }

  /** One row of a run's table. */
  datatype Record = Record(
    day: nat,
    viralLoad: real,
    symptomSeverity: real,
    drugEffectTotal: real,
    drugToxicity: real,
    immuneStrength: real,
    heart: real,
    liver: real,
    kidney: real,
    lungs: real,
    avgOrganHealth: real)

  /** The inputs of one run, with the exponential and the noise draws it uses. */
  datatype Setup = Setup(patient: Patient, diseaseName: string, drugs: seq<Drug>, exp: real -> real, noise: seq<real>)

  /** What a run carries from one day to the next. */
  datatype SimState = SimState(organs: Health, viral: real, symptom: real)

  /** The number of days `range(days + 1)` visits. */
  function RowCount(days: int): nat {
    if days >= 0 then days + 1 else 0
  }

  /** The noise draws a run of `days` days consumes. */
  function NoiseDraws(days: int): nat {
    2 * RowCount(days)
  }

  /** The state before day 0: organs fresh, viral load 50 * strength, symptom 0.7 * viral load. */
  function InitialState(s: Setup): SimState {
    var viral := 50.0 * Lookup(s.diseaseName).strength;
    SimState(InitialHealth(BaselineImmune(s.patient)), viral, viral * 0.7)
  }

  /** One simulated day: drug totals, organ update, then disease update. */
  function Advance(s: Setup, st: SimState, day: nat): (next: SimState)
    requires 2 * day + 1 < |s.noise|
    ensures TableInScale(next.organs) && InScale(next.viral) && InScale(next.symptom)
  {
    var totals := DailyTotals(s.drugs, day, s.exp);
    var profile := Lookup(s.diseaseName);
    var organs := UpdatedHealth(st.organs, totals.1, profile.organWeights, st.symptom);
    var disease := UpdateDiseaseState(
      st.viral, st.symptom, totals.0, organs.Get(Immune) / 100.0, profile.strength,
      s.noise[2 * day], s.noise[2 * day + 1]);
    SimState(organs, disease.0, disease.1)
  }

  /** The state after the first `n` days. */
  function StateAfter(s: Setup, n: nat): SimState
    requires 2 * n <= |s.noise|
  {
    if n == 0 then InitialState(s) else Advance(s, StateAfter(s, n - 1), n - 1)
  }

  /** The record of `day`, taken from the state at the end of that day. */
  function DayRecord(s: Setup, day: nat, st: SimState): Record {
    var totals := DailyTotals(s.drugs, day, s.exp);
    var o := st.organs;
    Record(day, st.viral, st.symptom, totals.0, totals.1, o.Get(Immune),
           o.Get(Heart), o.Get(Liver), o.Get(Kidney), o.Get(Lungs),
           (o.Get(Heart) + o.Get(Liver) + o.Get(Kidney) + o.Get(Lungs)) / 4.0)
  }

  /** The records of the first `n` days. */
  function Rows(s: Setup, n: nat): (rows: seq<Record>)
    requires 2 * n <= |s.noise|
    ensures |rows| == n
  {
    if n == 0 then [] else Rows(s, n - 1) + [DayRecord(s, n - 1, StateAfter(s, n))]
  }

  /** The table of a run for `days` days: days 0 through `days`. */
  function Simulate(s: Setup, days: int): (rows: seq<Record>)
    requires NoiseDraws(days) <= |s.noise|
    ensures |rows| == RowCount(days)
  {
    Rows(s, RowCount(days))
  }

  /** Runs the simulation day by day, updating the organ table in place and appending one record per day. */
  method RunSimulation(
    patient: Patient, diseaseName: string, drugs: seq<Drug>, days: int,
    exp: real -> real, noise: seq<real>)
    returns (rows: seq<Record>)
    requires NoiseDraws(days) <= |noise|
    ensures rows == Simulate(Setup(patient, diseaseName, drugs, exp, noise), days)
  {
    var s := Setup(patient, diseaseName, drugs, exp, noise);
    var organs := new OrganTable(BaselineImmune(patient));
    var diseaseStrength := Lookup(diseaseName).strength;
    var viral := 50.0 * diseaseStrength;
    var symptom := viral * 0.7;
    rows := [];

    for day := 0 to RowCount(days)
      invariant SimState(organs.health, viral, symptom) == StateAfter(s, day)
      invariant rows == Rows(s, day)
    {
      var record;
      viral, symptom, record := SimulateDay(s, organs, diseaseStrength, day, viral, symptom);
      rows := rows + [record];
    }
  }

  /** One pass of the daily loop: drugs, organs, disease, then the day's record. */
  method SimulateDay(s: Setup, organs: OrganTable, diseaseStrength: real, day: nat, viral: real, symptom: real)
    returns (viral': real, symptom': real, record: Record)
    requires diseaseStrength == Lookup(s.diseaseName).strength
    requires 2 * day + 2 <= |s.noise|
    requires SimState(organs.health, viral, symptom) == StateAfter(s, day)
    modifies organs
    ensures SimState(organs.health, viral', symptom') == StateAfter(s, day + 1)
    ensures record == DayRecord(s, day, StateAfter(s, day + 1))
  {
    var totalEffect, totalToxicity := SumDrugEffects(s.drugs, day, s.exp);
    ghost var before := SimState(organs.health, viral, symptom);

    organs.Update(totalToxicity, s.diseaseName, symptom);
    var immuneFactor := organs.health.Get(Immune) / 100.0;
    var disease := UpdateDiseaseState(
      viral, symptom, totalEffect, immuneFactor, diseaseStrength, s.noise[2 * day], s.noise[2 * day + 1]);
    viral', symptom' := disease.0, disease.1;

    var h := organs.health;
    var avgOrganHealth := (h.Get(Heart) + h.Get(Liver) + h.Get(Kidney) + h.Get(Lungs)) / 4.0;
    record := Record(day, viral', symptom', totalEffect, totalToxicity, h.Get(Immune),
                     h.Get(Heart), h.Get(Liver), h.Get(Kidney), h.Get(Lungs), avgOrganHealth);
    StateStep(s, day, before, h, totalEffect, totalToxicity, immuneFactor, diseaseStrength, disease);
    assert record == DayRecord(s, day, SimState(h, viral', symptom'));
  }

  /** The inner loop of a day: sums every drug's efficacy and toxicity for that day. */
  method SumDrugEffects(drugs: seq<Drug>, day: nat, exp: real -> real) returns (totalEffect: real, totalToxicity: real)
    ensures (totalEffect, totalToxicity) == DailyTotals(drugs, day, exp)
  {
    totalEffect, totalToxicity := 0.0, 0.0;
    for j := 0 to |drugs|
      invariant (totalEffect, totalToxicity) == DailyTotals(drugs[..j], day, exp)
    {
      var effect := DrugEffect(drugs[j], day, exp);
      assert drugs[..j + 1][..j] == drugs[..j];
      totalEffect := totalEffect + effect.0;
      totalToxicity := totalToxicity + effect.1;
    }
    assert drugs[..|drugs|] == drugs;
  }

  /** One day of the run, in terms of the organ table and disease state the loop computes. */
  lemma StateStep(
    s: Setup, day: nat, before: SimState, organs: Health,
    effect: real, toxicity: real, immuneFactor: real, strength: real, disease: (real, real))
    requires 2 * day + 2 <= |s.noise|
    requires before == StateAfter(s, day)
    requires (effect, toxicity) == DailyTotals(s.drugs, day, s.exp)
    requires strength == Lookup(s.diseaseName).strength
    requires organs == UpdatedHealth(before.organs, toxicity, Lookup(s.diseaseName).organWeights, before.symptom)
    requires immuneFactor == organs.Get(Immune) / 100.0
    requires disease == UpdateDiseaseState(before.viral, before.symptom, effect, immuneFactor, strength,
                                           s.noise[2 * day], s.noise[2 * day + 1])
    ensures StateAfter(s, day + 1) == SimState(organs, disease.0, disease.1)
  {
  }

}
