# Digital twin: simulation engine and drug ranking

A model of the educational "digital twin" of a virtual patient. The
simulation engine (`models/forecast.py`) runs a disease forward day by day.
On each day it:

- sums the efficacy and toxicity of every drug, each decaying with its half-life;
- takes the toxicity and the disease's organ stress off the organ table, then clamps every entry to [0,100];
- grows or suppresses the viral load from the disease strength, the drug effect and the immune factor, adds noise, and derives the symptom severity;
- appends one record per day (day, viral load, symptoms, drug totals, immune strength, four organs, average organ health).

The ranking (`models/model.py`) runs each drug alone, under the unknown disease
"Generic", for `len(reference) - 1` days, so with as many records as the
reference table has rows. It scores the
final record of each run and returns the entries best-first, with a fixed
explanation.

Files:

- `wrappers.dfy`: `Option` (a dictionary key that may be absent) and `Result`.
- `forecast.dfy` (module `Forecast`): the disease table and its fallback, the drug effect, the organ table as a class updated in place, the disease state, and the run as a method. Each method is proved against a specification function (`UpdatedHealth`, with its per-organ parts `ToxicityLoss`, `DiseaseStress` and `Clamp`; `DailyTotals`; `StateAfter`; `Rows`; `Simulate`).
- `forecast_properties.dfy` (module `ForecastProperties`): what a run guarantees.
- `model.dfy` (module `Ranking`): the score, the entries, the stable descending sort and the ranking method. The method is proved against the function `Rank`.
- `model_properties.dfy` (module `RankingProperties`): what a ranking guarantees.

Quantities are exact reals. `np.exp` is a parameter `exp: real -> real`.
Properties that need it to be non-negative take that as a hypothesis. The
Gaussian draws are a parameter `noise: seq<real>`, consumed in the order the
program consumes them:

- two per simulated day, viral load first (index `2*day`), then symptom severity (`2*day + 1`);
- in the ranking, drug `i` consumes the `i`-th block of `2 * len(reference)` draws.

## Model

| member | source | states |
|---|---|---|
| Forecast.Clamp | models/forecast.py:40-42 | `max(0.0, min(100.0, x))` always lies in [0,100] |
| Forecast.ClampFixesScale | models/forecast.py:52 | clamping leaves a value in [0,100] unchanged and saturates values below 0 to 0 and above 100 to 100 |
| Forecast.Lookup | models/forecast.py:5-12 | the profile of a disease name; an unknown name gets strength 1.0 and no organ weights; every profile has positive strength, weights in [0,1] and no weight on the immune entry |
| Forecast.HalfLife | models/forecast.py:19 | the half-life in use is at least 0.1, at least the given one (12 if absent), equal to it when it is at least 0.1, and exactly 0.1 when it is below |
| Forecast.DecayRate | models/forecast.py:20 | `ln 2 / half_life` is positive and at most 10 ln 2, and exactly 10 ln 2 when the given half-life is at most 0.1 |
| Forecast.DrugEffect | models/forecast.py:15-24 | efficacy and toxicity share one concentration, so toxicity * effect == efficacy * tox; a zero coefficient gives a zero term |
| Forecast.Health.With | models/forecast.py:31-33 | assigning `organs[o]` changes entry `o` and no other |
| Forecast.InitialHealth | models/forecast.py:70-76 | a fresh table has every organ at 100 and the immune entry at the patient's value |
| Forecast.UpdatedHealth | models/forecast.py:26-44 | after a day's update every organ entry lies in [0,100] |
| Forecast.OrganTable.constructor | models/forecast.py:70-76 | the table starts as InitialHealth of the patient's immune value |
| Forecast.OrganTable.Update | models/forecast.py:26-44 | the in-place update leaves the table equal to UpdatedHealth of the old table, the toxicity and the disease's weights |
| Forecast.OrganTable.ApplyToxicity | models/forecast.py:31-33 | liver loses 1.2x, kidney 1.0x and heart 0.5x the toxicity; lungs and immune are unchanged |
| Forecast.OrganTable.ApplyStress | models/forecast.py:36-38 | every weighted organ loses symptom * weight * 0.1 and every other organ is unchanged, whatever order the loop visits the weights in |
| Forecast.OrganTable.ClampEntries | models/forecast.py:41-42 | every entry, immune included, is replaced by its clamp |
| Forecast.UpdateDiseaseState | models/forecast.py:46-58 | the new viral load and symptom severity lie in [0,100] |
| Forecast.Advance | models/forecast.py:84-100 | one day keeps every organ, the viral load and the symptoms in [0,100] |
| Forecast.Rows | models/forecast.py:105-117 | the first `n` days give exactly `n` records |
| Forecast.Simulate | models/forecast.py:84 | `range(days + 1)` gives `days + 1` records, none for negative `days` |
| Forecast.RunSimulation | models/forecast.py:61-119 | the day-by-day loop, with its table updated in place, returns exactly the rows of Simulate |
| Forecast.SimulateDay | models/forecast.py:85-117 | one loop pass moves the state from StateAfter(day) to StateAfter(day + 1) and appends that day's record |
| Forecast.SumDrugEffects | models/forecast.py:86-91 | the inner loop's sums equal DailyTotals over all drugs |
| ForecastProperties.DrugEffectNonNegative | models/forecast.py:21-24 | non-negative coefficients and a non-negative exponential give a non-negative effect and toxicity |
| ForecastProperties.ToxicDrugEffectPositive | models/forecast.py:21-23 | a drug with positive toxicity and dose, under a positive exponential, has positive toxicity every day |
| ForecastProperties.SameEffectDrugs | models/forecast.py:15-24 | drugs with the same efficacy, half-life and dose have the same daily effect, whatever their toxicity |
| ForecastProperties.DailyTotalsNonNegative | models/forecast.py:86-91 | the day's totals are non-negative when every drug is |
| ForecastProperties.DailyTotalsNonToxic | models/forecast.py:88-91 | drugs with toxicity 0 add no toxicity |
| ForecastProperties.DailyTotalsSingle | models/forecast.py:86-91 | with one drug the totals are that drug's effect and toxicity |
| ForecastProperties.ToxicitySparesLungsAndImmune | models/forecast.py:31-33 | the toxicity never changes the lungs or the immune entry |
| ForecastProperties.ImmuneOnlyClamped | models/forecast.py:26-44 | the update only clamps the immune entry, for every disease |
| ForecastProperties.UnknownDiseaseNoStress | models/forecast.py:36 | an unknown disease puts no stress on any organ, so the symptom argument does not matter |
| ForecastProperties.QuietDayKeepsTable | models/forecast.py:26-44 | no toxicity and no weights leave a table in [0,100] unchanged |
| ForecastProperties.ClampedLossNoGain | models/forecast.py:42 | clamping a non-negative loss never raises a value already in [0,100] |
| ForecastProperties.UpdateNeverHeals | models/forecast.py:26-44 | with non-negative toxicity, symptom and weights, no organ of a table in [0,100] improves in a day |
| ForecastProperties.SymptomArgumentIgnored | models/forecast.py:46-58 | the symptom passed in does not affect the result |
| ForecastProperties.ClearedStaysCleared | models/forecast.py:50-52 | a viral load of 0 stays 0 while the drug effect and immune factor are non-negative and the viral noise is not positive |
| ForecastProperties.UnknownDiseaseStart | models/forecast.py:78-80 | an unknown disease starts at viral load 50 and symptoms 35 |
| ForecastProperties.RowAt | models/forecast.py:84-117 | row `i` is day `i`'s record, taken from the state after day `i` |
| ForecastProperties.RowsPrefix | models/forecast.py:84-117 | a shorter run's table is a prefix of a longer run's |
| ForecastProperties.StateInScale | models/forecast.py:84-100 | after day 0 every organ, the viral load and the symptoms lie in [0,100] |
| ForecastProperties.ImmuneSettles | models/forecast.py:75 | from the first day on, the immune entry is the clamped baseline |
| ForecastProperties.UnknownDiseaseSparesLungs | models/forecast.py:36-38 | under an unknown disease the lungs stay at 100 |
| ForecastProperties.SameEffectSameCourse | models/forecast.py:84-100 | two runs with the same patient, disease and draws whose drugs have the same daily effect have the same viral load, symptoms and immune entry on every day: toxicity never reaches the disease |
| ForecastProperties.SameEffectSameDay | models/forecast.py:93-100 | one day of the run keeps that agreement |
| ForecastProperties.NonToxicKeepsOrgans | models/forecast.py:31-42 | under an unknown disease, drugs without toxicity leave heart, liver, kidney and lungs at 100 on every day |
| ForecastProperties.SimulateDays | models/forecast.py:84 | a run has `days + 1` rows numbered 0 to `days`, none for negative `days` |
| ForecastProperties.RowInScale | models/forecast.py:103-117 | a row is in [0,100] and its average is the mean of the four non-immune organs |
| ForecastProperties.SimulateBounded | models/forecast.py:103-117 | every record is in [0,100] and its average is the mean of heart, liver, kidney and lungs |
| ForecastProperties.RowImmune | models/forecast.py:111 | a row's immune strength is the clamped baseline |
| ForecastProperties.SimulateImmune | models/forecast.py:75 | every record reports the clamped baseline immune value, equal to the baseline when that is in [0,100] |
| ForecastProperties.RowDrugTerms | models/forecast.py:109-110 | a row carries that day's drug totals |
| ForecastProperties.SimulateWithoutDrugs | models/forecast.py:86-91 | without drugs every record has zero drug effect and toxicity |
| ForecastProperties.SimulateDrugTermsNonNegative | models/forecast.py:86-91 | non-negative drugs give non-negative drug terms in every record |
| ForecastProperties.RowUnknownDiseaseLungs | models/forecast.py:115 | under an unknown disease a row reports the lungs at 100 |
| ForecastProperties.SimulateUnknownDiseaseLungs | models/forecast.py:115 | under an unknown disease every record reports the lungs at 100 |
| Ranking.DrawsPerRun | models/model.py:22 | a run of `len(reference) - 1` days consumes `2 * len(reference)` draws |
| Ranking.Score | models/model.py:29-34 | with final values in [0,100] the score lies between `-2 * tox` and `100 - 2 * tox` |
| Ranking.ScoreMonotone | models/model.py:28-34 | lower viral load, lower symptoms, higher average organ health and lower toxicity never lower the score |
| Ranking.IsolatedSetup | models/model.py:18-23 | each drug's run has its own block of `2 * len(reference)` draws |
| Ranking.IsolatedRun | models/model.py:18-23 | each drug's run has as many records as the reference table |
| Ranking.Entries | models/model.py:16-43 | there is one entry per drug, in input order |
| Ranking.Insert | models/model.py:46 | inserting adds exactly the new entry to the multiset |
| Ranking.SortByScore | models/model.py:46 | the sort is a permutation with non-increasing scores |
| Ranking.InsertDescending | models/model.py:46 | insertion keeps a descending sequence descending |
| Ranking.InsertWithScore | models/model.py:46 | an inserted entry goes ahead of the entries it ties with |
| Ranking.SortStable | models/model.py:46 | the sort keeps equal-score entries in input order, as Python's stable `sorted` does |
| Ranking.DescendingStableEqual | models/model.py:46 | two descending sequences with the same entries per score, in the same order, are equal |
| Ranking.StableSortUnique | models/model.py:46 | any descending, stable reordering is exactly SortByScore's result |
| Ranking.RankTreatments | models/model.py:3-54 | the loop over drugs with one isolated run each returns exactly Rank, including the error when a run has no final record |
| RankingProperties.GenericIsFallback | models/model.py:20 | "Generic" is not in the disease table, so it resolves to the fallback |
| RankingProperties.EntriesAt | models/model.py:16-43 | entry `i` is drug `i`'s entry built from the final record of its own run |
| RankingProperties.RankOutcome | models/model.py:11-12 | the outcome is an error exactly when there are drugs but no reference rows; no drugs give `([], {})`; otherwise one entry per drug and the fixed explanation |
| RankingProperties.RankIsStableSort | models/model.py:45-46 | the ranking is a permutation of the entries, descending, stable, and its first entry scores at least as well as every drug |
| RankingProperties.FinalRecordFacts | models/model.py:18-25 | a drug's final record is in [0,100], has lungs at 100 and average organ health of at least 25, and carries that drug's last-day toxicity |
| RankingProperties.EntryFacts | models/model.py:29-43 | entry `i` carries drug `i`'s name (or "drug"), its last-day toxicity, values in [0,100] and a score between `5 - 2 * tox` and `100 - 2 * tox` |
| RankingProperties.RankedFromEntries | models/model.py:46 | every ranked entry is the entry of one of the drugs |
| RankingProperties.RankedEntries | models/model.py:36-46 | every ranked entry is well formed and carries the name and last-day toxicity of one of the drugs |
| RankingProperties.RankedScoresAtMost100 | models/model.py:29-34 | with non-negative drugs and decay, no score exceeds 100 |
| RankingProperties.EntryIsolated | models/model.py:16-23 | a drug's entry depends only on that drug, the patient, the decay, the reference length and its own draws |
| RankingProperties.NonToxicFinalRecord | models/model.py:18-25 | a drug without toxicity ends its run with average organ health 100 and toxicity 0 |
| RankingProperties.ToxicFinalRecord | models/model.py:18-25 | a toxic drug with a positive dose ends its run with positive toxicity, under a positive exponential |
| RankingProperties.SameCourseFinalRecords | models/model.py:18-25 | two drugs that differ only in toxicity, run on the same draws, end with the same viral load and symptoms |
| RankingProperties.NonToxicScoresHigher | models/model.py:28-34 | of two such drugs, the one without toxicity scores strictly higher than the one with positive toxicity |
| RankingProperties.NonToxicRankedFirst | models/model.py:45-46 | in the ranking, such a drug without toxicity is listed ahead of the toxic one |

## Left out

- `app.py` and `utils/helpers.py` are not part of this model. They hold the Streamlit interface, plotting and CSV export.
- Random numbers: `np.random.normal(0, 1.0)` is replaced by the `noise` sequence. The model does not capture the normal distribution or the global generator state. Runs require enough draws: two per day, and one block of `2 * len(reference)` per drug in the ranking.
- `np.exp` and `np.log`: `exp` is a parameter. `ln 2` is the constant 0.6931471805599453, the double `np.log(2)` returns. The identity that the concentration halves every half-life is not modelled.
- Floating point: every quantity is an exact real. Rounding, NaN and infinities are not modelled.
- pandas: a DataFrame is a sequence of `Record` values, and `df.iloc[-1]` is the last element.
- The `dt` argument and the default `days = 21` of `run_simulation` are not modelled. The first is unused and the second is a calling convenience. Patient fields other than `immune` are not modelled, because the simulation never reads them.
- Units: the half-life is used directly against a day count, as the code does, although the interface describes it in hours.
- Organ table: the dictionary always has exactly the five organ keys, so it is a record read and written by key. A disease weight on an organ outside the table would raise `KeyError` in Python. That cannot happen with the fixed disease table, and the model does not represent it.
- Ranking failure: with drugs and an empty reference table, `df.iloc[-1]` raises `IndexError`. The model returns `Err(NoFinalRecord)` instead.
- Sorting: Python's `sorted(..., reverse=True)` is stable. It is modelled by an insertion sort, and `StableSortUnique` proves that the insertion sort's result is the only stable descending order.
- Forecast.Concentration (models/forecast.py:21): the shared concentration `dose * exp(-k * day)` has no contract of its own. Its properties are stated by `DrugEffect`, `DrugEffectNonNegative` and `ToxicDrugEffectPositive`.
- Forecast.DailyTotals (models/forecast.py:86-91): the day's summed drug totals have no contract of its own. `SumDrugEffects` is proved equal to it, and `DailyTotalsNonNegative`, `DailyTotalsNonToxic`, `DailyTotalsSingle` and `SameEffectDrugs` state its properties.
- Forecast.ToxicityLoss (models/forecast.py:31-33): the per-organ toxicity loss has no contract of its own. `OrganTable.ApplyToxicity`, `UpdatedHealth` and `ToxicitySparesLungsAndImmune` state its properties.
- Forecast.DiseaseStress (models/forecast.py:36-38): the per-organ disease stress has no contract of its own. `OrganTable.ApplyStress`, `UnknownDiseaseNoStress` and `UpdateNeverHeals` state its properties.
- Forecast.BaselineImmune (models/forecast.py:75): the patient's immune value, 60 if absent, has no contract of its own. `InitialHealth`, `ImmuneSettles` and `SimulateImmune` state how a run uses it.
- Forecast.InitialState (models/forecast.py:69-80): the state before day 0 has no contract of its own. `UnknownDiseaseStart` and `InitialHealth` state its values, and `RunSimulation` starts from it.
- Forecast.StateAfter (models/forecast.py:84-100): the state after `n` days has no contract of its own. `SimulateDay` and `RunSimulation` are proved against it, and `StateInScale`, `ImmuneSettles`, `UnknownDiseaseSparesLungs`, `SameEffectSameCourse` and `NonToxicKeepsOrgans` state its properties.
- Forecast.DayRecord (models/forecast.py:103-117): one day's record has no contract of its own. `RowAt`, `RowInScale`, `RowImmune`, `RowDrugTerms` and `RowUnknownDiseaseLungs` state its contents.
- Ranking.Formula (models/model.py:29-34): the score formula has no contract of its own. `Score` and `ScoreMonotone` state its range and monotonicity, and `EntryFacts` ties every entry's score to it.
- Ranking.DrugName (models/model.py:37): the drug's name, "drug" if absent, has no contract of its own. `EntryFacts` and `RankedEntries` state that entries carry it.
- Ranking.EntryOf (models/model.py:36-43): building an entry from a final record has no contract of its own. `EntriesAt` and `EntryFacts` state its contents.
- Ranking.FinalRecord (models/model.py:25): the last record of a drug's run has no contract of its own. `FinalRecordFacts`, `NonToxicFinalRecord`, `ToxicFinalRecord` and `SameCourseFinalRecords` state its properties.
- Ranking.Rank: the specification function of the ranking has no contract of its own. Its properties are the `RankingProperties` lemmas and the contract of `RankTreatments`.
- The properties of a run that depend only on its own draws, such as two runs agreeing when their draws agree up to a day, are not stated for the engine. Only the ranking's per-drug isolation (`EntryIsolated`) is stated.
- The toxicity ordering (`NonToxicScoresHigher`, `NonToxicRankedFirst`) is stated only for two drugs run on the same draws. In the program the drugs share one random generator, so each drug's run sees different draws, and the noise can outweigh the toxicity.
