/**
 * The educational drug ranking. Every drug is simulated alone, under the
 * unknown disease "Generic", for `len(reference) - 1` days, so with as many
 * records as the reference table has rows; its final record is scored by a
 * fixed linear formula; the entries are returned best-first by a stable sort,
 * with a constant explanation.
 */
module Ranking {
  import opened Wrappers
  import opened Forecast

  /** One ranked drug: its name, score and the final-record values the score came from. */
  datatype Entry = Entry(
    name: string,
    score: real,
    finalViral: real,
    finalSymptoms: real,
    avgOrganHealth: real,
    drugToxicity: real)

  /** A ranking and its explanation dictionary. */
  datatype Ranked = Ranked(entries: seq<Entry>, explainability: map<string, string>)

  /** The ranking asks for the last record of a run that has none. */
  datatype RankError = NoFinalRecord

  /** The disease every isolated run uses; it is not in the disease table. */
  const GENERIC: string := "Generic"

  const EXPLAINABILITY: map<string, string> := map[
    "note" := "Synthetic ranking logic (educational only)",
    "logic" := "Higher avg organ health + lower viral load/symptoms + lower toxicity increases score"
  ]

  /** The inputs of a ranking, with the exponential and the noise draws of all its runs. */
  datatype Request = Request(
    reference: seq<Record>,
    drugs: seq<Drug>,
    patient: Patient,
    exp: real -> real,
    noise: seq<real>)

  /** The draws one isolated run consumes: it runs `len(reference) - 1` days. */
  function DrawsPerRun(reference: seq<Record>): (n: nat)
    ensures n == 2 * |reference|
  {
    NoiseDraws(|reference| - 1)
  }

  /** Enough noise for one isolated run per drug, consumed run after run. */
  predicate EnoughDraws(q: Request) {
    |q.drugs| * DrawsPerRun(q.reference) <= |q.noise|
  }

  /** An entry's name: the drug's `name`, or "drug" when it has none. */
  function DrugName(d: Drug): string {
    d.name.GetOr("drug")
  }

  /**
   * The ranking formula: half the viral load's and three tenths of the
   * symptoms' distance from 100, a fifth of the average organ health, less
   * twice the toxicity.
   */
  function Formula(viral: real, symptoms: real, avgOrganHealth: real, toxicity: real): real {
    (100.0 - viral) * 0.5 + (100.0 - symptoms) * 0.3 + avgOrganHealth * 0.2 - toxicity * 2.0
  }

  /**
   * The score of a final record. With its values on the scale it lies between
   * 0 and 100 points, less twice the toxicity.
   */
  function Score(final: Record): (r: real)
    ensures InScale(final.viralLoad) && InScale(final.symptomSeverity) && InScale(final.avgOrganHealth) ==>
      -final.drugToxicity * 2.0 <= r <= 100.0 - final.drugToxicity * 2.0
  {
    Formula(final.viralLoad, final.symptomSeverity, final.avgOrganHealth, final.drugToxicity)
  }

  /**
   * The explanation's claim: lower viral load, lower symptoms, higher average
   * organ health and lower toxicity never lower the score.
   */
  lemma ScoreMonotone(better: Record, worse: Record)
    requires better.viralLoad <= worse.viralLoad && better.symptomSeverity <= worse.symptomSeverity
    requires better.avgOrganHealth >= worse.avgOrganHealth && better.drugToxicity <= worse.drugToxicity
    ensures Score(better) >= Score(worse)
  {
  }

  /** The entry a drug earns from its run's final record. */
  function EntryOf(d: Drug, final: Record): Entry {
    Entry(DrugName(d), Score(final), final.viralLoad, final.symptomSeverity, final.avgOrganHealth, final.drugToxicity)
  }

  /** Drug `i`'s block of draws lies inside the noise, right after the blocks of the drugs before it. */
  lemma BlockFits(i: nat, n: nat, per: nat)
    requires i < n
    ensures 0 <= i * per
    ensures i * per + per == (i + 1) * per <= n * per
  {
  }

  /** The setup of drug `i`'s run: the drug alone, the "Generic" disease, the `i`-th block of draws. */
  function IsolatedSetup(q: Request, i: nat): (s: Setup)
    requires EnoughDraws(q) && i < |q.drugs|
    ensures |s.noise| == DrawsPerRun(q.reference)
  {
    var per := DrawsPerRun(q.reference);
    BlockFits(i, |q.drugs|, per);
    Setup(q.patient, GENERIC, [q.drugs[i]], q.exp, q.noise[i * per..(i + 1) * per])
  }

  /** Drug `i`'s run, for `len(reference) - 1` days: as many records as the reference table. */
  function IsolatedRun(q: Request, i: nat): (rows: seq<Record>)
    requires EnoughDraws(q) && i < |q.drugs|
    ensures |rows| == |q.reference|
  {
    Simulate(IsolatedSetup(q, i), |q.reference| - 1)
  }

  /** `df.iloc[-1]`: the last record of drug `i`'s run, which exists when the reference table is not empty. */
  function FinalRecord(q: Request, i: nat): Record
    requires EnoughDraws(q) && i < |q.drugs| && q.reference != []
  {
    var rows := IsolatedRun(q, i);
    rows[|rows| - 1]
  }

  /** Drug `i`'s setup is the drug alone under "Generic", with the `i`-th block of draws. */
  lemma IsolatedSetupBlock(q: Request, i: nat, block: seq<real>)
    requires EnoughDraws(q) && i < |q.drugs|
    requires i * DrawsPerRun(q.reference) + DrawsPerRun(q.reference) <= |q.noise|
    requires block == q.noise[i * DrawsPerRun(q.reference)..i * DrawsPerRun(q.reference) + DrawsPerRun(q.reference)]
    ensures IsolatedSetup(q, i) == Setup(q.patient, GENERIC, [q.drugs[i]], q.exp, block)
  {
  }

  /** The entries of the first `k` drugs, in input order. */
  function Entries(q: Request, k: nat): (entries: seq<Entry>)
    requires EnoughDraws(q) && k <= |q.drugs| && q.reference != []
    ensures |entries| == k
  {
    if k == 0 then []
    else Entries(q, k - 1) + [EntryOf(q.drugs[k - 1], FinalRecord(q, k - 1))]
  }

  /** Appending the entry of drug `i`'s run extends the entries of the drugs before it. */
  lemma EntriesStep(q: Request, i: nat, df: seq<Record>)
    requires EnoughDraws(q) && i < |q.drugs| && q.reference != []
    requires df == IsolatedRun(q, i)
    ensures Entries(q, i + 1) == Entries(q, i) + [EntryOf(q.drugs[i], df[|df| - 1])]
  {
  }

  // ---------------- Stable descending sort ----------------

  /** Scores never increase along the sequence. */
  predicate Descending(s: seq<Entry>) {
    forall i, j :: 0 <= i < j < |s| ==> s[i].score >= s[j].score
  }

  /** The entries of `s` scoring exactly `x`, in their order in `s`. */
  function WithScore(s: seq<Entry>, x: real): seq<Entry> {
    if s == [] then []
    else (if s[0].score == x then [s[0]] else []) + WithScore(s[1..], x)
  }

  /**
   * Inserts `e` before the first entry that does not score higher than it,
   * so it goes ahead of the entries it ties with.
   */
  function Insert(e: Entry, sorted: seq<Entry>): (r: seq<Entry>)
    ensures multiset(r) == multiset(sorted) + multiset{e}
  {
    if sorted == [] || sorted[0].score <= e.score then [e] + sorted
    else
      assert sorted == [sorted[0]] + sorted[1..];
      [sorted[0]] + Insert(e, sorted[1..])
  }

  /** `sorted(s, key=score, reverse=True)`: a reordering with non-increasing scores. */
  function SortByScore(s: seq<Entry>): (r: seq<Entry>)
    ensures multiset(r) == multiset(s)
    ensures Descending(r)
  {
    if s == [] then []
    else
      assert s == [s[0]] + s[1..];
      var rest := SortByScore(s[1..]);
      InsertDescending(s[0], rest);
      Insert(s[0], rest)
  }

  /** No entry scores above `m`. */
  predicate AtMost(s: seq<Entry>, m: real) {
    forall k :: 0 <= k < |s| ==> s[k].score <= m
  }

  /** An entry followed by a descending sequence none of whose entries beats it is descending. */
  lemma DescendingCons(a: Entry, t: seq<Entry>)
    requires Descending(t) && AtMost(t, a.score)
    ensures Descending([a] + t)
  {
    var r := [a] + t;
    forall i, j | 0 <= i < j < |r|
      ensures r[i].score >= r[j].score
    {
      assert r[j] == t[j - 1];
      if i > 0 {
        assert r[i] == t[i - 1];
      }
    }
  }

  /** The tail of a descending sequence is descending, and its head beats all of it. */
  lemma DescendingUncons(t: seq<Entry>)
    requires Descending(t) && t != []
    ensures Descending(t[1..]) && AtMost(t[1..], t[0].score)
  {
    var u := t[1..];
    forall i, j | 0 <= i < j < |u|
      ensures u[i].score >= u[j].score
    {
      assert u[i] == t[i + 1] && u[j] == t[j + 1];
    }
    forall k | 0 <= k < |u|
      ensures u[k].score <= t[0].score
    {
      assert u[k] == t[k + 1];
    }
  }

  /** Inserting an entry that does not beat `m` into entries that do not beat `m` keeps that bound. */
  lemma {:induction false} InsertAtMost(e: Entry, sorted: seq<Entry>, m: real)
    requires AtMost(sorted, m) && e.score <= m
    ensures AtMost(Insert(e, sorted), m)
    decreases |sorted|
  {
    if sorted != [] && sorted[0].score > e.score {
      var tail := Insert(e, sorted[1..]);
      assert AtMost(sorted[1..], m) by {
        forall k | 0 <= k < |sorted[1..]|
          ensures sorted[1..][k].score <= m
        {
          assert sorted[1..][k] == sorted[k + 1];
        }
      }
      InsertAtMost(e, sorted[1..], m);
      var r := [sorted[0]] + tail;
      forall k | 0 <= k < |r|
        ensures r[k].score <= m
      {
        if k > 0 {
          assert r[k] == tail[k - 1];
        }
      }
    }
  }

  /** Insertion keeps a descending sequence descending. */
  lemma {:induction false} InsertDescending(e: Entry, sorted: seq<Entry>)
    requires Descending(sorted)
    ensures Descending(Insert(e, sorted))
    decreases |sorted|
  {
    if sorted == [] || sorted[0].score <= e.score {
      if sorted != [] {
        DescendingUncons(sorted);
        assert AtMost(sorted, e.score) by {
          forall k | 0 <= k < |sorted|
            ensures sorted[k].score <= e.score
          {
            if k > 0 {
              assert sorted[k] == sorted[1..][k - 1];
            }
          }
        }
      }
      DescendingCons(e, sorted);
    } else {
      DescendingUncons(sorted);
      InsertDescending(e, sorted[1..]);
      InsertAtMost(e, sorted[1..], sorted[0].score);
      DescendingCons(sorted[0], Insert(e, sorted[1..]));
    }
  }

  /** Inserting `e` into a descending sequence puts it ahead of every entry with its score. */
  lemma {:induction false} InsertWithScore(e: Entry, sorted: seq<Entry>, x: real)
    requires Descending(sorted)
    ensures WithScore(Insert(e, sorted), x) == (if e.score == x then [e] else []) + WithScore(sorted, x)
    decreases |sorted|
  {
    if sorted == [] || sorted[0].score <= e.score {
      assert ([e] + sorted)[1..] == sorted;
    } else {
      var head := sorted[0];
      var tail := Insert(e, sorted[1..]);
      DescendingUncons(sorted);
      InsertWithScore(e, sorted[1..], x);
      assert ([head] + tail)[1..] == tail;
      assert WithScore([head] + tail, x) == (if head.score == x then [head] else []) + WithScore(tail, x);
      if e.score == x {
        assert head.score != x;
      }
    }
  }

  /** The sort is stable: the entries of each score keep their input order. */
  lemma {:induction false} SortStable(s: seq<Entry>, x: real)
    ensures WithScore(SortByScore(s), x) == WithScore(s, x)
    decreases |s|
  {
    if s != [] {
      SortStable(s[1..], x);
      InsertWithScore(s[0], SortByScore(s[1..]), x);
    }
  }

  /** `e` is among the entries scoring `x` exactly when it is in `s` and scores `x`. */
  lemma {:induction false} WithScoreMembers(s: seq<Entry>, x: real, e: Entry)
    ensures e in WithScore(s, x) <==> e in s && e.score == x
    decreases |s|
  {
    if s != [] {
      WithScoreMembers(s[1..], x, e);
      assert e in s <==> e == s[0] || e in s[1..];
    }
  }

  /** A descending sequence starts with one of its highest-scoring entries. */
  lemma DescendingHead(t: seq<Entry>, e: Entry)
    requires Descending(t) && e in t
    ensures t[0].score >= e.score
  {
    var k :| 0 <= k < |t| && t[k] == e;
    if k > 0 {
      assert t[0].score >= t[k].score;
    }
  }

  /**
   * Two descending sequences that list the entries of every score in the same
   * order are the same sequence.
   */
  lemma {:induction false} DescendingStableEqual(t: seq<Entry>, u: seq<Entry>)
    requires Descending(t) && Descending(u)
    requires forall x :: WithScore(t, x) == WithScore(u, x)
    ensures t == u
    decreases |t|
  {
    if t == [] && u != [] {
      WithScoreMembers(u, u[0].score, u[0]);
      assert false;
    } else if t != [] && u == [] {
      WithScoreMembers(t, t[0].score, t[0]);
      assert false;
    } else if t != [] && u != [] {
      var a, b := t[0], u[0];
      assert WithScore(t, a.score) == WithScore(u, a.score);
      WithScoreMembers(t, a.score, a);
      WithScoreMembers(u, a.score, a);
      DescendingHead(u, a);
      assert WithScore(t, b.score) == WithScore(u, b.score);
      WithScoreMembers(u, b.score, b);
      WithScoreMembers(t, b.score, b);
      DescendingHead(t, b);
      assert a.score == b.score;
      assert a == b by {
        var both := WithScore(t, a.score);
        assert both == [a] + WithScore(t[1..], a.score);
        assert both == WithScore(u, a.score) == [b] + WithScore(u[1..], a.score);
        assert both[0] == a && both[0] == b;
      }
      forall x
        ensures WithScore(t[1..], x) == WithScore(u[1..], x)
      {
        var front := if a.score == x then [a] else [];
        assert WithScore(t, x) == front + WithScore(t[1..], x);
        assert WithScore(u, x) == front + WithScore(u[1..], x);
        assert WithScore(t[1..], x) == WithScore(t, x)[|front|..];
        assert WithScore(u[1..], x) == WithScore(u, x)[|front|..];
      }
      DescendingUncons(t);
      DescendingUncons(u);
      DescendingStableEqual(t[1..], u[1..]);
      assert t == [a] + t[1..] && u == [b] + u[1..];
    }
  }

  /**
   * SortByScore is the stable descending sort: any reordering with
   * non-increasing scores that keeps every score's entries in input order is
   * exactly its result.
   */
  lemma StableSortUnique(s: seq<Entry>, t: seq<Entry>)
    requires Descending(t)
    requires forall x :: WithScore(t, x) == WithScore(s, x)
    ensures t == SortByScore(s)
  {
    forall x
      ensures WithScore(t, x) == WithScore(SortByScore(s), x)
    {
      SortStable(s, x);
    }
    DescendingStableEqual(t, SortByScore(s));
  }

  // ---------------- The ranking ----------------

  /**
   * The ranking: nothing for no drugs; an error when the reference table is
   * empty, so a run has no final record; otherwise the entries sorted
   * best-first with the constant explanation.
   */
  function Rank(q: Request): Result<Ranked, RankError>
    requires EnoughDraws(q)
  {
    if q.drugs == [] then Ok(Ranked([], map[]))
    else if q.reference == [] then Err(NoFinalRecord)
    else Ok(Ranked(SortByScore(Entries(q, |q.drugs|)), EXPLAINABILITY))
  }

  /** Ranks the drugs, running one isolated simulation per drug and appending its entry. */
  method RankTreatments(
    reference: seq<Record>, drugs: seq<Drug>, patient: Patient, exp: real -> real, noise: seq<real>)
    returns (outcome: Result<Ranked, RankError>)
    requires EnoughDraws(Request(reference, drugs, patient, exp, noise))
    ensures outcome == Rank(Request(reference, drugs, patient, exp, noise))
  {
    ghost var q := Request(reference, drugs, patient, exp, noise);
    if |drugs| == 0 {
      return Ok(Ranked([], map[]));
    }
    var per := DrawsPerRun(reference);
    var results: seq<Entry> := [];
    for i := 0 to |drugs|
      invariant i > 0 ==> reference != []
      invariant reference != [] ==> results == Entries(q, i)
    {
      BlockFits(i, |drugs|, per);
      var block := noise[i * per..(i + 1) * per];
      IsolatedSetupBlock(q, i, block);
      var df := RunSimulation(patient, GENERIC, [drugs[i]], |reference| - 1, exp, block);
      if |df| == 0 {
        return Err(NoFinalRecord);
      }
      var final := df[|df| - 1];
      EntriesStep(q, i, df);
      results := results + [EntryOf(drugs[i], final)];
    }
    assert results == Entries(q, |drugs|);
    var ranked := SortByScore(results);
    var explainability := EXPLAINABILITY;
    return Ok(Ranked(ranked, explainability));
  }
}
