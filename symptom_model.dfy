/** The symptom record carried between the three screens of the questionnaire,
    and the heuristic risk classifier computed from it (src/pages/Index.tsx). */
module SymptomModel {

  /** The six answers. Severity is on a 0..10 scale and duration counts days
      of pain per cycle (0..14); the four flags are yes/no answers. */
  datatype SymptomData = SymptomData(
    painSeverity: int,
    painDuration: int,
    painOutsidePeriods: bool,
    giSymptoms: bool,
    fatigue: bool,
    irregularCycles: bool)

  /** The ranges the two input sliders keep the numeric answers in. */
  predicate InRange(d: SymptomData) {
    0 <= d.painSeverity <= 10 && 0 <= d.painDuration <= 14
  }

  /** The record the application starts with, and restores on "start over". */
  function Default(): (d: SymptomData)
    ensures InRange(d)
    ensures !d.painOutsidePeriods && !d.giSymptoms && !d.fatigue && !d.irregularCycles
  {
    SymptomData(3, 2, false, false, false, false)
  }

  datatype RiskLevel = Low | Medium | High

  /** Position of a level in the order low < medium < high. */
  function Rank(l: RiskLevel): nat {
    match l
    case Low => 0
    case Medium => 1
    case High => 2
  }

  function Min(a: int, b: int): int {
    if a <= b then a else b
  }

  /** The weighted sum with the decimal weights of the classifier, read as an
      exact rational number. */
  function Score(d: SymptomData): real {
    d.painSeverity as real * 1.5
    + Min(d.painDuration, 7) as real * 0.8
    + (if d.painOutsidePeriods then 4.0 else 0.0)
    + (if d.giSymptoms then 3.0 else 0.0)
    + (if d.fatigue then 2.0 else 0.0)
    + (if d.irregularCycles then 2.0 else 0.0)
  }

  /** The same weighted sum in integer tenths of a point. */
  function ScoreTenths(d: SymptomData): (t: int)
    ensures t as real == 10.0 * Score(d)
    ensures InRange(d) ==> 0 <= t <= 316
  {
    15 * d.painSeverity
    + 8 * Min(d.painDuration, 7)
    + (if d.painOutsidePeriods then 40 else 0)
    + (if d.giSymptoms then 30 else 0)
    + (if d.fatigue then 20 else 0)
    + (if d.irregularCycles then 20 else 0)
  }

  /** The classifier: a score of at least 15 is high, at least 8 medium,
      anything lower low. Decided on exact tenths (150 and 80). */
  function Classify(d: SymptomData): (l: RiskLevel)
    ensures l == High <==> Score(d) >= 15.0
    ensures l == Medium <==> 8.0 <= Score(d) < 15.0
    ensures l == Low <==> Score(d) < 8.0
  {
    var t := ScoreTenths(d);
    if t >= 150 then High else if t >= 80 then Medium else Low
  }

  /** The classifier as the source writes it: one accumulator, raised term by
      term, then compared with the two thresholds. */
  method CalculateRiskLevel(d: SymptomData) returns (level: RiskLevel)
    ensures level == Classify(d)
    ensures Rank(level) == (if Score(d) >= 15.0 then 2 else if Score(d) >= 8.0 then 1 else 0)
  {
    var score := 0;
    score := score + 15 * d.painSeverity;
    score := score + 8 * Min(d.painDuration, 7);
    if d.painOutsidePeriods { score := score + 40; }
    if d.giSymptoms { score := score + 30; }
    if d.fatigue { score := score + 20; }
    if d.irregularCycles { score := score + 20; }
    if score >= 150 {
      return High;
    }
    if score >= 80 {
      return Medium;
    }
    return Low;
  }

  /** Pointwise order on answers: no numeric answer lower, no flag switched off. */
  predicate AtMost(d1: SymptomData, d2: SymptomData) {
    && d1.painSeverity <= d2.painSeverity
    && d1.painDuration <= d2.painDuration
    && (d1.painOutsidePeriods ==> d2.painOutsidePeriods)
    && (d1.giSymptoms ==> d2.giSymptoms)
    && (d1.fatigue ==> d2.fatigue)
    && (d1.irregularCycles ==> d2.irregularCycles)
  }

  /** Worse answers never give a lower level. */
  lemma ClassifyMonotone(d1: SymptomData, d2: SymptomData)
    requires AtMost(d1, d2)
    ensures ScoreTenths(d1) <= ScoreTenths(d2)
    ensures Rank(Classify(d1)) <= Rank(Classify(d2))
  {
  }

  /** A week or more of pain scores the same as exactly one week. */
  lemma DurationCapped(d: SymptomData)
    requires d.painDuration >= 7
    ensures ScoreTenths(d) == ScoreTenths(d.(painDuration := 7))
    ensures Classify(d) == Classify(d.(painDuration := 7))
  {
  }

  /** The default answers score 6.1 and classify as low. */
  lemma DefaultIsLow()
    ensures ScoreTenths(Default()) == 61
    ensures Classify(Default()) == Low
  {
  }

  /** Worked examples, including both thresholds hit exactly and the
      nearest score below the medium threshold. */
  lemma ClassifyExamples()
    ensures Classify(SymptomData(8, 5, true, true, false, false)) == High     // 23.0
    ensures Classify(SymptomData(5, 3, true, false, false, false)) == Medium  // 13.9
    ensures Classify(SymptomData(10, 0, false, false, false, false)) == High  // 15.0
    ensures Classify(SymptomData(0, 5, true, false, false, false)) == Medium  // 8.0
    ensures Classify(SymptomData(1, 3, true, false, false, false)) == Low     // 7.9
  {
  }

  /** A score landing exactly on a threshold needs a counted duration of 0 or
      5 days: the duration term is the only one that is not a multiple of 5
      tenths. */
  lemma ThresholdHitNeedsRoundDuration(d: SymptomData)
    requires InRange(d)
    requires ScoreTenths(d) == 80 || ScoreTenths(d) == 150
    ensures Min(d.painDuration, 7) == 0 || Min(d.painDuration, 7) == 5
  {
    var m := Min(d.painDuration, 7);
    var rest := ScoreTenths(d) - 8 * m;
    assert rest % 5 == 0 by {
      var k := 3 * d.painSeverity
        + (if d.painOutsidePeriods then 8 else 0)
        + (if d.giSymptoms then 6 else 0)
        + (if d.fatigue then 4 else 0)
        + (if d.irregularCycles then 4 else 0);
      assert rest == 5 * k;
    }
    assert (8 * m) % 5 == 0;
    assert 0 <= m <= 7;
  }
}
