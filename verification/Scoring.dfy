/**
 * The Security Score (scoring.ts). Amounts are hundredths of a point: every weight times a
 * factor is a multiple of a quarter, so the source's rounding to two decimals changes nothing.
 */
module Scoring {
  import opened Base

  datatype Criticality = CriticalAsset | HighAsset | MediumAsset | LowAsset

  datatype Grade = A | B | C | D | F

  datatype Penalty = Penalty(count: int, weight: int, cap: int, penalty: int, capped: bool)

  datatype ScoreResult = ScoreResult(score: int, grade: Grade, totalPenalty: int, counts: SeverityCounts)

  function SeverityWeight(s: Severity): int {
    match s
    case Critical => 25
    case High => 10
    case Medium => 4
    case Low => 1
    case Info => 0
  }

  /** In hundredths. */
  function SeverityCap(s: Severity): int {
    match s
    case Critical => 10000
    case High => 6000
    case Medium => 3000
    case Low => 1000
    case Info => 0
  }

  /** In hundredths. */
  function CriticalityFactor(c: Criticality): int {
    match c
    case CriticalAsset => 150
    case HighAsset => 125
    case MediumAsset => 100
    case LowAsset => 75
  }

  /** How much an asset matters. */
  function Importance(c: Criticality): int {
    match c
    case CriticalAsset => 3
    case HighAsset => 2
    case MediumAsset => 1
    case LowAsset => 0
  }

  lemma RoundedIsNearest(a: int, b: int)
    requires b > 0
    ensures -b < 2 * (a - b * Rounded(a, b)) + 1 <= b + 1
    ensures a % b == 0 ==> Rounded(a, b) == a / b
  {
    var q := Rounded(a, b);
    assert 2 * b * q <= 2 * a + b < 2 * b * q + 2 * b;
    assert 2 * b * q == 2 * (b * q);
    if a % b == 0 {
      var n := a / b;
      assert a == b * n;
      assert 2 * (b * (q - n)) <= b < 2 * (b * (q - n)) + 2 * b;
      if q > n { MulMonotone(1, q - n, b); }
      if q < n { MulMonotone(q - n, -1, b); }
    }
  }

  lemma RoundedMonotone(a: int, c: int, b: int)
    requires b > 0 && a <= c
    ensures Rounded(a, b) <= Rounded(c, b)
  {
    DivMonotone(2 * a + b, 2 * c + b, 2 * b);
  }

  function Weight(s: Severity, c: Criticality): int {
    SeverityWeight(s) * CriticalityFactor(c)
  }

  function PenaltyFor(s: Severity, count: int, c: Criticality): Penalty {
    var n := Max(0, count);
    var raw := Weight(s, c) * n;
    Penalty(n, Weight(s, c), SeverityCap(s), Min(SeverityCap(s), raw), raw > SeverityCap(s))
  }

  function PenaltyPoints(s: Severity, count: int, c: Criticality): int {
    PenaltyFor(s, count, c).penalty
  }

  /** The exact sum of the penalties, in hundredths. */
  function ExactPenalty(counts: SeverityCounts, c: Criticality): int {
    PenaltyPoints(Critical, counts.critical, c) + PenaltyPoints(High, counts.high, c)
        + PenaltyPoints(Medium, counts.medium, c)
    + PenaltyPoints(Low, counts.low, c) + PenaltyPoints(Info, counts.info, c)
  }

  function Score(counts: SeverityCounts, c: Criticality): int {
    Max(0, Min(100, 100 - Rounded(ExactPenalty(counts, c), 100)))
  }

  /** The grade bands, best first, with their lowest score. */
  const BANDS: seq<(Grade, int)> := [(A, 90), (B, 75), (C, 60), (D, 40), (F, 0)]

  /** GRADE_BANDS.find, and the last band when none fits. */
  function FindBand(bands: seq<(Grade, int)>, score: int): Grade
    requires bands != []
  {
    if |bands| == 1 || score >= bands[0].1 then bands[0].0 else FindBand(bands[1..], score)
  }

  function GradeFor(score: int): Grade {
    FindBand(BANDS, score)
  }

  function ComputeScore(counts: SeverityCounts, c: Criticality): ScoreResult {
    ScoreResult(Score(counts, c), GradeFor(Score(counts, c)), Rounded(ExactPenalty(counts, c), 100), counts)
  }

  // ---------------------------------------------------------------- what a score means

  /** The model of the documentation in points: weight by severity, times the factor of the asset, up to a cap. */
  function Points(weight: real, cap: real, factor: real, count: int): real {
    if count <= 0 then 0.0 else if weight * factor * count as real > cap then cap else weight * factor * count as real
  }

  function Factor(c: Criticality): real {
    match c
    case CriticalAsset => 1.5
    case HighAsset => 1.25
    case MediumAsset => 1.0
    case LowAsset => 0.75
  }

  function PenaltyInPoints(counts: SeverityCounts, c: Criticality): real {
    var factor := Factor(c);
    Points(25.0, 100.0, factor, counts.critical) + Points(10.0, 60.0, factor, counts.high)
      + Points(4.0, 30.0, factor, counts.medium) + Points(1.0, 10.0, factor, counts.low)
  }

  lemma PointsAre(s: Severity, count: int, c: Criticality, weight: real, cap: real, factor: real)
    requires weight == SeverityWeight(s) as real && cap * 100.0 == SeverityCap(s) as real
    requires factor * 100.0 == CriticalityFactor(c) as real
    ensures PenaltyPoints(s, count, c) as real == 100.0 * Points(weight, cap, factor, count)
  {
    var n := Max(0, count);
    assert (Weight(s, c) * n) as real == 100.0 * (weight * factor * n as real) by {
      assert Weight(s, c) as real == weight * (factor * 100.0);
    }
  }

  lemma PenaltyIsThatOfTheModel(counts: SeverityCounts, c: Criticality)
    ensures ExactPenalty(counts, c) as real == 100.0 * PenaltyInPoints(counts, c)
  {
    var factor := Factor(c);
    PointsAre(Critical, counts.critical, c, 25.0, 100.0, factor);
    PointsAre(High, counts.high, c, 10.0, 60.0, factor);
    PointsAre(Medium, counts.medium, c, 4.0, 30.0, factor);
    PointsAre(Low, counts.low, c, 1.0, 10.0, factor);
    PenaltyBounds(Info, counts.info, c);
  }

  lemma FloorOfHundredths(n: int, points: real)
    requires n as real == 100.0 * points
    ensures Rounded(n, 100) == (points + 0.5).Floor
  {
    var q := Rounded(n, 100);
    assert 200 * q <= 2 * n + 100 < 200 * q + 200;
    assert q as real <= points + 0.5 < q as real + 1.0;
  }

  /** The score is 100 less the penalty of the model, rounded, halves up, and not below 0. */
  lemma ScoreIsThatOfTheModel(counts: SeverityCounts, c: Criticality)
    ensures var points := PenaltyInPoints(counts, c);
      && Score(counts, c) == (if points >= 99.5 then 0 else 100 - (points + 0.5).Floor)
      && ComputeScore(counts, c).totalPenalty == (points + 0.5).Floor
      && ComputeScore(counts, c).score == Score(counts, c) && ComputeScore(counts, c).counts == counts
  {
    PenaltyIsThatOfTheModel(counts, c);
    FloorOfHundredths(ExactPenalty(counts, c), PenaltyInPoints(counts, c));
    PenaltyBounds(Critical, counts.critical, c);
    PenaltyBounds(High, counts.high, c);
    PenaltyBounds(Medium, counts.medium, c);
    PenaltyBounds(Low, counts.low, c);
    PenaltyBounds(Info, counts.info, c);
  }

  lemma GradeBands(score: int)
    ensures GradeFor(score) == if score >= 90 then A
        else if score >= 75 then B else if score >= 60 then C else if score >= 40 then D else F
  {
    var fourth, third := [(D, 40), (F, 0)], [(C, 60), (D, 40), (F, 0)];
    var second := [(B, 75), (C, 60), (D, 40), (F, 0)];
    assert fourth[1..] == [(F, 0)] && third[1..] == fourth && second[1..] == third && BANDS[1..] == second;
    assert FindBand(fourth, score) == if score >= 40 then D else F;
    assert FindBand(third, score) == if score >= 60 then C else FindBand(fourth, score);
    assert FindBand(second, score) == if score >= 75 then B else FindBand(third, score);
  }

  lemma PenaltyBounds(s: Severity, count: int, c: Criticality)
    ensures 0 <= PenaltyPoints(s, count, c) <= SeverityCap(s)
    ensures count <= 0 ==> PenaltyPoints(s, count, c) == 0
  {
    MulMonotone(0, Max(0, count), Weight(s, c));
  }

  lemma WeightMonotone(s: Severity, c: Criticality, d: Criticality)
    requires Importance(c) <= Importance(d)
    ensures 0 <= Weight(s, c) <= Weight(s, d)
  {
  }

  lemma CappedMonotone(cap: int, w: int, n: int, v: int, m: int)
    requires 0 <= w <= v && 0 <= n <= m
    ensures Min(cap, w * n) <= Min(cap, v * m)
  {
    MulMonotone(n, m, w);
    MulMonotone(w, v, m);
  }

  lemma PenaltyMonotone(s: Severity, n: int, m: int, c: Criticality, d: Criticality)
    requires n <= m && Importance(c) <= Importance(d)
    ensures PenaltyPoints(s, n, c) <= PenaltyPoints(s, m, d)
  {
    WeightMonotone(s, c, d);
    CappedMonotone(SeverityCap(s), Weight(s, c), Max(0, n), Weight(s, d), Max(0, m));
  }

  /** The score is between 0 and 100, and within half a point of the exact value clamped to that range. */
  lemma ScoreInRange(counts: SeverityCounts, c: Criticality)
    ensures 0 <= Score(counts, c) <= 100
    ensures -50 <= 100 * Score(counts, c) - Max(0, 10000 - ExactPenalty(counts, c)) <= 50
  {
    PenaltyBounds(Critical, counts.critical, c);
    PenaltyBounds(High, counts.high, c);
    PenaltyBounds(Medium, counts.medium, c);
    PenaltyBounds(Low, counts.low, c);
    PenaltyBounds(Info, counts.info, c);
    RoundedIsNearest(ExactPenalty(counts, c), 100);
  }

  /** How good a grade is. */
  function Standing(g: Grade): int {
    match g
    case A => 4
    case B => 3
    case C => 2
    case D => 1
    case F => 0
  }

  predicate NoMore(a: SeverityCounts, b: SeverityCounts) {
    a.critical <= b.critical && a.high <= b.high && a.medium <= b.medium && a.low <= b.low && a.info <= b.info
  }

  /** More findings of any severity, or a more important asset, never raise the score or the grade. */
  lemma ScoreNeverRises(a: SeverityCounts, b: SeverityCounts, c: Criticality, d: Criticality)
    requires NoMore(a, b) && Importance(c) <= Importance(d)
    ensures Score(a, c) >= Score(b, d)
    ensures Standing(GradeFor(Score(a, c))) >= Standing(GradeFor(Score(b, d)))
  {
    PenaltyMonotone(Critical, a.critical, b.critical, c, d);
    PenaltyMonotone(High, a.high, b.high, c, d);
    PenaltyMonotone(Medium, a.medium, b.medium, c, d);
    PenaltyMonotone(Low, a.low, b.low, c, d);
    PenaltyMonotone(Info, a.info, b.info, c, d);
    RoundedMonotone(ExactPenalty(a, c), ExactPenalty(b, d), 100);
    GradeBands(Score(a, c));
    GradeBands(Score(b, d));
  }

  /**
   * Minor findings alone never look critical: without CRITICAL and HIGH ones the score stays at 60
   * or above, so the grade is A, B or C, however many there are.
   */
  lemma MinorFindingsNeverFail(counts: SeverityCounts, c: Criticality)
    requires counts.critical <= 0 && counts.high <= 0
    ensures Score(counts, c) >= 60 && GradeFor(Score(counts, c)) in {A, B, C}
  {
    PenaltyBounds(Critical, counts.critical, c);
    PenaltyBounds(High, counts.high, c);
    PenaltyBounds(Medium, counts.medium, c);
    PenaltyBounds(Low, counts.low, c);
    PenaltyBounds(Info, counts.info, c);
    RoundedMonotone(ExactPenalty(counts, c), 4000, 100);
    GradeBands(Score(counts, c));
  }

  /** The bound is met: enough MEDIUM and LOW findings give exactly 60. */
  lemma MinorFindingsReachSixty(c: Criticality, n: int)
    requires n >= 14
    ensures Score(SeverityCounts(0, 0, n, n, 0), c) == 60
  {
    var counts := SeverityCounts(0, 0, n, n, 0);
    MulMonotone(14, n, Weight(Medium, c));
    MulMonotone(14, n, Weight(Low, c));
    assert PenaltyPoints(Medium, n, c) == 3000;
    assert PenaltyPoints(Low, n, c) == 1000;
    assert PenaltyPoints(Critical, 0, c) == PenaltyPoints(High, 0, c) == PenaltyPoints(Info, 0, c) == 0;
  }

  function CriticalsToZero(c: Criticality): int {
    match c
    case CriticalAsset => 3
    case HighAsset => 4
    case MediumAsset => 4
    case LowAsset => 6
  }

  /**
   * How many CRITICAL findings, on their own, take an asset to 0. The documentation says four;
   * that holds except for assets of LOW criticality, which need six.
   */
  lemma CriticalsAlone(n: nat, c: Criticality)
    ensures Score(SeverityCounts(n, 0, 0, 0, 0), c) == 0 <==> n >= CriticalsToZero(c)
  {
    OnlyCriticals(n, c);
    ZeroFromPenalty(SeverityCounts(n, 0, 0, 0, 0), c);
    FirstCountOver(Weight(Critical, c), n, CriticalsToZero(c));
  }

  lemma ZeroFromPenalty(counts: SeverityCounts, c: Criticality)
    ensures Score(counts, c) == 0 <==> ExactPenalty(counts, c) >= 9950
  {
  }

  lemma FirstCountOver(w: int, n: int, k: int)
    requires w > 0 && w * (k - 1) < 9950 <= w * k
    ensures w * n >= 9950 <==> n >= k
  {
    if n >= k { MulMonotone(k, n, w); } else { MulMonotone(n, k - 1, w); }
  }

  lemma OnlyCriticals(n: nat, c: Criticality)
    ensures var w := Weight(Critical, c); ExactPenalty(SeverityCounts(n, 0, 0, 0, 0), c) == Min(10000, w * n)
  {
    assert PenaltyPoints(High, 0, c) == PenaltyPoints(Medium, 0, c) == PenaltyPoints(Low, 0, c)
        == PenaltyPoints(Info, 0, c) == 0;
  }

  // ---------------------------------------------------------------- the organization's mean

  function Sum(scores: seq<int>): int {
    if scores == [] then 0 else scores[0] + Sum(scores[1..])
  }

  function AggregateScores(scores: seq<int>): Option<int> {
    if scores == [] then None else Some(Rounded(Sum(scores), |scores|))
  }

  lemma {:induction false} SumBounds(scores: seq<int>, lo: int, hi: int)
    requires forall i :: 0 <= i < |scores| ==> lo <= scores[i] <= hi
    ensures |scores| * lo <= Sum(scores) <= |scores| * hi
  {
    if scores != [] {
      SumBounds(scores[1..], lo, hi);
      assert |scores| * lo == lo + |scores[1..]| * lo && |scores| * hi == hi + |scores[1..]| * hi;
    }
  }

  lemma RoundedBetween(a: int, n: int, lo: int, hi: int)
    requires n > 0 && n * lo <= a <= n * hi
    ensures lo <= Rounded(a, n) <= hi
  {
    ExactQuotient(n, lo);
    ExactQuotient(n, hi);
    RoundedMonotone(n * lo, a, n);
    RoundedMonotone(a, n * hi, n);
  }

  lemma ExactQuotient(n: int, q: int)
    requires n > 0
    ensures Rounded(n * q, n) == q
  {
    var r := Rounded(n * q, n);
    assert 2 * (n * q) + n == 2 * n * q + n;
    assert 2 * n * r <= 2 * n * q + n < 2 * n * (r + 1);
    if r > q { MulMonotone(q + 1, r, 2 * n); }
    if r < q { MulMonotone(r + 1, q, 2 * n); }
  }

  lemma {:induction false} SumMonotone(a: seq<int>, b: seq<int>)
    requires |a| == |b| && forall i :: 0 <= i < |a| ==> a[i] <= b[i]
    ensures Sum(a) <= Sum(b)
  {
    if a != [] { SumMonotone(a[1..], b[1..]); }
  }

  lemma {:induction false} SumWithout(scores: seq<int>, i: nat)
    requires i < |scores|
    ensures Sum(scores) == scores[i] + Sum(scores[..i] + scores[i + 1..])
  {
    if i == 0 {
      assert scores[..0] + scores[1..] == scores[1..];
    } else {
      SumWithout(scores[1..], i - 1);
      var rest := scores[..i] + scores[i + 1..];
      assert rest[1..] == scores[1..][..i - 1] + scores[1..][i..];
    }
  }

  lemma {:induction false} SumIgnoresOrder(a: seq<int>, b: seq<int>)
    requires multiset(a) == multiset(b)
    ensures Sum(a) == Sum(b) && |a| == |b|
  {
    if a == [] {
      assert |multiset(b)| == |b| == 0;
    } else {
      var i := FindIn(a, b);
      SumWithout(b, i);
      RestsAgree(a, b, i);
      SumIgnoresOrder(a[1..], b[..i] + b[i + 1..]);
    }
  }

  lemma {:induction false} SumAdds(a: seq<int>, b: seq<int>)
    ensures Sum(a + b) == Sum(a) + Sum(b)
    ensures |a| == 1 ==> Sum(a) == a[0]
  {
    if a == [] {
      assert a + b == b;
    } else {
      assert (a + b)[1..] == a[1..] + b;
      SumAdds(a[1..], b);
      if |a| == 1 { assert a[1..] == []; }
    }
  }

  /** The aggregate is the mean, rounded to the nearest, halves up; there is none without scores. */
  lemma AggregateIsMean(scores: seq<int>)
    ensures AggregateScores(scores).None? <==> scores == []
    ensures scores != [] ==>
      var m, n := AggregateScores(scores).value, |scores|; -n <= 2 * (Sum(scores) - n * m) < n
  {
    if scores != [] { RoundedIsNearest(Sum(scores), |scores|); }
  }

  /** The mean is between any bounds of the scores. */
  lemma AggregateBetween(scores: seq<int>, lo: int, hi: int)
    requires scores != [] && forall i :: 0 <= i < |scores| ==> lo <= scores[i] <= hi
    ensures AggregateScores(scores).Some? && lo <= AggregateScores(scores).value <= hi
  {
    SumBounds(scores, lo, hi);
    RoundedBetween(Sum(scores), |scores|, lo, hi);
  }

  lemma AggregateMonotone(a: seq<int>, b: seq<int>)
    requires a != [] && |a| == |b| && forall i :: 0 <= i < |a| ==> a[i] <= b[i]
    ensures AggregateScores(a).value <= AggregateScores(b).value
  {
    SumMonotone(a, b);
    RoundedMonotone(Sum(a), Sum(b), |a|);
  }

  lemma AggregateIgnoresOrder(a: seq<int>, b: seq<int>)
    requires multiset(a) == multiset(b)
    ensures AggregateScores(a) == AggregateScores(b)
  {
    SumIgnoresOrder(a, b);
  }

  // ---------------------------------------------------------------- anomalies

  /** Mean and deviation of the history, in tenths as the source rounds them. */
  datatype Stats = Stats(mean: int, stdDev: nat)

  datatype Anomaly = Anomaly(isAnomaly: bool, drop: int, zScore: Option<int>, severity: Option<Severity>)

  /** The deviations below the mean, in hundredths. */
  function ZScore(current: int, stats: Stats): int
    requires stats.stdDev > 0
  {
    Rounded(100 * (stats.mean - 10 * current), stats.stdDev)
  }

  predicate Atypical(current: int, samples: nat, stats: Stats, z: int) {
    samples >= 3 && stats.stdDev > 0 && ZScore(current, stats) >= z
  }

  function AnomalySeverity(current: int, previous: int, samples: nat, stats: Stats): Severity {
    var drop := previous - current;
    if drop >= 25 || (drop >= 15 && current < 40) then Critical
    else if drop >= 15 || Atypical(current, samples, stats, 250) then High
    else Medium
  }

  predicate IsAnomaly(current: int, previous: int, samples: nat, stats: Stats) {
    var drop := previous - current;
    drop >= 10 && (drop >= 15 || (drop >= 12 && current < 50) || Atypical(current, samples, stats, 200))
  }

  /** `stats` stands for the statistics of the `samples` earlier scores. */
  method EvaluateScoreAnomaly(current: int, previous: int, samples: nat, stats: Stats) returns (r: Anomaly)
    ensures r.drop == previous - current
    ensures r.isAnomaly <==> IsAnomaly(current, previous, samples, stats)
    ensures r.isAnomaly <==>
      r.drop >= 10 && (r.drop >= 15 || (r.drop >= 12 && current < 50) || (r.zScore.Some? && r.zScore.value >= 200))
    ensures r.zScore.Some? <==> r.drop >= 10 && samples >= 3 && stats.stdDev > 0
    ensures r.zScore.Some? ==>
      0 - stats.stdDev <= 2 * (100 * (stats.mean - 10 * current) - stats.stdDev * r.zScore.value) < stats.stdDev
    ensures r.isAnomaly ==> r.severity == Some(
      if r.drop >= 25 || (r.drop >= 15 && current < 40) then Critical
      else if r.drop >= 15 || (r.zScore.Some? && r.zScore.value >= 250) then High else Medium)
    ensures !r.isAnomaly ==> r.severity == None
    ensures r.zScore == if r.drop >= 10 && samples >= 3 && stats.stdDev > 0 then Some(ZScore(current, stats)) else None
    ensures r.severity == if r.isAnomaly then Some(AnomalySeverity(current, previous, samples, stats)) else None
  {
    var drop := previous - current;
    if drop < 10 {
      return Anomaly(false, drop, None, None);
    }
    if stats.stdDev > 0 { RoundedIsNearest(100 * (stats.mean - 10 * current), stats.stdDev); }
    var isAnomaly := false;
    var zScore: Option<int> := None;
    if samples >= 3 {
      if stats.stdDev > 0 {
        zScore := Some(ZScore(current, stats));
        if zScore.value >= 200 {
          isAnomaly := true;
        }
      }
    }
    if drop >= 15 || (drop >= 12 && current < 50) {
      isAnomaly := true;
    }
    if !isAnomaly {
      return Anomaly(false, drop, zScore, None);
    }
    var severity := Medium;
    if drop >= 25 || (drop >= 15 && current < 40) {
      severity := Critical;
    } else if drop >= 15 || (zScore.Some? && zScore.value >= 250) {
      severity := High;
    }
    return Anomaly(true, drop, zScore, Some(severity));
  }

  lemma ZScoreMonotone(lower: int, current: int, stats: Stats)
    requires stats.stdDev > 0 && lower <= current
    ensures ZScore(lower, stats) >= ZScore(current, stats)
  {
    RoundedMonotone(100 * (stats.mean - 10 * current), 100 * (stats.mean - 10 * lower), stats.stdDev);
  }

  /** A deeper fall is never judged less serious: what alerts still alerts, and at least as gravely. */
  lemma DeeperFallsAreGraver(lower: int, current: int, previous: int, samples: nat, stats: Stats)
    requires lower <= current && IsAnomaly(current, previous, samples, stats)
    ensures IsAnomaly(lower, previous, samples, stats)
    ensures Gravity(AnomalySeverity(lower, previous, samples, stats)) >= Gravity(AnomalySeverity(current, previous,
        samples, stats))
  {
    if stats.stdDev > 0 { ZScoreMonotone(lower, current, stats); }
  }
}
