/** Evidence-derived trust (trust.py), over exact reals. */
module Trust {
  import opened Lists
  import opened Protocol
  import opened StableSort

  const RECURRENCE_PENALTY_PER_LESSON: real := 0.05
  const MAX_RECURRENCE_PENALTY: real := 0.5
  const UNKNOWN_WEIGHT: real := 0.5

  type Weights = map<Transformation, real>

  const TRANSFORMATION_WEIGHTS: Weights :=
    map[ExtractedVerbatim := 1.0, Computed := 0.9, Summarized := 0.7, Inferred := 0.5]

  /** `weights or TRANSFORMATION_WEIGHTS`: an empty dict counts as no dict. */
  function EffectiveWeights(weights: Weights): Weights {
    if weights == map[] then TRANSFORMATION_WEIGHTS else weights
  }

  function WeightOf(weights: Weights, t: Transformation): real {
    var w := EffectiveWeights(weights);
    if t in w then w[t] else UNKNOWN_WEIGHT
  }

  function Weighted(e: Evidence, weights: Weights): real {
    e.confidence * WeightOf(weights, e.transformation)
  }

  function WeightedSum(es: seq<Evidence>, weights: Weights): real {
    if es == [] then 0.0 else Weighted(es[0], weights) + WeightedSum(es[1..], weights)
  }

  function EvidenceStrength(es: seq<Evidence>, weights: Weights): real {
    if es == [] then 0.0 else WeightedSum(es, weights) / |es| as real
  }

  ghost predicate UnitWeights(weights: Weights) {
    forall t :: t in weights ==> 0.0 <= weights[t] <= 1.0
  }

  // Laws of the mean

  lemma WeightInUnit(weights: Weights, t: Transformation)
    requires UnitWeights(weights)
    ensures 0.0 <= WeightOf(weights, t) <= 1.0
  {
  }

  lemma ScaleMonotone(x: real, y: real, factor: real)
    requires x <= y && factor >= 0.0
    ensures x * factor <= y * factor
  {
    assert (y - x) * factor >= 0.0;
    assert (y - x) * factor == y * factor - x * factor;
  }

  lemma WeightedInUnit(e: Evidence, weights: Weights)
    requires UnitWeights(weights)
    ensures 0.0 <= Weighted(e, weights) <= 1.0
  {
    var w := WeightOf(weights, e.transformation);
    WeightInUnit(weights, e.transformation);
    UnitProduct(e.confidence, w);
  }

  lemma NonNegativeProduct(x: real, y: real)
    requires x >= 0.0 && y >= 0.0
    ensures x * y >= 0.0
  {
  }

  lemma UnitProduct(x: real, y: real)
    requires 0.0 <= x <= 1.0 && 0.0 <= y <= 1.0
    ensures 0.0 <= x * y <= 1.0
  {
    NonNegativeProduct(x, y);
    NonNegativeProduct(1.0 - x, y);
    assert (1.0 - x) * y == y - x * y;
  }

  lemma {:induction false} SumInRange(es: seq<Evidence>, weights: Weights)
    requires UnitWeights(weights)
    ensures 0.0 <= WeightedSum(es, weights) <= |es| as real
  {
    if es == [] {
    } else {
      SumInRange(es[1..], weights);
      WeightedInUnit(es[0], weights);
    }
  }

  lemma StrictScale(x: real, y: real, factor: real)
    requires x < y && factor > 0.0
    ensures x * factor < y * factor
  {
    assert (y - x) * factor > 0.0;
    assert (y - x) * factor == y * factor - x * factor;
  }

  lemma QuotientBounds(s: real, n: real, lo: real, hi: real)
    requires n > 0.0 && lo * n <= s <= hi * n
    ensures lo <= s / n <= hi
  {
    assert (s / n) * n == s;
    if lo > s / n {
      StrictScale(s / n, lo, n);
    }
    if s / n > hi {
      StrictScale(hi, s / n, n);
    }
  }

  lemma QuotientMonotone(s: real, t: real, n: real)
    requires n > 0.0 && s <= t
    ensures s / n <= t / n
  {
    var p, q := s / n, t / n;
    assert p * n == s && q * n == t;
    if q < p {
      StrictScale(q, p, n);
    }
  }

  /** With weights in [0,1] the strength is in [0,1]. */
  lemma StrengthInUnit(es: seq<Evidence>, weights: Weights)
    requires UnitWeights(weights)
    ensures 0.0 <= EvidenceStrength(es, weights) <= 1.0
  {
    if es != [] {
      SumInRange(es, weights);
      QuotientBounds(WeightedSum(es, weights), |es| as real, 0.0, 1.0);
    }
  }

  lemma {:induction false} SumConcat(xs: seq<Evidence>, ys: seq<Evidence>, weights: Weights)
    ensures WeightedSum(xs + ys, weights) == WeightedSum(xs, weights) + WeightedSum(ys, weights)
  {
    if xs == [] {
      assert xs + ys == ys;
    } else {
      assert (xs + ys)[1..] == xs[1..] + ys;
      SumConcat(xs[1..], ys, weights);
    }
  }

  lemma SumWithout(es: seq<Evidence>, i: nat, weights: Weights)
    requires i < |es|
    ensures WeightedSum(es, weights) == Weighted(es[i], weights) + WeightedSum(Without(es, i), weights)
  {
    assert es == es[..i] + ([es[i]] + es[i + 1..]);
    SumConcat(es[..i], [es[i]] + es[i + 1..], weights);
    SumConcat(es[..i], es[i + 1..], weights);
    assert ([es[i]] + es[i + 1..])[1..] == es[i + 1..];
  }

  lemma {:induction false} SumPermutation(xs: seq<Evidence>, ys: seq<Evidence>, weights: Weights)
    requires multiset(xs) == multiset(ys)
    ensures WeightedSum(xs, weights) == WeightedSum(ys, weights)
  {
    if xs == [] {
      assert |multiset(ys)| == 0;
    } else {
      var i := MatchHead(xs, ys);
      SumPermutation(xs[1..], Without(ys, i), weights);
      SumWithout(ys, i, weights);
    }
  }

  /** The order in which evidence was recorded is irrelevant. */
  lemma StrengthPermutation(xs: seq<Evidence>, ys: seq<Evidence>, weights: Weights)
    requires multiset(xs) == multiset(ys)
    ensures EvidenceStrength(xs, weights) == EvidenceStrength(ys, weights)
  {
    SumPermutation(xs, ys, weights);
    assert |xs| == |multiset(xs)| == |multiset(ys)| == |ys|;
  }

  /** `ys` reports the same transformations as `xs`, none with less confidence. */
  ghost predicate AtLeastAsConfident(xs: seq<Evidence>, ys: seq<Evidence>) {
    && |xs| == |ys|
    && forall i :: 0 <= i < |xs| ==>
         xs[i].transformation == ys[i].transformation && xs[i].confidence <= ys[i].confidence
  }

  lemma WeightedMonotone(x: Evidence, y: Evidence, weights: Weights)
    requires UnitWeights(weights) && x.transformation == y.transformation && x.confidence <= y.confidence
    ensures Weighted(x, weights) <= Weighted(y, weights)
  {
    var w := WeightOf(weights, x.transformation);
    WeightInUnit(weights, x.transformation);
    ScaleMonotone(x.confidence, y.confidence, w);
    assert Weighted(x, weights) == x.confidence * w;
    assert Weighted(y, weights) == y.confidence * w;
  }

  lemma {:induction false} SumMonotone(xs: seq<Evidence>, ys: seq<Evidence>, weights: Weights)
    requires UnitWeights(weights) && AtLeastAsConfident(xs, ys)
    ensures WeightedSum(xs, weights) <= WeightedSum(ys, weights)
  {
    if xs == [] {
    } else {
      SumMonotone(xs[1..], ys[1..], weights);
      WeightedMonotone(xs[0], ys[0], weights);
    }
  }

  /** Raising any confidences never lowers the strength. */
  lemma StrengthMonotone(xs: seq<Evidence>, ys: seq<Evidence>, weights: Weights)
    requires UnitWeights(weights) && AtLeastAsConfident(xs, ys)
    ensures EvidenceStrength(xs, weights) <= EvidenceStrength(ys, weights)
  {
    if xs != [] {
      SumMonotone(xs, ys, weights);
      QuotientMonotone(WeightedSum(xs, weights), WeightedSum(ys, weights), |xs| as real);
    }
  }

  lemma MeanTimesLength(es: seq<Evidence>, weights: Weights)
    ensures EvidenceStrength(es, weights) * |es| as real == WeightedSum(es, weights)
  {
  }

  /** Joining two pools gives their length-weighted mean, which lies between the two:
      padding a pool with weaker evidence never raises its strength. */
  lemma StrengthOfJoinedPools(xs: seq<Evidence>, ys: seq<Evidence>, weights: Weights)
    requires xs != [] && ys != []
    ensures var sx, sy := EvidenceStrength(xs, weights), EvidenceStrength(ys, weights);
            var s := EvidenceStrength(xs + ys, weights);
            && s == (sx * |xs| as real + sy * |ys| as real) / (|xs| as real + |ys| as real)
            && (sx <= sy ==> sx <= s <= sy)
            && (sy <= sx ==> sy <= s <= sx)
  {
    var sx, sy := EvidenceStrength(xs, weights), EvidenceStrength(ys, weights);
    var total := JoinedSum(xs, ys, weights);
    WeightedMeanBetween(sx, sy, |xs| as real, |ys| as real, total);
  }

  lemma JoinedSum(xs: seq<Evidence>, ys: seq<Evidence>, weights: Weights) returns (total: real)
    requires xs != [] && ys != []
    ensures total == EvidenceStrength(xs, weights) * |xs| as real + EvidenceStrength(ys, weights) * |ys| as real
    ensures EvidenceStrength(xs + ys, weights) == total / (|xs| as real + |ys| as real)
  {
    total := WeightedSum(xs + ys, weights);
    SumConcat(xs, ys, weights);
    MeanTimesLength(xs, weights);
    MeanTimesLength(ys, weights);
    assert |xs + ys| as real == |xs| as real + |ys| as real;
  }

  lemma WeightedMeanBetween(x: real, y: real, m: real, n: real, s: real)
    requires m > 0.0 && n > 0.0 && s == x * m + y * n
    ensures x <= y ==> x <= s / (m + n) <= y
    ensures y <= x ==> y <= s / (m + n) <= x
  {
    assert x * (m + n) == x * m + x * n && y * (m + n) == y * m + y * n;
    if x <= y {
      ScaleMonotone(x, y, m);
      ScaleMonotone(x, y, n);
      QuotientBounds(s, m + n, x, y);
    }
    if y <= x {
      ScaleMonotone(y, x, m);
      ScaleMonotone(y, x, n);
      QuotientBounds(s, m + n, y, x);
    }
  }

  // Scores

  datatype Breakdown =
    | NoEvidence
    | Scored(rawScore: real, penalty: real, averageConfidence: real)

  datatype TrustScore = TrustScore(agentId: string, score: real, sampleSize: nat, breakdown: Breakdown)

  function Min(x: real, y: real): real { if y < x then y else x }

  function Max(x: real, y: real): real { if y > x then y else x }

  function ConfidenceSum(es: seq<Evidence>): real {
    if es == [] then 0.0 else es[0].confidence + ConfidenceSum(es[1..])
  }

  function OwnEvidence(agentId: string, es: seq<Evidence>): seq<Evidence> {
    Filter(es, (e: Evidence) => e.agentId == agentId)
  }

  function Penalty(recurrences: int): real {
    Min(MAX_RECURRENCE_PENALTY, recurrences as real * RECURRENCE_PENALTY_PER_LESSON)
  }

  function Evaluate(weights: Weights, agentId: string, es: seq<Evidence>, recurrences: int): TrustScore {
    var own := OwnEvidence(agentId, es);
    if own == [] then
      TrustScore(agentId, 0.0, 0, NoEvidence)
    else
      var raw := EvidenceStrength(own, weights);
      var penalty := Penalty(recurrences);
      var score := Max(0.0, Min(1.0, raw - penalty));
      TrustScore(agentId, score, |own|, Scored(raw, penalty, ConfidenceSum(own) / |own| as real))
  }

  /** `TrustEvaluator.rank` */
  function Rank(weights: Weights, agentIds: seq<string>, es: seq<Evidence>): seq<TrustScore> {
    SortDescending(Map(agentIds, (a: string) => Evaluate(weights, a, es, 0)), (s: TrustScore) => s.score)
  }

  /** A ranking has the scores without recurrences, greatest first, equal ones in the order asked. */
  lemma RankOrders(weights: Weights, agentIds: seq<string>, es: seq<Evidence>, k: real)
    ensures var ranked, key := Rank(weights, agentIds, es), (s: TrustScore) => s.score;
            var scores := seq(|agentIds|, i requires 0 <= i < |agentIds| => Evaluate(weights, agentIds[i], es, 0));
            && multiset(ranked) == multiset(scores)
            && (forall i, j :: 0 <= i < j < |ranked| ==> ranked[i].score >= ranked[j].score)
            && KeyClass(ranked, key, k) == KeyClass(scores, key, k)
  {
    var scores := Map(agentIds, (a: string) => Evaluate(weights, a, es, 0));
    var key := (s: TrustScore) => s.score;
    assert scores == seq(|agentIds|, i requires 0 <= i < |agentIds| => Evaluate(weights, agentIds[i], es, 0));
    SortOrders(scores, key);
    SortIsStable(scores, key, k);
    var ranked := Rank(weights, agentIds, es);
    forall i, j | 0 <= i < j < |ranked| ensures ranked[i].score >= ranked[j].score {
      assert key(ranked[i]) >= key(ranked[j]);
    }
  }

  lemma OwnEvidenceConcat(agentId: string, xs: seq<Evidence>, ys: seq<Evidence>)
    ensures OwnEvidence(agentId, xs + ys) == OwnEvidence(agentId, xs) + OwnEvidence(agentId, ys)
  {
    FilterConcat(xs, ys, (e: Evidence) => e.agentId == agentId);
  }

  lemma {:induction false} NoOwnEvidence(agentId: string, es: seq<Evidence>)
    requires forall e :: e in es ==> e.agentId != agentId
    ensures OwnEvidence(agentId, es) == []
  {
    if es == [] {
    } else {
      NoOwnEvidence(agentId, es[1..]);
    }
  }

  /** Other agents' evidence, inserted anywhere, changes nothing about a score. */
  lemma EvaluateIgnoresOthers(
    weights: Weights, agentId: string,
    before: seq<Evidence>, others: seq<Evidence>, after: seq<Evidence>, recurrences: int)
    requires forall e :: e in others ==> e.agentId != agentId
    ensures Evaluate(weights, agentId, before + others + after, recurrences)
            == Evaluate(weights, agentId, before + after, recurrences)
  {
    OwnEvidenceConcat(agentId, before + others, after);
    OwnEvidenceConcat(agentId, before, others);
    OwnEvidenceConcat(agentId, before, after);
    NoOwnEvidence(agentId, others);
    assert OwnEvidence(agentId, before + others + after) == OwnEvidence(agentId, before + after);
  }

  /** No weights and no recurrence count take a score out of [0,1], and an agent without
      evidence of its own scores 0. */
  lemma ScoreInUnit(weights: Weights, agentId: string, es: seq<Evidence>, recurrences: int)
    ensures 0.0 <= Evaluate(weights, agentId, es, recurrences).score <= 1.0
    ensures (forall e :: e in es ==> e.agentId != agentId) ==> Evaluate(weights, agentId, es, recurrences).score == 0.0
  {
    if forall e :: e in es ==> e.agentId != agentId {
      NoOwnEvidence(agentId, es);
    }
  }

  /** More recurrences never raise a score, and from the tenth on nothing changes. */
  lemma RecurrencesOnlyLower(weights: Weights, agentId: string, es: seq<Evidence>, fewer: int, more: int)
    requires fewer <= more
    ensures Evaluate(weights, agentId, es, more).score <= Evaluate(weights, agentId, es, fewer).score
    ensures fewer >= 10 ==> Evaluate(weights, agentId, es, more) == Evaluate(weights, agentId, es, fewer)
  {
    assert fewer as real * RECURRENCE_PENALTY_PER_LESSON <= more as real * RECURRENCE_PENALTY_PER_LESSON;
    if fewer >= 10 {
      assert fewer as real * RECURRENCE_PENALTY_PER_LESSON >= 10.0 * RECURRENCE_PENALTY_PER_LESSON;
    }
  }

  /** The penalty takes at most one half off the raw score exactly when the raw score does
      not exceed 3/2; above that the clamp at 1 alone already takes more. */
  lemma PenaltyAtMostHalf(weights: Weights, agentId: string, es: seq<Evidence>, recurrences: int)
    ensures var raw := EvidenceStrength(OwnEvidence(agentId, es), weights);
            Evaluate(weights, agentId, es, recurrences).score >= raw - 0.5 <==> raw <= 1.5
    ensures UnitWeights(weights) ==>
              Evaluate(weights, agentId, es, recurrences).score
              >= EvidenceStrength(OwnEvidence(agentId, es), weights) - MAX_RECURRENCE_PENALTY
  {
    if UnitWeights(weights) {
      StrengthInUnit(OwnEvidence(agentId, es), weights);
    }
  }

  /** It can take more: an entry of weight 2 and full confidence scores 1 of a raw 2, without
      any recurrence. */
  lemma ClampTakesOne(e: Evidence)
    requires e.transformation == ExtractedVerbatim && e.confidence == 1.0
    ensures var weights: Weights := map[ExtractedVerbatim := 2.0];
            && EvidenceStrength(OwnEvidence(e.agentId, [e]), weights) == 2.0
            && Evaluate(weights, e.agentId, [e], 0).score == 1.0
  {
    var weights: Weights := map[ExtractedVerbatim := 2.0];
    assert [e][1..] == [] && Filter([e][1..], (x: Evidence) => x.agentId == e.agentId) == [];
    assert OwnEvidence(e.agentId, [e]) == [e];
    assert WeightedSum([e], weights) == Weighted(e, weights) + WeightedSum([e][1..], weights);
    assert ExtractedVerbatim in weights;
    assert Weighted(e, weights) == 2.0;
  }

  lemma SumOfOne(e: Evidence, weights: Weights)
    ensures WeightedSum([e], weights) == Weighted(e, weights)
  {
    assert WeightedSum([e], weights) == Weighted(e, weights) + WeightedSum([e][1..], weights);
    assert [e][1..] == [];
  }

  /** What one entry weighs: with custom weights that of its transformation, one half for one they
      do not list; without, 1, 9/10, 7/10 and 1/2. */
  lemma EntryStrength(e: Evidence, weights: Weights)
    ensures weights != map[] ==>
              EvidenceStrength([e], weights)
              == e.confidence * if e.transformation in weights then weights[e.transformation] else 0.5
    ensures weights == map[] ==>
              EvidenceStrength([e], weights)
              == e.confidence * match e.transformation
                                case ExtractedVerbatim => 1.0
                                case Computed => 0.9
                                case Summarized => 0.7
                                case Inferred => 0.5
  {
    SumOfOne(e, weights);
  }

  const ONES: Weights := map[ExtractedVerbatim := 1.0, Computed := 1.0, Summarized := 1.0, Inferred := 1.0]

  lemma UnitWeight(t: Transformation)
    ensures WeightOf(ONES, t) == 1.0
  {
    assert ExtractedVerbatim in ONES;
    match t
    case ExtractedVerbatim =>
    case Computed =>
    case Summarized =>
    case Inferred =>
  }

  lemma {:induction false} ConfidenceIsWeighted(es: seq<Evidence>)
    ensures ConfidenceSum(es) == WeightedSum(es, ONES)
  {
    if es == [] {
    } else {
      ConfidenceIsWeighted(es[1..]);
      UnitWeight(es[0].transformation);
    }
  }

  /** What exactly a score is: with evidence of its own, the strength of all of it less 1/20 for each
      of the first ten recurrences, cut off at 0 and 1. */
  lemma ScoreExactly(weights: Weights, agentId: string, es: seq<Evidence>, recurrences: nat)
    requires exists e :: e in es && e.agentId == agentId
    ensures var own := Filter(es, (e: Evidence) => e.agentId == agentId);
            var t, raw := Evaluate(weights, agentId, es, recurrences), EvidenceStrength(own, weights);
            var penalty := if recurrences < 10 then recurrences as real / 20.0 else 0.5;
            && t.agentId == agentId && t.sampleSize == Count(es, (e: Evidence) => e.agentId == agentId)
            && t.breakdown == Scored(raw, penalty, EvidenceStrength(own, ONES))
            && t.score == if raw - penalty < 0.0 then 0.0 else if raw - penalty > 1.0 then 1.0 else raw - penalty
  {
    var own := (e: Evidence) => e.agentId == agentId;
    FilterElements(es, own);
    FilterLength(es, own);
    ConfidenceIsWeighted(Filter(es, own));
    var e :| e in es && e.agentId == agentId;
    assert e in Filter(es, own);
    PenaltyExactly(recurrences);
  }

  lemma PenaltyExactly(recurrences: nat)
    ensures Penalty(recurrences) == if recurrences < 10 then recurrences as real / 20.0 else 0.5
  {
    var taken := recurrences as real * RECURRENCE_PENALTY_PER_LESSON;
    assert taken == recurrences as real / 20.0;
  }

  /** One entry of full weight and confidence, among others' evidence. */
  lemma FullEntryScore(e: Evidence, before: seq<Evidence>, after: seq<Evidence>, recurrences: nat)
    requires e.transformation == ExtractedVerbatim && e.confidence == 1.0 && recurrences <= 10
    requires forall x :: x in before + after ==> x.agentId != e.agentId
    ensures Evaluate(map[], e.agentId, before + [e] + after, recurrences).score == 1.0 - recurrences as real / 20.0
  {
    OwnEvidenceConcat(e.agentId, before + [e], after);
    OwnEvidenceConcat(e.agentId, before, [e]);
    NoOwnEvidence(e.agentId, before);
    NoOwnEvidence(e.agentId, after);
    FilterOne(e, (x: Evidence) => x.agentId == e.agentId);
    assert OwnEvidence(e.agentId, before + [e] + after) == [e];
    EntryStrength(e, map[]);
    PenaltyExactly(recurrences);
  }
}
