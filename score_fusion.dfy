/**
 * The score fusion run on the inference payload: the correlation between the
 * normalised questionnaire scores and the normalised emotion scores decides
 * whether to adjust; an adjustment blends each item's subjective score towards
 * its emotion score with a step weight and rescales the blend to 0..3.
 */
module ScoreFusion {
  import opened Wrappers
  import opened Numbers

  /** Adjustment happens only below this correlation. */
  const CorrelationThreshold := 0.6

  /** What the fusion stores in the analysis record. */
  datatype Fusion = Fusion(needsAdjustment: bool, adjustedScores: seq<real>, adjustedTotal: real)

  /** The step weight given to the emotion score for a gap `d` between the two scores. */
  function Alpha(d: real): real {
    if d >= 0.3 then 0.5 else if d >= 0.1 then 0.3 else 0.0
  }

  /** `es[i] ?? 0`: a missing or `null` emotion score counts as 0. */
  function EmotionAt(es: seq<Option<real>>, i: nat): real {
    if i < |es| then es[i].GetOr(0.0) else 0.0
  }

  /** One adjusted item, back on the 0..3 scale: `((1 - alpha) * S + alpha * E) * 3`. */
  function AdjustItem(s: real, e: real): real {
    var alpha := Alpha(Abs(s - e));
    ((1.0 - alpha) * s + alpha * e) * 3.0
  }

  /** The rule `spearmanCorr !== null && spearmanCorr < 0.6`. */
  predicate NeedsAdjustment(corr: Option<real>) {
    corr.Some? && corr.value < CorrelationThreshold
  }

  /**
   * The fusion block: without adjustment the scores are the normalised
   * questionnaire scores verbatim and the total is their (unscaled) sum; with
   * adjustment every item is blended and the total is the sum of the blends.
   */
  function Fuse(qs: seq<real>, es: seq<Option<real>>, corr: Option<real>): Fusion {
    if NeedsAdjustment(corr) then
      var adjusted := seq(|qs|, i requires 0 <= i < |qs| => AdjustItem(qs[i], EmotionAt(es, i)));
      Fusion(true, adjusted, Sum(adjusted))
    else
      Fusion(false, qs, Sum(qs))
  }

  /** The weight never decreases as the gap grows, and stays within [0, 1/2]. */
  lemma AlphaMonotone(d1: real, d2: real)
    requires d1 <= d2
    ensures 0.0 <= Alpha(d1) <= Alpha(d2) <= 0.5
  {
  }

  /** The interval ends: a gap of exactly 0.1 or 0.3 already takes the higher weight. */
  lemma AlphaBoundaries()
    ensures Alpha(0.1) == 0.3 && Alpha(0.3) == 0.5
    ensures forall d :: 0.0 <= d < 0.1 ==> Alpha(d) == 0.0
  {
  }

  /**
   * A blended item lies between the two scores (times 3), moves towards the
   * emotion score by at most half the gap, and is left alone for a gap under 0.1.
   */
  lemma AdjustItemIsBlend(s: real, e: real)
    ensures var b := AdjustItem(s, e) / 3.0;
      && (s <= e ==> s <= b <= e)
      && (e <= s ==> e <= b <= s)
      && Abs(b - s) * 2.0 <= Abs(e - s)
      && (Abs(s - e) < 0.1 ==> b == s)
  {
    var alpha := Alpha(Abs(s - e));
    var b := AdjustItem(s, e) / 3.0;
    assert b == s + alpha * (e - s);
    if alpha == 0.5 {
      assert b == s + 0.5 * (e - s);
    } else if alpha == 0.3 {
      assert b == s + 0.3 * (e - s);
    } else {
      assert b == s;
    }
  }

  /** For scores in [0, 1] an adjusted item lies in [0, 3]. */
  lemma AdjustItemBounds(s: real, e: real)
    requires 0.0 <= s <= 1.0 && 0.0 <= e <= 1.0
    ensures 0.0 <= AdjustItem(s, e) <= 3.0
  {
    AdjustItemIsBlend(s, e);
  }

  /**
   * No adjustment (null correlation, or one of at least 0.6): the questionnaire
   * scores are kept verbatim, whatever the emotion scores are.
   */
  lemma NoAdjustmentKeepsSubjective(qs: seq<real>, es: seq<Option<real>>, corr: Option<real>)
    requires corr.None? || corr.value >= CorrelationThreshold
    ensures !Fuse(qs, es, corr).needsAdjustment
    ensures Fuse(qs, es, corr).adjustedScores == qs
    ensures Fuse(qs, es, corr).adjustedTotal == Sum(qs)
  {
  }

  /**
   * With adjustment there is one adjusted score per questionnaire score, each
   * the blend of item i; for scores in [0, 1] each lies in [0, 3], and the total
   * is their sum, within [0, 3n].
   */
  lemma AdjustedShape(qs: seq<real>, es: seq<Option<real>>, corr: Option<real>)
    requires NeedsAdjustment(corr)
    requires forall i :: 0 <= i < |qs| ==> 0.0 <= qs[i] <= 1.0
    requires forall i :: 0 <= i < |es| ==> es[i].Some? ==> 0.0 <= es[i].value <= 1.0
    ensures var f := Fuse(qs, es, corr);
      && f.needsAdjustment
      && |f.adjustedScores| == |qs|
      && (forall i :: 0 <= i < |qs| ==> f.adjustedScores[i] == AdjustItem(qs[i], EmotionAt(es, i)))
      && (forall i :: 0 <= i < |qs| ==> 0.0 <= f.adjustedScores[i] <= 3.0)
      && f.adjustedTotal == Sum(f.adjustedScores)
      && 0.0 <= f.adjustedTotal <= 3.0 * |qs| as real
  {
    var f := Fuse(qs, es, corr);
    forall i | 0 <= i < |qs|
      ensures 0.0 <= f.adjustedScores[i] <= 3.0
    {
      AdjustItemBounds(qs[i], EmotionAt(es, i));
    }
    SumBounds(f.adjustedScores, 0.0, 3.0);
  }

  /** Only the correlation decides whether to adjust. */
  lemma DecisionIff(qs: seq<real>, es: seq<Option<real>>, corr: Option<real>)
    ensures Fuse(qs, es, corr).needsAdjustment <==> (corr.Some? && corr.value < 0.6)
  {
  }

  /**
   * Seven items with subjective 0 and emotion 1 under a correlation of 0.2:
   * every gap is 1, every weight 1/2, every item 1.5, the total 10.5.
   */
  lemma ScenarioFullDisagreement()
    ensures var f := Fuse(seq(7, _ => 0.0), seq(7, _ => Some(1.0)), Some(0.2));
      f.needsAdjustment && f.adjustedScores == seq(7, _ => 1.5) && f.adjustedTotal == 10.5
  {
    var qs := seq(7, _ => 0.0);
    var es := seq(7, _ => Some(1.0));
    var f := Fuse(qs, es, Some(0.2));
    assert forall i :: 0 <= i < 7 ==> AdjustItem(qs[i], EmotionAt(es, i)) == 1.5;
    assert f.adjustedScores == seq(7, _ => 1.5);
    SumBounds(f.adjustedScores, 1.5, 1.5);
  }

  /**
   * Seven items with equal subjective and emotion scores of 1/3 under a
   * correlation of 0.9: nothing is adjusted and the stored total is the
   * unscaled sum 7/3, not 7.
   */
  lemma ScenarioAgreement()
    ensures var f := Fuse(seq(7, _ => 1.0 / 3.0), seq(7, _ => Some(1.0 / 3.0)), Some(0.9));
      !f.needsAdjustment && f.adjustedTotal == 7.0 / 3.0
  {
    var t := seq(7, _ => 1.0 / 3.0);
    SumBounds(t, 1.0 / 3.0, 1.0 / 3.0);
  }
}
