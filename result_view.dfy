/**
 * What the participant's result page and the administrator's individual
 * report derive from a submission and its analysis before drawing: per-item
 * values on the 0..3 scale (`scaleTo03` triples arrays that look normalised),
 * the final per-item scores (the adjusted ones only when adjustment applies
 * and the lengths agree), totals, signed deviations of the objective scores,
 * the anxiety category shown to the participant and the administrator's
 * final-score gauge.
 */
module ResultView {
  import opened Wrappers
  import opened Numbers
  import opened JsValues
  import Stats

  /** The largest value tolerated as "already normalised". */
  const NormalisedCeiling := 1.000001

  /** `(arr || []).map(v => Number(v ?? 0))`: a missing array is empty, a null entry 0. */
  function ValuesOrZero(arr: Option<seq<Option<real>>>): (r: seq<real>)
    ensures arr.None? ==> r == []
    ensures arr.Some? ==> |r| == |arr.value| && forall i :: 0 <= i < |r| ==> r[i] == arr.value[i].GetOr(0.0)
  {
    if arr.None? then [] else seq(|arr.value|, i requires 0 <= i < |arr.value| => arr.value[i].GetOr(0.0))
  }

  /** `Math.max(0, ...a)`. */
  function MaxWithZero(a: seq<real>): (m: real)
    ensures m >= 0.0
    ensures forall i :: 0 <= i < |a| ==> a[i] <= m
    ensures m == 0.0 || exists i :: 0 <= i < |a| && a[i] == m
    decreases |a|
  {
    if |a| == 0 then 0.0
    else
      var m := MaxWithZero(a[..|a| - 1]);
      if a[|a| - 1] > m then a[|a| - 1] else m
  }

  /** `scaleTo03`: triple every value when none exceeds the ceiling, else keep them. */
  function ScaleTo03(arr: Option<seq<Option<real>>>): seq<real> {
    var a := ValuesOrZero(arr);
    if MaxWithZero(a) <= NormalisedCeiling then seq(|a|, i requires 0 <= i < |a| => a[i] * 3.0) else a
  }

  /**
   * The scaling keeps the length and maps null to 0; every value is tripled
   * exactly when no value exceeds 1.000001, and otherwise all are kept as they are.
   */
  lemma ScaleTo03Rule(arr: Option<seq<Option<real>>>)
    ensures var a := ValuesOrZero(arr);
      && |ScaleTo03(arr)| == |a|
      && ((forall i :: 0 <= i < |a| ==> a[i] <= NormalisedCeiling) ==>
            forall i :: 0 <= i < |a| ==> ScaleTo03(arr)[i] == 3.0 * a[i])
      && ((exists i :: 0 <= i < |a| && a[i] > NormalisedCeiling) ==> ScaleTo03(arr) == a)
  {
    var a := ValuesOrZero(arr);
    if forall i :: 0 <= i < |a| ==> a[i] <= NormalisedCeiling {
      assert MaxWithZero(a) <= NormalisedCeiling;
    }
  }

  /** The heuristic is not idempotent: 0.2 scales to 0.6, and 0.6 again to 1.8. */
  lemma ScaleTo03NotIdempotent()
    ensures ScaleTo03(Some([Some(0.2)])) == [0.6]
    ensures ScaleTo03(Some([Some(0.6)])) == [1.8]
  {
    assert MaxWithZero([0.2]) == 0.2 by { assert [0.2][..0] == []; }
    assert MaxWithZero([0.6]) == 0.6 by { assert [0.6][..0] == []; }
  }

  // --------------------------------------------------- participant result page

  /** A stored answer as the result page reads it; a field is `None` when null or absent. */
  datatype AnswerView = AnswerView(norm: Option<real>, normalized: Option<real>, score: Option<real>)

  /** `norm`, else `normalized`, else `score`, else 0 (a null answer counts as 0 too). */
  function SubjectiveRaw(a: Option<AnswerView>): real {
    if a.None? then 0.0
    else if a.value.norm.Some? then a.value.norm.value
    else if a.value.normalized.Some? then a.value.normalized.value
    else a.value.score.GetOr(0.0)
  }

  /**
   * Answers that carry only their raw 0..3 scores are tripled as well when
   * every score is 0 or 1: three answers scored 1, 0 and 1 show as 3, 0 and 3.
   */
  lemma RawScoresOfZeroAndOneAreTripled()
    ensures var answers := [Some(AnswerView(None, None, Some(1.0))), Some(AnswerView(None, None, Some(0.0))),
                            Some(AnswerView(None, None, Some(1.0)))];
      ScaleTo03(Some(seq(3, i requires 0 <= i < 3 => Some(SubjectiveRaw(answers[i]))))) == [3.0, 0.0, 3.0]
  {
    var answers := [Some(AnswerView(None, None, Some(1.0))), Some(AnswerView(None, None, Some(0.0))),
                    Some(AnswerView(None, None, Some(1.0)))];
    var arr := Some(seq(3, i requires 0 <= i < 3 => Some(SubjectiveRaw(answers[i]))));
    assert ValuesOrZero(arr) == [1.0, 0.0, 1.0];
    ScaleTo03Rule(arr);
  }

  /**
   * The final per-item scores: the scaled adjusted scores when adjustment
   * applies and the adjusted array has the expected length, else the
   * subjective ones.
   */
  function FinalScore(needsAdjustment: bool, adjusted: Option<seq<Option<real>>>, expectedLen: nat,
                      subjective: seq<real>): seq<real>
  {
    if needsAdjustment && adjusted.Some? && |adjusted.value| == expectedLen then ScaleTo03(adjusted)
    else subjective
  }

  /**
   * The final scores are the scaled adjusted scores exactly under the three
   * conditions and the subjective scores otherwise; with the subjective length
   * as the expected one, they always have the subjective length.
   */
  lemma FinalScoreRule(needsAdjustment: bool, adjusted: Option<seq<Option<real>>>, expectedLen: nat,
                       subjective: seq<real>)
    ensures needsAdjustment && adjusted.Some? && |adjusted.value| == expectedLen ==>
      FinalScore(needsAdjustment, adjusted, expectedLen, subjective) == ScaleTo03(adjusted)
    ensures !(needsAdjustment && adjusted.Some? && |adjusted.value| == expectedLen) ==>
      FinalScore(needsAdjustment, adjusted, expectedLen, subjective) == subjective
    ensures expectedLen == |subjective| ==> |FinalScore(needsAdjustment, adjusted, expectedLen, subjective)| == |subjective|
  {
    if needsAdjustment && adjusted.Some? && |adjusted.value| == expectedLen {
      ScaleTo03Rule(adjusted);
    }
  }

  /** `objective.map((o, i) => Number((o - (other[i] ?? 0)).toFixed(3)))`. */
  function Deviations(objective: seq<real>, other: seq<real>): (r: seq<real>)
    ensures |r| == |objective|
  {
    seq(|objective|, i requires 0 <= i < |objective| =>
      ToFixed(objective[i] - (if i < |other| then other[i] else 0.0), 3))
  }

  /** Each deviation is objective minus partner (0 when missing), to within half a thousandth. */
  lemma DeviationsMeaning(objective: seq<real>, other: seq<real>, i: nat)
    requires i < |objective|
    ensures Abs(Deviations(objective, other)[i] - (objective[i] - (if i < |other| then other[i] else 0.0))) * 1000.0 <= 0.5
  {
    ToFixedClose(objective[i] - (if i < |other| then other[i] else 0.0), 3);
  }

  /** The analysis as the result page reads it (`None` fields are null or absent). */
  datatype AnalysisView = AnalysisView(normEmotionScores: Option<seq<Option<real>>>,
                                       adjustedScores: Option<seq<Option<real>>>,
                                       needsAdjustment: JsValue)

  datatype ResultComputed = ResultComputed(
    subjective: seq<real>, objective: seq<real>, finalScore: seq<real>,
    subjectiveTotal: real, objectiveTotal: real, adjustedTotal: Option<real>, finalTotal: real,
    needsAdjustment: bool, devObjSubj: seq<real>, devObjFinal: seq<real>)

  /** The result page's `computed` memo for a loaded submission's answers and its analysis (if any). */
  function ResultDetailComputed(answers: seq<Option<AnswerView>>, analysis: Option<AnalysisView>): ResultComputed {
    var emoNorm := if analysis.Some? then analysis.value.normEmotionScores else None;
    var adjusted := if analysis.Some? then analysis.value.adjustedScores else None;
    var needs := analysis.Some? && Truthy(analysis.value.needsAdjustment);
    var subjective := ScaleTo03(Some(seq(|answers|, i requires 0 <= i < |answers| => Some(SubjectiveRaw(answers[i])))));
    var objective := ScaleTo03(emoNorm);
    var finalScore := FinalScore(needs, adjusted, |answers|, subjective);
    var finalTotal := ToFixed(Sum(finalScore), 3);
    ResultComputed(subjective, objective, finalScore,
      ToFixed(Sum(subjective), 3), ToFixed(Sum(objective), 3),
      if needs then Some(finalTotal) else None, finalTotal, needs,
      Deviations(objective, subjective), Deviations(objective, finalScore))
  }

  /**
   * On the result page there is one subjective and one final value per
   * answer and one deviation per objective value; the adjusted total is shown
   * only under adjustment; without adjustment the final scores, totals and
   * both deviation series coincide with the subjective ones.
   */
  lemma ResultDetailShape(answers: seq<Option<AnswerView>>, analysis: Option<AnalysisView>)
    ensures var c := ResultDetailComputed(answers, analysis);
      && |c.subjective| == |answers| && |c.finalScore| == |answers|
      && |c.devObjSubj| == |c.objective| == |c.devObjFinal|
      && (c.adjustedTotal.Some? <==> c.needsAdjustment)
      && (!c.needsAdjustment ==>
            c.finalScore == c.subjective && c.finalTotal == c.subjectiveTotal && c.devObjSubj == c.devObjFinal)
  {
    var subjRaw := Some(seq(|answers|, i requires 0 <= i < |answers| => Some(SubjectiveRaw(answers[i]))));
    ScaleTo03Rule(subjRaw);
    var c := ResultDetailComputed(answers, analysis);
    FinalScoreRule(c.needsAdjustment, if analysis.Some? then analysis.value.adjustedScores else None,
                   |answers|, c.subjective);
  }

  // ------------------------------------------------------ anxiety category

  datatype Category = Normal | MildAnxiety | ModerateAnxiety | SevereAnxiety

  function CategoryRank(c: Category): nat {
    match c
    case Normal => 0
    case MildAnxiety => 1
    case ModerateAnxiety => 2
    case SevereAnxiety => 3
  }

  /** `getAnxietyCategory`: 16 and above severe, 11 moderate, 6 mild, else normal. */
  function AnxietyCategory(finalTotal: real): Category {
    if finalTotal >= 16.0 then SevereAnxiety
    else if finalTotal >= 11.0 then ModerateAnxiety
    else if finalTotal >= 6.0 then MildAnxiety
    else Normal
  }

  /** The range label shown beside the category. */
  function CategoryRange(c: Category): string {
    match c
    case Normal => "0–5"
    case MildAnxiety => "6–10"
    case ModerateAnxiety => "11–15"
    case SevereAnxiety => "16–21"
  }

  /**
   * On whole totals the page's category and the server's anxiety level agree
   * except at 5, 10 and 15, where the page shows the next lower band.
   */
  lemma CategoryVersusServerLevel(t: int)
    ensures CategoryRank(AnxietyCategory(t as real)) <= Stats.AnxietyRank(Stats.AnxietyLevelFromScore(t as real))
    ensures CategoryRank(AnxietyCategory(t as real)) == Stats.AnxietyRank(Stats.AnxietyLevelFromScore(t as real))
      <==> (t != 5 && t != 10 && t != 15)
  {
  }

  // ------------------------------------------- administrator's individual report

  /** The individual report as the administrator's page receives it. */
  datatype ReportView = ReportView(
    normQuestionnaireScores: Option<seq<Option<real>>>,
    normEmotionScores: Option<seq<Option<real>>>,
    adjustedScores: Option<seq<Option<real>>>,
    needsAdjustment: JsValue,
    adjustedTotal: Option<real>,
    subjectiveTotal: Option<real>)

  datatype AdminComputed = AdminComputed(
    subjective: seq<real>, objective: seq<real>, finalScore: seq<real>,
    needsAdjustment: bool, devObjSubj: seq<real>, devObjFinal: seq<real>)

  /** The administrator page's `computed` memo. */
  function AdminReportComputed(data: ReportView): AdminComputed {
    var subjective := ScaleTo03(data.normQuestionnaireScores);
    var objective := ScaleTo03(data.normEmotionScores);
    var needs := Truthy(data.needsAdjustment);
    var finalScore := FinalScore(needs, data.adjustedScores, |subjective|, subjective);
    AdminComputed(subjective, objective, finalScore, needs,
      Deviations(objective, subjective), Deviations(objective, finalScore))
  }

  /**
   * On the administrator's page the final scores have the subjective length,
   * the deviations follow the objective series, and without adjustment both
   * deviation series are equal.
   */
  lemma AdminReportShape(data: ReportView)
    ensures var c := AdminReportComputed(data);
      && |c.finalScore| == |c.subjective|
      && |c.devObjSubj| == |c.objective| == |c.devObjFinal|
      && (!c.needsAdjustment ==> c.finalScore == c.subjective && c.devObjSubj == c.devObjFinal)
  {
    var c := AdminReportComputed(data);
    FinalScoreRule(c.needsAdjustment, data.adjustedScores, |c.subjective|, c.subjective);
  }

  /** The gauge maximum: seven items of at most 3. */
  const MaxFinal := 21.0

  /** `Number(adjustedTotal ?? subjectiveTotal) || 0`. */
  function FinalVal(data: ReportView): real {
    if data.adjustedTotal.Some? then data.adjustedTotal.value else data.subjectiveTotal.GetOr(0.0)
  }

  /** `Math.max(0, Math.min(1, finalVal / 21))`. */
  function Progress(data: ReportView): real {
    Clamp(FinalVal(data) / MaxFinal, 0.0, 1.0)
  }

  /**
   * The gauge shows the adjusted total when present, else the subjective one;
   * its fill is within [0, 1] and proportional for totals within [0, 21].
   */
  lemma ProgressMeaning(data: ReportView)
    ensures data.adjustedTotal.Some? ==> FinalVal(data) == data.adjustedTotal.value
    ensures data.adjustedTotal.None? && data.subjectiveTotal.Some? ==> FinalVal(data) == data.subjectiveTotal.value
    ensures 0.0 <= Progress(data) <= 1.0
    ensures 0.0 <= FinalVal(data) <= MaxFinal ==> Progress(data) * MaxFinal == FinalVal(data)
  {
  }
}
