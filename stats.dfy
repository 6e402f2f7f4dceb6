/**
 * The report endpoints: the anxiety level of a total and the emotion state of
 * a 0..3 score, the per-participant rows of the overview report (ordered by
 * creation time and named "Participant 1", "Participant 2", ...), the
 * individual report of one stored analysis, the empty overview, and the query
 * filter built from the request parameters.
 */
module Stats {
  import opened Wrappers
  import opened Numbers
  import opened Text
  import opened JsValues

  /** The questionnaire length the group states assume (the GAD-7 scale). */
  const ItemCount := 7

  // ------------------------------------------------------------ classifiers

  datatype AnxietyLevel = Minimal | Mild | Moderate | Severe

  function AnxietyRank(l: AnxietyLevel): nat {
    match l
    case Minimal => 0
    case Mild => 1
    case Moderate => 2
    case Severe => 3
  }

  /** The GAD-7 bands: up to 4, up to 9, up to 14, above. */
  function AnxietyLevelFromScore(total: real): AnxietyLevel {
    if total <= 4.0 then Minimal
    else if total <= 9.0 then Mild
    else if total <= 14.0 then Moderate
    else Severe
  }

  /** A higher total never gives a lower level. */
  lemma AnxietyLevelMonotone(a: real, b: real)
    requires a <= b
    ensures AnxietyRank(AnxietyLevelFromScore(a)) <= AnxietyRank(AnxietyLevelFromScore(b))
  {
  }

  /** On whole totals the bands are 0-4, 5-9, 10-14 and 15 upwards. */
  lemma AnxietyLevelBands(t: int)
    ensures AnxietyLevelFromScore(t as real) == Minimal <==> t <= 4
    ensures AnxietyLevelFromScore(t as real) == Mild <==> 5 <= t <= 9
    ensures AnxietyLevelFromScore(t as real) == Moderate <==> 10 <= t <= 14
    ensures AnxietyLevelFromScore(t as real) == Severe <==> 15 <= t
  {
  }

  datatype EmotionState = Happy | Surprised | Calm | Sad | Fearful | Disgusted | Angry

  function StateRank(s: EmotionState): nat {
    match s
    case Happy => 0
    case Surprised => 1
    case Calm => 2
    case Sad => 3
    case Fearful => 4
    case Disgusted => 5
    case Angry => 6
  }

  /**
   * The cut points `0.1 * 3`, `0.2 * 3`, `0.3 * 3`, `0.5 * 3`, `0.7 * 3` and
   * `1.0 * 3` as the double-precision products the server computes: the
   * first two lie just above 0.3 and 0.6, the third and fifth just below 0.9
   * and 2.1.
   */
  const Cut1: real := 0.3000000000000000444089209850062616169452667236328125
  const Cut2: real := 0.600000000000000088817841970012523233890533447265625
  const Cut3: real := 0.899999999999999911182158029987476766109466552734375
  const Cut4: real := 1.5
  const Cut5: real := 2.0999999999999996447286321199499070644378662109375
  const Cut6: real := 3.0

  /** The emotion state of a score on the 0..3 scale, by strict comparisons with the cut points. */
  function EmotionStateFromScore(x: real): EmotionState {
    if x < Cut1 then Happy
    else if x < Cut2 then Surprised
    else if x < Cut3 then Calm
    else if x < Cut4 then Sad
    else if x < Cut5 then Fearful
    else if x < Cut6 then Disgusted
    else Angry
  }

  /** A higher score never gives a lower state, and every score of 3 or more is Angry. */
  lemma EmotionStateMonotone(a: real, b: real)
    requires a <= b
    ensures StateRank(EmotionStateFromScore(a)) <= StateRank(EmotionStateFromScore(b))
    ensures b >= 3.0 ==> EmotionStateFromScore(b) == Angry
  {
  }

  /**
   * The cut points lie within 10^-15 of 0.3, 0.6, 0.9, 1.5, 2.1 and 3, and a
   * two-decimal score sits on the side of each cut point that the decimal
   * comparison would give, except at 0.30 and 0.60, which fall below the
   * products and so stay Happy and Surprised.
   */
  lemma EmotionStateAtTwoDecimals()
    ensures Abs(Cut1 - 0.3) < 0.000000000000001 && Abs(Cut2 - 0.6) < 0.000000000000001
    ensures Abs(Cut3 - 0.9) < 0.000000000000001 && Abs(Cut5 - 2.1) < 0.000000000000001
    ensures EmotionStateFromScore(0.29) == Happy && EmotionStateFromScore(0.30) == Happy
    ensures EmotionStateFromScore(0.31) == Surprised
    ensures EmotionStateFromScore(0.60) == Surprised && EmotionStateFromScore(0.61) == Calm
    ensures EmotionStateFromScore(0.89) == Calm && EmotionStateFromScore(0.90) == Sad
    ensures EmotionStateFromScore(1.49) == Sad && EmotionStateFromScore(1.50) == Fearful
    ensures EmotionStateFromScore(2.09) == Fearful && EmotionStateFromScore(2.10) == Disgusted
    ensures EmotionStateFromScore(2.99) == Disgusted && EmotionStateFromScore(3.00) == Angry
  {
  }

  // --------------------------------------------------------- stored records

  /** A stored `adjustedTotal`: absent or null, a finite number, or an infinity. */
  datatype StoredTotal = Missing | Finite(v: real) | NonFinite

  /**
   * A stored analysis as the report endpoints read it. A score array is `None`
   * when the field is not an array; an entry is `None` when it is null.
   * `needsAdjustment` is whatever value the document holds.
   */
  datatype Record = Record(
    id: string,
    createdAt: int,
    normQuestionnaireScores: Option<seq<Option<real>>>,
    normEmotionScores: Option<seq<Option<real>>>,
    needsAdjustment: JsValue,
    adjustedTotal: StoredTotal)

  /** The entries of a score array with null read as 0 (`+b || 0`). */
  function EntryValues(a: seq<Option<real>>): (r: seq<real>)
    ensures |r| == |a|
    ensures forall i :: 0 <= i < |a| ==> r[i] == a[i].GetOr(0.0)
  {
    seq(|a|, i requires 0 <= i < |a| => a[i].GetOr(0.0))
  }

  /** `Array.isArray(a) ? a.reduce((s, b) => s + (+b || 0), 0) : 0`. */
  function TolerantSum(a: Option<seq<Option<real>>>): real {
    if a.Some? then Sum(EntryValues(a.value)) else 0.0
  }

  /** A missing array sums to 0, and null entries add nothing. */
  lemma TolerantSumIgnoresNulls(a: seq<Option<real>>)
    ensures TolerantSum(None) == 0.0
    ensures TolerantSum(Some(a + [None])) == TolerantSum(Some(a))
  {
    assert EntryValues(a + [None]) == EntryValues(a) + [0.0];
    SumAppend(EntryValues(a), 0.0);
  }

  /** A sum of n entries that are null or in [0, 1] lies in [0, n]. */
  lemma TolerantSumBounds(a: seq<Option<real>>)
    requires forall i :: 0 <= i < |a| ==> a[i].Some? ==> 0.0 <= a[i].value <= 1.0
    ensures 0.0 <= TolerantSum(Some(a)) <= |a| as real
  {
    SumBounds(EntryValues(a), 0.0, 1.0);
  }

  /** The individual report's test: only `true`, `1` and `"true"` count as adjusted. */
  predicate CoercedNeedsAdjustment(v: JsValue) {
    v == Bool(true) || v == Num(1.0) || v == Str("true")
  }

  /**
   * Every value the individual report counts as adjusted is truthy, as the
   * overview requires, and on booleans the two tests agree; but a truthy value
   * such as `"yes"` or `2` is adjusted only in the overview.
   */
  lemma CoercionVersusTruthiness(v: JsValue)
    ensures CoercedNeedsAdjustment(v) ==> Truthy(v)
    ensures v.Bool? ==> (CoercedNeedsAdjustment(v) <==> Truthy(v))
    ensures Truthy(Str("yes")) && !CoercedNeedsAdjustment(Str("yes"))
    ensures Truthy(Num(2.0)) && !CoercedNeedsAdjustment(Num(2.0))
  {
  }

  /**
   * The adjusted total of a record: with adjustment, the stored total to two
   * decimals (null when absent or not finite); without, the rounded
   * subjective total.
   */
  function AdjustedValue(adjusted: bool, stored: StoredTotal, subjSum: real): Option<real> {
    if adjusted then
      if stored.Finite? then Some(ToFixed(stored.v, 2)) else None
    else Some(JsRound(subjSum * 3.0) as real)
  }

  // ------------------------------------------------------- overview report

  /** `(x).toFixed(2)`: a string showing exactly two decimals, whose numeric value is `value`. */
  datatype Fixed2Text = Fixed2Text(value: real)

  datatype ParticipantRow = ParticipantRow(
    id: string, name: string, subjective: int, objective: Fixed2Text, adjusted: Option<real>)

  /** `Participant ${idx + 1}`. */
  function ParticipantName(idx: nat): string {
    "Participant " + NatToString(idx + 1)
  }

  function Row(r: Record, idx: nat): ParticipantRow {
    var subjSum := TolerantSum(r.normQuestionnaireScores);
    var objSum := TolerantSum(r.normEmotionScores);
    ParticipantRow(r.id, ParticipantName(idx), JsRound(subjSum * 3.0),
                   Fixed2Text(ToFixed(objSum * 3.0, 2)),
                   AdjustedValue(Truthy(r.needsAdjustment), r.adjustedTotal, subjSum))
  }

  /** The participant rows, one per record in the order given. */
  function Participants(docs: seq<Record>): (rows: seq<ParticipantRow>)
    ensures |rows| == |docs|
    ensures forall i :: 0 <= i < |docs| ==> rows[i] == Row(docs[i], i)
  {
    seq(|docs|, i requires 0 <= i < |docs| => Row(docs[i], i))
  }

  /** Rows are named "Participant 1", "Participant 2", ... and no two rows share a name. */
  lemma ParticipantNamesDistinct(docs: seq<Record>, i: nat, j: nat)
    requires i < j < |docs|
    ensures Participants(docs)[i].name != Participants(docs)[j].name
  {
    var p := "Participant ";
    if ParticipantName(i) == ParticipantName(j) {
      assert NatToString(i + 1) == ParticipantName(i)[|p|..];
      assert NatToString(j + 1) == ParticipantName(j)[|p|..];
      NatToStringInjective(i + 1, j + 1);
    }
  }

  /**
   * A row of a record that is not adjusted carries the subjective total as its
   * adjusted value; an adjusted record carries its stored total to two
   * decimals, or null when that is absent or not finite.
   */
  lemma RowAdjustedRule(r: Record, idx: nat)
    ensures !Truthy(r.needsAdjustment) ==> Row(r, idx).adjusted == Some(Row(r, idx).subjective as real)
    ensures Truthy(r.needsAdjustment) ==>
      (Row(r, idx).adjusted.None? <==> !r.adjustedTotal.Finite?)
    ensures Truthy(r.needsAdjustment) && r.adjustedTotal.Finite? ==>
      Abs(Row(r, idx).adjusted.value - r.adjustedTotal.v) * 100.0 <= 0.5
  {
    if Truthy(r.needsAdjustment) && r.adjustedTotal.Finite? {
      ToFixedClose(r.adjustedTotal.v, 2);
    }
  }

  /** A record whose scores lie in [0, 1] has a subjective total in [0, 3n] for n questionnaire scores. */
  lemma RowSubjectiveBounds(r: Record, idx: nat)
    requires r.normQuestionnaireScores.Some?
    requires var a := r.normQuestionnaireScores.value;
      forall i :: 0 <= i < |a| ==> a[i].Some? ==> 0.0 <= a[i].value <= 1.0
    ensures 0 <= Row(r, idx).subjective <= 3 * |r.normQuestionnaireScores.value|
  {
    var a := r.normQuestionnaireScores.value;
    TolerantSumBounds(a);
  }

  // ------------------------------------------------- ordering by createdAt

  predicate SortedByCreatedAt(docs: seq<Record>) {
    forall i, j :: 0 <= i < j < |docs| ==> docs[i].createdAt <= docs[j].createdAt
  }

  /** Insert d into a sorted list behind every record created no later than d. */
  function InsertByCreatedAt(d: Record, sorted: seq<Record>): (r: seq<Record>)
    requires SortedByCreatedAt(sorted)
    ensures SortedByCreatedAt(r)
    ensures multiset(r) == multiset(sorted) + multiset{d}
    ensures |r| == |sorted| + 1
    decreases |sorted|
  {
    if |sorted| == 0 then [d]
    else if d.createdAt < sorted[0].createdAt then [d] + sorted
    else
      var rest := InsertByCreatedAt(d, sorted[1..]);
      assert sorted == [sorted[0]] + sorted[1..];
      PrependSorted(sorted[0], d, sorted[1..], rest);
      [sorted[0]] + rest
  }

  /**
   * A record created no later than d and than every record of a list stays
   * in front when d is inserted into that list.
   */
  lemma PrependSorted(h: Record, d: Record, tail: seq<Record>, rest: seq<Record>)
    requires h.createdAt <= d.createdAt
    requires forall k :: 0 <= k < |tail| ==> h.createdAt <= tail[k].createdAt
    requires SortedByCreatedAt(rest) && multiset(rest) == multiset(tail) + multiset{d}
    ensures SortedByCreatedAt([h] + rest)
  {
    forall k | 0 <= k < |rest|
      ensures h.createdAt <= rest[k].createdAt
    {
      assert rest[k] in multiset(rest);
      assert rest[k] in multiset(tail) || rest[k] == d;
    }
  }

  /** The `.sort({ createdAt: 1 })` of the query: ascending by creation time, the same records. */
  function SortByCreatedAt(docs: seq<Record>): (r: seq<Record>)
    ensures SortedByCreatedAt(r)
    ensures multiset(r) == multiset(docs)
    decreases |docs|
  {
    if |docs| == 0 then []
    else
      assert docs == docs[..|docs| - 1] + [docs[|docs| - 1]];
      InsertByCreatedAt(docs[|docs| - 1], SortByCreatedAt(docs[..|docs| - 1]))
  }

  /**
   * The overview's participants: every matching record appears once, rows are
   * in ascending creation order, and row i is named "Participant i+1".
   */
  lemma ParticipantsInCreationOrder(docs: seq<Record>)
    ensures var sorted := SortByCreatedAt(docs);
      var rows := Participants(sorted);
      && |rows| == |docs|
      && multiset(sorted) == multiset(docs)
      && (forall i, j :: 0 <= i < j < |rows| ==> sorted[i].createdAt <= sorted[j].createdAt)
      && (forall i :: 0 <= i < |rows| ==> rows[i].id == sorted[i].id && rows[i].name == ParticipantName(i))
  {
    var sorted := SortByCreatedAt(docs);
    assert |sorted| == |multiset(sorted)| == |multiset(docs)| == |docs|;
  }

  // ----------------------------------------------------- individual report

  datatype AdjustedState = Level(level: AnxietyLevel) | NotAvailable

  datatype IndividualReport = IndividualReport(
    id: string,
    subjectiveTotal: int,
    objectiveTotal: real,
    needsAdjustment: bool,
    adjustedTotal: Option<real>,
    subjectiveState: AnxietyLevel,
    adjustedState: AdjustedState,
    objectiveState: EmotionState)

  /** The individual report of one stored analysis. */
  function Individual(r: Record): IndividualReport {
    var subjSum := TolerantSum(r.normQuestionnaireScores);
    var objSum := TolerantSum(r.normEmotionScores);
    var subjective := JsRound(subjSum * 3.0);
    var objective := ToFixed(objSum * 3.0, 2);
    var needsAdj := CoercedNeedsAdjustment(r.needsAdjustment);
    var adjusted := AdjustedValue(needsAdj, r.adjustedTotal, subjSum);
    IndividualReport(r.id, subjective, objective, needsAdj, adjusted,
      AnxietyLevelFromScore((subjective * ItemCount) as real),
      if adjusted.Some? then Level(AnxietyLevelFromScore(adjusted.value)) else NotAvailable,
      EmotionStateFromScore(objective))
  }

  /**
   * The individual report agrees with the record's overview row on the
   * subjective total and the objective value, and on the adjusted total
   * whenever the two adjustment tests agree (always, for a boolean flag).
   */
  lemma IndividualMatchesRow(r: Record, idx: nat)
    ensures Individual(r).subjectiveTotal == Row(r, idx).subjective
    ensures Individual(r).objectiveTotal == Row(r, idx).objective.value
    ensures r.needsAdjustment.Bool? ==> Individual(r).adjustedTotal == Row(r, idx).adjusted
  {
  }

  /**
   * Without adjustment the adjusted total is the subjective total, yet the two
   * states differ: the subjective state classifies seven times the total. A
   * subjective total of 3 is Severe as subjective state and Minimal as adjusted.
   */
  lemma IndividualStatesWithoutAdjustment(r: Record)
    requires !CoercedNeedsAdjustment(r.needsAdjustment)
    ensures Individual(r).adjustedTotal == Some(Individual(r).subjectiveTotal as real)
    ensures Individual(r).subjectiveState == AnxietyLevelFromScore(7.0 * Individual(r).subjectiveTotal as real)
    ensures Individual(r).adjustedState == Level(AnxietyLevelFromScore(Individual(r).subjectiveTotal as real))
    ensures Individual(r).subjectiveTotal == 3 ==>
      Individual(r).subjectiveState == Severe && Individual(r).adjustedState == Level(Minimal)
  {
  }

  /** An adjusted record without a finite stored total has no adjusted total and the state "N/A". */
  lemma IndividualNotAvailable(r: Record)
    requires CoercedNeedsAdjustment(r.needsAdjustment) && !r.adjustedTotal.Finite?
    ensures Individual(r).adjustedTotal.None? && Individual(r).adjustedState == NotAvailable
  {
  }

  // ----------------------------------------------------------- overview

  /**
   * The aggregated overview: record count, the three means (the adjusted mean
   * is null when no record has a numeric total) and the pie counts.
   */
  datatype Overview = Overview(n: nat, subjective: real, objective: real, adjusted: Option<real>,
                               pieLabels: seq<string>, pieValues: seq<nat>)

  /** `overviewAgg[0] || { ... }`: the aggregate, or the empty overview when nothing matched. */
  function OverviewOrDefault(agg: Option<Overview>): Overview {
    agg.GetOr(Overview(0, 0.0, 0.0, Some(0.0), ["Adjusted", "Not adjusted"], [0, 0]))
  }

  datatype GroupStates = GroupStates(subjective: AnxietyLevel, adjusted: AnxietyLevel, objective: EmotionState)

  /** The group states: the two totals are classified at seven items, the objective mean as a state (null reads as 0). */
  function OverviewStates(o: Overview): GroupStates {
    GroupStates(AnxietyLevelFromScore(o.subjective * ItemCount as real),
                AnxietyLevelFromScore(o.adjusted.GetOr(0.0) * ItemCount as real),
                EmotionStateFromScore(o.objective))
  }

  /** With no matching record the overview is empty, its means 0 and its states the lowest ones. */
  lemma EmptyOverview()
    ensures var o := OverviewOrDefault(None);
      && o.n == 0 && o.subjective == 0.0 && o.objective == 0.0 && o.adjusted == Some(0.0)
      && o.pieValues == [0, 0]
      && OverviewStates(o) == GroupStates(Minimal, Minimal, Happy)
  {
  }

  // -------------------------------------------------------- query filter

  datatype Date = Date(ms: int) | InvalidDate

  datatype DateRange = DateRange(gte: Option<Date>, lte: Option<Date>)

  /** The `$match` filter: an optional creation-time range and an optional questionnaire id. */
  datatype Match = Match(createdAt: Option<DateRange>, questionnaireId: Option<string>)

  /**
   * Build the filter from the query parameters (`None` when absent): an empty
   * parameter counts as absent, and an id that is not a valid object id is
   * dropped rather than rejected. `parseDate` is `new Date(...)`.
   */
  method BuildMatch(from: Option<string>, to: Option<string>, questionnaireId: Option<string>,
                    parseDate: string -> Date, isObjectId: string -> bool) returns (m: Match)
    ensures m.createdAt.Some? <==> (from.Some? && from.value != "") || (to.Some? && to.value != "")
    ensures m.createdAt.Some? ==>
      && (m.createdAt.value.gte.Some? <==> from.Some? && from.value != "")
      && (m.createdAt.value.gte.Some? ==> m.createdAt.value.gte.value == parseDate(from.value))
      && (m.createdAt.value.lte.Some? <==> to.Some? && to.value != "")
      && (m.createdAt.value.lte.Some? ==> m.createdAt.value.lte.value == parseDate(to.value))
    ensures m.questionnaireId.Some? <==>
      questionnaireId.Some? && questionnaireId.value != "" && isObjectId(questionnaireId.value)
    ensures m.questionnaireId.Some? ==> m.questionnaireId == questionnaireId
  {
    var hasFrom := from.Some? && from.value != "";
    var hasTo := to.Some? && to.value != "";
    m := Match(None, None);
    if hasFrom || hasTo {
      var range := DateRange(None, None);
      if hasFrom {
        range := range.(gte := Some(parseDate(from.value)));
      }
      if hasTo {
        range := range.(lte := Some(parseDate(to.value)));
      }
      m := m.(createdAt := Some(range));
    }
    if questionnaireId.Some? && questionnaireId.value != "" {
      if isObjectId(questionnaireId.value) {
        m := m.(questionnaireId := questionnaireId);
      }
    }
  }
}
