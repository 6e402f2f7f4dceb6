/**
 * Scoring of a questionnaire submission: every questionnaire item gets exactly
 * one stored answer, found among the received entries by question id or by
 * position, scored as its option index clamped to [0, 3] (0 when unanswered),
 * and the scores are summed into the submission's total.
 */
module AnswerScoring {
  import opened Wrappers
  import opened Numbers

  /** A questionnaire item as stored with the questionnaire. */
  datatype Item = Item(id: string, prompt: string, options: seq<string>)

  /**
   * One element of the received answers array. A field is `None` when the
   * property is absent or not of the type it is compared against (a string
   * `questionId`, a numeric `index` and `optionIndex`). `NullEntry` is a `null`
   * element: reading a property of it throws a TypeError.
   */
  datatype Received =
    | Entry(questionId: Option<string>, index: Option<real>, optionIndex: Option<real>)
    | NullEntry

  /** The answer stored for one item. */
  datatype Answer = Answer(questionId: string, prompt: string, optionIndex: real, optionText: string, score: real)

  /** What the search over the received entries for one item ends with. */
  datatype Lookup = Found(at: nat) | NotFound | Throws

  const NotAnswered := "Not answered"

  /** The test `a.questionId === item.id || a.index === i`, for a non-null entry. */
  predicate Matches(e: Received, item: Item, i: nat)
    requires e.Entry?
  {
    e.questionId == Some(item.id) || e.index == Some(i as real)
  }

  /**
   * `received.find(...)` for item `i`, continued from position `from`: the
   * first entry that matches, or a throw when a `null` entry is reached first.
   */
  function FindFrom(received: seq<Received>, item: Item, i: nat, from: nat): (r: Lookup)
    requires from <= |received|
    ensures r.Found? ==> from <= r.at < |received| && received[r.at].Entry? && Matches(received[r.at], item, i)
    ensures r.Found? || r.NotFound? ==>
      forall j :: from <= j < (if r.Found? then r.at else |received|) ==>
        received[j].Entry? && !Matches(received[j], item, i)
    ensures r.Throws? <==> exists j :: (from <= j < |received| && received[j].NullEntry? &&
      forall k :: from <= k < j ==> received[k].Entry? && !Matches(received[k], item, i))
    decreases |received| - from
  {
    if from == |received| then NotFound
    else if received[from].NullEntry? then Throws
    else if Matches(received[from], item, i) then Found(from)
    else
      var r := FindFrom(received, item, i, from + 1);
      assert r.Throws? ==> exists j :: (from <= j < |received| && received[j].NullEntry? &&
        forall k :: from <= k < j ==> received[k].Entry? && !Matches(received[k], item, i));
      r
  }

  /** `optionIndex >= 0 ? Math.min(Math.max(optionIndex, 0), 3) : 0`. */
  function Score(optionIndex: real): (r: real)
    ensures 0.0 <= r <= 3.0
    ensures optionIndex < 0.0 ==> r == 0.0
    ensures 0.0 <= optionIndex <= 3.0 ==> r == optionIndex
    ensures 3.0 < optionIndex ==> r == 3.0
  {
    if optionIndex >= 0.0 then Clamp(optionIndex, 0.0, 3.0) else 0.0
  }

  /** `item.options?.[optionIndex] ?? "Not answered"`: only a whole index inside the list selects a text. */
  function OptionText(options: seq<string>, optionIndex: real): (r: string)
    ensures (optionIndex < 0.0 || optionIndex >= |options| as real) ==> r == NotAnswered
  {
    if 0.0 <= optionIndex && optionIndex.Floor as real == optionIndex && optionIndex.Floor < |options|
    then options[optionIndex.Floor]
    else NotAnswered
  }

  /** `typeof match?.optionIndex === "number" ? match.optionIndex : -1`. */
  function ChosenIndex(received: seq<Received>, l: Lookup): real
    requires l.Found? ==> l.at < |received| && received[l.at].Entry?
  {
    if l.Found? && received[l.at].optionIndex.Some? then received[l.at].optionIndex.value else -1.0
  }

  /** The answer for item `i`, or `None` when the lookup throws. */
  function AnswerFor(items: seq<Item>, received: seq<Received>, i: nat): Option<Answer>
    requires i < |items|
  {
    var item := items[i];
    var l := FindFrom(received, item, i, 0);
    if l.Throws? then None
    else
      var oi := ChosenIndex(received, l);
      Some(Answer(item.id, item.prompt, oi, OptionText(item.options, oi), Score(oi)))
  }

  /**
   * The answers for the first `n` items, in item order, or `None` when scoring
   * one of them throws.
   */
  function ScoreAll(items: seq<Item>, received: seq<Received>, n: nat): Option<seq<Answer>>
    requires n <= |items|
  {
    if n == 0 then Some([])
    else match ScoreAll(items, received, n - 1)
      case None => None
      case Some(prev) =>
        match AnswerFor(items, received, n - 1)
        case None => None
        case Some(a) => Some(prev + [a])
  }

  /** The per-answer scores, in order. */
  function Scores(answers: seq<Answer>): (r: seq<real>)
    ensures |r| == |answers|
    ensures forall k :: 0 <= k < |r| ==> r[k] == answers[k].score
  {
    seq(|answers|, k requires 0 <= k < |answers| => answers[k].score)
  }

  /**
   * The scoring loop of both submission handlers: one answer per item, pushed in
   * item order, with the running total of the scores.
   */
  method ProcessAnswers(items: seq<Item>, received: seq<Received>) returns (ok: bool, answers: seq<Answer>, total: real)
    ensures ok <==> ScoreAll(items, received, |items|).Some?
    ensures ok ==> answers == ScoreAll(items, received, |items|).value
    ensures ok ==> total == Sum(Scores(answers))
  {
    answers := [];
    total := 0.0;
    var i: nat := 0;
    while i < |items|
      invariant 0 <= i <= |items|
      invariant ScoreAll(items, received, i) == Some(answers)
      invariant total == Sum(Scores(answers))
    {
      var a := AnswerFor(items, received, i);
      if a.None? {
        ok := false;
        NoneStaysNone(items, received, i + 1, |items|);
        return;
      }
      SumAppend(Scores(answers), a.value.score);
      assert Scores(answers + [a.value]) == Scores(answers) + [a.value.score];
      answers := answers + [a.value];
      total := total + a.value.score;
      i := i + 1;
    }
    ok := true;
  }

  /** Once scoring throws for some item, the whole scoring throws. */
  lemma {:induction false} NoneStaysNone(items: seq<Item>, received: seq<Received>, m: nat, n: nat)
    requires m <= n <= |items|
    requires ScoreAll(items, received, m).None?
    ensures ScoreAll(items, received, n).None?
    decreases n - m
  {
    if m < n {
      NoneStaysNone(items, received, m + 1, n);
    }
  }

  /**
   * Successful scoring stores exactly one answer per item, in item order, with
   * the item's id and prompt and a score in [0, 3].
   */
  lemma {:induction false} ScoreAllShape(items: seq<Item>, received: seq<Received>, n: nat)
    requires n <= |items|
    requires ScoreAll(items, received, n).Some?
    ensures var ans := ScoreAll(items, received, n).value;
      && |ans| == n
      && forall k :: 0 <= k < n ==>
        && AnswerFor(items, received, k) == Some(ans[k])
        && ans[k].questionId == items[k].id
        && ans[k].prompt == items[k].prompt
        && 0.0 <= ans[k].score <= 3.0
    decreases n
  {
    if n > 0 {
      ScoreAllShape(items, received, n - 1);
    }
  }

  /** The total of a successful scoring lies in [0, 3 * number of items]. */
  lemma TotalBounds(items: seq<Item>, received: seq<Received>)
    requires ScoreAll(items, received, |items|).Some?
    ensures 0.0 <= Sum(Scores(ScoreAll(items, received, |items|).value)) <= 3.0 * |items| as real
  {
    ScoreAllShape(items, received, |items|);
    var s := Scores(ScoreAll(items, received, |items|).value);
    SumBounds(s, 0.0, 3.0);
  }

  /** Without `null` entries the lookup never throws, so scoring always succeeds. */
  lemma {:induction false} NoNullNeverThrows(items: seq<Item>, received: seq<Received>, n: nat)
    requires n <= |items|
    requires forall j :: 0 <= j < |received| ==> received[j].Entry?
    ensures ScoreAll(items, received, n).Some?
    decreases n
  {
    if n > 0 {
      NoNullNeverThrows(items, received, n - 1);
      assert !FindFrom(received, items[n - 1], n - 1, 0).Throws?;
    }
  }

  /**
   * The stored answer for item `i` takes the option index of the first entry
   * whose `questionId` is the item's id or whose `index` is `i`; a missing match
   * or a non-numeric option index is recorded as -1, "Not answered", score 0.
   */
  lemma AnswerForChoice(items: seq<Item>, received: seq<Received>, i: nat, j: nat)
    requires i < |items| && j < |received|
    requires received[j].Entry? && Matches(received[j], items[i], i)
    requires forall k :: 0 <= k < j ==> received[k].Entry? && !Matches(received[k], items[i], i)
    ensures AnswerFor(items, received, i).Some?
    ensures var a := AnswerFor(items, received, i).value;
      && a.optionIndex == (if received[j].optionIndex.Some? then received[j].optionIndex.value else -1.0)
      && (received[j].optionIndex.None? ==> a.optionText == NotAnswered && a.score == 0.0)
  {
    var l := FindFrom(received, items[i], i, 0);
    assert l.Found? && l.at == j;
  }

  /** An item no entry matches (and no `null` entry precedes) is stored unanswered. */
  lemma UnmatchedIsUnanswered(items: seq<Item>, received: seq<Received>, i: nat)
    requires i < |items|
    requires forall k :: 0 <= k < |received| ==> received[k].Entry? && !Matches(received[k], items[i], i)
    ensures AnswerFor(items, received, i) ==
      Some(Answer(items[i].id, items[i].prompt, -1.0, NotAnswered, 0.0))
  {
    assert FindFrom(received, items[i], i, 0).NotFound?;
  }
}
