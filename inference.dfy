/**
 * The emotion-recognition script the server runs on a session's transcoded
 * clips. It picks the video model with the best accuracy in its file name,
 * samples face frames from each clip, labels each clip with the emotion whose
 * summed video and audio probability is highest, maps the label to a
 * negativity score in [0, 1], normalises the questionnaire scores to [0, 1]
 * and correlates the two series.
 *
 * The neural networks, the face detector, the audio pipeline and Spearman's
 * coefficient are parameters: a clip is given by its mean class probabilities,
 * a frame by the number of faces detected in it.
 */
module Inference {
  import opened Wrappers
  import opened Numbers
  import opened Text

  /** The class indices of both networks, in the order of the label dictionary. */
  datatype Emotion = Angry | Calm | Disgust | Fear | Happy | Sad | Surprise

  const ClassCount := 7

  /** The label dictionary: class index to emotion. */
  function EmotionOf(k: nat): Option<Emotion> {
    if k == 0 then Some(Angry)
    else if k == 1 then Some(Calm)
    else if k == 2 then Some(Disgust)
    else if k == 3 then Some(Fear)
    else if k == 4 then Some(Happy)
    else if k == 5 then Some(Sad)
    else if k == 6 then Some(Surprise)
    else None
  }

  /** The negativity score of a label: 0 for happy up to 1 for angry. */
  function EmotionScore(e: Emotion): real {
    match e
    case Happy => 0.0
    case Surprise => 0.1
    case Calm => 0.2
    case Sad => 0.3
    case Fear => 0.5
    case Disgust => 0.7
    case Angry => 1.0
  }

  /** Every class index the networks can produce has a label, and no other index does. */
  lemma EmotionOfDefined(k: nat)
    ensures EmotionOf(k).Some? <==> k < ClassCount
  {
  }

  /**
   * The scores order the labels from happy, through surprise, calm, sad, fear
   * and disgust, to angry, strictly, within [0, 1].
   */
  lemma EmotionScoreOrder()
    ensures 0.0 == EmotionScore(Happy) < EmotionScore(Surprise) < EmotionScore(Calm)
      < EmotionScore(Sad) < EmotionScore(Fear) < EmotionScore(Disgust) < EmotionScore(Angry) == 1.0
    ensures forall e: Emotion :: 0.0 <= EmotionScore(e) <= 1.0
  {
  }

  /** The first index holding the largest value (`list.index(max(list))`, NumPy `argmax`). */
  function FirstMaxIndex(p: seq<real>): (k: nat)
    requires |p| > 0
    ensures k < |p|
    ensures forall j :: 0 <= j < |p| ==> p[j] <= p[k]
    ensures forall j :: 0 <= j < k ==> p[j] < p[k]
    decreases |p|
  {
    if |p| == 1 then 0
    else
      var k := FirstMaxIndex(p[..|p| - 1]);
      if p[|p| - 1] > p[k] then |p| - 1 else k
  }

  /** The elementwise sum of two probability vectors of the same length. */
  function AddVec(p: seq<real>, q: seq<real>): (r: seq<real>)
    requires |p| == |q|
    ensures |r| == |p| && forall j :: 0 <= j < |p| ==> r[j] == p[j] + q[j]
  {
    seq(|p|, j requires 0 <= j < |p| => p[j] + q[j])
  }

  /**
   * When the video and the audio stream both pick class k, so does their sum:
   * the global label then agrees with both.
   */
  lemma GlobalAgreesWithStreams(p: seq<real>, q: seq<real>)
    requires |p| == |q| > 0
    requires FirstMaxIndex(p) == FirstMaxIndex(q)
    ensures FirstMaxIndex(AddVec(p, q)) == FirstMaxIndex(p)
  {
    var k := FirstMaxIndex(p);
    var s := AddVec(p, q);
    var m := FirstMaxIndex(s);
    if m != k {
      assert false;
    }
  }

  // ---------------------------------------------------------------- models

  /**
   * The accuracy a model's file name carries between its first `[` and the
   * following `]`, or `None` when the name has no `[` (an IndexError) or the
   * text is not a number (`toFloat` fails: a ValueError).
   */
  function BracketAccuracy(name: string, toFloat: string -> Option<real>): Option<real> {
    var parts := Split(name, '[');
    if |parts| < 2 then None else toFloat(Split(parts[1], ']')[0])
  }

  /** The accuracies of all model files, or `None` when one of them cannot be read. */
  function Accuracies(names: seq<string>, toFloat: string -> Option<real>): (r: Option<seq<real>>)
    ensures r.Some? <==> forall j :: 0 <= j < |names| ==> BracketAccuracy(names[j], toFloat).Some?
    ensures r.Some? ==> (|r.value| == |names|
      && forall j :: 0 <= j < |names| ==> r.value[j] == BracketAccuracy(names[j], toFloat).value)
    decreases |names|
  {
    if |names| == 0 then Some([])
    else match Accuracies(names[..|names| - 1], toFloat)
      case None => None
      case Some(prev) =>
        match BracketAccuracy(names[|names| - 1], toFloat)
        case None => None
        case Some(a) => Some(prev + [a])
  }

  /**
   * The video model loaded at start-up: the first file with the highest
   * accuracy, or `None` when the script stops there (an unreadable name, or an
   * empty model directory, where `max` raises).
   */
  function SelectVideoModel(names: seq<string>, toFloat: string -> Option<real>): (r: Option<nat>)
    ensures r.Some? ==> r.value < |names|
    ensures r.Some? ==> forall j :: 0 <= j < |names| ==> BracketAccuracy(names[j], toFloat).Some?
    ensures r.Some? ==> forall j :: 0 <= j < |names| ==>
      BracketAccuracy(names[j], toFloat).value <= BracketAccuracy(names[r.value], toFloat).value
    ensures r.Some? ==> forall j :: 0 <= j < r.value ==>
      BracketAccuracy(names[j], toFloat).value < BracketAccuracy(names[r.value], toFloat).value
    ensures r.None? <==> |names| == 0 || exists j :: 0 <= j < |names| && BracketAccuracy(names[j], toFloat).None?
  {
    match Accuracies(names, toFloat)
    case None => None
    case Some(acc) => if |acc| == 0 then None else Some(FirstMaxIndex(acc))
  }

  // ------------------------------------------------------- frame sampling

  /** The sampling stride: `max(1, frame_count // 50)`. */
  function Interval(frameCount: int): (r: nat)
    ensures r >= 1
    ensures frameCount < 100 ==> r == 1
  {
    // Dafny's `/` rounds towards negative infinity for a positive divisor, as `//` does.
    if frameCount / 50 >= 1 then frameCount / 50 else 1
  }

  /**
   * The frame loop of the clip analysis: the frames the capture delivers are
   * read in order, every `Interval(frameCount)`-th one is searched for faces
   * (`faces[k]` is how many the detector finds in frame k), and those with
   * exactly one face are kept. The result lists the kept frame positions.
   */
  method SampleFrames(frameCount: int, faces: seq<nat>) returns (kept: seq<nat>)
    ensures forall j :: 0 <= j < |kept| ==> kept[j] < |faces|
    ensures forall j, l :: 0 <= j < l < |kept| ==> kept[j] < kept[l]
    ensures forall k :: 0 <= k < |faces| ==>
      (k in kept <==> k % Interval(frameCount) == 0 && faces[k] == 1)
  {
    var interval := Interval(frameCount);
    kept := [];
    var count: nat := 0;
    while count < |faces|
      invariant 0 <= count <= |faces|
      invariant forall j :: 0 <= j < |kept| ==> kept[j] < count
      invariant forall j, l :: 0 <= j < l < |kept| ==> kept[j] < kept[l]
      invariant forall k :: 0 <= k < count ==> (k in kept <==> k % interval == 0 && faces[k] == 1)
    {
      if count % interval == 0 && faces[count] == 1 {
        kept := kept + [count];
      }
      count := count + 1;
    }
  }

  /** A short clip (under 100 frames announced) has every frame searched. */
  lemma ShortClipSearchesEveryFrame(frameCount: int, k: nat)
    requires frameCount < 100
    ensures k % Interval(frameCount) == 0
  {
  }

  // ---------------------------------------------------------------- clips

  /**
   * What the analysis of one clip ends with: the mean class probabilities of
   * the video and the audio network, no frame with exactly one face, or an
   * exception raised on the way (decoding, audio extraction, prediction).
   */
  datatype Clip = Predicted(video: seq<real>, audio: seq<real>) | NoFaces | Raised

  /** The three labels of an analysed clip. */
  datatype Labels = Labels(video: Emotion, audio: Emotion, global: Emotion)

  /**
   * The labels of a clip, or `None` when the clip produced none: no faces, an
   * exception, or a probability vector whose arg-max has no label (the label
   * lookup then raises, which the per-clip handler catches as well).
   */
  function ClipLabels(c: Clip): Option<Labels> {
    match c
    case Predicted(v, a) =>
      if |v| == 0 || |v| != |a| then None
      else
        var lv := EmotionOf(FirstMaxIndex(v));
        var la := EmotionOf(FirstMaxIndex(a));
        var lg := EmotionOf(FirstMaxIndex(AddVec(v, a)));
        if lv.Some? && la.Some? && lg.Some? then Some(Labels(lv.value, la.value, lg.value)) else None
    case NoFaces => None
    case Raised => None
  }

  /** `emotion_mapping.get(res.get("global"), 0.5)`, and 0.5 for a clip whose analysis raised. */
  function ClipScore(c: Clip): real {
    match ClipLabels(c)
    case Some(l) => EmotionScore(l.global)
    case None => 0.5
  }

  /** One entry of `videoResults`. */
  datatype ClipReport =
    | Labelled(file: string, labels: Labels)
    | NoFaceFrames(file: string)
    | Failed(file: string)

  function Report(file: string, c: Clip): ClipReport {
    match ClipLabels(c)
    case Some(l) => Labelled(file, l)
    case None => if c.NoFaces? then NoFaceFrames(file) else Failed(file)
  }

  /** A transcoded clip: its base name and how its analysis goes. */
  datatype Video = Video(file: string, clip: Clip)

  // ------------------------------------------------------------- rounding

  /** The integer nearest to m, ties to the even one (Python's `round`). */
  function RoundHalfEven(m: real): (r: int)
    ensures m - 0.5 <= r as real <= m + 0.5
  {
    var f := m.Floor;
    var frac := m - f as real;
    if frac < 0.5 then f
    else if frac > 0.5 then f + 1
    else if f % 2 == 0 then f else f + 1
  }

  /** `round(x, 2)` on the exact value. */
  function Round2(x: real): real {
    RoundHalfEven(x * 100.0) as real / 100.0
  }

  /** Rounding to two decimals moves a value by at most 0.005. */
  lemma Round2Close(x: real)
    ensures Abs(Round2(x) - x) <= 0.005
  {
    var r := RoundHalfEven(x * 100.0) as real;
    assert Round2(x) - x == (r - x * 100.0) / 100.0;
  }

  /** A value with at most two decimals is not changed by rounding. */
  lemma Round2Exact(k: int)
    ensures Round2(k as real / 100.0) == k as real / 100.0
  {
    assert k as real / 100.0 * 100.0 == k as real;
  }

  /** Every label score has at most two decimals, so `round(score, 2)` keeps it. */
  lemma Round2KeepsEmotionScores(e: Emotion)
    ensures Round2(EmotionScore(e)) == EmotionScore(e)
  {
    match e
    case Happy => Round2Exact(0);
    case Surprise => Round2Exact(10);
    case Calm => Round2Exact(20);
    case Sad => Round2Exact(30);
    case Fear => Round2Exact(50);
    case Disgust => Round2Exact(70);
    case Angry => Round2Exact(100);
  }

  /** `round(s / 3.0, 2)`: a questionnaire score on the 0..1 scale. */
  function NormQuestionnaireScore(s: real): real {
    Round2(s / 3.0)
  }

  /** The four whole scores normalise to 0, 0.33, 0.67 and 1. */
  lemma NormQuestionnaireWholeScores()
    ensures NormQuestionnaireScore(0.0) == 0.0
    ensures NormQuestionnaireScore(1.0) == 0.33
    ensures NormQuestionnaireScore(2.0) == 0.67
    ensures NormQuestionnaireScore(3.0) == 1.0
  {
    assert (1.0 / 3.0 * 100.0).Floor == 33;
    assert (2.0 / 3.0 * 100.0).Floor == 66;
  }

  /** A score in [0, 3] normalises into [0, 1]. */
  lemma NormQuestionnaireBounds(s: real)
    requires 0.0 <= s <= 3.0
    ensures 0.0 <= NormQuestionnaireScore(s) <= 1.0
  {
    var r := RoundHalfEven(s / 3.0 * 100.0);
    assert 0 <= r <= 100;
  }

  // ------------------------------------------------------------ the run

  /**
   * The clip loop: one rounded score and one report entry per clip, in the
   * order the clips were listed; an exception in a clip's analysis costs that
   * clip its labels but not the run.
   */
  method ScoreClips(videos: seq<Video>) returns (scores: seq<real>, results: seq<ClipReport>)
    ensures scores == ClipScores(videos, |videos|)
    ensures results == ClipReports(videos, |videos|)
  {
    scores := [];
    results := [];
    var i: nat := 0;
    while i < |videos|
      invariant 0 <= i <= |videos|
      invariant scores == ClipScores(videos, i)
      invariant results == ClipReports(videos, i)
    {
      var score := Round2(ClipScore(videos[i].clip));
      var report := Report(videos[i].file, videos[i].clip);
      scores := scores + [score];
      results := results + [report];
      i := i + 1;
    }
  }

  /** The rounded scores of the first n clips, in clip order. */
  function ClipScores(videos: seq<Video>, n: nat): (r: seq<real>)
    requires n <= |videos|
    ensures |r| == n
    ensures forall i :: 0 <= i < n ==> r[i] == Round2(ClipScore(videos[i].clip))
  {
    if n == 0 then [] else ClipScores(videos, n - 1) + [Round2(ClipScore(videos[n - 1].clip))]
  }

  /** The report entries of the first n clips, in clip order. */
  function ClipReports(videos: seq<Video>, n: nat): (r: seq<ClipReport>)
    requires n <= |videos|
    ensures |r| == n
    ensures forall i :: 0 <= i < n ==> r[i] == Report(videos[i].file, videos[i].clip)
  {
    if n == 0 then [] else ClipReports(videos, n - 1) + [Report(videos[n - 1].file, videos[n - 1].clip)]
  }

  /** Every clip score is a label score, or 0.5 for a clip without labels, and lies in [0, 1]. */
  lemma ClipScoreMeaning(c: Clip)
    ensures Round2(ClipScore(c)) == ClipScore(c)
    ensures 0.0 <= ClipScore(c) <= 1.0
    ensures ClipLabels(c).None? ==> ClipScore(c) == 0.5
    ensures ClipLabels(c).Some? ==> ClipScore(c) == EmotionScore(ClipLabels(c).value.global)
  {
    match ClipLabels(c)
    case Some(l) => Round2KeepsEmotionScores(l.global);
    case None => Round2Exact(50);
  }

  /** Spearman's coefficient as the statistics library returns it. */
  datatype Rho = Coefficient(r: real) | NotANumber

  /** What the script prints on its standard output. */
  datatype ScriptOutput =
    | NoVideoFiles(targetPath: string)
    | Results(videoResults: seq<ClipReport>, normEmotionScores: seq<real>,
              normQuestionnaireScores: seq<real>, spearmanCorr: Option<Rho>)
    | Crashed

  /**
   * One run of the script. `scoresArg` is the parsed second argument (`None`
   * when it does not parse, which counts as no scores); `spearman` is the
   * library call, `None` when it raises (series of different lengths).
   */
  function Run(targetPath: string, videos: seq<Video>, scoresArg: Option<seq<real>>,
               spearman: (seq<real>, seq<real>) -> Option<Rho>): ScriptOutput
  {
    if |videos| == 0 then NoVideoFiles(targetPath)
    else
      var es := ClipScores(videos, |videos|);
      var results := ClipReports(videos, |videos|);
      var raw := scoresArg.GetOr([]);
      var qs := seq(|raw|, i requires 0 <= i < |raw| => NormQuestionnaireScore(raw[i]));
      if |qs| > 1 && |es| > 1 then
        match spearman(qs, es)
        case None => Crashed
        case Some(rho) => Results(results, es, qs, Some(rho))
      else Results(results, es, qs, None)
  }

  /**
   * A run over at least one clip reports one emotion score per clip, each the
   * label score of the clip (0.5 without labels), and one normalised score per
   * questionnaire score, each its score divided by 3 and rounded to two
   * decimals, so in [0, 1] for scores in [0, 3].
   */
  lemma RunShape(targetPath: string, videos: seq<Video>, scoresArg: Option<seq<real>>,
                 spearman: (seq<real>, seq<real>) -> Option<Rho>)
    requires |videos| > 0
    requires scoresArg.Some? ==> forall i :: 0 <= i < |scoresArg.value| ==> 0.0 <= scoresArg.value[i] <= 3.0
    ensures var out := Run(targetPath, videos, scoresArg, spearman);
      out.Results? ==>
        && |out.normEmotionScores| == |videos| == |out.videoResults|
        && (forall i :: 0 <= i < |videos| ==> out.normEmotionScores[i] == ClipScore(videos[i].clip))
        && (forall i :: 0 <= i < |videos| ==> 0.0 <= out.normEmotionScores[i] <= 1.0)
        && |out.normQuestionnaireScores| == |scoresArg.GetOr([])|
        && (forall i :: 0 <= i < |out.normQuestionnaireScores| ==>
              out.normQuestionnaireScores[i] == NormQuestionnaireScore(scoresArg.GetOr([])[i]))
        && (forall i :: 0 <= i < |out.normQuestionnaireScores| ==> 0.0 <= out.normQuestionnaireScores[i] <= 1.0)
  {
    var out := Run(targetPath, videos, scoresArg, spearman);
    if out.Results? {
      forall i | 0 <= i < |videos|
        ensures out.normEmotionScores[i] == ClipScore(videos[i].clip)
        ensures 0.0 <= out.normEmotionScores[i] <= 1.0
      {
        ClipScoreMeaning(videos[i].clip);
      }
      var raw := scoresArg.GetOr([]);
      forall i | 0 <= i < |raw|
        ensures 0.0 <= out.normQuestionnaireScores[i] <= 1.0
      {
        NormQuestionnaireBounds(raw[i]);
      }
    }
  }

  /**
   * The correlation is computed only when both series have at least two
   * entries; otherwise it is reported as null and the library is not called.
   */
  lemma CorrelationGuard(targetPath: string, videos: seq<Video>, scoresArg: Option<seq<real>>,
                         spearman: (seq<real>, seq<real>) -> Option<Rho>)
    requires |videos| > 0
    ensures var out := Run(targetPath, videos, scoresArg, spearman);
      (|videos| < 2 || |scoresArg.GetOr([])| < 2) <==> (out.Results? && out.spearmanCorr.None?)
  {
  }

  /** Without any clip the run prints only an error naming the folder (and exits normally). */
  lemma NoClipsNoScores(targetPath: string, scoresArg: Option<seq<real>>,
                        spearman: (seq<real>, seq<real>) -> Option<Rho>)
    ensures Run(targetPath, [], scoresArg, spearman) == NoVideoFiles(targetPath)
  {
  }
}
