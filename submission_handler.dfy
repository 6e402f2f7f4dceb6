/**
 * The two submission handlers of the server as sequential outcome functions.
 * The questionnaire lookup, the record stores, the transcoder, the inference
 * script's run and the JSON parser are oracles that answer with a value or
 * fail; the handler's own logic (scoring, the working file names, the order
 * of the steps, which failures answer 500 and which are swallowed, the
 * fusion of the inference payload and the response) is modelled.
 */
module SubmissionHandler {
  import opened Wrappers
  import opened Numbers
  import opened Text
  import opened AnswerScoring
  import opened ScoreFusion
  import opened OutputDecoder

  /** A stored questionnaire, as the handlers read it. */
  datatype Questionnaire = Questionnaire(title: string, version: string, items: seq<Item>)

  /** `Questionnaire.findById`: the document, none, or a failure. */
  datatype QuestionnaireLookup = Loaded(q: Questionnaire) | Missing | LoadFailed

  // ------------------------------------------------------------ file names

  /** `String(i + 1).padStart(2, "0")`: the two-digit number of the i-th uploaded clip. */
  function ClipLabel(i: nat): string {
    PadStart2(NatToString(i + 1))
  }

  /** `question_NN.webm`: the working file of the i-th uploaded clip. */
  function WebmName(i: nat): string {
    "question_" + ClipLabel(i) + ".webm"
  }

  /** `path.join(tempDir, name)`, with "/" as the separator. */
  function InDir(dir: string, name: string): string {
    dir + "/" + name
  }

  /** `webmPath.replace(".webm", ".mp4")`: the first ".webm" of the whole path. */
  function Mp4Path(dir: string, i: nat): string {
    ReplaceFirst(InDir(dir, WebmName(i)), ".webm", ".mp4")
  }

  /** A clip label is at least two digits: clips 1 to 9 get a leading zero, later ones are their number. */
  lemma ClipLabelDigits(i: nat)
    ensures |ClipLabel(i)| >= 2
    ensures forall k :: 0 <= k < |ClipLabel(i)| ==> IsDigit(ClipLabel(i)[k])
    ensures i < 9 ==> ClipLabel(i)[0] == '0' && ClipLabel(i)[1..] == NatToString(i + 1)
    ensures i >= 9 ==> ClipLabel(i) == NatToString(i + 1)
  {
    NatToStringDigits(i + 1);
    NatToStringLength(i + 1);
  }

  /** Different clips get different labels. */
  lemma ClipLabelInjective(i: nat, j: nat)
    requires ClipLabel(i) == ClipLabel(j)
    ensures i == j
  {
    ClipLabelDigits(i);
    ClipLabelDigits(j);
    if i < 9 && j < 9 {
      NatToStringInjective(i + 1, j + 1);
    } else if i >= 9 && j >= 9 {
      NatToStringInjective(i + 1, j + 1);
    } else {
      NatToStringDigits(i + 1);
      NatToStringDigits(j + 1);
    }
  }

  /** The first clip's working file. */
  lemma FirstWebmName()
    ensures WebmName(0) == "question_01.webm"
  {
    assert NatToString(1) == "1";
    assert ClipLabel(0) == "01";
  }

  /** Different clips get different working files. */
  lemma WebmNamesDistinct(i: nat, j: nat)
    requires i != j
    ensures WebmName(i) != WebmName(j)
  {
    if WebmName(i) == WebmName(j) {
      var w := WebmName(i);
      assert ClipLabel(i) == w[9..|w| - 5];
      assert ClipLabel(j) == WebmName(j)[9..|w| - 5];
      ClipLabelInjective(i, j);
    }
  }

  /**
   * When the directory holds no ".webm", the mp4 file sits next to the webm
   * file under the same number: `dir/question_NN.mp4`.
   */
  lemma Mp4PathBesideWebm(dir: string, i: nat)
    requires forall j: nat :: !OccursAt(dir, ".webm", j)
    ensures Mp4Path(dir, i) == InDir(dir, "question_" + ClipLabel(i) + ".mp4")
  {
    var nn := ClipLabel(i);
    ClipLabelDigits(i);
    var pre := dir + "/" + "question_" + nn;
    var s := InDir(dir, WebmName(i));
    assert s == pre + ".webm" + "";
    var k := |pre|;
    assert OccursAt(s, ".webm", k) by { assert s[k..k + 5] == ".webm"; }
    forall j: nat | j < k
      ensures !OccursAt(s, ".webm", j)
    {
      NoWebmBeforeExtension(dir, nn, j);
    }
    ReplaceFirstAt(s, ".webm", ".mp4", k);
    assert s[..k] == pre;
  }

  /** Before the extension, a clip's webm path holds ".webm" only where the directory does. */
  lemma NoWebmBeforeExtension(dir: string, nn: string, j: nat)
    requires forall j: nat :: !OccursAt(dir, ".webm", j)
    requires forall k :: 0 <= k < |nn| ==> IsDigit(nn[k])
    requires j < |dir + "/" + "question_" + nn|
    ensures !OccursAt(dir + "/" + "question_" + nn + ".webm", ".webm", j)
  {
    var s := dir + "/" + "question_" + nn + ".webm";
    if j + 5 <= |dir| {
      assert s[j..j + 5] == dir[j..j + 5];
      assert !OccursAt(dir, ".webm", j);
    } else if j <= |dir| {
      assert s[|dir|] == '/';
    } else if j < |dir| + 10 {
      assert s[j] == "question_"[j - |dir| - 1];
    } else {
      assert s[j] == nn[j - |dir| - 10];
    }
  }

  /**
   * A session id ending in ".webm" (in a directory name without any other
   * dot) moves the replacement into the directory part: the mp4 path then
   * points into a directory that does not exist, next to the webm file's name.
   */
  lemma Mp4PathWithWebmInDir(pre: string, i: nat)
    requires '.' !in pre
    ensures Mp4Path(pre + ".webm", i) == pre + ".mp4" + "/" + WebmName(i)
  {
    var rest := "/" + WebmName(i);
    assert InDir(pre + ".webm", WebmName(i)) == pre + ".webm" + rest;
    ReplaceFirstAfter(pre, ".webm", rest, ".mp4");
  }

  /**
   * `${id}_${sessionId || Date.now()}_${questionId || index}.webm`: the name
   * a single uploaded clip is stored under. `now` is the clock; an absent
   * `index` prints as "undefined".
   */
  function UploadName(id: string, sessionId: Option<string>, now: nat, questionId: Option<string>, index: Option<string>): string {
    var session := if sessionId.Some? && sessionId.value != "" then sessionId.value else NatToString(now);
    var question := if questionId.Some? && questionId.value != "" then questionId.value
                    else if index.Some? then index.value else "undefined";
    id + "_" + session + "_" + question + ".webm"
  }

  /**
   * Without an underscore in its parts the name splits back into the
   * questionnaire id, the session and the question.
   */
  lemma UploadNameRoundTrip(id: string, session: string, question: string, now: nat, index: Option<string>)
    requires '_' !in id && '_' !in session && '_' !in question
    requires session != "" && question != ""
    ensures var name := UploadName(id, Some(session), now, Some(question), index);
      Split(name[..|name| - 5], '_') == [id, session, question] && name[|name| - 5..] == ".webm"
  {
    var name := UploadName(id, Some(session), now, Some(question), index);
    var stem := name[..|name| - 5];
    assert stem == Join([id, session, question], '_') by {
      assert Join([question], '_') == question;
      assert Join([session, question], '_') == session + "_" + question;
    }
    SplitJoin([id, session, question], '_');
  }

  // ------------------------------------------------------------ transcoding

  /** The mp4 files of the first n clips, in clip order. */
  function Mp4Paths(dir: string, n: nat): (r: seq<string>)
    ensures |r| == n && forall k :: 0 <= k < n ==> r[k] == Mp4Path(dir, k)
  {
    if n == 0 then [] else Mp4Paths(dir, n - 1) + [Mp4Path(dir, n - 1)]
  }

  /** The index of the first clip the transcoder fails on, if any, among the first n. */
  function FirstFailure(n: nat, transcode: nat -> bool): (r: Option<nat>)
    ensures r.Some? ==> r.value < n && !transcode(r.value) && forall i :: 0 <= i < r.value ==> transcode(i)
    ensures r.None? ==> forall i :: 0 <= i < n ==> transcode(i)
  {
    if n == 0 then None
    else match FirstFailure(n - 1, transcode)
      case Some(k) => Some(k)
      case None => if transcode(n - 1) then None else Some(n - 1)
  }

  /**
   * The transcoding loop: clip i is written to its webm file and transcoded
   * to its mp4 file, whose path is collected; the first failure stops the
   * loop (and the request).
   */
  method TranscodeAll(dir: string, n: nat, transcode: nat -> bool) returns (failed: Option<nat>, mp4Files: seq<string>)
    ensures failed == FirstFailure(n, transcode)
    ensures |mp4Files| == (if failed.Some? then failed.value else n)
    ensures mp4Files == Mp4Paths(dir, |mp4Files|)
  {
    mp4Files := [];
    var i: nat := 0;
    while i < n
      invariant 0 <= i <= n
      invariant FirstFailure(i, transcode) == None
      invariant |mp4Files| == i
      invariant mp4Files == Mp4Paths(dir, i)
    {
      var mp4Path := Mp4Path(dir, i);
      if !transcode(i) {
        assert FirstFailure(i + 1, transcode) == Some(i);
        FirstFailureStays(i + 1, n, transcode);
        return Some(i), mp4Files;
      }
      mp4Files := mp4Files + [mp4Path];
      i := i + 1;
    }
    failed := None;
  }

  /** A failure among the first m clips is the first failure among more. */
  lemma {:induction false} FirstFailureStays(m: nat, n: nat, transcode: nat -> bool)
    requires m <= n && FirstFailure(m, transcode).Some?
    ensures FirstFailure(n, transcode) == FirstFailure(m, transcode)
    decreases n - m
  {
    if m < n {
      FirstFailureStays(m, n - 1, transcode);
    }
  }

  // ------------------------------------------------------------ the handlers

  /** The fields of the inference payload the handler reads (`|| []` already applied). */
  datatype Payload = Payload(normQuestionnaireScores: seq<real>, normEmotionScores: seq<Option<real>>, spearmanCorr: Option<real>)

  /** The inference script's run: its exit code (`None` when it was killed), standard output and standard error. */
  datatype PythonRun = PythonRun(code: Option<nat>, stdout: string, stderr: string)

  /** The analysis record stored beside a submission. */
  datatype Analysis = Analysis(normQuestionnaireScores: seq<real>, normEmotionScores: seq<Option<real>>,
                               spearmanCorr: Option<real>, fusion: Fusion)

  /** Why a request failed. */
  datatype Cause =
    | QuestionnaireNotFound
    | LookupError
    | BadAnswersJson
    | ScoringError
    | CreateError
    | TranscodeError(clip: nat)
    | ScriptMissing
    | PythonExit(code: Option<nat>, stderr: string)
    | BadPythonJson(stdout: string)

  datatype Body =
    | Created(totalScore: real, emotionResults: Option<Payload>, adjustedTotal: real)
    | Failed(cause: Cause)

  /**
   * What a request leaves behind: the response, whether the Submission
   * record was created, and the analysis record if one was stored.
   */
  datatype Outcome = Outcome(status: nat, body: Body, submissionCreated: bool, analysis: Option<Analysis>)

  /** `"Python exit " + code + "\n" + stderr`: the message of a failed run. */
  function PythonExitMessage(code: Option<nat>, stderr: string): string {
    "Python exit " + (if code.Some? then NatToString(code.value) else "null") + "\n" + stderr
  }

  /** The oracles the video handler consults, in the order it consults them. */
  datatype Oracles = Oracles(
    lookup: QuestionnaireLookup,
    parseAnswers: string -> AnswersJson,
    submissionCreated: bool,
    transcode: nat -> bool,
    scriptExists: bool,
    python: (string, seq<real>) -> PythonRun,
    parsePayload: string -> Option<Payload>,
    analysisSaved: bool)

  /**
   * What `JSON.parse` makes of the `answers` field: an array of entries, some
   * other JSON value (an object, a number, a string, `true`, `null`: none has
   * a `find` method), or a syntax error.
   */
  datatype AnswersJson = JsonArray(entries: seq<Received>) | JsonOther | JsonInvalid

  /** `JSON.parse(req.body.answers || "[]")`: an absent or empty field is an empty list. */
  function ReceivedAnswers(field: Option<string>, parse: string -> AnswersJson): (r: AnswersJson)
    ensures (field.None? || field.value == "") ==> r == JsonArray([])
    ensures field.Some? && field.value != "" ==> r == parse(field.value)
  {
    if field.Some? && field.value != "" then parse(field.value) else JsonArray([])
  }

  /**
   * `q.items.map(...)` over the parsed answers: an array is scored item by
   * item; any other value throws on `answers.find` as soon as there is an
   * item to score, and gives an empty answer list when there is none.
   */
  function ScoreParsed(items: seq<Item>, parsed: AnswersJson): (r: Option<seq<Answer>>)
    requires !parsed.JsonInvalid?
    ensures parsed.JsonArray? ==> r == ScoreAll(items, parsed.entries, |items|)
    ensures parsed.JsonOther? ==> (r.Some? <==> |items| == 0)
    ensures r.Some? ==> |r.value| == |items|
  {
    match parsed
    case JsonArray(received) =>
      var r := ScoreAll(items, received, |items|);
      if r.None? then r
      else
        ScoreAllShape(items, received, |items|);
        r
    case JsonOther => if |items| == 0 then Some([]) else None
  }

  /** The analysis block: the fusion of a payload, stored only if the store accepts it. */
  function AnalysisOf(p: Payload): Analysis {
    Analysis(p.normQuestionnaireScores, p.normEmotionScores, p.spearmanCorr,
             Fuse(p.normQuestionnaireScores, p.normEmotionScores, p.spearmanCorr))
  }

  /**
   * `submitAnswersWithVideos`, with `fileCount` uploaded clips and the
   * multipart `answers` field.
   */
  function SubmitWithVideos(answersField: Option<string>, fileCount: nat, dir: string, o: Oracles): Outcome {
    match o.lookup
    case LoadFailed => Outcome(500, Failed(LookupError), false, None)
    case Missing => Outcome(404, Failed(QuestionnaireNotFound), false, None)
    case Loaded(q) =>
      var parsed := ReceivedAnswers(answersField, o.parseAnswers);
      if parsed.JsonInvalid? then Outcome(500, Failed(BadAnswersJson), false, None)
      else
        match ScoreParsed(q.items, parsed)
        case None => Outcome(500, Failed(ScoringError), false, None)
        case Some(answers) =>
          var total := Sum(Scores(answers));
          if !o.submissionCreated then Outcome(500, Failed(CreateError), false, None)
          else if fileCount == 0 then Outcome(201, Created(total, None, total), true, None)
          else match FirstFailure(fileCount, o.transcode)
            case Some(k) => Outcome(500, Failed(TranscodeError(k)), true, None)
            case None =>
              if !o.scriptExists then Outcome(500, Failed(ScriptMissing), true, None)
              else
                var run := o.python(dir, Scores(answers));
                if run.code != Some(0) then Outcome(500, Failed(PythonExit(run.code, run.stderr)), true, None)
                else match Decode(run.stdout, o.parsePayload)
                  case None => Outcome(500, Failed(BadPythonJson(run.stdout)), true, None)
                  case Some(p) =>
                    Outcome(201, Created(total, Some(p), total), true, if o.analysisSaved then Some(AnalysisOf(p)) else None)
  }

  /**
   * A successful response reports `adjustedTotal` equal to `totalScore`: the
   * fused total only ever reaches the analysis record, never the response.
   */
  lemma ResponseAdjustedTotalIsTotal(answersField: Option<string>, fileCount: nat, dir: string, o: Oracles)
    ensures var out := SubmitWithVideos(answersField, fileCount, dir, o);
      && (out.status == 201 <==> out.body.Created?)
      && (out.body.Created? ==> out.body.adjustedTotal == out.body.totalScore)
  {
  }

  /**
   * The total of a successful response is the sum of the clamped scores of
   * one answer per item.
   */
  lemma ResponseTotalIsScoreSum(answersField: Option<string>, fileCount: nat, dir: string, o: Oracles)
    requires SubmitWithVideos(answersField, fileCount, dir, o).body.Created?
    ensures o.lookup.Loaded? && !ReceivedAnswers(answersField, o.parseAnswers).JsonInvalid?
    ensures var items := o.lookup.q.items;
      var parsed := ReceivedAnswers(answersField, o.parseAnswers);
      && ScoreParsed(items, parsed).Some?
      && var answers := ScoreParsed(items, parsed).value;
      && |answers| == |items|
      && SubmitWithVideos(answersField, fileCount, dir, o).body.totalScore == Sum(Scores(answers))
      && 0.0 <= Sum(Scores(answers)) <= 3.0 * |items| as real
  {
    var items := o.lookup.q.items;
    var parsed := ReceivedAnswers(answersField, o.parseAnswers);
    if parsed.JsonArray? {
      TotalBounds(items, parsed.entries);
    }
  }

  /**
   * The parsed `answers` field decides scoring before anything is created:
   * text that is not JSON answers 500; JSON that is not an array throws on
   * `answers.find` and answers 500 once the questionnaire has an item, but
   * scores nothing and goes on when it has none.
   */
  lemma AnswersFieldOutcome(answersField: Option<string>, fileCount: nat, dir: string, o: Oracles)
    requires o.lookup.Loaded?
    ensures var out := SubmitWithVideos(answersField, fileCount, dir, o);
      ReceivedAnswers(answersField, o.parseAnswers).JsonInvalid? ==>
        out == Outcome(500, Failed(BadAnswersJson), false, None)
    ensures var out := SubmitWithVideos(answersField, fileCount, dir, o);
      ReceivedAnswers(answersField, o.parseAnswers).JsonOther? && |o.lookup.q.items| > 0 ==>
        out == Outcome(500, Failed(ScoringError), false, None)
    ensures var out := SubmitWithVideos(answersField, fileCount, dir, o);
      ReceivedAnswers(answersField, o.parseAnswers).JsonOther? && |o.lookup.q.items| == 0
        && o.submissionCreated && fileCount == 0 ==>
        out == Outcome(201, Created(0.0, None, 0.0), true, None)
  {
  }

  /**
   * A failing transcode, a missing script, a non-zero exit or an unreadable
   * payload answers 500 although the Submission record already exists, and
   * stores no analysis.
   */
  lemma FailureAfterCreate(answersField: Option<string>, fileCount: nat, dir: string, o: Oracles)
    ensures var out := SubmitWithVideos(answersField, fileCount, dir, o);
      (out.body.Failed? && (out.body.cause.TranscodeError? || out.body.cause.ScriptMissing?
                            || out.body.cause.PythonExit? || out.body.cause.BadPythonJson?))
      ==> out.status == 500 && out.submissionCreated && out.analysis.None?
    ensures var out := SubmitWithVideos(answersField, fileCount, dir, o);
      out.body.Failed? && out.body.cause.TranscodeError? ==> FirstFailure(fileCount, o.transcode) == Some(out.body.cause.clip)
  {
  }

  /** Without clips nothing is analysed: the response carries no inference results and no analysis is stored. */
  lemma NoFilesNoAnalysis(answersField: Option<string>, dir: string, o: Oracles)
    ensures var out := SubmitWithVideos(answersField, 0, dir, o);
      && out.analysis.None?
      && (out.body.Created? ==> out.body.emotionResults.None?)
      && ((o.lookup.Loaded? && !ReceivedAnswers(answersField, o.parseAnswers).JsonInvalid?
           && ScoreParsed(o.lookup.q.items, ReceivedAnswers(answersField, o.parseAnswers)).Some?
           && o.submissionCreated) ==> out.status == 201)
  {
  }

  /**
   * An analysis is stored exactly when a payload was decoded and the store
   * accepted it, and it holds the fusion of that payload; a rejected
   * analysis does not change the response.
   */
  lemma AnalysisIsFusion(answersField: Option<string>, fileCount: nat, dir: string, o: Oracles)
    ensures var out := SubmitWithVideos(answersField, fileCount, dir, o);
      && (out.analysis.Some? <==> out.body.Created? && out.body.emotionResults.Some? && o.analysisSaved)
      && (out.analysis.Some? ==>
            var p := out.body.emotionResults.value;
            out.analysis.value.fusion == Fuse(p.normQuestionnaireScores, p.normEmotionScores, p.spearmanCorr))
    ensures var saved := SubmitWithVideos(answersField, fileCount, dir, o.(analysisSaved := true));
      var lost := SubmitWithVideos(answersField, fileCount, dir, o.(analysisSaved := false));
      saved.status == lost.status && saved.body == lost.body
  {
  }

  /**
   * The inference script is given the working directory and the item scores
   * of the stored answers, and its payload is decoded from the trimmed
   * output, sanitised only if it does not parse as it is.
   */
  lemma ScriptSeesItemScores(answersField: Option<string>, fileCount: nat, dir: string, o: Oracles)
    requires SubmitWithVideos(answersField, fileCount, dir, o).body.Created?
    requires fileCount > 0
    ensures o.lookup.Loaded? && !ReceivedAnswers(answersField, o.parseAnswers).JsonInvalid?
    ensures var items := o.lookup.q.items;
      var parsed := ReceivedAnswers(answersField, o.parseAnswers);
      ScoreParsed(items, parsed).Some? &&
      var run := o.python(dir, Scores(ScoreParsed(items, parsed).value));
      && run.code == Some(0)
      && SubmitWithVideos(answersField, fileCount, dir, o).body.emotionResults == Decode(run.stdout, o.parsePayload)
  {
  }

  /** The oracles `submitAnswers` consults. */
  datatype AnswerOracles = AnswerOracles(lookup: QuestionnaireLookup, submissionCreated: bool)

  /**
   * `submitAnswers`: a body whose `answers` is not an array is an empty
   * answer list (`None` here); a failure to bind uploaded clips to the new
   * submission is swallowed.
   */
  function SubmitAnswers(answers: Option<seq<Received>>, o: AnswerOracles): Outcome {
    match o.lookup
    case LoadFailed => Outcome(500, Failed(LookupError), false, None)
    case Missing => Outcome(404, Failed(QuestionnaireNotFound), false, None)
    case Loaded(q) =>
      var received := answers.GetOr([]);
      match ScoreAll(q.items, received, |q.items|)
      case None => Outcome(500, Failed(ScoringError), false, None)
      case Some(scored) =>
        if !o.submissionCreated then Outcome(500, Failed(CreateError), false, None)
        else Outcome(201, Created(Sum(Scores(scored)), None, Sum(Scores(scored))), true, None)
  }

  /**
   * `submitAnswers` succeeds exactly when the questionnaire is found, no
   * received entry it reaches is null and the record is created; it then
   * reports the score sum, and a non-array `answers` scores every item 0.
   */
  lemma SubmitAnswersOutcome(answers: Option<seq<Received>>, o: AnswerOracles)
    ensures var out := SubmitAnswers(answers, o);
      && (out.status == 201 <==>
            (o.lookup.Loaded? && o.submissionCreated && ScoreAll(o.lookup.q.items, answers.GetOr([]), |o.lookup.q.items|).Some?))
      && (out.status == 404 <==> o.lookup.Missing?)
      && (out.status != 201 && out.status != 404 ==> out.status == 500)
    ensures answers.None? && o.lookup.Loaded? && o.submissionCreated ==>
      SubmitAnswers(answers, o).status == 201 && SubmitAnswers(answers, o).body.totalScore == 0.0
  {
    if answers.None? && o.lookup.Loaded? {
      var items := o.lookup.q.items;
      NoNullNeverThrows(items, [], |items|);
      UnansweredScoresZero(items, |items|);
    }
  }

  /** With no received entries every item scores 0. */
  lemma {:induction false} UnansweredScoresZero(items: seq<Item>, n: nat)
    requires n <= |items|
    ensures ScoreAll(items, [], n).Some? ==> Sum(Scores(ScoreAll(items, [], n).value)) == 0.0
  {
    if n > 0 {
      UnansweredScoresZero(items, n - 1);
      match ScoreAll(items, [], n - 1)
      case None =>
      case Some(prev) =>
        match AnswerFor(items, [], n - 1)
        case None =>
        case Some(a) =>
          assert a.score == 0.0;
          assert Scores(prev + [a]) == Scores(prev) + [a.score];
          SumAppend(Scores(prev), a.score);
    }
  }
}
