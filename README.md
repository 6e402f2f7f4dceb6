# Anxiety questionnaire with emotion recognition — Dafny model

The system is a web application for a GAD-7 style anxiety questionnaire.

- An administrator uploads a questionnaire as an Excel workbook. Participants answer its items, one option per item, and can record a short video per item.
- The server scores the answers: each option index is clamped to 0..3 and the scores are summed.
- The server transcodes the clips and runs an emotion-recognition script on them. The script labels every clip with an emotion, maps the label to a negativity score in [0, 1], normalises the questionnaire scores to [0, 1] and correlates the two series with Spearman's coefficient.
- When the correlation is below 0.6, the server blends every item's score towards its emotion score and stores the blend as an "adjusted" analysis.
- Report endpoints classify the totals into anxiety levels and emotion states.
- The participant's result page and the administrator's individual report turn the stored arrays into 0..3 series, totals, deviations, chart axes and an anxiety category.
- An authorization middleware guards the routes: bearer token, then role.

The model is one Dafny module per part of the system:

| module | file | models |
|---|---|---|
| `AnswerScoring` | answer_scoring.dfy | answer matching, the score clamp and the scoring loop of the submission handlers |
| `ScoreFusion` | score_fusion.dfy | the correlation decision and the step-weighted blend |
| `OutputDecoder` | output_decoder.dfy | the tolerant decoding of the script's standard output (`NaN`/`Infinity` rewriting) |
| `SubmissionHandler` | submission_handler.dfy | working file names, the transcoding loop and the two submission handlers as outcome functions |
| `Inference` | inference.dfy | the emotion-recognition script: model choice, frame sampling, clip labels and scores, normalisation, the correlation guard |
| `Stats` | stats.dfy | the anxiety/emotion classifiers, the overview's participant rows, the individual report, the empty overview and the query filter |
| `ResultView` | result_view.dfy | `scaleTo03`, final scores, deviations, totals, the anxiety category and the final-score gauge of both result pages |
| `ChartAxes` | chart_axes.dfy | the line chart's "nice" domain and ticks, and the bar chart's symmetric limit (one definition serving both pages) |
| `QuestionnaireSheet` | questionnaire_sheet.dfy | the worksheet-to-items parser, title/version defaults, upload outcomes and the update builder |
| `Auth` | auth.dfy | bearer-token extraction, `protect` and `requireRole`, and a request object whose caller they set |
| `Numbers`, `Text`, `JsValues`, `Wrappers` | numbers.dfy, text.dfy, js_values.dfy, wrappers.dfy | sums, `Math.round`, `toFixed`, string trimming, splitting, number printing, JavaScript truthiness, `Option` |

Scores are Dafny `real`s.

- `Math.round` is floor(x + 1/2).
- `toFixed(d)` rounds the magnitude half up and keeps the sign.
- Python's `round(x, 2)` rounds half to even.

All three work on the exact value. Databases, ffmpeg, the subprocess, token verification, JSON parsing, the workbook reader and the neural networks are function parameters ("oracles") of the operations that call them.

Behaviours of the code that the model keeps, which a reader may not expect:

- A failing transcode of any clip makes the video submission answer 500. The Submission record already exists at that point.
- There is no timeout on the inference subprocess.
- The response's `adjustedTotal` is always the plain total. The fused total is assigned to an inner variable that shadows it and only reaches the analysis record.
- The sanitizer turns `-Infinity` into `-null`, which still fails to parse.
- The statistics page's subjective state classifies seven times the per-record total.

## Model

| member | source | states |
|---|---|---|
| AnswerScoring.FindFrom | server/controllers/submissionController.js:44 | The search for an item's answer ends at the first received entry whose questionId is the item's id or whose index is the item's position; it finds nothing when no entry matches, and it throws exactly when a null entry is reached before any match |
| AnswerScoring.Score | server/controllers/submissionController.js:47 | A score always lies in [0, 3]: a negative option index scores 0, an index in [0, 3] scores itself, a larger one 3 |
| AnswerScoring.OptionText | server/controllers/submissionController.js:46 | An option index outside the item's options is recorded as "Not answered" |
| AnswerScoring.ProcessAnswers | server/controllers/submissionController.js:40-50 | The scoring loop succeeds exactly when scoring every item succeeds, stores exactly the per-item answers, and its running total is the sum of their scores |
| AnswerScoring.Scores | server/controllers/submissionController.js:255 | The scores passed to the inference script are the stored answers' scores, one per answer, in item order |
| AnswerScoring.ScoreAllShape | server/controllers/submissionController.js:192-199 | Successful scoring stores exactly one answer per questionnaire item, in item order, each with the item's id and prompt and a score in [0, 3] |
| AnswerScoring.NoneStaysNone | server/controllers/submissionController.js:192-199 | Once scoring throws for one item, scoring the whole questionnaire throws |
| AnswerScoring.TotalBounds | server/controllers/submissionController.js:41-49 | A successful total lies in [0, 3 × number of items] |
| AnswerScoring.NoNullNeverThrows | server/controllers/submissionController.js:44 | Without null entries in the received array the lookup never throws, so scoring always succeeds |
| AnswerScoring.AnswerForChoice | server/controllers/submissionController.js:44-47 | Item i takes the option index of the first matching entry; a missing or non-numeric option index becomes -1, "Not answered", score 0 |
| AnswerScoring.UnmatchedIsUnanswered | server/controllers/submissionController.js:44-48 | An item that no entry matches is stored with index -1, "Not answered" and score 0 |
| ScoreFusion.Alpha | server/controllers/submissionController.js:321-324 | The step weight of a score gap: AlphaMonotone and AlphaBoundaries state that it is 0 below 0.1, 0.3 from 0.1 and 0.5 from 0.3, never decreasing |
| ScoreFusion.AdjustItem | server/controllers/submissionController.js:318-327 | The adjusted item score: AdjustItemIsBlend and AdjustItemBounds state that, divided by 3, it lies between the subjective and the emotion score, moves at most half the gap, and lies in [0, 3] |
| ScoreFusion.Fuse | server/controllers/submissionController.js:306-329 | The fusion of a payload: DecisionIff, NoAdjustmentKeepsSubjective, AdjustedShape and the two scenarios state when it adjusts, what it keeps without adjustment, and the shape, values and total of the adjusted scores |
| ScoreFusion.DecisionIff | server/controllers/submissionController.js:315 | Adjustment happens if and only if the correlation is present and below 0.6 |
| ScoreFusion.NoAdjustmentKeepsSubjective | server/controllers/submissionController.js:311-313 | Without adjustment the adjusted scores are the normalised questionnaire scores verbatim and the stored total is their unscaled sum |
| ScoreFusion.AlphaMonotone | server/controllers/submissionController.js:321-324 | The step weight never decreases as the gap grows and stays within [0, 1/2] |
| ScoreFusion.AlphaBoundaries | server/controllers/submissionController.js:321-324 | A gap of exactly 0.1 already weighs 0.3 and one of exactly 0.3 weighs 0.5; gaps below 0.1 weigh 0 |
| ScoreFusion.AdjustItemIsBlend | server/controllers/submissionController.js:318-327 | An adjusted item divided by 3 lies between the subjective and the emotion score, moves by at most half the gap, and equals the subjective score when the gap is under 0.1 |
| ScoreFusion.AdjustItemBounds | server/controllers/submissionController.js:326-327 | For scores in [0, 1] an adjusted item lies in [0, 3] |
| ScoreFusion.AdjustedShape | server/controllers/submissionController.js:317-329 | With adjustment there is one adjusted score per questionnaire score, item i being the blend with emotion score i (a missing one read as 0), each in [0, 3], and the total is their sum, within [0, 3n] |
| ScoreFusion.ScenarioFullDisagreement | server/controllers/submissionController.js:315-329 | Seven items scored 0 against emotion scores of 1 under correlation 0.2 are each adjusted to 1.5, total 10.5 |
| ScoreFusion.ScenarioAgreement | server/controllers/submissionController.js:311-315 | Seven agreeing items of 1/3 under correlation 0.9 are not adjusted and the stored total is 7/3, not 7 |
| OutputDecoder.ReplaceWordFrom | server/controllers/submissionController.js:280-283 | A global whole-word replacement: ReplaceWordFromNoMatch and ReplaceWordAtMatch state that it is the identity without a whole-word hit and emits the new word at one |
| OutputDecoder.Sanitize | server/controllers/submissionController.js:280-283 | The three chained replacements: SanitizeIdentity, SanitizeNaN and SanitizeNegativeInfinity state that text without bare words is kept, NaN becomes null and -Infinity becomes -null |
| OutputDecoder.Decode | server/controllers/submissionController.js:275-288 | Parsing of the trimmed output, raw first, then sanitised: DecodeParsesRawFirst and DecodeFailsWithoutBareWords state both orders of the attempts |
| OutputDecoder.ReplaceWordFromNoMatch | server/controllers/submissionController.js:280-283 | A whole-word replacement that finds no whole-word occurrence leaves the text unchanged |
| OutputDecoder.ReplaceWordAtMatch | server/controllers/submissionController.js:280-283 | At a whole-word occurrence the replacement emits the new word and continues after the old one |
| OutputDecoder.SanitizeIdentity | server/controllers/submissionController.js:280-283 | Text without whole-word `NaN` or `Infinity` is not changed by sanitising |
| OutputDecoder.SanitizeNaN | server/controllers/submissionController.js:281 | A bare `NaN` becomes `null` |
| OutputDecoder.SanitizeNegativeInfinity | server/controllers/submissionController.js:282-283 | `-Infinity` becomes `-null`: the `Infinity` rule fires first and the `-Infinity` rule never matches |
| OutputDecoder.DecodeParsesRawFirst | server/controllers/submissionController.js:275-277 | Output that parses once trimmed is used as parsed, without sanitising |
| OutputDecoder.DecodeFailsWithoutBareWords | server/controllers/submissionController.js:276-288 | Output that does not parse and holds no whole-word `NaN` or `Infinity` is rejected |
| SubmissionHandler.ClipLabel | server/controllers/submissionController.js:217 | The two-digit label of a clip: ClipLabelDigits and ClipLabelInjective state that it is the padded 1-based clip number and that different clips get different labels |
| SubmissionHandler.Mp4Path | server/controllers/submissionController.js:218 | The mp4 path of a clip: Mp4PathBesideWebm and Mp4PathWithWebmInDir state both outcomes of the first-occurrence replace |
| SubmissionHandler.UploadName | server/controllers/submissionController.js:104 | The stored name of an uploaded clip: UploadNameRoundTrip states that it splits back into its parts and ends in ".webm" |
| SubmissionHandler.ClipLabelDigits | server/controllers/submissionController.js:217 | A clip's label is the 1-based clip number padded to at least two digits with a leading zero |
| SubmissionHandler.ClipLabelInjective | server/controllers/submissionController.js:217 | Different clips get different labels |
| SubmissionHandler.FirstWebmName | server/controllers/submissionController.js:217 | The first clip is written as question_01.webm |
| SubmissionHandler.WebmNamesDistinct | server/controllers/submissionController.js:217 | No two clips share a working file name |
| SubmissionHandler.Mp4PathBesideWebm | server/controllers/submissionController.js:217-218 | When the directory holds no ".webm", the mp4 path is the webm path with the extension swapped |
| SubmissionHandler.Mp4PathWithWebmInDir | server/controllers/submissionController.js:218 | When the directory ends in ".webm" and has no other dot, the first-occurrence replace rewrites the directory instead and the file keeps its .webm name |
| SubmissionHandler.UploadNameRoundTrip | server/controllers/submissionController.js:104 | An upload name splits back into questionnaire id, session and question at its underscores (for parts without one) and ends in ".webm" |
| SubmissionHandler.FirstFailure | server/controllers/submissionController.js:214-241 | The clip at which transcoding stops is the first failing one: every earlier clip succeeded; none when all succeed |
| SubmissionHandler.TranscodeAll | server/controllers/submissionController.js:214-241 | The transcoding loop stops at the first failing clip, and the mp4 list holds the mp4 paths of exactly the clips transcoded before it, in clip order |
| SubmissionHandler.SubmitWithVideos | server/controllers/submissionController.js:179-353 | The video submission handler: ResponseAdjustedTotalIsTotal, ResponseTotalIsScoreSum, AnswersFieldOutcome, FailureAfterCreate, NoFilesNoAnalysis, AnalysisIsFusion and ScriptSeesItemScores state its outcomes |
| SubmissionHandler.ReceivedAnswers | server/controllers/submissionController.js:188 | An absent or empty answers field parses as an empty array; any other field is whatever the JSON parser makes of it |
| SubmissionHandler.ScoreParsed | server/controllers/submissionController.js:192-199 | An array is scored item by item as ScoreAll does; any other JSON value scores only a questionnaire without items; a success has one answer per item |
| SubmissionHandler.AnswersFieldOutcome | server/controllers/submissionController.js:188-199 | Unparsable answers answer 500 before anything is created; JSON that is not an array answers 500 when the questionnaire has items, and 201 with total 0 when it has none |
| SubmissionHandler.ResponseAdjustedTotalIsTotal | server/controllers/submissionController.js:302-349 | A response is 201 exactly when it is a success, and its adjustedTotal always equals its totalScore, because the fused total is assigned to a shadowing inner variable |
| SubmissionHandler.ResponseTotalIsScoreSum | server/controllers/submissionController.js:192-204 | A successful response's total is the sum of the scores of one answer per item and lies in [0, 3n] |
| SubmissionHandler.FailureAfterCreate | server/controllers/submissionController.js:350-353 | A failed transcode, a missing script, a non-zero exit or unreadable output answers 500 after the Submission was created, with no analysis stored; a transcode failure names the first failing clip |
| SubmissionHandler.NoFilesNoAnalysis | server/controllers/submissionController.js:208 | Without uploaded clips nothing is analysed, and a scored, created submission answers 201 |
| SubmissionHandler.AnalysisIsFusion | server/controllers/submissionController.js:304-346 | An analysis is stored exactly when a payload was decoded and the store accepted it, it holds the payload's fusion, and a failing store does not change the response |
| SubmissionHandler.ScriptSeesItemScores | server/controllers/submissionController.js:255-284 | The script is run on the working directory with the stored answers' scores, exits 0, and the response carries its decoded output |
| SubmissionHandler.SubmitAnswers | server/controllers/submissionController.js:30-77 | The answers-only submission handler: SubmitAnswersOutcome and UnansweredScoresZero state its 201/404/500 conditions and the empty fallback for a non-array answers field |
| SubmissionHandler.SubmitAnswersOutcome | server/controllers/submissionController.js:30-77 | The answers-only submission answers 201 exactly when the questionnaire is found, scoring succeeds and the record is created, 404 for an unknown questionnaire, else 500; a non-array answers field scores 0 |
| SubmissionHandler.UnansweredScoresZero | server/controllers/submissionController.js:40-50 | With no received entries every item scores 0 |
| Inference.EmotionOfDefined | python/ER_FullClip_DEMO.py:14 | Exactly the seven class indices 0..6 have a label |
| Inference.EmotionScore | python/ER_FullClip_DEMO.py:133-141 | The negativity score of a label: EmotionScoreOrder and Round2KeepsEmotionScores state the strict order within [0, 1] and that rounding keeps every value |
| Inference.EmotionScoreOrder | python/ER_FullClip_DEMO.py:133-141 | The label scores rise strictly from happy (0) through surprise, calm, sad, fear and disgust to angry (1), all within [0, 1] |
| Inference.FirstMaxIndex | python/ER_FullClip_DEMO.py:34 | The arg-max is an index of a largest value, and every earlier index holds a strictly smaller one |
| Inference.AddVec | python/ER_FullClip_DEMO.py:105 | The global prediction is the elementwise sum of the video and audio predictions |
| Inference.GlobalAgreesWithStreams | python/ER_FullClip_DEMO.py:105-111 | When the video and audio streams pick the same class, so does the global label |
| Inference.BracketAccuracy | python/ER_FullClip_DEMO.py:33 | The number between the first "[" and the next "]" of a model name: Accuracies and SelectVideoModel state how the names are read and the model is chosen |
| Inference.Accuracies | python/ER_FullClip_DEMO.py:33 | The accuracies are read from every model name, in order, and exist exactly when every name has a readable bracketed number |
| Inference.SelectVideoModel | python/ER_FullClip_DEMO.py:32-35 | The chosen video model is the first with the highest accuracy; none exactly when the directory is empty or a name is unreadable |
| Inference.Interval | python/ER_FullClip_DEMO.py:50 | The sampling stride is at least 1, and exactly 1 for fewer than 100 announced frames |
| Inference.SampleFrames | python/ER_FullClip_DEMO.py:52-68 | The kept frames are, in increasing order, exactly the frames at a multiple of the stride in which exactly one face was detected |
| Inference.ShortClipSearchesEveryFrame | python/ER_FullClip_DEMO.py:50 | A clip announcing fewer than 100 frames has every frame searched |
| Inference.RoundHalfEven | python/ER_FullClip_DEMO.py:149 | Python's rounding lands within 1/2 of its argument |
| Inference.Round2Close | python/ER_FullClip_DEMO.py:149 | Rounding to two decimals moves a value by at most 0.005 |
| Inference.Round2Exact | python/ER_FullClip_DEMO.py:149 | A value with at most two decimals is kept by rounding |
| Inference.Round2KeepsEmotionScores | python/ER_FullClip_DEMO.py:148-149 | Rounding leaves every label score unchanged |
| Inference.NormQuestionnaireWholeScores | python/ER_FullClip_DEMO.py:156 | The item scores 0, 1, 2, 3 normalise to 0, 0.33, 0.67, 1 |
| Inference.NormQuestionnaireBounds | python/ER_FullClip_DEMO.py:156 | An item score in [0, 3] normalises into [0, 1] |
| Inference.ScoreClips | python/ER_FullClip_DEMO.py:143-153 | The clip loop yields one rounded score and one report per clip, in clip order, a failing clip included |
| Inference.ClipLabels | python/ER_FullClip_DEMO.py:100-111 | The video, audio and global labels of a clip: AddVec, FirstMaxIndex and GlobalAgreesWithStreams state the summed prediction, the arg-max and the agreement of the global label |
| Inference.ClipScore | python/ER_FullClip_DEMO.py:146-153 | The score of one clip: ClipScoreMeaning states it is the global label's score, or 0.5 without labels, within [0, 1] |
| Inference.ClipScoreMeaning | python/ER_FullClip_DEMO.py:146-153 | A clip's score is the score of its global label, or 0.5 without labels (no face, an exception); it lies in [0, 1] and rounding keeps it |
| Inference.Run | python/ER_FullClip_DEMO.py:117-168 | One run of the script: RunShape, CorrelationGuard and NoClipsNoScores state its output series, the correlation guard and the no-clip error |
| Inference.RunShape | python/ER_FullClip_DEMO.py:143-156 | A run over clips reports one emotion score per clip, each the clip's label score and in [0, 1], and one normalised score per questionnaire score, each that score divided by 3 and rounded to two decimals, so in [0, 1] for inputs in [0, 3] |
| Inference.CorrelationGuard | python/ER_FullClip_DEMO.py:157-159 | The correlation is null exactly when one of the two series has fewer than two entries |
| Inference.NoClipsNoScores | python/ER_FullClip_DEMO.py:127-130 | Without clips the run prints only an error naming the folder |
| Stats.AnxietyLevelFromScore | server/controllers/statsController.js:8-14 | The server's anxiety level: AnxietyLevelMonotone and AnxietyLevelBands state that it is monotone with bands 0-4, 5-9, 10-14 and 15+ |
| Stats.EmotionStateFromScore | server/controllers/statsController.js:16-25 | The emotion state: EmotionStateMonotone and EmotionStateAtTwoDecimals state that it is monotone and where two-decimal scores fall |
| Stats.AnxietyLevelMonotone | server/controllers/statsController.js:8-14 | A higher total never gives a lower anxiety level |
| Stats.AnxietyLevelBands | server/controllers/statsController.js:8-14 | On whole totals the levels are 0-4 minimal, 5-9 mild, 10-14 moderate, 15 and above severe, in both directions |
| Stats.EmotionStateMonotone | server/controllers/statsController.js:16-25 | A higher score never gives a lower emotion state, and every score of 3 or more is Angry |
| Stats.EmotionStateAtTwoDecimals | server/controllers/statsController.js:16-25 | The double-precision cut points lie within 10^-15 of 0.3 … 2.1; two-decimal scores fall on the expected side, except 0.30 and 0.60, which stay below the cuts |
| Stats.TolerantSumIgnoresNulls | server/controllers/statsController.js:115-120 | A missing array sums to 0 and a null entry adds nothing |
| Stats.TolerantSumBounds | server/controllers/statsController.js:115-120 | A sum of n entries that are null or in [0, 1] lies in [0, n] |
| Stats.CoercionVersusTruthiness | server/controllers/statsController.js:187-190 | The individual report's adjustment test implies the overview's truthiness test and agrees with it on booleans, but "yes" and 2 count only in the overview |
| Stats.Participants | server/controllers/statsController.js:114-147 | There is one row per record, row i computed from record i |
| Stats.ParticipantNamesDistinct | server/controllers/statsController.js:142 | No two participant rows share a name |
| Stats.Row | server/controllers/statsController.js:114-146 | One overview row: Participants, RowAdjustedRule and RowSubjectiveBounds state its name, its adjusted value and the bounds of its subjective total |
| Stats.RowAdjustedRule | server/controllers/statsController.js:130-138 | A row not adjusted carries its subjective total as adjusted value; an adjusted row carries the stored total to two decimals (within 0.005), or null exactly when that is missing or not finite |
| Stats.RowSubjectiveBounds | server/controllers/statsController.js:123 | With scores in [0, 1] a row's subjective total lies in [0, 3n] |
| Stats.InsertByCreatedAt | server/controllers/statsController.js:111 | Inserting a record into a creation-ordered list keeps it ordered and adds exactly that record |
| Stats.SortByCreatedAt | server/controllers/statsController.js:111 | The query's sort orders the records by ascending creation time and keeps exactly the same records |
| Stats.ParticipantsInCreationOrder | server/controllers/statsController.js:103-147 | The overview lists every matching record once, in ascending creation order, row i named "Participant i+1" |
| Stats.Individual | server/controllers/statsController.js:173-205 | The individual report: IndividualMatchesRow, IndividualStatesWithoutAdjustment and IndividualNotAvailable state its totals and states |
| Stats.IndividualMatchesRow | server/controllers/statsController.js:174-198 | The individual report agrees with the overview row on the subjective and objective totals, and on the adjusted total when the flag is a boolean |
| Stats.IndividualStatesWithoutAdjustment | server/controllers/statsController.js:196-205 | Without adjustment the adjusted total is the subjective total, but the subjective state classifies seven times it: a total of 3 is Severe as subjective state and Minimal as adjusted state |
| Stats.IndividualNotAvailable | server/controllers/statsController.js:192-205 | An adjusted record without a finite stored total has no adjusted total and the state "N/A" |
| Stats.OverviewOrDefault | server/controllers/statsController.js:89-100 | The overview or its default: EmptyOverview states the default's values and group states |
| Stats.EmptyOverview | server/controllers/statsController.js:89-100 | With no matching record the overview has n = 0, means 0, pie values [0, 0] and the lowest states |
| Stats.BuildMatch | server/controllers/statsController.js:33-45 | The filter has a date range exactly when from or to is non-empty, with each bound present exactly when its parameter is, and a questionnaire id exactly when one is given and is a valid object id |
| ResultView.ValuesOrZero | client/src/pages/ResultDetail.js:10 | A missing array reads as empty and a null entry as 0, keeping the length |
| ResultView.MaxWithZero | client/src/pages/ResultDetail.js:11 | The maximum with 0 bounds every value and is 0 or one of them |
| ResultView.ScaleTo03 | client/src/pages/ResultDetail.js:9-14 | `scaleTo03`: ScaleTo03Rule, ScaleTo03NotIdempotent and RawScoresOfZeroAndOneAreTripled state when it triples and that it is not idempotent |
| ResultView.ScaleTo03Rule | client/src/pages/ResultDetail.js:9-14 | Scaling keeps the length; every value is tripled when none exceeds 1.000001, and all are kept otherwise; the administrator's copy (client/src/pages/admin/AdminIndividualReport.js lines 6-10) is the same function |
| ResultView.ScaleTo03NotIdempotent | client/src/pages/ResultDetail.js:9-14 | Scaling is not idempotent: 0.2 scales to 0.6, and 0.6 again to 1.8 |
| ResultView.RawScoresOfZeroAndOneAreTripled | client/src/pages/ResultDetail.js:407-412 | Answers carrying only raw scores 1, 0, 1 are shown as 3, 0, 3 |
| ResultView.FinalScore | client/src/pages/ResultDetail.js:415-418 | The final scores: FinalScoreRule states when the adjusted ones replace the subjective ones (the administrator's copy is client/src/pages/admin/AdminIndividualReport.js lines 227-230) |
| ResultView.FinalScoreRule | client/src/pages/ResultDetail.js:415-418 | The final scores are the scaled adjusted scores exactly when adjustment applies and the array has the expected length, else the subjective scores |
| ResultView.Deviations | client/src/pages/ResultDetail.js:425-426 | There is one deviation per objective value |
| ResultView.DeviationsMeaning | client/src/pages/ResultDetail.js:425-426 | Deviation i is the objective value minus its partner (0 when missing), to within half a thousandth |
| ResultView.ResultDetailComputed | client/src/pages/ResultDetail.js:400-433 | The result page's computed values: ResultDetailShape states their lengths and how they coincide without adjustment |
| ResultView.ResultDetailShape | client/src/pages/ResultDetail.js:400-433 | One subjective and final value per answer; the adjusted total exists exactly under adjustment; without it final scores, totals and both deviation series coincide with the subjective ones |
| ResultView.AnxietyCategory | client/src/pages/ResultDetail.js:40-78 | The page's anxiety category: CategoryVersusServerLevel compares it with the server's level |
| ResultView.CategoryVersusServerLevel | client/src/pages/ResultDetail.js:40-78 | On whole totals the page's category never exceeds the server's level and equals it except at 5, 10 and 15 |
| ResultView.AdminReportComputed | client/src/pages/admin/AdminIndividualReport.js:217-236 | The administrator report's computed values: AdminReportShape states their lengths and the equal deviation series without adjustment |
| ResultView.AdminReportShape | client/src/pages/admin/AdminIndividualReport.js:217-236 | Final scores have the subjective length, deviations follow the objective series, and without adjustment both deviation series are equal |
| ResultView.Progress | client/src/pages/admin/AdminIndividualReport.js:260-264 | The gauge's fill: ProgressMeaning states its value, its clamp to [0, 1] and its proportionality |
| ResultView.ProgressMeaning | client/src/pages/admin/AdminIndividualReport.js:261-264 | The gauge shows the adjusted total, else the subjective one; its fill is within [0, 1] and proportional for totals within [0, 21] |
| ChartAxes.DataRange | client/src/pages/ResultDetail.js:110-115 | The scan finds a value exactly when some series is non-empty, and its minimum and maximum are values bounding all others |
| ChartAxes.NiceDomain | client/src/pages/ResultDetail.js:15-35 | For data within [0, 3] the domain contains the data, lies within [0, 3] and is non-empty; ticks run evenly from its lower to its upper end, by 1 exactly when the padded span before snapping is at least 2 and by 0.5 otherwise |
| ChartAxes.Snap | client/src/pages/ResultDetail.js:27-31 | Snapping outwards to the step and clamping to [0, 3] keeps the range inside the domain with a whole number of steps between the ends |
| ChartAxes.Ticks | client/src/pages/ResultDetail.js:33 | The tick loop lists from + k·step for every k until the next one passes the upper end plus 1e-9 |
| ChartAxes.LineAxis | client/src/pages/ResultDetail.js:110-137 | The line chart's domain exists exactly when there is data; for data in [0, 3] it contains every value, so clamping never moves a point; the administrator's line chart (client/src/pages/admin/AdminIndividualReport.js lines 11-46) is the same computation |
| ChartAxes.MaxAbs | client/src/pages/ResultDetail.js:251-252 | The scan yields the largest magnitude over all series, or 0 |
| ChartAxes.HalfSteps | client/src/pages/ResultDetail.js:253-254 | Rounding a raw limit of at least 0.5 up to half steps lands less than 0.5 above it |
| ChartAxes.BarAxis | client/src/pages/ResultDetail.js:251-263 | The bar limit is a multiple of 0.5, at least 0.5 and at least 1.2 times every magnitude, so the clamp never moves a bar; it is 0.5 or less than 0.5 above 1.2 times some magnitude; the tick step is 1 exactly when the limit is at least 2; ticks run from -limit to limit; the administrator's bar chart (client/src/pages/admin/AdminIndividualReport.js lines 120-132) is the same computation |
| QuestionnaireSheet.OptionText | server/controllers/questionnaireController.js:49-51 | The text of an option cell: PromptVersusOptionText and RowOptionsMeaning state how it differs from a prompt and that kept options are non-empty and trimmed |
| QuestionnaireSheet.PromptText | server/controllers/questionnaireController.js:42-43 | The text of a prompt cell: PromptVersusOptionText, PromptsTrimmed and KeptRowsHavePrompts state that it is trimmed and that a raw 0 or false gives no prompt |
| QuestionnaireSheet.PromptVersusOptionText | server/controllers/questionnaireController.js:43-50 | A non-empty prompt equals the cell's option text, but a raw 0 or false is an option and not a prompt |
| QuestionnaireSheet.RowOptions | server/controllers/questionnaireController.js:47-53 | A row has at most one option per column after the first |
| QuestionnaireSheet.RowOptionsMeaning | server/controllers/questionnaireController.js:47-53 | Every option text is non-empty and trimmed, and every column after the first with a non-empty text contributes it; RowOptionsFromColumns states where each option comes from and its order |
| QuestionnaireSheet.KeptColumnsSound | server/controllers/questionnaireController.js:48-52 | Every kept column comes after the first and has a non-empty option text |
| QuestionnaireSheet.KeptColumnsIncreasing | server/controllers/questionnaireController.js:48-52 | Kept columns keep the sheet's column order |
| QuestionnaireSheet.KeptColumnsComplete | server/controllers/questionnaireController.js:48-52 | Every column after the first with a non-empty option text is kept |
| QuestionnaireSheet.RowOptionsFromColumns | server/controllers/questionnaireController.js:47-53 | Option k of a row is the text of its k-th kept column, so the options come from columns after the first, in column order (the header loop at lines 32-38 is the same) |
| QuestionnaireSheet.ReadRowOptions | server/controllers/questionnaireController.js:31-38 | The option loop returns exactly the row's options |
| QuestionnaireSheet.Items | server/controllers/questionnaireController.js:29-56 | The items of a sheet: ParseItems, ItemsMeaning and ItemIdsDistinct state how they are built and that their ids differ |
| QuestionnaireSheet.ParseItems | server/controllers/questionnaireController.js:25-56 | Parsing the sheet yields exactly `Items(sheet)`: the header's options, then one item per kept row as ItemsMeaning describes |
| QuestionnaireSheet.ParseRows | server/controllers/questionnaireController.js:40-56 | The row loop yields the items of every row after the header |
| QuestionnaireSheet.ParseRow | server/controllers/questionnaireController.js:41-55 | One row step extends the items by that row's item, or not at all for a blank prompt |
| QuestionnaireSheet.KeptRowsHavePrompts | server/controllers/questionnaireController.js:43-44 | Every kept row has a non-empty prompt |
| QuestionnaireSheet.KeptRowsIncreasing | server/controllers/questionnaireController.js:40-56 | Kept rows keep the sheet's order |
| QuestionnaireSheet.KeptRowsComplete | server/controllers/questionnaireController.js:40-44 | Every row after the header with a non-empty prompt is kept |
| QuestionnaireSheet.ItemsMeaning | server/controllers/questionnaireController.js:40-56 | Item k is built from the k-th kept row: id q(k+1), type "choice", its prompt, and its own options or else the header's |
| QuestionnaireSheet.PromptsTrimmed | server/controllers/questionnaireController.js:43-44 | Every stored prompt is trimmed |
| QuestionnaireSheet.ItemIdsDistinct | server/controllers/questionnaireController.js:55 | Item ids are pairwise different |
| QuestionnaireSheet.Upload | server/controllers/questionnaireController.js:16-67 | The upload handler: UploadOutcomes and UploadDefaults state when it creates a questionnaire, its defaults and its 400 rejections |
| QuestionnaireSheet.UploadDefaults | server/controllers/questionnaireController.js:58-59 | The title is the body's, else the workbook's, else "Untitled Questionnaire", and never empty; the version defaults to "1.0" |
| QuestionnaireSheet.UploadOutcomes | server/controllers/questionnaireController.js:16-67 | An upload creates the questionnaire built from the first sheet exactly when a file was sent, read, has a sheet with a used range and is stored; every rejection is a 400 |
| QuestionnaireSheet.BuildUpdate | server/controllers/questionnaireController.js:84-88 | A field is set exactly from a string that is non-empty once trimmed, and stored trimmed; an update setting nothing is "No changes" |
| QuestionnaireSheet.UpdateFieldsTrimmed | server/controllers/questionnaireController.js:84-87 | A stored field is non-empty and trimming it again changes nothing |
| Auth.BearerToken | server/middleware/auth.js:11-13 | A token exists only for a header starting with "Bearer", and is non-empty without spaces |
| Auth.BearerTokenOf | server/middleware/auth.js:11-13 | For a header whose first field starts with "Bearer" (even "BearerX"), the token is the non-empty field after the first space |
| Auth.NoBearerToken | server/middleware/auth.js:11-14 | No header, a header not starting with "Bearer", and the bare header "Bearer" give no token |
| Auth.ProtectGate | server/middleware/auth.js:4-23 | `protect`: ProtectMock, ProtectDecision and Request.Protect state its mock pass, its token decision and its effect on the request |
| Auth.ProtectMock | server/middleware/auth.js:6-10 | Mock mode always passes, with the role from the x-mock-role header or "user" |
| Auth.ProtectDecision | server/middleware/auth.js:11-22 | Outside mock mode protect passes exactly when a token verifies and records its id; every refusal is a 401 that leaves the caller unchanged |
| Auth.Request.Protect | server/middleware/auth.js:4-23 | The request's caller and the outcome are those of the protect decision; the headers are unchanged |
| Auth.RequiredRoles | server/middleware/auth.js:26 | A single role becomes a one-element list, and an omitted argument the empty list |
| Auth.RequireRoleGate | server/middleware/auth.js:25-55 | `requireRole`: RequireRoleDecision, EmptyRolesAdmitAnyUser, LookupFailureIsUnauthorized, FailedVerificationIsUnauthorized and RequireRoleMock state its outcomes |
| Auth.RequireRoleDecision | server/middleware/auth.js:37-53 | Outside mock mode the outcome is 403 exactly when a found caller's role is outside a non-empty list, success exactly when found and not refused, and 401 otherwise |
| Auth.EmptyRolesAdmitAnyUser | server/middleware/auth.js:47-49 | An empty role list never answers 403 and admits every caller the lookup finds |
| Auth.LookupFailureIsUnauthorized | server/middleware/auth.js:45-53 | Once a caller is resolved, a lookup that throws or finds no user ends in 401 "Unauthorized", never 403, with that caller on the request |
| Auth.FailedVerificationIsUnauthorized | server/middleware/auth.js:37-43 | Without a recorded caller, a bearer token whose verification throws ends in 401 "Unauthorized" (the catch at lines 51-53) |
| Auth.RequireRoleMock | server/middleware/auth.js:29-35 | In mock mode the role is the caller's, else the header's, else "user", and a refusal is 403 |
| Auth.Request.RequireRole | server/middleware/auth.js:25-55 | The request's caller and the outcome are those of the requireRole decision; the headers are unchanged |
| Numbers.ToFixedClose | server/controllers/statsController.js:125 | `toFixed(d)` moves a value by at most half a unit in the d-th decimal |
| Numbers.JsRound | server/controllers/statsController.js:123 | `Math.round` lands in (x - 1/2, x + 1/2] |
| Text.TrimShape | server/controllers/questionnaireController.js:43 | A trimmed string is empty or starts and ends with a non-white-space character |
| Text.TrimIdempotent | server/controllers/questionnaireController.js:43 | Trimming twice is trimming once |
| Text.TrimEmptyIff | server/controllers/questionnaireController.js:44 | A string trims to empty exactly when it is all white space |

## Left out

- Persistence is left out: Mongoose models and queries, GridFS uploads and video listing. The model keeps only a "record created" or "analysis stored" flag and a questionnaire-lookup oracle.
- The statistics aggregation pipeline is left out. The overview's means and pie counts are an input to `Stats.OverviewOrDefault`; only the default and the group states are modelled.
- The CRUD endpoints have no scoring logic and are left out: listing, detail, delete and the public questionnaire endpoints of the questionnaire controller, and the submission list, detail, video and analysis endpoints.
- ffmpeg transcoding, the subprocess spawn and the accumulation of its output are not modelled: an oracle gives each clip's success, the exit code and the output. The spawn `error` event is not modelled.
- The temporary directory's name (session id or `Date.now()`) is a parameter. `path.join` is modelled as joining with "/", without normalisation.
- The neural networks, face detection, audio features and Spearman's coefficient are left out. A clip is given by its mean class probabilities, a frame by its face count, and the coefficient by a function parameter.
- Floating point is not modelled: scores are exact reals. `Math.round`, `toFixed` and Python's `round` are defined on exact values, and the 1e-9 tick tolerance is kept as a constant.
- Infinite and NaN inputs are not modelled, nor is the chart domain on empty data. `ChartAxes.LineAxis` reports that case as undefined instead of computing with infinities.
- An inference payload that is valid JSON but not an object (or is falsy) is not modelled. The payload parser is an oracle returning the three fields the handler reads.
- An answers entry without a `questionId` matches an item stored without an `id` (`undefined === undefined`). Stored items always carry a string id in the model (`AnswerScoring.Item`), so that match is not modelled.
- The binding of already uploaded clips to a new submission in `submitAnswers` is not modelled. Its failure is swallowed and changes no response.
- Error message texts are not modelled where the source copies a library's message (`err.message`, the Python stderr). Only the cause is kept.
- SubmissionHandler.TranscodeAll: the order in which the asynchronous transcodes finish is not modelled. The loop awaits each clip in turn, so the model is sequential.
- Rendering (SVG layout, colours, text) and the page's data fetching are left out.
- No subprocess timeout is modelled, because the code sets none. A per-clip tolerance of transcode failures is not modelled either: the code rejects the whole request with 500.
- The rejection of a sanitised `-null` is not proved as such: JSON parsing is an oracle. `OutputDecoder.SanitizeNegativeInfinity` proves only that the sanitiser produces `-null`.
