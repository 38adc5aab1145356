# Handwritten-digit perceptron: a Dafny model

This project models the numeric core of a small handwritten-digit
recogniser. The recogniser is a two-layer perceptron (784 inputs, 200
hidden nodes, 10 outputs). It is trained on MNIST records, and a Flask page
queries it with the digit a user sketches in the browser. The model covers
five parts:

- **ANN.py**: `forward_prop`, with the activation kept abstract, and
  `backward_prop`, which adds the gradient updates into the caller's two
  weight arrays in place.
- **train_and_test.py**:
  - the training loop over epochs and records;
  - the testing tally and score;
  - the four-scenario driver, which hands the same two weight arrays to every
    scenario.
- **realtime_query.py**:
  - `compress_image`, the 224 x 224 to 28 x 28 block-mean downsampling with
    nested loops;
  - the numeric part of `process_image`: percentages, the stable descending
    ranking, the argmax label, the confidences and the confidence band.
- **static/js/sketchpad.js**:
  - the pen state (`mouseDown`, `lastX`, `lastY`) kept by the mouse and touch
    handlers;
  - `toggleVisibility`;
  - the two pixel loops of `getImage`.
- **main.py**: the configuration constants.

Modules:

- `Wrappers`: the `Option` and `Result` types. A `Result` error is one of
  `IndexError`, `ValueError` or `ZeroDivisionError`, the exceptions the
  Python code can raise.
- `Config`: the constants of main.py.
- `Linear`: vectors and matrices as sequences of reals, with dot product,
  matrix-vector product, transpose, first-maximum argmax and sums.
- `Pixels`: the `raw / 255 * 0.99 + 0.01` scaling.
- `ANN`:
  - `ForwardProp` and the pure `BackwardStep`;
  - the `BackwardProp` method, which updates two `array2<real>` in place and
    is proved equal to `BackwardStep`.
- `TrainAndTest`:
  - `Training` and `Testing` as loops over the arrays, each proved against a
    specification function (`RunSteps`, `TestScore`);
  - the driver as written (`TrainAndTestShared`) and with copied weights
    (`TrainAndTestSeparate`).
- `RealtimeQuery`:
  - `CompressImage` and `ProcessImage`, proved against `Compressed` and
    `Processed`;
  - `ProcessImageCorrected`, which labels each scenario by its own
    prediction, proved against `CorrectedProcessed`;
  - the ranking as a stable sort (`Rank`) and the band.
- `Sketchpad`:
  - a `Pen` class whose handler methods are each proved against a pure
    `Step` on a `PenState`;
  - `GetImage`, proved against `DrawnOn` and `Alpha`;
  - `Toggle`.

Conventions:

- Numbers are exact reals. Nothing models floating point.
- The sigmoid and `numpy.round(..., 2)` are the function parameters `act`
  and `round`.
- File contents arrive as values: a csv file as a sequence of `Record`s,
  and the saved weights of scenario i as `load(i)`.

Three behaviours of the code are easy to misread, and the model keeps each
as written:

- A negative label does not always raise. A label in `[-10, 0)` writes 0.99
  at position `label + 10`, by Python's negative indexing. Only a label
  outside `[-10, 10)` raises IndexError (`TargetIndex`, `TargetVector`).
- The lowest band is sent as the string `"no"` (realtime_query.py:155,
  `BandName`).
- `training` binds the arrays it is passed and updates them in place, and
  the driver passes the same two arrays to every scenario. Each scenario
  therefore trains on top of the previous ones. See Findings.

## Model

| member | source | states |
|---|---|---|
| Linear.Sum | realtime_query.py:118 | `sum()` over a vector, as also used for the block means at line 81; partner lemma SumAppend |
| Linear.SumAppend | realtime_query.py:118 | the sum of a + b is sum(a) + sum(b), so the left-to-right definition is order-free |
| Linear.Dot | ANN.py:36 | `numpy.dot` of two vectors, row by row, as also at lines 45 and 75; partner lemma DotIsSumOfProducts |
| Linear.DotIsSumOfProducts | ANN.py:36 | a dot product is the sum of the entrywise products |
| Linear.Argmax | train_and_test.py:188 | the index returned is in range, its value is a maximum, and every earlier value is strictly smaller (numpy's first maximum) |
| Linear.ArgmaxUnique | realtime_query.py:132 | any index with those two properties is the argmax |
| Linear.MatVec | ANN.py:36 | the product has one entry per row of the matrix |
| Linear.Transpose | ANN.py:75 | the transpose of an r x c matrix is c x r |
| Linear.SumScale | realtime_query.py:118-122 | scaling every entry by c scales the sum by c |
| Linear.SumConstant | realtime_query.py:81 | a sequence of n copies of x sums to n * x |
| Linear.SumBounds | realtime_query.py:81 | entries in [lo, hi] give a sum in [n * lo, n * hi] |
| Linear.DotZero | ANN.py:75 | a dot product with the zero vector is 0 |
| Pixels.Normalise | train_and_test.py:118-119 | raw values in [0, 255] map into [0.01, 1.0]; 0 maps to 0.01 and 255 to 1.0 |
| Pixels.NormaliseMonotonic | realtime_query.py:72 | helper: the scaling is strictly increasing |
| Pixels.NormaliseAll | train_and_test.py:182 | the scaling is applied to every value and keeps the length |
| ANN.Activate | ANN.py:39 | the activation is applied entrywise and the length is kept |
| ANN.ForwardProp | ANN.py:25-49 | numpy's shape demands; the hidden layer has one output per row of wih and the output layer one per row of who |
| ANN.ForwardPropEntries | ANN.py:36-47 | entry-formula helper: hidden node j outputs act(wih[j] · inputs); output node m outputs act(who[m] · hidden) |
| ANN.ForwardPropInUnitInterval | ANN.py:21 | if the activation maps into (0, 1), as the sigmoid does, so do both layers |
| ANN.Errors | ANN.py:71 | output errors have one entry per output |
| ANN.HiddenErrors | ANN.py:75 | hidden errors have one entry per hidden node |
| ANN.HiddenErrorsEntry | ANN.py:75 | entry-formula helper: hidden error j is column j of who dotted with the output errors |
| ANN.Gradient | ANN.py:80-81 | one gradient entry per error |
| ANN.AddScaledOuter | ANN.py:79-85 | a weight update keeps the matrix's shape |
| ANN.AddScaledOuterEntry | ANN.py:79-85 | entry-formula helper: entry (j, k) becomes w[j][k] + lr * d[j] * v[k] |
| ANN.AddScaledRow | ANN.py:79-85 | row j gains lr * d_j * v[k] in column k; every other row is unchanged |
| ANN.GradientUpdateEntry | ANN.py:79-85 | entry-formula helper: entry (j, k) of a gradient update is w[j][k] + lr * errors[j] * outputs[j] * (1 - outputs[j]) * v[k] |
| ANN.BackwardStep | ANN.py:55-87 | both updated matrices keep their shapes |
| ANN.BackwardStepEntries | ANN.py:71-85 | every updated who entry and wih entry in closed form, with both error vectors taken from the weights passed in |
| ANN.SaturatedHiddenNodeFrozen | ANN.py:79-81 | a hidden node whose output is exactly 0 or 1 keeps its incoming weights |
| ANN.BackwardStepAtTarget | ANN.py:71-85 | when the outputs equal the targets, both error vectors are zero and the weights do not change |
| ANN.ZeroUpdate | ANN.py:79-85 | a zero gradient leaves a matrix unchanged |
| ANN.Snapshot | ANN.py:79 | the matrix read from an array has its dimensions and entries |
| ANN.AddScaledOuterInPlace | ANN.py:79-85 | the in-place `+=` leaves the array equal to AddScaledOuter of its old contents |
| ANN.BackwardProp | ANN.py:55-87 | backward_prop updates both arrays in place to BackwardStep of their old contents and returns those same arrays |
| TrainAndTest.TargetIndex | train_and_test.py:126 | the position a label writes to: the label itself when non-negative, label + n when negative |
| TrainAndTest.TargetVector | train_and_test.py:124-126 | an IndexError's absence is equivalent to the label being in [-n, n); the vector has length n, 0.99 at the target position and 0.01 elsewhere |
| TrainAndTest.TargetVectorArgmax | train_and_test.py:124-126 | helper: a label in [0, n) is the argmax of its own target vector |
| TrainAndTest.TrainStep | train_and_test.py:113-135 | one record trains iff it is well-formed and the weights fit; a bad label is an IndexError; the result fits again |
| TrainAndTest.RunSteps | train_and_test.py:111-135 | a run takes at most one step per record, and exactly one per record when nothing fails |
| TrainAndTest.RunStepsSnoc | train_and_test.py:113 | one more record is one more step from where the run ended |
| TrainAndTest.RunStepsFailed | train_and_test.py:134-135 | once a step raised, further records change nothing |
| TrainAndTest.RunStepsAppend | train_and_test.py:111-113 | running over a then b continues b from where a ended |
| TrainAndTest.TrainingOutcome | train_and_test.py:111-135 | from fitting weights: the weights keep fitting; the run fails iff some record is malformed, and stops at the first one |
| TrainAndTest.Repeat | train_and_test.py:111 | the epochs' records total epochs * the list's length |
| TrainAndTest.RepeatAt | train_and_test.py:111-113 | step ep * n + k trains on record k, with no shuffling |
| TrainAndTest.RepeatMembers | train_and_test.py:113 | only records of the list are trained on |
| TrainAndTest.RepeatSplit | train_and_test.py:111 | a + b epochs are a epochs then b epochs |
| TrainAndTest.TrainingList | train_and_test.py:64 | `readlines()[0:num_lines]`: the first min(num_lines, file length) records |
| TrainAndTest.Schedule | train_and_test.py:98-113 | the records a scenario trains on: num_epochs passes over its training list; partner lemmas ScheduleCompletes and ScheduleWellFormed |
| TrainAndTest.ScheduleCompletes | train_and_test.py:98-113 | with well-formed records a scenario makes num_epochs * min(num_lines, file length) updates without failing |
| TrainAndTest.Current | train_and_test.py:106-108 | the weights are the two arrays' contents |
| TrainAndTest.TrainOnRecord | train_and_test.py:118-135 | one record trains the arrays in place to TrainStep's result, or reports its error |
| TrainAndTest.TrainEpoch | train_and_test.py:113-135 | one epoch leaves the arrays at RunSteps over the list and reports its failure |
| TrainAndTest.EpochAdvance | train_and_test.py:111-113 | an epoch after epochs that did not fail continues from their weights |
| TrainAndTest.EpochStops | train_and_test.py:111-135 | a failed epoch ends the whole schedule there |
| TrainAndTest.Training | train_and_test.py:83-144 | training leaves the arrays at RunSteps over the scenario's schedule, returns the same arrays and reports the first failure |
| TrainAndTest.Predict | train_and_test.py:182-188 | a prediction exists iff numpy's shapes agree (otherwise a ValueError) and is an output index |
| TrainAndTest.PredictIsLargestOutput | train_and_test.py:186-188 | the prediction is the first largest output of forward propagation |
| TrainAndTest.Hit | train_and_test.py:189-190 | a record is a hit iff its prediction succeeds and equals its label |
| TrainAndTest.Hits | train_and_test.py:189-190 | the positions of the hits; partner lemma TallyCountsHits |
| TrainAndTest.Tally | train_and_test.py:171-192 | the count succeeds iff every record can be predicted, else it raises one of their errors; it never exceeds the record count |
| TrainAndTest.TallyCountsHits | train_and_test.py:189-192 | the count is the number of records whose prediction equals their label |
| TrainAndTest.TallyAllOrNone | train_and_test.py:189-192 | the count is the record count iff every prediction is right, and 0 iff none is |
| TrainAndTest.Score | train_and_test.py:199 | a ZeroDivisionError iff there are no records; otherwise the score is in [0, 1], is 1 iff all are right and is 0 iff none is |
| TrainAndTest.TestScore | train_and_test.py:166-202 | the tally divided by the record count; partner lemma TestScoreMeaning |
| TrainAndTest.TestScoreMeaning | train_and_test.py:166-202 | testing fails iff the set is empty or a record does not fit the weights; otherwise the score is the fraction of hits, in [0, 1] |
| TrainAndTest.Testing | train_and_test.py:166-202 | the loop's count and division give TestScore of the arrays' contents |
| TrainAndTest.Schedules | train_and_test.py:234-237 | one schedule per scenario, in order |
| TrainAndTest.SharedCampaign | train_and_test.py:234-242 | one score per scenario that completed; no failure iff all four completed |
| TrainAndTest.SharedCampaignEnd | train_and_test.py:234-242 | with shared arrays a loop that raised nothing ends at the weights trained on every schedule, one after the other |
| TrainAndTest.SharedCampaignStop | train_and_test.py:234-242 | a loop that raised ends at the weights trained on the schedules up to the one that raised; the exception is that schedule's training failure or else its testing failure |
| TrainAndTest.SharedCampaignScore | train_and_test.py:106-108 | with shared arrays scenario i is scored on weights trained on schedules 0..i back to back |
| TrainAndTest.SharedCampaignSnoc | train_and_test.py:237-242 | the next scenario continues from the previous scenario's weights |
| TrainAndTest.SharedCampaignFailed | train_and_test.py:234-242 | after a raised exception later scenarios change nothing |
| TrainAndTest.TrainThenTest | train_and_test.py:237-240 | one pass trains the arrays in place, then tests the trained weights |
| TrainAndTest.TrainAndTestShared | train_and_test.py:226-242 | the main block as written: scores, failure and final arrays are those of SharedCampaign |
| TrainAndTest.SeparateCampaign | train_and_test.py:234-242 | one score per completed scenario, each trained from the same initial weights |
| TrainAndTest.SeparateCampaignScore | train_and_test.py:237-240 | scenario i is scored on the initial weights trained on schedule i alone |
| TrainAndTest.SeparateCampaignSnoc | train_and_test.py:237-242 | the next scenario starts from the initial weights |
| TrainAndTest.SeparateCampaignFailed | train_and_test.py:234-242 | after a raised exception later scenarios change nothing |
| TrainAndTest.CopyArray | train_and_test.py:106-108 | a fresh array with the same contents |
| TrainAndTest.TrainAndTestSeparate | train_and_test.py:234-242 | the corrected driver: the caller's arrays are left alone, and scores and failure are those of SeparateCampaign |
| TrainAndTest.ConcatSnoc | train_and_test.py:234-237 | the records of k + 1 schedules are those of k schedules, then schedule k |
| TrainAndTest.ConcatWellFormed | train_and_test.py:234-237 | the concatenated schedules contain only their own records |
| TrainAndTest.ScheduleWellFormed | train_and_test.py:103-113 | a scenario trains only on records of the file |
| TrainAndTest.SchedulesLength | main.py:31-43 | on a file of at least 60,000 records scenario 3 trains on 300,000 records and the four scenarios on 366,600 together |
| TrainAndTest.SchedulesWellFormed | train_and_test.py:234-237 | on a well-formed file, scenario 3 and all four scenarios together train only on well-formed records |
| TrainAndTest.SharedUpdateCount | train_and_test.py:106-108 | with 60,000 well-formed records, the shared arrays give scenario 3 366,600 updates, against 300,000 from fresh weights |
| TrainAndTest.FirstScenarioAgrees | train_and_test.py:234-240 | scenario 0 is the same under both drivers |
| RealtimeQuery.BlockMean | realtime_query.py:81 | the mean of the 64 values of one block; partner lemmas CompressConstant and CompressBounds |
| RealtimeQuery.Block | realtime_query.py:80 | the 64 values of the 8 x 8 block at (top, left), row by row |
| RealtimeQuery.CellOf | realtime_query.py:77-83 | index helper: cell (row, col) sits at position 28 * row + col of the flattened image, and that position maps back to (row, col) |
| RealtimeQuery.Means | realtime_query.py:78-83 | 784 block means, where position Cell(row, col) holds the mean of the block at (8 * row, 8 * col) |
| RealtimeQuery.Compressed | realtime_query.py:68-85 | a ValueError iff the sketch is not 224 x 224 values; otherwise 784 inputs, where input Cell(row, col) = 28 * row + col is the mean of the normalised block at (8 * row, 8 * col) |
| RealtimeQuery.CompressImage | realtime_query.py:68-85 | the nested loops over a 28 x 28 array, read out row by row, give Compressed |
| RealtimeQuery.CompressBlockRow | realtime_query.py:79-81 | the inner loop fills array row i / 8 with the means of the blocks at sketch row i and leaves the other rows alone |
| RealtimeQuery.CompressConstant | realtime_query.py:72-83 | a sketch with one value everywhere compresses to that value, normalised |
| RealtimeQuery.CompressBlank | realtime_query.py:72-83 | an all-zero sketch gives 0.01 on every input |
| RealtimeQuery.CompressBounds | realtime_query.py:72-83 | raw values in [0, 255] give inputs in [0.01, 1.0] |
| RealtimeQuery.Percent | realtime_query.py:122 | x / total * 100; partner lemma PercentKeepsOrder |
| RealtimeQuery.PercentKeepsOrder | realtime_query.py:122 | over a positive total, percentages keep the order of the values |
| RealtimeQuery.RawPercentages | realtime_query.py:118-122 | percentage i is out_i / sum(out) * 100 |
| RealtimeQuery.PercentagesSumTo100 | realtime_query.py:118-122 | the unrounded percentages add up to 100 |
| RealtimeQuery.PercentagesKeepArgmax | realtime_query.py:122-132 | with a positive sum the largest percentage belongs to the largest output |
| RealtimeQuery.Rounded | realtime_query.py:122 | the rounding is applied to every percentage |
| RealtimeQuery.Enumerate | realtime_query.py:128 | enumerate pairs each class with its percentage |
| RealtimeQuery.Insert | realtime_query.py:127-129 | inserting adds exactly that entry (as a multiset) |
| RealtimeQuery.InsertRanked | realtime_query.py:127-129 | inserting a new class into a ranked list keeps it ranked |
| RealtimeQuery.SortEntries | realtime_query.py:127-129 | the result is a permutation ranked by value descending, then class ascending |
| RealtimeQuery.Rank | realtime_query.py:127-129 | `sorted(enumerate(v), key=value, reverse=True)`: same length, ranked, a permutation of enumerate(v) |
| RealtimeQuery.RankListsEveryClass | realtime_query.py:143-145 | every class appears exactly once, with its own percentage |
| RealtimeQuery.RankHead | realtime_query.py:137 | the top entry is the first largest percentage |
| RealtimeQuery.RankedHeadsAgree | realtime_query.py:127-129 | two ranked arrangements of the same entries start alike |
| RealtimeQuery.RankedUnique | realtime_query.py:127-129 | two ranked arrangements of the same entries are equal |
| RealtimeQuery.RankIsTheStableSort | realtime_query.py:127-129 | any ranked permutation of enumerate(v), however it was sorted, is Rank(v) |
| RealtimeQuery.ConfidenceBand | realtime_query.py:148-155 | high iff >= 90, medium iff in [60, 90), low iff in [20, 60), no band iff < 20, so exactly one case holds |
| RealtimeQuery.BandName | realtime_query.py:149-155 | the string sent for each band: "high", "medium", "low" and "no"; partner lemma BandNamesDistinct |
| RealtimeQuery.BandNamesDistinct | realtime_query.py:149-155 | the four names are distinct, and "no" names exactly the lowest band |
| RealtimeQuery.BandMonotonic | realtime_query.py:148-155 | a larger top percentage never gives a lower band |
| RealtimeQuery.Outputs | realtime_query.py:116 | one output per row of who |
| RealtimeQuery.QueryScenario | realtime_query.py:108-137 | one scenario fails iff the weights are mis-shaped or empty (ValueError) or the outputs sum to 0; on success it has one percentage and one ranked entry per output |
| RealtimeQuery.QueryMeaning | realtime_query.py:116-137 | the label is the first largest output; the percentages are the rounded shares; the ranking is their stable sort; with an order-keeping rounding the top value is the label's rounded percentage |
| RealtimeQuery.SumPositive | realtime_query.py:118 | positive outputs have a positive sum |
| RealtimeQuery.SigmoidQueryFails | realtime_query.py:116-122 | with an activation into (0, 1), only mis-shaped or empty weights make a query fail |
| RealtimeQuery.LabelIsTopRanked | realtime_query.py:127-132 | without rounding, the label and the top-ranked class agree |
| RealtimeQuery.RoundTwoDecimals | realtime_query.py:122 | rounding to two decimals: the result is within 0.005 of x and a whole number of hundredths |
| RealtimeQuery.RoundTwoDecimalsMonotone | realtime_query.py:122 | rounding to two decimals keeps the order, so ProcessedMeaning's confidence clause applies to it |
| RealtimeQuery.RoundingMaySplitLabelAndTop | realtime_query.py:122-137 | with two-decimal rounding, outputs 0.49996 and 0.50004 both give 50.0, which puts class 0 on top while the label is 1 |
| RealtimeQuery.ScenarioQuery | realtime_query.py:105-116 | query i uses the weights scenario i saved; partner lemma ScenarioQueriesRanked |
| RealtimeQuery.ScenarioQueriesRanked | realtime_query.py:137 | every successful query has a top entry |
| RealtimeQuery.Queries | realtime_query.py:105-137 | the loop succeeds iff every scenario's query does, giving them in order; otherwise it raises one of their errors |
| RealtimeQuery.QueriesStop | realtime_query.py:105-116 | after a failing scenario, no later one is queried |
| RealtimeQuery.Predictions | realtime_query.py:132-135 | the corrected labels: scenario i's label is its own argmax |
| RealtimeQuery.PredictionsAsWritten | realtime_query.py:135 | the labels as written: every one is scenario 0's argmax |
| RealtimeQuery.PredictionsAsWrittenRepeatFirst | realtime_query.py:135 | a label as written equals scenario i's own iff the two scenarios agree |
| RealtimeQuery.Confidences | realtime_query.py:137 | confidence i is the top value of scenario i's ranking |
| RealtimeQuery.Report | realtime_query.py:137-163 | one confidence per scenario, one headline class and value per entry of scenario 3's ranking, and the band name of scenario 3's confidence |
| RealtimeQuery.Processed | realtime_query.py:90-165 | process_image as written, with scenario 0's label for every scenario: a successful query had a 224 x 224 sketch and gives four labels and four confidences |
| RealtimeQuery.CorrectedProcessed | realtime_query.py:90-165 | process_image with each scenario's own label: a successful query had a 224 x 224 sketch and gives four labels and four confidences |
| RealtimeQuery.QueryScenarios | realtime_query.py:105-137 | the scenario loop as written: the queries are those of Queries, the labels are PredictionsAsWritten of them, the confidences their top values |
| RealtimeQuery.QueryScenariosCorrected | realtime_query.py:105-137 | the scenario loop appending each query's own label: the labels are Predictions of the queries |
| RealtimeQuery.ProcessImage | realtime_query.py:90-165 | the method's result is Processed |
| RealtimeQuery.ProcessImageCorrected | realtime_query.py:90-165 | the method's result is CorrectedProcessed |
| RealtimeQuery.ProcessedQueries | realtime_query.py:92-137 | a successful query compressed the sketch and queried all four scenarios; the corrected query succeeds too and differs only in its labels |
| RealtimeQuery.ProcessedMeaning | realtime_query.py:116-155 | as written, label i is scenario 0's first largest output; corrected, scenario i's own; confidence i is scenario i's rounded top percentage; the band is the name of scenario 3's confidence band |
| RealtimeQuery.HeadlineRanking | realtime_query.py:143-145 | the headline list holds every class of scenario 3 once, with values in non-increasing order |
| RealtimeQuery.RankedClasses | realtime_query.py:127-145 | a ranking's classes are every class exactly once, and its percentages never increase down the list |
| RealtimeQuery.SplitRanking | realtime_query.py:143-145 | the loop gives the ranking's classes and its percentages, in ranked order |
| RealtimeQuery.LabelsAsWrittenRepeatScenario0 | realtime_query.py:135 | when scenario i's argmax differs from scenario 0's, process_image's label for scenario i is wrong and the corrected one is right |
| Sketchpad.MousePos | static/js/sketchpad.js:116-128 | getMousePos changes only mouseX and mouseY, to the position the event carries, if any |
| Sketchpad.TouchPos | static/js/sketchpad.js:159-171 | getTouchPos changes only touchX and touchY, to the position the touch carries, if any |
| Sketchpad.Step | static/js/sketchpad.js:90-156 | what each handler does to the pen state; a handler adds at most one line and never removes one |
| Sketchpad.Replay | static/js/sketchpad.js:90-156 | the state after a sequence of events; partner lemmas ReplayAppend and DrawnOnlyGrows |
| Sketchpad.ReplayAppend | static/js/sketchpad.js:90-156 | replaying a then b is replaying b from where a ended |
| Sketchpad.Draw | static/js/sketchpad.js:39-77 | afterwards (x, y) is the last position; one line is added, a dot at (x, y) if lastX was -1, else from (lastX, lastY); nothing else changes |
| Sketchpad.ReleaseResets | static/js/sketchpad.js:96-102 | mouse-up clears the button and sets lastX and lastY to -1; touch-end resets only lastX and lastY |
| Sketchpad.MouseMoveDrawsOnlyWhenDown | static/js/sketchpad.js:105-113 | a move draws a line iff the button is down, ending at the new mouse position |
| Sketchpad.MouseDownDraws | static/js/sketchpad.js:90-93 | pressing sets the button and draws one line to the mouse position |
| Sketchpad.StrokeAfterReleaseIsDot | static/js/sketchpad.js:141-156 | after a release, the next touch draws a dot at its own position |
| Sketchpad.StrokeConnects | static/js/sketchpad.js:42-45 | in a stroke each line starts where the previous one ended, unless that point had coordinate -1 |
| Sketchpad.FirstPressNotAnchored | static/js/sketchpad.js:33 | before the first release lastX is undefined, so the first press draws from (undefined, -1) |
| Sketchpad.DrawnOnlyGrows | static/js/sketchpad.js:39-77 | events only ever add lines |
| Sketchpad.MouseDownStaysBinary | static/js/sketchpad.js:25 | the button state stays 0 or 1 over any events |
| Sketchpad.MovesWhileUpDrawNothing | static/js/sketchpad.js:105-113 | moves with the button up draw nothing and do not touch lastX and lastY |
| Sketchpad.Pen.constructor | static/js/sketchpad.js:25-33 | the globals start as declared: only mouseDown (0) and lastY (-1) have values |
| Sketchpad.Pen.DrawLine | static/js/sketchpad.js:39-77 | the fields change as Draw says |
| Sketchpad.Pen.OnMouseDown | static/js/sketchpad.js:90-93 | the fields change as a MouseDown step says |
| Sketchpad.Pen.OnMouseUp | static/js/sketchpad.js:96-102 | the fields change as a MouseUp step says |
| Sketchpad.Pen.OnMouseMove | static/js/sketchpad.js:105-113 | the fields change as a MouseMove step says |
| Sketchpad.Pen.OnTouchStart | static/js/sketchpad.js:131-139 | the fields change as a TouchStart step says |
| Sketchpad.Pen.OnTouchMove | static/js/sketchpad.js:148-156 | the fields change as a TouchMove step says |
| Sketchpad.Pen.OnTouchEnd | static/js/sketchpad.js:141-145 | the fields change as a TouchEnd step says |
| Sketchpad.Toggle | static/js/sketchpad.js:7-14 | the result is "visible" or "hidden", and "visible" iff the old value was "hidden" |
| Sketchpad.ToggleTwice | static/js/sketchpad.js:7-14 | two toggles restore a value iff it was "hidden" or "visible"; any other value ends "visible" |
| Sketchpad.Scan | static/js/sketchpad.js:224-235 | the blank-canvas loop from index i on; partner lemma ScanMeaning |
| Sketchpad.ScanMeaning | static/js/sketchpad.js:221-235 | for two or more values the scan answers whether some value before the last is positive; for one value, true iff it is positive, else null |
| Sketchpad.DrawnOn | static/js/sketchpad.js:221-235 | null for no data; for one value, true iff it is positive, else null; otherwise true iff some value before the last is positive, else false |
| Sketchpad.Alpha | static/js/sketchpad.js:245-253 | ceil(len / 4) values; value k is px[4k + 3], or undefined past the end |
| Sketchpad.AlphaOfPixels | static/js/sketchpad.js:245-253 | when len % 4 == 0, exactly len / 4 alpha values, px[4k + 3], all defined |
| Sketchpad.AlphaOfPartialPixel | static/js/sketchpad.js:251-253 | otherwise the last value pushed is undefined |
| Sketchpad.GetImage | static/js/sketchpad.js:213-265 | the two loops give DrawnOn and Alpha |

## Left out

- File I/O is left out: reading the MNIST csv files, `loadtxt`, `savetxt`,
  `load_test_scores` and `initialise_parameters`. Files arrive as values
  (records, `load(i)`), and writing files has no effect in the model.
- CSV and number parsing are left out: `split(',')`, `int(...)` of a label
  and `numpy.asfarray` of the sketch string. A record is already a
  (label, pixels) pair and the sketch is already a sequence of numbers. The
  ValueError that a non-numeric field raises is not modelled.
- The sigmoid `scipy.special.expit` is not definable here. It is the
  parameter `act`. Claims about (0, 1) outputs require it explicitly.
- Floating point is left out, and so are `numpy.round(..., 2)` (the parameter
  `round`), `round(score * 100, 2)`, and the string formatting with `str`
  and `"%"`. Scores, confidences and labels stay numbers.
- Random weight initialisation (`numpy.random.normal`) and timing and
  printing (`time.perf_counter`, `print`, `console.log`) are left out.
- Flask routes and the DOM are left out: `getElementById`, canvas rendering
  (lines are recorded as segments), `localStorage`, `store_sketch`,
  `clearCanvas`, `init`, jQuery, and the "Please sketch a number!" message.
  The `getMousePos`/`getTouchPos` reading of event fields becomes the
  optional position an event carries.
- Sketchpad.Coord: canvas coordinates are integers. JavaScript numbers are
  doubles.
- RealtimeQuery.QueryScenario: when the outputs sum to 0, numpy produces
  inf/nan percentages. The model stops that scenario with a
  ZeroDivisionError instead. Real-valued percentages cannot represent nan.
  With the sigmoid this case cannot occur (`SigmoidQueryFails`).
- ANN.BackwardProp: requires the shapes numpy's products need instead of
  modelling the ValueError of a mis-shaped product. `TrainStep` models that
  error for training.
- TrainAndTest.Training: requires the arrays to fit the configured shapes,
  which `initialise_for_train_and_test` always creates. A mis-fitting shape
  is modelled in `TrainStep` and `Predict`.
- TrainAndTest.Predict: treats a `who` with no rows as mis-shaped
  (ValueError), as numpy's argmax of an empty array raises.

## Findings

| source | as written | input that shows it | evidently intended | confidence | as-written member | corrected member |
|---|---|---|---|---|---|---|
| train_and_test.py:106-108 | `wih = wih_init` binds the same arrays, and `backward_prop` updates them in place with `+=`. Each scenario therefore continues training the weights the previous scenarios left behind. | any training file of at least 60,000 well-formed records: scenario 3's weights have taken 366,600 updates rather than 5 x 60,000 = 300,000 | each scenario starts from the initial weights: the header (train_and_test.py:6-11) lists the four scenarios as alternatives, each with its own record and epoch counts, and `training` calls its parameters the initial weights (train_and_test.py:86-87) | not executed; high for the aliasing, which the in-place `+=` makes certain | TrainAndTest.SharedUpdateCount | TrainAndTest.SeparateCampaignScore |
| realtime_query.py:135 | `predicted_labels.append(str(index[0]))` reports scenario 0's label for all four scenarios | any sketch for which scenario i's weights have a different largest output than scenario 0's | `str(index[i])`: each scenario's own argmax, next to its own confidence | not executed; high | RealtimeQuery.LabelsAsWrittenRepeatScenario0 | RealtimeQuery.CorrectedProcessed |
