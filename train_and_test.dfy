/** train_and_test.py: training a network record by record over a number of
    epochs, counting its correct predictions on a test set, and the driver
    that runs the four scenarios one after the other on the same two weight
    arrays. Reading the csv files, writing the weights and scores to files,
    timing and printing are not modelled: a file arrives as a sequence of
    records. */
module TrainAndTest {
  import opened Wrappers
  import opened Linear
  import opened Config
  import opened Pixels
  import opened ANN

  /** One line of an MNIST csv file once split at its commas: the label (the
      digit the image shows) and the raw pixel values that follow it. */
  datatype Record = Record(digit: int, pixels: seq<real>)

  /** The position numpy writes to when a vector of length n is indexed by
      a label: a negative label counts from the end. */
  function TargetIndex(digit: int, n: nat): (k: nat)
    requires -(n as int) <= digit < n
    ensures k < n
    ensures 0 <= digit ==> k == digit
    ensures digit < 0 ==> k == digit + n
  {
    if digit < 0 then digit + n else digit
  }

  /** targets_list: 0.01 everywhere and 0.99 at the label's position. A
      label outside [-n, n) makes numpy raise IndexError. */
  function TargetVector(digit: int, n: nat): (r: Result<Vector>)
    ensures r.Ok? <==> -(n as int) <= digit < n
    ensures r.Ok? ==> |r.value| == n
    ensures r.Ok? ==> r.value[TargetIndex(digit, n)] == 0.99
    ensures r.Ok? ==> forall i :: 0 <= i < n && i != TargetIndex(digit, n) ==> r.value[i] == 0.01
  {
    if -(n as int) <= digit < n then
      Ok(seq(n, i => 0.0 + 0.01)[TargetIndex(digit, n) := 0.99])
    else
      Err(IndexError)
  }

  /** The target vector of a label in [0, n) decodes back to that label:
      its argmax is the label. */
  lemma TargetVectorArgmax(digit: int, n: nat)
    requires 0 <= digit < n
    ensures TargetVector(digit, n).Ok?
    ensures Argmax(TargetVector(digit, n).value) == digit
  {
    var v := TargetVector(digit, n).value;
    ArgmaxUnique(v, digit);
  }

  /** The weights fit the network's outer layers: wih has one column per
      input node, who one row per output node and one column per row of wih
      (the hidden nodes). Otherwise numpy raises ValueError for a product
      or a difference whose shapes do not agree. */
  predicate Fits(w: Weights, sh: Shape) {
    IsMatrix(w.wih, |w.wih|, sh.inputs) && IsMatrix(w.who, sh.outputs, |w.wih|)
  }

  /** A record training can use: its label indexes the target vector and it
      has one pixel per input node. */
  predicate WellFormed(rec: Record, sh: Shape) {
    -(sh.outputs as int) <= rec.digit < sh.outputs && |rec.pixels| == sh.inputs
  }

  /** The body of the inner training loop for one record: build the target
      vector, scale the pixels, propagate forward, then backward. */
  function TrainStep(w: Weights, rec: Record, sh: Shape, lr: real, act: real -> real): (r: Result<Weights>)
    ensures r.Ok? <==> WellFormed(rec, sh) && Fits(w, sh)
    ensures !(-(sh.outputs as int) <= rec.digit < sh.outputs) ==> r == Err(IndexError)
    ensures r.Ok? ==> Fits(r.value, sh) && |r.value.wih| == |w.wih|
  {
    var targets :- TargetVector(rec.digit, sh.outputs);
    if |rec.pixels| != sh.inputs || !Fits(w, sh) then Err(ValueError)
    else
      var inputs := NormaliseAll(rec.pixels);
      var layers := ForwardProp(inputs, w.wih, w.who, act);
      Ok(BackwardStep(inputs, layers.hidden, layers.output, targets, w, lr))
  }

  /** TrainStep for a fixed configuration, as a value. */
  function Learner(sh: Shape, lr: real, act: real -> real): (Weights, Record) -> Result<Weights> {
    (w, rec) => TrainStep(w, rec, sh, lr, act)
  }

  /** Where a run of training steps ends: the final weights, how many steps
      were completed, and the exception that stopped it, if any. */
  datatype Run = Run(weights: Weights, steps: nat, failure: Option<Exception>)

  /** Steps over recs in order, each starting from the weights the previous
      one returned; the first step that raises stops the run and leaves the
      weights as the steps before it made them. */
  function RunSteps(w: Weights, recs: seq<Record>, step: (Weights, Record) -> Result<Weights>): (r: Run)
    ensures r.steps <= |recs|
    ensures r.failure.None? ==> r.steps == |recs|
    decreases |recs|
  {
    if |recs| == 0 then Run(w, 0, None)
    else
      var prev := RunSteps(w, recs[..|recs| - 1], step);
      if prev.failure.Some? then prev
      else
        match step(prev.weights, recs[|recs| - 1])
        case Err(e) => Run(prev.weights, prev.steps, Some(e))
        case Ok(next) => Run(next, prev.steps + 1, None)
  }

  /** One more record after a run that did not fail is one more step from
      the weights that run ended with. */
  lemma RunStepsSnoc(w: Weights, recs: seq<Record>, rec: Record, step: (Weights, Record) -> Result<Weights>)
    requires RunSteps(w, recs, step).failure.None?
    ensures var prev := RunSteps(w, recs, step);
      RunSteps(w, recs + [rec], step)
        == match step(prev.weights, rec)
           case Err(e) => Run(prev.weights, prev.steps, Some(e))
           case Ok(next) => Run(next, prev.steps + 1, None)
  {
    assert (recs + [rec])[..|recs|] == recs;
  }

  /** Once a run has failed, more records change nothing. */
  lemma {:induction false} RunStepsFailed(w: Weights, recs: seq<Record>, more: seq<Record>,
                                          step: (Weights, Record) -> Result<Weights>)
    requires RunSteps(w, recs, step).failure.Some?
    ensures RunSteps(w, recs + more, step) == RunSteps(w, recs, step)
    decreases |more|
  {
    if |more| > 0 {
      var front := more[..|more| - 1];
      RunStepsFailed(w, recs, front, step);
      assert (recs + more)[..|recs + more| - 1] == recs + front;
    } else {
      assert recs + more == recs;
    }
  }

  /** Running over a then over b is running over b from the weights a ended
      with: the weights each step returns feed the next. */
  lemma {:induction false} RunStepsAppend(w: Weights, a: seq<Record>, b: seq<Record>,
                                          step: (Weights, Record) -> Result<Weights>)
    requires RunSteps(w, a, step).failure.None?
    ensures var first := RunSteps(w, a, step);
      var second := RunSteps(first.weights, b, step);
      RunSteps(w, a + b, step) == Run(second.weights, first.steps + second.steps, second.failure)
    decreases |b|
  {
    if |b| == 0 {
      assert a + b == a;
    } else {
      var front := b[..|b| - 1];
      var last := b[|b| - 1];
      RunStepsAppend(w, a, front, step);
      assert a + b == (a + front) + [last];
      var first := RunSteps(w, a, step);
      var mid := RunSteps(first.weights, front, step);
      assert b == front + [last];
      if mid.failure.None? {
        RunStepsSnoc(w, a + front, last, step);
        RunStepsSnoc(first.weights, front, last, step);
      } else {
        RunStepsFailed(w, a + front, [last], step);
        RunStepsFailed(first.weights, front, [last], step);
      }
    }
  }

  /** Training from weights that fit: the weights keep fitting, the run
      fails exactly when some record is malformed, and then it stops at
      the first malformed record, every record before it having been used. */
  lemma {:induction false} TrainingOutcome(w: Weights, recs: seq<Record>, sh: Shape, lr: real, act: real -> real)
    requires Fits(w, sh)
    ensures var r := RunSteps(w, recs, Learner(sh, lr, act));
      && Fits(r.weights, sh)
      && (r.failure.None? <==> forall i :: 0 <= i < |recs| ==> WellFormed(recs[i], sh))
      && (r.failure.Some? ==> r.steps < |recs| && !WellFormed(recs[r.steps], sh))
      && (forall i :: 0 <= i < r.steps ==> WellFormed(recs[i], sh))
    decreases |recs|
  {
    if |recs| > 0 {
      var front := recs[..|recs| - 1];
      TrainingOutcome(w, front, sh, lr, act);
      assert forall i :: 0 <= i < |front| ==> front[i] == recs[i];
    }
  }

  /** The records of one epoch repeated once per epoch, the order in which
      the two nested loops visit them. */
  function Repeat(recs: seq<Record>, epochs: nat): (r: seq<Record>)
    ensures |r| == epochs * |recs|
    decreases epochs
  {
    if epochs == 0 then [] else Repeat(recs, epochs - 1) + recs
  }

  /** Step ep * n + k of the schedule trains on record k: no shuffling. */
  lemma {:induction false} RepeatAt(recs: seq<Record>, epochs: nat, ep: nat, k: nat)
    requires ep < epochs && k < |recs|
    ensures ep * |recs| + k < |Repeat(recs, epochs)|
    ensures Repeat(recs, epochs)[ep * |recs| + k] == recs[k]
    decreases epochs
  {
    var n := |recs|;
    assert epochs * n == (epochs - 1) * n + n;
    if ep < epochs - 1 {
      RepeatAt(recs, epochs - 1, ep, k);
      assert ep * n + k < (epochs - 1) * n;
    } else {
      assert ep * n + k == (epochs - 1) * n + k;
    }
  }

  /** Only records of the list are ever trained on. */
  lemma {:induction false} RepeatMembers(list: seq<Record>, epochs: nat)
    ensures forall i :: 0 <= i < |Repeat(list, epochs)| ==> Repeat(list, epochs)[i] in list
    decreases epochs
  {
    if epochs > 0 {
      RepeatMembers(list, epochs - 1);
      var prev := Repeat(list, epochs - 1);
      assert Repeat(list, epochs) == prev + list;
      forall i | 0 <= i < |prev + list| ensures (prev + list)[i] in list {
        if i >= |prev| {
          assert (prev + list)[i] == list[i - |prev|];
        }
      }
    }
  }

  /** Repeating a + b times is repeating a times, then b times. */
  lemma {:induction false} RepeatSplit(list: seq<Record>, a: nat, b: nat)
    ensures Repeat(list, a + b) == Repeat(list, a) + Repeat(list, b)
    decreases b
  {
    if b > 0 {
      RepeatSplit(list, a, b - 1);
      assert Repeat(list, a) + Repeat(list, b - 1) + list == Repeat(list, a) + (Repeat(list, b - 1) + list);
    }
  }

  /** training_data_list: the first num_lines lines of the file, or all of
      them when the file is shorter. */
  function TrainingList(file: seq<Record>, numLines: nat): (r: seq<Record>)
    ensures |r| <= numLines && |r| <= |file|
    ensures |r| == numLines || |r| == |file|
    ensures r == file[..|r|]
  {
    if numLines <= |file| then file[..numLines] else file
  }

  /** Every record a scenario trains on, in the order it trains on them. */
  function Schedule(file: seq<Record>, s: Scenario): seq<Record> {
    Repeat(TrainingList(file, s.numLines), s.numEpochs)
  }

  /** With well-formed records, a scenario makes exactly num_epochs times
      (records used) forward and backward steps and never stops early. */
  lemma ScheduleCompletes(w: Weights, file: seq<Record>, s: Scenario, sh: Shape, lr: real, act: real -> real)
    requires Fits(w, sh)
    requires forall i :: 0 <= i < |file| ==> WellFormed(file[i], sh)
    ensures var r := RunSteps(w, Schedule(file, s), Learner(sh, lr, act));
      r.failure.None? && r.steps == s.numEpochs * |TrainingList(file, s.numLines)|
  {
    var list := TrainingList(file, s.numLines);
    var sched := Schedule(file, s);
    RepeatMembers(list, s.numEpochs);
    TrainingOutcome(w, sched, sh, lr, act);
  }

  /** The two arrays' contents as weights. */
  function Current(wih: array2<real>, who: array2<real>): (w: Weights)
    reads wih, who
    ensures w.wih == Snapshot(wih) && w.who == Snapshot(who)
  {
    Weights(Snapshot(wih), Snapshot(who))
  }

  /** The arrays have the shapes of Fits. */
  predicate ArraysFit(wih: array2<real>, who: array2<real>, sh: Shape) {
    wih.Length1 == sh.inputs && who.Length0 == sh.outputs && who.Length1 == wih.Length0
  }

  /** The body of the inner loop of training on the arrays themselves: a
      malformed record raises before either array is touched. */
  method TrainOnRecord(record: Record, wihIn: array2<real>, whoIn: array2<real>,
                       sh: Shape, lr: real, act: real -> real)
    returns (wih: array2<real>, who: array2<real>, failure: Option<Exception>)
    requires wihIn != whoIn && ArraysFit(wihIn, whoIn, sh)
    modifies wihIn, whoIn
    ensures wih == wihIn && who == whoIn
    ensures match TrainStep(old(Current(wihIn, whoIn)), record, sh, lr, act)
      case Ok(next) => failure.None? && Current(wih, who) == next
      case Err(e) => failure == Some(e) && Current(wih, who) == old(Current(wihIn, whoIn))
  {
    wih, who := wihIn, whoIn;
    var targets := TargetVector(record.digit, sh.outputs);
    if targets.Err? || |record.pixels| != sh.inputs {
      failure := Some(if targets.Err? then targets.error else ValueError);
      return;
    }
    failure := None;
    var inputs := NormaliseAll(record.pixels);
    var layers := ForwardProp(inputs, Snapshot(wih), Snapshot(who), act);
    wih, who := BackwardProp(inputs, layers.hidden, layers.output, targets.value, wih, who, lr);
  }

  /** The inner loop of training: one pass over the records in order. */
  method TrainEpoch(list: seq<Record>, wihIn: array2<real>, whoIn: array2<real>,
                    sh: Shape, lr: real, act: real -> real)
    returns (wih: array2<real>, who: array2<real>, failure: Option<Exception>)
    requires wihIn != whoIn && ArraysFit(wihIn, whoIn, sh)
    modifies wihIn, whoIn
    ensures wih == wihIn && who == whoIn
    ensures var run := RunSteps(old(Current(wihIn, whoIn)), list, Learner(sh, lr, act));
      Current(wih, who) == run.weights && failure == run.failure
  {
    ghost var w0 := Current(wihIn, whoIn);
    ghost var learn := Learner(sh, lr, act);
    wih, who := wihIn, whoIn;
    failure := None;
    var r := 0;
    while r < |list|
      invariant 0 <= r <= |list|
      invariant wih == wihIn && who == whoIn && failure.None?
      invariant var run := RunSteps(w0, list[..r], learn);
        run.failure.None? && Current(wih, who) == run.weights
    {
      assert list[..r] + [list[r]] == list[..r + 1];
      RunStepsSnoc(w0, list[..r], list[r], learn);
      wih, who, failure := TrainOnRecord(list[r], wih, who, sh, lr, act);
      if failure.Some? {
        RunStepsFailed(w0, list[..r + 1], list[r + 1..], learn);
        assert list[..r + 1] + list[r + 1..] == list;
        return;
      }
      r := r + 1;
    }
    assert list[..r] == list;
  }

  /** One more epoch after epochs that did not fail continues from the
      weights they ended with. */
  lemma EpochAdvance(w: Weights, list: seq<Record>, epoch: nat, step: (Weights, Record) -> Result<Weights>)
    requires RunSteps(w, Repeat(list, epoch), step).failure.None?
    ensures var first := RunSteps(w, Repeat(list, epoch), step);
      var second := RunSteps(first.weights, list, step);
      RunSteps(w, Repeat(list, epoch + 1), step) == Run(second.weights, first.steps + second.steps, second.failure)
  {
    RunStepsAppend(w, Repeat(list, epoch), list, step);
  }

  /** An epoch that fails ends the whole schedule there. */
  lemma EpochStops(w: Weights, list: seq<Record>, epoch: nat, epochs: nat, step: (Weights, Record) -> Result<Weights>)
    requires epoch < epochs
    requires RunSteps(w, Repeat(list, epoch + 1), step).failure.Some?
    ensures RunSteps(w, Repeat(list, epochs), step) == RunSteps(w, Repeat(list, epoch + 1), step)
  {
    var rest := epochs - (epoch + 1);
    RepeatSplit(list, epoch + 1, rest);
    assert Repeat(list, epochs) == Repeat(list, epoch + 1) + Repeat(list, rest);
    RunStepsFailed(w, Repeat(list, epoch + 1), Repeat(list, rest), step);
  }

  /** training: the epochs and records of a scenario in order, updating the
      arrays it was given in place (wih = wih_init does not copy them) and
      returning those same arrays. A malformed record raises, leaving the
      arrays as the steps before it made them. */
  method Training(s: Scenario, file: seq<Record>, wihInit: array2<real>, whoInit: array2<real>,
                  sh: Shape, lr: real, act: real -> real)
    returns (wih: array2<real>, who: array2<real>, failure: Option<Exception>)
    requires wihInit != whoInit && ArraysFit(wihInit, whoInit, sh)
    modifies wihInit, whoInit
    ensures wih == wihInit && who == whoInit
    ensures var run := RunSteps(old(Current(wihInit, whoInit)), Schedule(file, s), Learner(sh, lr, act));
      Current(wih, who) == run.weights && failure == run.failure
  {
    ghost var w0 := Current(wihInit, whoInit);
    ghost var learn := Learner(sh, lr, act);
    var list := TrainingList(file, s.numLines);
    wih, who := wihInit, whoInit;
    failure := None;
    var epoch := 0;
    ghost var run := RunSteps(w0, Repeat(list, 0), learn);
    while epoch < s.numEpochs
      invariant 0 <= epoch <= s.numEpochs
      invariant wih == wihInit && who == whoInit && failure.None?
      invariant run == RunSteps(w0, Repeat(list, epoch), learn)
      invariant run.failure.None? && Current(wih, who) == run.weights
    {
      EpochAdvance(w0, list, epoch, learn);
      wih, who, failure := TrainEpoch(list, wih, who, sh, lr, act);
      run := RunSteps(w0, Repeat(list, epoch + 1), learn);
      if failure.Some? {
        EpochStops(w0, list, epoch, s.numEpochs, learn);
        return;
      }
      epoch := epoch + 1;
    }
  }

  /** The products of forward_prop agree in shape: wih has one column per
      pixel and who one column per row of wih; and there is at least one
      output for argmax to choose. */
  predicate Predictable(rec: Record, w: Weights) {
    IsMatrix(w.wih, |w.wih|, |rec.pixels|) && IsMatrix(w.who, |w.who|, |w.wih|) && |w.who| > 0
  }

  /** The network's top prediction for a test record, numpy.argmax of the
      outputs. Shapes that do not agree make numpy.dot raise ValueError, and
      so does argmax over no outputs. */
  function Predict(rec: Record, w: Weights, act: real -> real): (r: Result<nat>)
    ensures r.Ok? <==> Predictable(rec, w)
    ensures r.Err? ==> r.error == ValueError
    ensures r.Ok? ==> r.value < |w.who|
  {
    if !Predictable(rec, w) then Err(ValueError)
    else Ok(Argmax(ForwardProp(NormaliseAll(rec.pixels), w.wih, w.who, act).output))
  }

  /** The prediction is the output node with the largest activation, the
      first such node when several tie. */
  lemma PredictIsLargestOutput(rec: Record, w: Weights, act: real -> real)
    requires Predictable(rec, w)
    ensures var out := ForwardProp(NormaliseAll(rec.pixels), w.wih, w.who, act).output;
      var k := Predict(rec, w, act).value;
      && (forall m :: 0 <= m < |out| ==> out[m] <= out[k])
      && (forall m :: 0 <= m < k ==> out[m] < out[k])
  {
  }

  /** Predict for fixed weights, as a value. */
  function Predictor(w: Weights, act: real -> real): Record -> Result<nat> {
    rec => Predict(rec, w, act)
  }

  /** The prediction for the record is its label. */
  predicate Hit(rec: Record, predict: Record -> Result<nat>) {
    var top := predict(rec);
    top.Ok? && top.value as int == rec.digit
  }

  /** The count of correct predictions over the records, or the error of
      the first record that cannot be predicted. */
  function Tally(recs: seq<Record>, predict: Record -> Result<nat>): (r: Result<nat>)
    ensures r.Ok? <==> forall i :: 0 <= i < |recs| ==> predict(recs[i]).Ok?
    ensures r.Err? ==> exists i :: 0 <= i < |recs| && predict(recs[i]) == Err(r.error)
    ensures r.Ok? ==> r.value <= |recs|
    decreases |recs|
  {
    if |recs| == 0 then Ok(0)
    else
      var front := recs[..|recs| - 1];
      assert forall i :: 0 <= i < |front| ==> front[i] == recs[i];
      var prev :- Tally(front, predict);
      var top :- predict(recs[|recs| - 1]);
      Ok(if top as int == recs[|recs| - 1].digit then prev + 1 else prev)
  }

  /** The indices of the records predicted correctly. */
  function Hits(recs: seq<Record>, predict: Record -> Result<nat>): set<int> {
    set i | 0 <= i < |recs| && Hit(recs[i], predict)
  }

  /** When every record can be predicted, the tally is the number of
      records predicted correctly. */
  lemma {:induction false} TallyCountsHits(recs: seq<Record>, predict: Record -> Result<nat>)
    requires Tally(recs, predict).Ok?
    ensures Tally(recs, predict).value == |Hits(recs, predict)|
    decreases |recs|
  {
    if |recs| > 0 {
      var n := |recs| - 1;
      var front := recs[..n];
      assert forall i :: 0 <= i < n ==> front[i] == recs[i];
      TallyCountsHits(front, predict);
      if Hit(recs[n], predict) {
        assert Hits(recs, predict) == Hits(front, predict) + {n};
      } else {
        assert Hits(recs, predict) == Hits(front, predict);
      }
    }
  }

  /** The tally is all of the records exactly when every prediction is
      correct, and none of them exactly when every one is wrong. */
  lemma {:induction false} TallyAllOrNone(recs: seq<Record>, predict: Record -> Result<nat>)
    requires Tally(recs, predict).Ok?
    ensures Tally(recs, predict).value == |recs| <==> forall i :: 0 <= i < |recs| ==> Hit(recs[i], predict)
    ensures Tally(recs, predict).value == 0 <==> forall i :: 0 <= i < |recs| ==> !Hit(recs[i], predict)
    decreases |recs|
  {
    if |recs| > 0 {
      var n := |recs| - 1;
      var front := recs[..n];
      assert forall i :: 0 <= i < n ==> front[i] == recs[i];
      TallyAllOrNone(front, predict);
    }
  }

  /** score = count / len(test_data_list): the fraction of correct
      predictions; an empty test set divides by zero. */
  function Score(count: nat, total: nat): (r: Result<real>)
    ensures r.Err? <==> total == 0
    ensures r.Err? ==> r.error == ZeroDivisionError
    ensures r.Ok? && count <= total ==> 0.0 <= r.value <= 1.0
    ensures r.Ok? ==> (r.value == 1.0 <==> count == total)
    ensures r.Ok? ==> (r.value == 0.0 <==> count == 0)
  {
    if total == 0 then Err(ZeroDivisionError) else Ok(count as real / total as real)
  }

  /** The score testing computes from the test records and weights. */
  function TestScore(recs: seq<Record>, w: Weights, act: real -> real): Result<real> {
    var count :- Tally(recs, Predictor(w, act));
    Score(count, |recs|)
  }

  /** The score is the fraction of test records the network predicts
      correctly: 1 exactly when it predicts all of them, 0 exactly when
      none. A record the weights cannot be applied to raises ValueError,
      an empty test set ZeroDivisionError. */
  lemma TestScoreMeaning(recs: seq<Record>, w: Weights, act: real -> real)
    ensures var r := TestScore(recs, w, act);
      var predict := Predictor(w, act);
      && (r.Err? <==> |recs| == 0 || exists i :: 0 <= i < |recs| && !Predictable(recs[i], w))
      && (r.Err? ==> r.error == (if |recs| > 0 then ValueError else ZeroDivisionError))
      && (r.Ok? ==> && r.value == |Hits(recs, predict)| as real / |recs| as real
                    && 0.0 <= r.value <= 1.0
                    && (r.value == 1.0 <==> forall i :: 0 <= i < |recs| ==> Hit(recs[i], predict))
                    && (r.value == 0.0 <==> forall i :: 0 <= i < |recs| ==> !Hit(recs[i], predict)))
  {
    var predict := Predictor(w, act);
    var t := Tally(recs, predict);
    if t.Ok? {
      TallyCountsHits(recs, predict);
      TallyAllOrNone(recs, predict);
    }
  }

  /** testing: the loop over the test records, counting the correct
      predictions, then the score. It reads the weight arrays and changes
      nothing. */
  method Testing(testData: seq<Record>, wih: array2<real>, who: array2<real>, act: real -> real)
    returns (score: Result<real>)
    ensures score == TestScore(testData, Current(wih, who), act)
  {
    var w := Current(wih, who);
    var count := 0;
    var i := 0;
    while i < |testData|
      invariant 0 <= i <= |testData|
      invariant Tally(testData[..i], Predictor(w, act)) == Ok(count)
    {
      var top := Predict(testData[i], w, act);
      if top.Err? {
        assert Predictor(w, act)(testData[i]) == top;
        return Err(top.error);
      }
      if top.value as int == testData[i].digit {
        count := count + 1;
      }
      assert testData[..i + 1][..i] == testData[..i];
      i := i + 1;
    }
    assert testData[..i] == testData;
    score := Score(count, |testData|);
  }

  /** Every record of the given schedules, one schedule after the other. */
  function Concat(scheds: seq<seq<Record>>): seq<Record>
    decreases |scheds|
  {
    if |scheds| == 0 then [] else Concat(scheds[..|scheds| - 1]) + scheds[|scheds| - 1]
  }

  /** The schedule of each scenario, in order. */
  function Schedules(file: seq<Record>, scs: seq<Scenario>): (r: seq<seq<Record>>)
    ensures |r| == |scs| && forall i :: 0 <= i < |scs| ==> r[i] == Schedule(file, scs[i])
  {
    seq(|scs|, i requires 0 <= i < |scs| => Schedule(file, scs[i]))
  }

  /** Testing for a fixed test set, as a value. */
  function Tester(testData: seq<Record>, act: real -> real): Weights -> Result<real> {
    w => TestScore(testData, w, act)
  }

  /** Where the main loop ends: the test scores so far, the exception that
      stopped it if any, and the weights left in the arrays. */
  datatype Campaign = Campaign(scores: seq<real>, failure: Option<Exception>, weights: Weights)

  /** The main loop as written: each schedule continues training the
      weights the previous one left, and the weights are then tested; the
      first exception, in training or in testing, ends the loop. */
  function SharedCampaign(w: Weights, scheds: seq<seq<Record>>, step: (Weights, Record) -> Result<Weights>,
                          test: Weights -> Result<real>): (c: Campaign)
    ensures |c.scores| <= |scheds|
    ensures c.failure.None? <==> |c.scores| == |scheds|
    decreases |scheds|
  {
    if |scheds| == 0 then Campaign([], None, w)
    else
      var prev := SharedCampaign(w, scheds[..|scheds| - 1], step, test);
      if prev.failure.Some? then prev
      else
        var run := RunSteps(prev.weights, scheds[|scheds| - 1], step);
        if run.failure.Some? then Campaign(prev.scores, run.failure, run.weights)
        else
          match test(run.weights)
          case Err(e) => Campaign(prev.scores, Some(e), run.weights)
          case Ok(v) => Campaign(prev.scores + [v], None, run.weights)
  }

  /** With shared weights a main loop that raised nothing ends with the
      weights trained on every schedule, one after the other. */
  lemma {:induction false} SharedCampaignEnd(w: Weights, scheds: seq<seq<Record>>,
                                             step: (Weights, Record) -> Result<Weights>,
                                             test: Weights -> Result<real>)
    requires SharedCampaign(w, scheds, step, test).failure.None?
    ensures RunSteps(w, Concat(scheds), step).failure.None?
    ensures SharedCampaign(w, scheds, step, test).weights == RunSteps(w, Concat(scheds), step).weights
    decreases |scheds|
  {
    if |scheds| > 0 {
      var n := |scheds| - 1;
      var front := scheds[..n];
      SharedCampaignEnd(w, front, step, test);
      assert Concat(scheds) == Concat(front) + scheds[n];
      RunStepsAppend(w, Concat(front), scheds[n], step);
    }
  }

  /** With shared weights a main loop that raised ends with the weights
      trained on every schedule up to and including the one that raised;
      what raised is that schedule's training or else its testing. */
  lemma {:induction false} SharedCampaignStop(w: Weights, scheds: seq<seq<Record>>,
                                              step: (Weights, Record) -> Result<Weights>,
                                              test: Weights -> Result<real>)
    requires SharedCampaign(w, scheds, step, test).failure.Some?
    ensures var c := SharedCampaign(w, scheds, step, test);
      var run := RunSteps(w, Concat(scheds[..|c.scores| + 1]), step);
      && c.weights == run.weights
      && (run.failure.Some? ==> c.failure == run.failure)
      && (run.failure.None? ==> test(run.weights).Err? && c.failure == Some(test(run.weights).error))
    decreases |scheds|
  {
    var n := |scheds| - 1;
    var front := scheds[..n];
    var prev := SharedCampaign(w, front, step, test);
    if prev.failure.Some? {
      assert SharedCampaign(w, scheds, step, test) == prev;
      var k := |prev.scores|;
      SharedCampaignStop(w, front, step, test);
      assert scheds[..k + 1] == front[..k + 1];
      assert RunSteps(w, Concat(scheds[..k + 1]), step) == RunSteps(w, Concat(front[..k + 1]), step);
    } else {
      SharedCampaignStopsLast(w, scheds, step, test);
    }
  }

  /** The case of SharedCampaignStop where the last schedule raised. */
  lemma SharedCampaignStopsLast(w: Weights, scheds: seq<seq<Record>>,
                                step: (Weights, Record) -> Result<Weights>,
                                test: Weights -> Result<real>)
    requires |scheds| > 0
    requires SharedCampaign(w, scheds[..|scheds| - 1], step, test).failure.None?
    requires SharedCampaign(w, scheds, step, test).failure.Some?
    ensures var c := SharedCampaign(w, scheds, step, test);
      var run := RunSteps(w, Concat(scheds[..|c.scores| + 1]), step);
      && c.weights == run.weights
      && (run.failure.Some? ==> c.failure == run.failure)
      && (run.failure.None? ==> test(run.weights).Err? && c.failure == Some(test(run.weights).error))
  {
    var n := |scheds| - 1;
    var front := scheds[..n];
    var prev := SharedCampaign(w, front, step, test);
    var c := SharedCampaign(w, scheds, step, test);
    var last := RunSteps(prev.weights, scheds[n], step);
    SharedCampaignEnd(w, front, step, test);
    assert c.scores == prev.scores && |prev.scores| == n && c.weights == last.weights;
    assert scheds[..|c.scores| + 1] == scheds;
    assert Concat(scheds) == Concat(front) + scheds[n];
    RunStepsAppend(w, Concat(front), scheds[n], step);
  }

  /** With shared weights, scenario i is tested on the weights trained on
      the schedules of scenarios 0 to i one after the other, none of which
      raised. */
  lemma {:induction false} SharedCampaignScore(w: Weights, scheds: seq<seq<Record>>,
                                               step: (Weights, Record) -> Result<Weights>,
                                               test: Weights -> Result<real>, i: nat)
    requires i < |SharedCampaign(w, scheds, step, test).scores|
    ensures RunSteps(w, Concat(scheds[..i + 1]), step).failure.None?
    ensures test(RunSteps(w, Concat(scheds[..i + 1]), step).weights)
         == Ok(SharedCampaign(w, scheds, step, test).scores[i])
    decreases |scheds|
  {
    var n := |scheds| - 1;
    var front := scheds[..n];
    var prev := SharedCampaign(w, front, step, test);
    var c := SharedCampaign(w, scheds, step, test);
    if i < |prev.scores| {
      SharedCampaignScore(w, front, step, test, i);
      assert scheds[..i + 1] == front[..i + 1];
      if prev.failure.None? && c.failure.None? {
        assert c.scores == prev.scores + [c.scores[n]];
      }
    } else {
      SharedCampaignEnd(w, front, step, test);
      assert scheds[..n + 1] == scheds;
      assert Concat(scheds) == Concat(front) + scheds[n];
      RunStepsAppend(w, Concat(front), scheds[n], step);
    }
  }

  /** One more scenario after scenarios that did not raise: its training
      continues from the weights they left, and its testing follows. */
  lemma SharedCampaignSnoc(w: Weights, scheds: seq<seq<Record>>, k: nat,
                           step: (Weights, Record) -> Result<Weights>, test: Weights -> Result<real>)
    requires k < |scheds|
    requires SharedCampaign(w, scheds[..k], step, test).failure.None?
    ensures var prev := SharedCampaign(w, scheds[..k], step, test);
      var run := RunSteps(prev.weights, scheds[k], step);
      SharedCampaign(w, scheds[..k + 1], step, test)
        == if run.failure.Some? then Campaign(prev.scores, run.failure, run.weights)
           else match test(run.weights)
                case Err(e) => Campaign(prev.scores, Some(e), run.weights)
                case Ok(v) => Campaign(prev.scores + [v], None, run.weights)
  {
    assert scheds[..k + 1][..k] == scheds[..k];
  }

  /** Once a scenario has raised, the scenarios after it change nothing. */
  lemma {:induction false} SharedCampaignFailed(w: Weights, scheds: seq<seq<Record>>, more: seq<seq<Record>>,
                                                step: (Weights, Record) -> Result<Weights>,
                                                test: Weights -> Result<real>)
    requires SharedCampaign(w, scheds, step, test).failure.Some?
    ensures SharedCampaign(w, scheds + more, step, test) == SharedCampaign(w, scheds, step, test)
    decreases |more|
  {
    if |more| > 0 {
      var front := more[..|more| - 1];
      SharedCampaignFailed(w, scheds, front, step, test);
      assert (scheds + more)[..|scheds + more| - 1] == scheds + front;
    } else {
      assert scheds + more == scheds;
    }
  }

  /** One pass of the main loop: training trains the arrays it is given in
      place, testing then scores them. */
  method TrainThenTest(s: Scenario, file: seq<Record>, testData: seq<Record>,
                       wihInit: array2<real>, whoInit: array2<real>, sh: Shape, lr: real, act: real -> real)
    returns (outcome: Result<real>)
    requires wihInit != whoInit && ArraysFit(wihInit, whoInit, sh)
    modifies wihInit, whoInit
    ensures var run := RunSteps(old(Current(wihInit, whoInit)), Schedule(file, s), Learner(sh, lr, act));
      && Current(wihInit, whoInit) == run.weights
      && (run.failure.Some? ==> outcome == Err(run.failure.value))
      && (run.failure.None? ==> outcome == TestScore(testData, run.weights, act))
  {
    var wih, who, f := Training(s, file, wihInit, whoInit, sh, lr, act);
    if f.Some? {
      return Err(f.value);
    }
    outcome := Testing(testData, wih, who, act);
  }

  /** The main block of train_and_test.py: the four scenarios in turn, each
      trained on the same two arrays (training returns the arrays it was
      given) and then tested. */
  method TrainAndTestShared(file: seq<Record>, testData: seq<Record>, wihInit: array2<real>, whoInit: array2<real>,
                            sh: Shape, lr: real, act: real -> real)
    returns (testScores: seq<real>, failure: Option<Exception>)
    requires wihInit != whoInit && ArraysFit(wihInit, whoInit, sh)
    modifies wihInit, whoInit
    ensures var c := SharedCampaign(old(Current(wihInit, whoInit)), Schedules(file, Scenarios),
                                    Learner(sh, lr, act), Tester(testData, act));
      testScores == c.scores && failure == c.failure && Current(wihInit, whoInit) == c.weights
  {
    ghost var w0 := Current(wihInit, whoInit);
    ghost var learn := Learner(sh, lr, act);
    ghost var test := Tester(testData, act);
    ghost var scheds := Schedules(file, Scenarios);
    testScores := [];
    failure := None;
    var k := 0;
    assert scheds[..0] == [];
    while k < |Scenarios|
      invariant 0 <= k <= |Scenarios|
      invariant SharedCampaign(w0, scheds[..k], learn, test) == Campaign(testScores, None, Current(wihInit, whoInit))
    {
      SharedCampaignSnoc(w0, scheds, k, learn, test);
      ghost var run := RunSteps(Current(wihInit, whoInit), scheds[k], learn);
      var outcome := TrainThenTest(Scenarios[k], file, testData, wihInit, whoInit, sh, lr, act);
      assert Current(wihInit, whoInit) == run.weights;
      if outcome.Err? {
        failure := Some(outcome.error);
        SharedCampaignFailed(w0, scheds[..k + 1], scheds[k + 1..], learn, test);
        assert scheds[..k + 1] + scheds[k + 1..] == scheds;
        return;
      }
      testScores := testScores + [outcome.value];
      k := k + 1;
    }
    assert scheds[..k] == scheds;
  }

  /** The main loop as the scenarios are described: every schedule trains
      its own copy of the initial weights, which are then tested; the first
      exception ends the loop. */
  function SeparateCampaign(w: Weights, scheds: seq<seq<Record>>, step: (Weights, Record) -> Result<Weights>,
                            test: Weights -> Result<real>): (c: Campaign)
    ensures |c.scores| <= |scheds|
    ensures c.failure.None? <==> |c.scores| == |scheds|
    decreases |scheds|
  {
    if |scheds| == 0 then Campaign([], None, w)
    else
      var prev := SeparateCampaign(w, scheds[..|scheds| - 1], step, test);
      if prev.failure.Some? then prev
      else
        var run := RunSteps(w, scheds[|scheds| - 1], step);
        if run.failure.Some? then Campaign(prev.scores, run.failure, run.weights)
        else
          match test(run.weights)
          case Err(e) => Campaign(prev.scores, Some(e), run.weights)
          case Ok(v) => Campaign(prev.scores + [v], None, run.weights)
  }

  /** With a copy per scenario, scenario i is tested on the initial weights
      trained on its own schedule alone. */
  lemma {:induction false} SeparateCampaignScore(w: Weights, scheds: seq<seq<Record>>,
                                                 step: (Weights, Record) -> Result<Weights>,
                                                 test: Weights -> Result<real>, i: nat)
    requires i < |SeparateCampaign(w, scheds, step, test).scores|
    ensures RunSteps(w, scheds[i], step).failure.None?
    ensures test(RunSteps(w, scheds[i], step).weights) == Ok(SeparateCampaign(w, scheds, step, test).scores[i])
    decreases |scheds|
  {
    var n := |scheds| - 1;
    var front := scheds[..n];
    var prev := SeparateCampaign(w, front, step, test);
    var c := SeparateCampaign(w, scheds, step, test);
    if i < |prev.scores| {
      SeparateCampaignScore(w, front, step, test, i);
      if prev.failure.None? && c.failure.None? {
        assert c.scores == prev.scores + [c.scores[n]];
      }
    }
  }

  /** One more scenario after scenarios that did not raise, each on its own
      copy of the initial weights. */
  lemma SeparateCampaignSnoc(w: Weights, scheds: seq<seq<Record>>, k: nat,
                             step: (Weights, Record) -> Result<Weights>, test: Weights -> Result<real>)
    requires k < |scheds|
    requires SeparateCampaign(w, scheds[..k], step, test).failure.None?
    ensures var prev := SeparateCampaign(w, scheds[..k], step, test);
      var run := RunSteps(w, scheds[k], step);
      SeparateCampaign(w, scheds[..k + 1], step, test)
        == if run.failure.Some? then Campaign(prev.scores, run.failure, run.weights)
           else match test(run.weights)
                case Err(e) => Campaign(prev.scores, Some(e), run.weights)
                case Ok(v) => Campaign(prev.scores + [v], None, run.weights)
  {
    assert scheds[..k + 1][..k] == scheds[..k];
  }

  /** Once a scenario has raised, the scenarios after it change nothing. */
  lemma {:induction false} SeparateCampaignFailed(w: Weights, scheds: seq<seq<Record>>, more: seq<seq<Record>>,
                                                  step: (Weights, Record) -> Result<Weights>,
                                                  test: Weights -> Result<real>)
    requires SeparateCampaign(w, scheds, step, test).failure.Some?
    ensures SeparateCampaign(w, scheds + more, step, test).scores == SeparateCampaign(w, scheds, step, test).scores
    ensures SeparateCampaign(w, scheds + more, step, test).failure == SeparateCampaign(w, scheds, step, test).failure
    decreases |more|
  {
    if |more| > 0 {
      var front := more[..|more| - 1];
      SeparateCampaignFailed(w, scheds, front, step, test);
      assert (scheds + more)[..|scheds + more| - 1] == scheds + front;
    } else {
      assert scheds + more == scheds;
    }
  }

  /** A fresh array holding the same entries: numpy's copy(). */
  method CopyArray(a: array2<real>) returns (b: array2<real>)
    ensures fresh(b)
    ensures b.Length0 == a.Length0 && b.Length1 == a.Length1
    ensures Snapshot(b) == Snapshot(a)
  {
    b := new real[a.Length0, a.Length1];
    var i := 0;
    while i < a.Length0
      invariant 0 <= i <= a.Length0
      invariant forall p, q :: 0 <= p < i && 0 <= q < a.Length1 ==> b[p, q] == a[p, q]
    {
      var j := 0;
      while j < a.Length1
        invariant 0 <= j <= a.Length1
        invariant forall p, q :: 0 <= p < i && 0 <= q < a.Length1 ==> b[p, q] == a[p, q]
        invariant forall q :: 0 <= q < j ==> b[i, q] == a[i, q]
      {
        b[i, j] := a[i, j];
        j := j + 1;
      }
      i := i + 1;
    }
    MatrixExt(Snapshot(b), Snapshot(a), a.Length0, a.Length1);
  }

  /** The main block with training given copies (wih = wih_init.copy(),
      who = who_init.copy()): every scenario starts from the initial
      weights, which stay as they were. */
  method TrainAndTestSeparate(file: seq<Record>, testData: seq<Record>, wihInit: array2<real>, whoInit: array2<real>,
                              sh: Shape, lr: real, act: real -> real)
    returns (testScores: seq<real>, failure: Option<Exception>)
    requires ArraysFit(wihInit, whoInit, sh)
    ensures var c := SeparateCampaign(Current(wihInit, whoInit), Schedules(file, Scenarios),
                                      Learner(sh, lr, act), Tester(testData, act));
      testScores == c.scores && failure == c.failure
  {
    ghost var w0 := Current(wihInit, whoInit);
    ghost var learn := Learner(sh, lr, act);
    ghost var test := Tester(testData, act);
    ghost var scheds := Schedules(file, Scenarios);
    testScores := [];
    failure := None;
    var k := 0;
    assert scheds[..0] == [];
    while k < |Scenarios|
      invariant 0 <= k <= |Scenarios|
      invariant SeparateCampaign(w0, scheds[..k], learn, test).scores == testScores
      invariant SeparateCampaign(w0, scheds[..k], learn, test).failure.None?
    {
      SeparateCampaignSnoc(w0, scheds, k, learn, test);
      var wih := CopyArray(wihInit);
      var who := CopyArray(whoInit);
      ghost var run := RunSteps(Current(wih, who), scheds[k], learn);
      var outcome := TrainThenTest(Scenarios[k], file, testData, wih, who, sh, lr, act);
      assert Current(wih, who) == run.weights;
      if outcome.Err? {
        failure := Some(outcome.error);
        SeparateCampaignFailed(w0, scheds[..k + 1], scheds[k + 1..], learn, test);
        assert scheds[..k + 1] + scheds[k + 1..] == scheds;
        return;
      }
      testScores := testScores + [outcome.value];
      k := k + 1;
    }
    assert scheds[..k] == scheds;
  }

  /** The records of the first k + 1 schedules are those of the first k,
      then schedule k's. */
  lemma ConcatSnoc(scheds: seq<seq<Record>>, k: nat)
    requires k < |scheds|
    ensures Concat(scheds[..k + 1]) == Concat(scheds[..k]) + scheds[k]
  {
    assert scheds[..k + 1][..k] == scheds[..k];
  }

  /** Every record of the concatenation is a record of one of the schedules,
      so it is well-formed when they all are. */
  lemma {:induction false} ConcatWellFormed(scheds: seq<seq<Record>>, sh: Shape)
    requires forall j, i :: 0 <= j < |scheds| && 0 <= i < |scheds[j]| ==> WellFormed(scheds[j][i], sh)
    ensures forall i :: 0 <= i < |Concat(scheds)| ==> WellFormed(Concat(scheds)[i], sh)
    decreases |scheds|
  {
    if |scheds| > 0 {
      var n := |scheds| - 1;
      ConcatWellFormed(scheds[..n], sh);
      var front := Concat(scheds[..n]);
      forall i | 0 <= i < |Concat(scheds)| ensures WellFormed(Concat(scheds)[i], sh) {
        if i >= |front| {
          assert Concat(scheds)[i] == scheds[n][i - |front|];
        } else {
          assert Concat(scheds)[i] == front[i];
        }
      }
    }
  }

  /** Every record a scenario trains on is a record of the file. */
  lemma ScheduleWellFormed(file: seq<Record>, s: Scenario, sh: Shape)
    requires forall i :: 0 <= i < |file| ==> WellFormed(file[i], sh)
    ensures forall i :: 0 <= i < |Schedule(file, s)| ==> WellFormed(Schedule(file, s)[i], sh)
  {
    var list := TrainingList(file, s.numLines);
    RepeatMembers(list, s.numEpochs);
    assert forall r :: r in list ==> r in file;
  }

  /** The four scenarios' schedules on a file of at least 60,000 records:
      600, 6,000, 60,000 and 5 x 60,000 records, 366,600 in all. */
  lemma SchedulesLength(file: seq<Record>)
    requires |file| >= 60000
    ensures |Schedules(file, Scenarios)[3]| == 300000
    ensures |Concat(Schedules(file, Scenarios))| == 366600
  {
    var scheds := Schedules(file, Scenarios);
    assert |scheds[0]| == 600 && |scheds[1]| == 6000 && |scheds[2]| == 60000 && |scheds[3]| == 300000;
    assert scheds[..0] == [];
    ConcatSnoc(scheds, 0);
    ConcatSnoc(scheds, 1);
    ConcatSnoc(scheds, 2);
    ConcatSnoc(scheds, 3);
    assert scheds[..4] == scheds;
  }

  /** On a file of well-formed records every scenario, and all of them one
      after the other, train only on well-formed records. */
  lemma SchedulesWellFormed(file: seq<Record>, sh: Shape)
    requires forall i :: 0 <= i < |file| ==> WellFormed(file[i], sh)
    ensures forall i :: 0 <= i < |Schedules(file, Scenarios)[3]| ==> WellFormed(Schedules(file, Scenarios)[3][i], sh)
    ensures forall i :: 0 <= i < |Concat(Schedules(file, Scenarios))| ==>
      WellFormed(Concat(Schedules(file, Scenarios))[i], sh)
  {
    var scheds := Schedules(file, Scenarios);
    forall j | 0 <= j < |scheds|
      ensures forall i :: 0 <= i < |scheds[j]| ==> WellFormed(scheds[j][i], sh)
    {
      ScheduleWellFormed(file, Scenarios[j], sh);
    }
    ConcatWellFormed(scheds, sh);
  }

  /** With a training file of at least 60,000 well-formed records, the
      weights scenario 3 saves have been updated once per record of every
      scenario when the arrays are shared, 600 + 6,000 + 60,000 + 5 x 60,000
      = 366,600 times, but 5 x 60,000 = 300,000 times when scenario 3 starts
      from the initial weights. */
  lemma SharedUpdateCount(w: Weights, file: seq<Record>, sh: Shape, lr: real, act: real -> real)
    requires Fits(w, sh)
    requires |file| >= 60000
    requires forall i :: 0 <= i < |file| ==> WellFormed(file[i], sh)
    ensures RunSteps(w, Concat(Schedules(file, Scenarios)), Learner(sh, lr, act)).failure.None?
    ensures RunSteps(w, Concat(Schedules(file, Scenarios)), Learner(sh, lr, act)).steps == 366600
    ensures RunSteps(w, Schedules(file, Scenarios)[3], Learner(sh, lr, act)).failure.None?
    ensures RunSteps(w, Schedules(file, Scenarios)[3], Learner(sh, lr, act)).steps == 300000
  {
    var scheds := Schedules(file, Scenarios);
    SchedulesWellFormed(file, sh);
    SchedulesLength(file);
    TrainingOutcome(w, Concat(scheds), sh, lr, act);
    TrainingOutcome(w, scheds[3], sh, lr, act);
  }

  /** Scenario 0 is trained and tested the same way whether the arrays are
      shared or copied: only the later scenarios differ. */
  lemma FirstScenarioAgrees(w: Weights, scheds: seq<seq<Record>>,
                            step: (Weights, Record) -> Result<Weights>, test: Weights -> Result<real>)
    requires |scheds| > 0
    ensures SharedCampaign(w, scheds[..1], step, test) == SeparateCampaign(w, scheds[..1], step, test)
  {
    assert scheds[..1][..0] == [];
  }
}
