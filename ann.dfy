/** ANN.py: forward propagation through the two weight matrices, and backward
    propagation, which updates both matrices in place. The sigmoid activation
    is not modelled: every operation that applies it takes it as the
    parameter `act`. */
module ANN {
  import opened Linear

  /** The activation applied to every entry of a vector. */
  function Activate(act: real -> real, v: Vector): (r: Vector)
    ensures |r| == |v|
    ensures forall i :: 0 <= i < |v| ==> r[i] == act(v[i])
  {
    seq(|v|, i requires 0 <= i < |v| => act(v[i]))
  }

  /** What forward_prop returns: the hidden layer's and the output layer's outputs. */
  datatype Layers = Layers(hidden: Vector, output: Vector)

  /** forward_prop: the hidden layer applies act to wih · inputs, the output
      layer applies act to who · hidden. numpy refuses the products unless
      wih has one column per input and who one column per hidden node. */
  function ForwardProp(inputs: Vector, wih: Matrix, who: Matrix, act: real -> real): (r: Layers)
    requires IsMatrix(wih, |wih|, |inputs|)
    requires IsMatrix(who, |who|, |wih|)
    ensures |r.hidden| == |wih| && |r.output| == |who|
  {
    var hidden := Activate(act, MatVec(wih, inputs));
    Layers(hidden, Activate(act, MatVec(who, hidden)))
  }

  /** Hidden node j outputs act of row j of wih dotted with the inputs, and
      output node m act of row m of who dotted with the hidden outputs. */
  lemma ForwardPropEntries(inputs: Vector, wih: Matrix, who: Matrix, act: real -> real)
    requires IsMatrix(wih, |wih|, |inputs|)
    requires IsMatrix(who, |who|, |wih|)
    ensures var r := ForwardProp(inputs, wih, who, act);
      && (forall j :: 0 <= j < |wih| ==> r.hidden[j] == act(Dot(wih[j], inputs)))
      && (forall m :: 0 <= m < |who| ==> r.output[m] == act(Dot(who[m], r.hidden)))
  {
  }

  /** Under the assumption that the activation maps every real into the open
      interval (0, 1), as the sigmoid does, so do both layers' outputs. */
  lemma ForwardPropInUnitInterval(inputs: Vector, wih: Matrix, who: Matrix, act: real -> real)
    requires IsMatrix(wih, |wih|, |inputs|)
    requires IsMatrix(who, |who|, |wih|)
    requires forall z :: 0.0 < act(z) < 1.0
    ensures var r := ForwardProp(inputs, wih, who, act);
      (forall j :: 0 <= j < |r.hidden| ==> 0.0 < r.hidden[j] < 1.0) &&
      (forall m :: 0 <= m < |r.output| ==> 0.0 < r.output[m] < 1.0)
  {
    ForwardPropEntries(inputs, wih, who, act);
  }

  /** output_errors: targets minus outputs, entry by entry. */
  function Errors(targets: Vector, outputs: Vector): (r: Vector)
    requires |targets| == |outputs|
    ensures |r| == |targets|
  {
    seq(|targets|, m requires 0 <= m < |targets| => targets[m] - outputs[m])
  }

  /** errors * outputs * (1 - outputs): an error scaled by the sigmoid's
      derivative written in terms of the sigmoid's own output. */
  function Gradient(errors: Vector, outputs: Vector): (r: Vector)
    requires |errors| == |outputs|
    ensures |r| == |errors|
  {
    seq(|errors|, j requires 0 <= j < |errors| => errors[j] * outputs[j] * (1.0 - outputs[j]))
  }

  /** w + lr * numpy.dot(d, transpose(v)) for column vectors d and v. */
  function AddScaledOuter(w: Matrix, lr: real, d: Vector, v: Vector): (r: Matrix)
    requires IsMatrix(w, |d|, |v|)
    ensures IsMatrix(r, |d|, |v|)
  {
    seq(|d|, j requires 0 <= j < |d| =>
      seq(|v|, k requires 0 <= k < |v| => w[j][k] + lr * (d[j] * v[k])))
  }

  /** The two weight matrices of the network. */
  datatype Weights = Weights(wih: Matrix, who: Matrix)

  /** The shapes backward_prop works with: wih is hidden x inputs and who is
      outputs x hidden. */
  predicate Fits(inputs: Vector, hidden: Vector, output: Vector, targets: Vector, w: Weights) {
    && |targets| == |output|
    && IsMatrix(w.wih, |hidden|, |inputs|)
    && IsMatrix(w.who, |output|, |hidden|)
  }

  /** hidden_errors = numpy.dot(who.T, output_errors). */
  function HiddenErrors(who: Matrix, hiddenNodes: nat, outputErrors: Vector): (r: Vector)
    requires IsMatrix(who, |outputErrors|, hiddenNodes)
    ensures |r| == hiddenNodes
  {
    MatVec(Transpose(who, hiddenNodes), outputErrors)
  }

  /** The weights backward_prop leaves behind, as values: both updates are
      computed from the weights it was given, in particular the hidden
      errors from the who it was given. */
  function BackwardStep(inputs: Vector, hidden: Vector, output: Vector, targets: Vector,
                        w: Weights, lr: real): (r: Weights)
    requires Fits(inputs, hidden, output, targets, w)
    ensures IsMatrix(r.wih, |hidden|, |inputs|) && IsMatrix(r.who, |output|, |hidden|)
  {
    var outputErrors := Errors(targets, output);
    var hiddenErrors := HiddenErrors(w.who, |hidden|, outputErrors);
    Weights(AddScaledOuter(w.wih, lr, Gradient(hiddenErrors, hidden), inputs),
            AddScaledOuter(w.who, lr, Gradient(outputErrors, output), hidden))
  }

  /** Entry (j, k) of the update is w[j][k] + lr * d[j] * v[k]. */
  lemma AddScaledOuterEntry(w: Matrix, lr: real, d: Vector, v: Vector, j: nat, k: nat)
    requires IsMatrix(w, |d|, |v|)
    requires j < |d| && k < |v|
    ensures AddScaledOuter(w, lr, d, v)[j][k] == w[j][k] + lr * (d[j] * v[k])
  {
  }

  /** Hidden node j's error is the sum over the output nodes m of who[m][j]
      times output node m's error: column j of who dotted with the errors. */
  lemma HiddenErrorsEntry(who: Matrix, hiddenNodes: nat, outputErrors: Vector, j: nat)
    requires IsMatrix(who, |outputErrors|, hiddenNodes)
    requires j < hiddenNodes
    ensures var t := Transpose(who, hiddenNodes);
      && (forall m :: 0 <= m < |who| ==> t[j][m] == who[m][j])
      && HiddenErrors(who, hiddenNodes, outputErrors)[j] == Dot(t[j], outputErrors)
  {
  }

  /** Every weight moves by the learning rate times its gradient term: the
      error at the node the weight leads into, times that node's sigmoid
      derivative, times the output of the node it leads out of. */
  lemma BackwardStepEntries(inputs: Vector, hidden: Vector, output: Vector, targets: Vector,
                            w: Weights, lr: real)
    requires Fits(inputs, hidden, output, targets, w)
    ensures var r := BackwardStep(inputs, hidden, output, targets, w, lr);
      var e := Errors(targets, output);
      var he := HiddenErrors(w.who, |hidden|, e);
      && (forall m :: 0 <= m < |output| ==> e[m] == targets[m] - output[m])
      && (forall m, j :: 0 <= m < |output| && 0 <= j < |hidden| ==>
            r.who[m][j] == w.who[m][j] + lr * (e[m] * output[m] * (1.0 - output[m]) * hidden[j]))
      && (forall j, k :: 0 <= j < |hidden| && 0 <= k < |inputs| ==>
            r.wih[j][k] == w.wih[j][k] + lr * (he[j] * hidden[j] * (1.0 - hidden[j]) * inputs[k]))
  {
    var r := BackwardStep(inputs, hidden, output, targets, w, lr);
    var e := Errors(targets, output);
    var he := HiddenErrors(w.who, |hidden|, e);
    assert r.who == AddScaledOuter(w.who, lr, Gradient(e, output), hidden);
    assert r.wih == AddScaledOuter(w.wih, lr, Gradient(he, hidden), inputs);
    forall m, j | 0 <= m < |output| && 0 <= j < |hidden|
      ensures r.who[m][j] == w.who[m][j] + lr * (e[m] * output[m] * (1.0 - output[m]) * hidden[j])
    {
      GradientUpdateEntry(w.who, lr, e, output, hidden, m, j);
    }
    forall j, k | 0 <= j < |hidden| && 0 <= k < |inputs|
      ensures r.wih[j][k] == w.wih[j][k] + lr * (he[j] * hidden[j] * (1.0 - hidden[j]) * inputs[k])
    {
      GradientUpdateEntry(w.wih, lr, he, hidden, inputs, j, k);
    }
  }

  /** Entry (j, k) of a gradient update: the error at node j times its
      sigmoid derivative times input k, scaled by the learning rate. */
  lemma GradientUpdateEntry(w: Matrix, lr: real, errors: Vector, outputs: Vector, v: Vector, j: nat, k: nat)
    requires |errors| == |outputs| && IsMatrix(w, |errors|, |v|)
    requires j < |errors| && k < |v|
    ensures AddScaledOuter(w, lr, Gradient(errors, outputs), v)[j][k]
         == w[j][k] + lr * (errors[j] * outputs[j] * (1.0 - outputs[j]) * v[k])
  {
    var g := Gradient(errors, outputs);
    assert g[j] == errors[j] * outputs[j] * (1.0 - outputs[j]);
    AddScaledOuterEntry(w, lr, g, v, j, k);
  }

  /** A hidden node whose output is exactly 0 or 1 receives no update: the
      reason the inputs and targets are kept away from 0 and 1. */
  lemma SaturatedHiddenNodeFrozen(inputs: Vector, hidden: Vector, output: Vector, targets: Vector,
                                  w: Weights, lr: real, j: nat)
    requires Fits(inputs, hidden, output, targets, w)
    requires j < |hidden| && (hidden[j] == 0.0 || hidden[j] == 1.0)
    ensures BackwardStep(inputs, hidden, output, targets, w, lr).wih[j] == w.wih[j]
  {
    var r := BackwardStep(inputs, hidden, output, targets, w, lr);
    assert |r.wih[j]| == |w.wih[j]|;
    forall k | 0 <= k < |inputs| ensures r.wih[j][k] == w.wih[j][k] {
      BackwardStepEntries(inputs, hidden, output, targets, w, lr);
    }
  }

  /** When the outputs already equal the targets both error vectors are zero
      and neither weight matrix changes. */
  lemma {:induction false} BackwardStepAtTarget(inputs: Vector, hidden: Vector, output: Vector,
                                                w: Weights, lr: real)
    requires Fits(inputs, hidden, output, output, w)
    ensures IsZero(Errors(output, output))
    ensures IsZero(HiddenErrors(w.who, |hidden|, Errors(output, output)))
    ensures BackwardStep(inputs, hidden, output, output, w, lr) == w
  {
    var e := Errors(output, output);
    var t := Transpose(w.who, |hidden|);
    var he := HiddenErrors(w.who, |hidden|, e);
    forall j | 0 <= j < |hidden| ensures he[j] == 0.0 {
      DotZero(t[j], e);
    }
    var r := BackwardStep(inputs, hidden, output, output, w, lr);
    ZeroUpdate(w.wih, lr, Gradient(he, hidden), inputs);
    ZeroUpdate(w.who, lr, Gradient(e, output), hidden);
  }

  /** Adding a multiple of an outer product with a zero vector changes nothing. */
  lemma ZeroUpdate(w: Matrix, lr: real, d: Vector, v: Vector)
    requires IsMatrix(w, |d|, |v|)
    requires IsZero(d)
    ensures AddScaledOuter(w, lr, d, v) == w
  {
    var r := AddScaledOuter(w, lr, d, v);
    forall j | 0 <= j < |d| ensures r[j] == w[j] {
      assert |r[j]| == |w[j]|;
    }
  }

  /** The current contents of a two-dimensional array, row by row. */
  function Snapshot(a: array2<real>): (m: Matrix)
    reads a
    ensures IsMatrix(m, a.Length0, a.Length1)
    ensures forall i, j :: 0 <= i < a.Length0 && 0 <= j < a.Length1 ==> m[i][j] == a[i, j]
  {
    seq(a.Length0, i requires 0 <= i < a.Length0 reads a =>
      seq(a.Length1, j requires 0 <= j < a.Length1 reads a => a[i, j]))
  }

  /** Two matrices of the same shape that agree everywhere are equal. */
  lemma MatrixExt(m: Matrix, n: Matrix, rows: nat, cols: nat)
    requires IsMatrix(m, rows, cols) && IsMatrix(n, rows, cols)
    requires forall i, j :: 0 <= i < rows && 0 <= j < cols ==> m[i][j] == n[i][j]
    ensures m == n
  {
    forall i | 0 <= i < rows ensures m[i] == n[i] {
      assert |m[i]| == |n[i]|;
    }
  }

  /** Row j of the in-place update: lr * d_j * v[k] is added to every w[j, k]. */
  method AddScaledRow(w: array2<real>, j: nat, lr: real, dj: real, v: Vector)
    requires j < w.Length0 && w.Length1 == |v|
    modifies w
    ensures forall b :: 0 <= b < |v| ==> w[j, b] == old(w[j, b]) + lr * (dj * v[b])
    ensures forall a, b :: 0 <= a < w.Length0 && a != j && 0 <= b < |v| ==> w[a, b] == old(w[a, b])
  {
    var k := 0;
    while k < |v|
      invariant 0 <= k <= |v|
      invariant forall b :: 0 <= b < k ==> w[j, b] == old(w[j, b]) + lr * (dj * v[b])
      invariant forall b :: k <= b < |v| ==> w[j, b] == old(w[j, b])
      invariant forall a, b :: 0 <= a < w.Length0 && a != j && 0 <= b < |v| ==> w[a, b] == old(w[a, b])
    {
      w[j, k] := w[j, k] + lr * (dj * v[k]);
      k := k + 1;
    }
  }

  /** numpy's in-place w += lr * numpy.dot(d, transpose(v)). */
  method AddScaledOuterInPlace(w: array2<real>, lr: real, d: Vector, v: Vector)
    requires w.Length0 == |d| && w.Length1 == |v|
    modifies w
    ensures Snapshot(w) == AddScaledOuter(old(Snapshot(w)), lr, d, v)
  {
    ghost var before := Snapshot(w);
    var j := 0;
    while j < |d|
      invariant 0 <= j <= |d|
      invariant forall a, b :: 0 <= a < j && 0 <= b < |v| ==> w[a, b] == before[a][b] + lr * (d[a] * v[b])
      invariant forall a, b :: j <= a < |d| && 0 <= b < |v| ==> w[a, b] == before[a][b]
    {
      AddScaledRow(w, j, lr, d[j], v);
      j := j + 1;
    }
    MatrixExt(Snapshot(w), AddScaledOuter(before, lr, d, v), |d|, |v|);
  }

  /** backward_prop: computes both error vectors from the weights it is given,
      then adds the updates into wih and into who in place and returns the
      very arrays it was given. */
  method BackwardProp(inputs: Vector, hidden: Vector, output: Vector, targets: Vector,
                      wih: array2<real>, who: array2<real>, lr: real)
    returns (wihOut: array2<real>, whoOut: array2<real>)
    requires wih != who && |targets| == |output|
    requires wih.Length0 == |hidden| && wih.Length1 == |inputs|
    requires who.Length0 == |output| && who.Length1 == |hidden|
    modifies wih, who
    ensures wihOut == wih && whoOut == who
    ensures Weights(Snapshot(wih), Snapshot(who))
         == BackwardStep(inputs, hidden, output, targets, old(Weights(Snapshot(wih), Snapshot(who))), lr)
  {
    var outputErrors := Errors(targets, output);
    var hiddenErrors := HiddenErrors(Snapshot(who), |hidden|, outputErrors);
    AddScaledOuterInPlace(wih, lr, Gradient(hiddenErrors, hidden), inputs);
    AddScaledOuterInPlace(who, lr, Gradient(outputErrors, output), hidden);
    return wih, who;
  }
}
