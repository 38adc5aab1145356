/** The live query: the 224 x 224 sketch from the browser is scaled and
    averaged down to the 28 x 28 grid the network was trained on, the saved
    weights of every scenario are queried with it, and each scenario's
    outputs become percentages, a ranking, a predicted label and, for the
    headline scenario, a confidence band. */
module RealtimeQuery {
  import opened Wrappers
  import opened Config
  import opened Linear
  import opened Pixels
  import opened ANN

  /** The browser's canvas is 224 pixels on a side; every 8 x 8 block of it
      becomes one of the 28 x 28 network inputs. */
  const BlockSide: nat := 8
  const SketchSide: nat := PixelWidth * BlockSide

  // ---------------------------------------------------------------------
  // Downsampling
  // ---------------------------------------------------------------------

  /** The 8 x 8 block of the sketch whose top-left pixel is at row top,
      column left, read row by row. */
  function Block(grid: Vector, top: nat, left: nat): (b: Vector)
    requires |grid| == SketchSide * SketchSide
    requires top + BlockSide <= SketchSide && left + BlockSide <= SketchSide
    ensures |b| == BlockSide * BlockSide
    ensures forall k :: 0 <= k < |b| ==> b[k] == grid[(top + k / 8) * 224 + left + k % 8]
  {
    seq(64, k requires 0 <= k < 64 => grid[(top + k / 8) * 224 + left + k % 8])
  }

  /** numpy.mean of that block. */
  function BlockMean(grid: Vector, top: nat, left: nat): real
    requires |grid| == SketchSide * SketchSide
    requires top + BlockSide <= SketchSide && left + BlockSide <= SketchSide
  {
    Sum(Block(grid, top, left)) / 64.0
  }

  /** The position of grid cell (row, col) in the flattened 28 x 28 image. */
  function Cell(row: nat, col: nat): nat {
    row * PixelWidth + col
  }

  lemma CellOf(row: nat, col: nat)
    requires row < PixelHeight && col < PixelWidth
    ensures Cell(row, col) < InputNodes && Cell(row, col) / 28 == row && Cell(row, col) % 28 == col
  {
  }

  /** The block means of a normalised sketch, one per grid cell, row by row. */
  function Means(grid: Vector): (m: Vector)
    requires |grid| == SketchSide * SketchSide
    ensures |m| == InputNodes
    ensures forall row, col :: 0 <= row < PixelHeight && 0 <= col < PixelWidth ==>
      m[Cell(row, col)] == BlockMean(grid, BlockSide * row, BlockSide * col)
  {
    var m := seq(784, p requires 0 <= p < 784 => BlockMean(grid, 8 * (p / 28), 8 * (p % 28)));
    assert forall row, col :: 0 <= row < PixelHeight && 0 <= col < PixelWidth ==>
      m[Cell(row, col)] == BlockMean(grid, BlockSide * row, BlockSide * col) by {
      forall row, col | 0 <= row < PixelHeight && 0 <= col < PixelWidth
        ensures m[Cell(row, col)] == BlockMean(grid, BlockSide * row, BlockSide * col)
      {
        CellOf(row, col);
      }
    }
    m
  }

  /** What compress_image returns: a ValueError when the sketch does not have
      224 x 224 values (the reshape fails), otherwise 784 inputs, input
      Cell(row, col) = 28 * row + col being the mean of the normalised block
      of rows 8 * row .. 8 * row + 7 and columns 8 * col .. 8 * col + 7. */
  function Compressed(raw: seq<real>): (r: Result<Vector>)
    ensures r.Ok? <==> |raw| == SketchSide * SketchSide
    ensures r.Err? ==> r.error == ValueError
    ensures r.Ok? ==> |r.value| == InputNodes
    ensures r.Ok? ==> forall row, col :: 0 <= row < PixelHeight && 0 <= col < PixelWidth ==>
      r.value[Cell(row, col)] == BlockMean(NormaliseAll(raw), BlockSide * row, BlockSide * col)
  {
    if |raw| != SketchSide * SketchSide then Err(ValueError)
    else Ok(Means(NormaliseAll(raw)))
  }

  /** compress_image: the nested loops over the block corners write each
      block's mean into a 28 x 28 array, which is then read out row by row. */
  method CompressImage(raw: seq<real>) returns (r: Result<Vector>)
    ensures r == Compressed(raw)
  {
    if |raw| != SketchSide * SketchSide {
      return Err(ValueError);
    }
    var grid := NormaliseAll(raw);
    var compressed := new real[PixelHeight, PixelWidth]((_, _) => 0.0);
    var i := 0;
    while i < 224
      invariant 0 <= i <= 224 && i % 8 == 0
      invariant forall row, col :: 0 <= row < i / 8 && 0 <= col < 28 ==>
        compressed[row, col] == BlockMean(grid, 8 * row, 8 * col)
    {
      CompressBlockRow(grid, compressed, i);
      assert 8 * (i / 8) == i;
      i := i + 8;
    }
    var inputs := seq(784, p requires 0 <= p < 784 reads compressed => compressed[p / 28, p % 28]);
    assert inputs == Means(grid);
    return Ok(inputs);
  }

  /** The inner loop of compress_image: the blocks whose top row is row i of
      the sketch fill row i / 8 of the array. */
  method CompressBlockRow(grid: Vector, compressed: array2<real>, i: nat)
    requires |grid| == SketchSide * SketchSide
    requires compressed.Length0 == PixelHeight && compressed.Length1 == PixelWidth
    requires i < 224 && i % 8 == 0
    modifies compressed
    ensures forall col :: 0 <= col < 28 ==> compressed[i / 8, col] == BlockMean(grid, i, 8 * col)
    ensures forall row, col :: 0 <= row < 28 && row != i / 8 && 0 <= col < 28 ==>
      compressed[row, col] == old(compressed[row, col])
  {
    var j := 0;
    while j < 224
      invariant 0 <= j <= 224 && j % 8 == 0
      invariant forall col :: 0 <= col < j / 8 ==> compressed[i / 8, col] == BlockMean(grid, i, 8 * col)
      invariant forall row, col :: 0 <= row < 28 && row != i / 8 && 0 <= col < 28 ==>
        compressed[row, col] == old(compressed[row, col])
    {
      compressed[i / 8, j / 8] := BlockMean(grid, i, j);
      assert 8 * (j / 8) == j;
      j := j + 8;
    }
  }

  /** A sketch of one raw value everywhere compresses to that value,
      normalised, everywhere. */
  lemma CompressConstant(raw: seq<real>, v: real, p: nat)
    requires |raw| == SketchSide * SketchSide
    requires forall i :: 0 <= i < |raw| ==> raw[i] == v
    requires p < InputNodes
    ensures Compressed(raw).Ok?
    ensures Compressed(raw).value[p] == Normalise(v)
  {
    var grid := NormaliseAll(raw);
    var b := Block(grid, 8 * (p / 28), 8 * (p % 28));
    SumConstant(b, Normalise(v));
  }

  /** In particular an untouched canvas gives 0.01 on every input. */
  lemma CompressBlank(raw: seq<real>, p: nat)
    requires |raw| == SketchSide * SketchSide
    requires forall i :: 0 <= i < |raw| ==> raw[i] == 0.0
    requires p < InputNodes
    ensures Compressed(raw).Ok?
    ensures Compressed(raw).value[p] == 0.01
  {
    CompressConstant(raw, 0.0, p);
  }

  /** Raw values in [0, 255] give inputs in [0.01, 1.0], like the training
      records. */
  lemma CompressBounds(raw: seq<real>, p: nat)
    requires |raw| == SketchSide * SketchSide
    requires forall i :: 0 <= i < |raw| ==> 0.0 <= raw[i] <= 255.0
    requires p < InputNodes
    ensures Compressed(raw).Ok?
    ensures 0.01 <= Compressed(raw).value[p] <= 1.0
  {
    var grid := NormaliseAll(raw);
    var b := Block(grid, 8 * (p / 28), 8 * (p % 28));
    SumBounds(b, 0.01, 1.0);
  }

  // ---------------------------------------------------------------------
  // Percentages
  // ---------------------------------------------------------------------

  /** x as a percentage of total. */
  function Percent(x: real, total: real): real
    requires total != 0.0
  {
    x / total * 100.0
  }

  /** Over a positive total, percentages keep the order of the values. */
  lemma PercentKeepsOrder(x: real, y: real, total: real)
    requires total > 0.0
    ensures x <= y ==> Percent(x, total) <= Percent(y, total)
    ensures x < y ==> Percent(x, total) < Percent(y, total)
  {
    var c := 100.0 / total;
    assert c > 0.0;
    assert Percent(x, total) == x * c && Percent(y, total) == y * c;
    if x < y {
      assert (y - x) * c > 0.0;
    }
  }

  /** Each output as a percentage of the sum of the outputs, before rounding. */
  function RawPercentages(outputs: Vector): (r: Vector)
    requires Sum(outputs) != 0.0
    ensures |r| == |outputs|
    ensures forall i :: 0 <= i < |outputs| ==> r[i] == Percent(outputs[i], Sum(outputs))
  {
    seq(|outputs|, i requires 0 <= i < |outputs| => Percent(outputs[i], Sum(outputs)))
  }

  /** The unrounded percentages add up to 100. */
  lemma PercentagesSumTo100(outputs: Vector)
    requires Sum(outputs) != 0.0
    ensures Sum(RawPercentages(outputs)) == 100.0
  {
    var s := Sum(outputs);
    var c := 100.0 / s;
    var r := RawPercentages(outputs);
    forall i | 0 <= i < |outputs| ensures r[i] == outputs[i] * c {
      assert outputs[i] / s * 100.0 == outputs[i] * (100.0 / s);
    }
    SumScale(outputs, r, c);
    assert s * (100.0 / s) == 100.0;
  }

  /** Dividing by a positive sum keeps the order of the outputs, so the
      largest percentage belongs to the largest output. */
  lemma PercentagesKeepArgmax(outputs: Vector)
    requires |outputs| > 0 && Sum(outputs) > 0.0
    ensures Argmax(RawPercentages(outputs)) == Argmax(outputs)
  {
    var r := RawPercentages(outputs);
    var k := Argmax(outputs);
    forall i | 0 <= i < |r| ensures r[i] <= r[k] && (i < k ==> r[i] < r[k]) {
      PercentKeepsOrder(outputs[i], outputs[k], Sum(outputs));
    }
    ArgmaxUnique(r, k);
  }

  /** numpy.round(..., 2) is left as a parameter; it is applied to every
      percentage. */
  function Rounded(round: real -> real, v: Vector): (r: Vector)
    ensures |r| == |v| && forall i :: 0 <= i < |v| ==> r[i] == round(v[i])
  {
    seq(|v|, i requires 0 <= i < |v| => round(v[i]))
  }

  /** A rounding that never swaps two values. */
  ghost predicate Monotone(round: real -> real) {
    forall a, b :: a <= b ==> round(a) <= round(b)
  }

  // ---------------------------------------------------------------------
  // Ranking
  // ---------------------------------------------------------------------

  /** An element of enumerate(percentages): a class and its percentage. */
  datatype Entry = Entry(index: nat, value: real)

  function Enumerate(v: Vector): (r: seq<Entry>)
    ensures |r| == |v|
    ensures forall i :: 0 <= i < |v| ==> r[i] == Entry(i, v[i])
  {
    seq(|v|, i requires 0 <= i < |v| => Entry(i, v[i]))
  }

  /** a is listed before b by the descending sort: a larger percentage, or an
      equal one and a smaller class (Python's sort is stable, also with
      reverse=True, and the entries arrive in class order). */
  predicate Before(a: Entry, b: Entry) {
    a.value > b.value || (a.value == b.value && a.index < b.index)
  }

  /** Every entry is listed before every later one. */
  predicate Ranked(s: seq<Entry>) {
    forall i, j :: 0 <= i < j < |s| ==> Before(s[i], s[j])
  }

  predicate DistinctIndices(s: seq<Entry>) {
    forall i, j :: 0 <= i < j < |s| ==> s[i].index != s[j].index
  }

  lemma InMultiset(x: Entry, s: seq<Entry>, t: seq<Entry>)
    requires multiset(s) == multiset(t)
    requires x in s
    ensures x in t
  {
    assert x in multiset(s);
  }

  /** Puts e into a ranked sequence before the first entry it goes before. */
  function Insert(e: Entry, s: seq<Entry>): (r: seq<Entry>)
    ensures multiset(r) == multiset(s) + multiset{e}
  {
    if |s| == 0 then [e]
    else if Before(e, s[0]) then [e] + s
    else
      assert s == [s[0]] + s[1..];
      [s[0]] + Insert(e, s[1..])
  }

  /** Inserting an entry of a new class into a ranked sequence keeps it
      ranked. */
  lemma {:induction false} InsertRanked(e: Entry, s: seq<Entry>)
    requires Ranked(s)
    requires forall x :: x in s ==> x.index != e.index
    ensures Ranked(Insert(e, s))
  {
    if |s| > 0 && !Before(e, s[0]) {
      var rest := Insert(e, s[1..]);
      InsertRanked(e, s[1..]);
      assert Before(s[0], e);
      forall x | x in rest ensures Before(s[0], x) {
        assert x in multiset(rest);
        if x != e {
          assert x in s[1..];
        }
      }
      assert Insert(e, s) == [s[0]] + rest;
      forall i, j | 0 <= i < j < |rest| + 1 ensures Before(([s[0]] + rest)[i], ([s[0]] + rest)[j]) {
        assert rest[j - 1] in rest;
      }
    }
  }

  /** A stable descending sort of entries with distinct classes. */
  function SortEntries(s: seq<Entry>): (r: seq<Entry>)
    requires DistinctIndices(s)
    ensures multiset(r) == multiset(s)
    ensures Ranked(r)
  {
    if |s| == 0 then []
    else
      var n := |s| - 1;
      var front := SortEntries(s[..n]);
      assert forall x :: x in front ==> x.index != s[n].index by {
        forall x | x in front ensures x.index != s[n].index {
          InMultiset(x, front, s[..n]);
        }
      }
      assert s == s[..n] + [s[n]];
      InsertRanked(s[n], front);
      Insert(s[n], front)
  }

  /** sorted(enumerate(percentages), key = value, reverse = True). */
  function Rank(v: Vector): (r: seq<Entry>)
    ensures |r| == |v|
    ensures Ranked(r)
    ensures multiset(r) == multiset(Enumerate(v))
  {
    var e := Enumerate(v);
    assert DistinctIndices(e);
    var r := SortEntries(e);
    assert |r| == |multiset(r)| == |multiset(e)| == |e|;
    r
  }

  /** The ranking lists every class exactly once, with its own percentage. */
  lemma RankListsEveryClass(v: Vector)
    ensures forall i :: 0 <= i < |v| ==> Entry(i, v[i]) in Rank(v)
    ensures forall x :: x in Rank(v) ==> x.index < |v| && x.value == v[x.index]
    ensures DistinctIndices(Rank(v))
  {
    var r := Rank(v);
    var e := Enumerate(v);
    forall i | 0 <= i < |v| ensures Entry(i, v[i]) in r {
      assert e[i] in e;
      InMultiset(e[i], e, r);
    }
    forall x | x in r ensures x.index < |v| && x.value == v[x.index] {
      InMultiset(x, r, e);
    }
  }

  /** The top of the ranking is the first largest percentage. */
  lemma RankHead(v: Vector)
    requires |v| > 0
    ensures Rank(v)[0] == Entry(Argmax(v), v[Argmax(v)])
  {
    var r := Rank(v);
    RankListsEveryClass(v);
    assert r[0] in r;
    var k := r[0].index;
    forall i | 0 <= i < |v| ensures v[i] <= v[k] && (i < k ==> v[i] < v[k]) {
      if i != k {
        assert Entry(i, v[i]) in r;
        var j :| 0 <= j < |r| && r[j] == Entry(i, v[i]);
        assert j != 0;
        assert Before(r[0], r[j]);
      }
    }
    ArgmaxUnique(v, k);
  }

  /** Two ranked arrangements of the same entries start with the same one. */
  lemma RankedHeadsAgree(s: seq<Entry>, t: seq<Entry>)
    requires Ranked(s) && Ranked(t)
    requires multiset(s) == multiset(t)
    requires |s| > 0
    ensures |t| == |s| && s[0] == t[0]
  {
    assert |t| == |multiset(t)| == |multiset(s)| == |s|;
    assert s[0] in s && t[0] in t;
    InMultiset(s[0], s, t);
    InMultiset(t[0], t, s);
    var i :| 0 <= i < |s| && s[i] == t[0];
    var j :| 0 <= j < |t| && t[j] == s[0];
    assert i == 0 || Before(s[0], t[0]);
    assert j == 0;
  }

  lemma TailMultiset(s: seq<Entry>)
    requires |s| > 0
    ensures multiset(s[1..]) == multiset(s) - multiset{s[0]}
  {
    assert s == [s[0]] + s[1..];
  }

  /** Any ranked arrangement of the classes is the one the sort produces. */
  lemma {:induction false} RankedUnique(s: seq<Entry>, t: seq<Entry>)
    requires Ranked(s) && Ranked(t)
    requires multiset(s) == multiset(t)
    ensures s == t
    decreases |s|
  {
    if |s| > 0 {
      RankedHeadsAgree(s, t);
      TailMultiset(s);
      TailMultiset(t);
      RankedUnique(s[1..], t[1..]);
      assert s == [s[0]] + s[1..] && t == [t[0]] + t[1..];
    } else {
      assert |t| == |multiset(t)|;
    }
  }

  /** The ranking does not depend on how the sort works: an arrangement of
      enumerate(v) in the order Before is Rank(v). */
  lemma RankIsTheStableSort(v: Vector, s: seq<Entry>)
    requires Ranked(s) && multiset(s) == multiset(Enumerate(v))
    ensures s == Rank(v)
  {
    RankedUnique(s, Rank(v));
  }

  // ---------------------------------------------------------------------
  // Confidence band
  // ---------------------------------------------------------------------

  datatype Band = High | Medium | Low | NoBand

  /** The headline scenario's band for its top percentage: the four cases
      cover every value and do not overlap. */
  function ConfidenceBand(top: real): (b: Band)
    ensures b == High <==> top >= HighThreshold
    ensures b == Medium <==> MediumThreshold <= top < HighThreshold
    ensures b == Low <==> LowThreshold <= top < MediumThreshold
    ensures b == NoBand <==> top < LowThreshold
  {
    if top >= HighThreshold then High
    else if top >= MediumThreshold then Medium
    else if top >= LowThreshold then Low
    else NoBand
  }

  /** The band as sent to the browser. */
  function BandName(b: Band): string {
    match b
    case High => "high"
    case Medium => "medium"
    case Low => "low"
    case NoBand => "no"
  }

  /** The browser can tell every band from its name: the four names are
      distinct, and the lowest band is sent as "no". */
  lemma BandNamesDistinct(a: Band, b: Band)
    ensures BandName(a) == BandName(b) <==> a == b
    ensures BandName(a) == "no" <==> a == NoBand
  {
  }

  function Level(b: Band): nat {
    match b
    case NoBand => 0
    case Low => 1
    case Medium => 2
    case High => 3
  }

  /** A higher top percentage never gives a lower band. */
  lemma BandMonotonic(a: real, b: real)
    requires a <= b
    ensures Level(ConfidenceBand(a)) <= Level(ConfidenceBand(b))
  {
  }

  // ---------------------------------------------------------------------
  // One scenario
  // ---------------------------------------------------------------------

  /** numpy.dot accepts the inputs and both weight matrices. */
  predicate Shaped(inputs: Vector, w: Weights) {
    IsMatrix(w.wih, |w.wih|, |inputs|) && IsMatrix(w.who, |w.who|, |w.wih|)
  }

  function Outputs(inputs: Vector, w: Weights, act: real -> real): (r: Vector)
    requires Shaped(inputs, w)
    ensures |r| == |w.who|
  {
    ForwardProp(inputs, w.wih, w.who, act).output
  }

  /** What one iteration of the scenario loop keeps: the rounded
      percentages, their ranking and the index of the largest output. */
  datatype Query = Query(percentages: Vector, ranked: seq<Entry>, index: nat)

  /** One scenario's query. numpy.dot raises a ValueError on mis-shaped
      weights and numpy.argmax one on an empty output; a zero sum is reported
      as a ZeroDivisionError. */
  function QueryScenario(inputs: Vector, w: Weights, act: real -> real, round: real -> real): (r: Result<Query>)
    ensures r.Err? <==> !Shaped(inputs, w) || |w.who| == 0 || Sum(Outputs(inputs, w, act)) == 0.0
    ensures r.Err? && (!Shaped(inputs, w) || |w.who| == 0) ==> r.error == ValueError
    ensures r.Err? && Shaped(inputs, w) && |w.who| > 0 ==> r.error == ZeroDivisionError
    ensures r.Ok? ==> |r.value.ranked| == |r.value.percentages| == |w.who| > 0
  {
    if !Shaped(inputs, w) then Err(ValueError)
    else
      var out := Outputs(inputs, w, act);
      if |out| == 0 then Err(ValueError)
      else if Sum(out) == 0.0 then Err(ZeroDivisionError)
      else
        var pcts := Rounded(round, RawPercentages(out));
        Ok(Query(pcts, Rank(pcts), Argmax(out)))
  }

  /** What a successful query means: the label is the first largest output,
      the percentages are the rounded shares of the outputs, the ranking is
      their stable descending sort, and with a rounding that keeps the order
      the top of the ranking is the rounded percentage of the label. */
  lemma QueryMeaning(inputs: Vector, w: Weights, act: real -> real, round: real -> real)
    requires QueryScenario(inputs, w, act, round).Ok?
    ensures Shaped(inputs, w) && |w.who| > 0 && Sum(Outputs(inputs, w, act)) != 0.0
    ensures QueryScenario(inputs, w, act, round).value.index == Argmax(Outputs(inputs, w, act))
    ensures QueryScenario(inputs, w, act, round).value.percentages
         == Rounded(round, RawPercentages(Outputs(inputs, w, act)))
    ensures QueryScenario(inputs, w, act, round).value.ranked
         == Rank(QueryScenario(inputs, w, act, round).value.percentages)
    ensures Monotone(round) && Sum(Outputs(inputs, w, act)) > 0.0 ==>
      QueryScenario(inputs, w, act, round).value.ranked[0].value
        == round(RawPercentages(Outputs(inputs, w, act))[Argmax(Outputs(inputs, w, act))])
  {
    var out := Outputs(inputs, w, act);
    var raw := RawPercentages(out);
    var pcts := Rounded(round, raw);
    var k := Argmax(out);
    if Monotone(round) && Sum(out) > 0.0 {
      RankHead(pcts);
      var a := Argmax(pcts);
      assert pcts[k] <= pcts[a];
      PercentagesKeepArgmax(out);
      assert raw[a] <= raw[k];
      assert round(raw[a]) <= round(raw[k]);
    }
  }

  /** A sum of positive values is positive. */
  lemma {:induction false} SumPositive(v: Vector)
    requires |v| > 0
    requires forall i :: 0 <= i < |v| ==> v[i] > 0.0
    ensures Sum(v) > 0.0
    decreases |v|
  {
    if |v| > 1 {
      SumPositive(v[..|v| - 1]);
    }
  }

  /** With an activation into (0, 1), as the sigmoid is, only mis-shaped or
      empty weights make a query fail. */
  lemma SigmoidQueryFails(inputs: Vector, w: Weights, act: real -> real, round: real -> real)
    requires forall z :: 0.0 < act(z) < 1.0
    ensures QueryScenario(inputs, w, act, round).Err? <==> !Shaped(inputs, w) || |w.who| == 0
    ensures Shaped(inputs, w) && |w.who| > 0 ==> Sum(Outputs(inputs, w, act)) > 0.0
  {
    if Shaped(inputs, w) && |w.who| > 0 {
      ForwardPropInUnitInterval(inputs, w.wih, w.who, act);
      SumPositive(Outputs(inputs, w, act));
    }
  }

  /** Without rounding, the predicted label and the top of the ranking are
      the same class whenever the outputs add up to something positive (as
      sigmoid outputs do). */
  lemma LabelIsTopRanked(inputs: Vector, w: Weights, act: real -> real)
    requires QueryScenario(inputs, w, act, x => x).Ok?
    requires Sum(Outputs(inputs, w, act)) > 0.0
    ensures QueryScenario(inputs, w, act, x => x).value.ranked[0].index
         == QueryScenario(inputs, w, act, x => x).value.index
  {
    var out := Outputs(inputs, w, act);
    var pcts := Rounded(x => x, RawPercentages(out));
    assert pcts == RawPercentages(out);
    PercentagesKeepArgmax(out);
    RankHead(pcts);
  }

  /** Rounding to two decimals, halves rounded up. Away from the halfway
      points this is what numpy.round(x, 2) does on real numbers. */
  function RoundTwoDecimals(x: real): (r: real)
    ensures x - 0.005 < r <= x + 0.005
    ensures (r * 100.0).Floor as real == r * 100.0
  {
    ((x * 100.0 + 0.5).Floor as real) / 100.0
  }

  /** Rounding to two decimals keeps the order of the values. */
  lemma RoundTwoDecimalsMonotone()
    ensures Monotone(RoundTwoDecimals)
  {
    forall a: real, b: real | a <= b ensures RoundTwoDecimals(a) <= RoundTwoDecimals(b) {
      assert (a * 100.0 + 0.5).Floor <= (b * 100.0 + 0.5).Floor;
    }
  }

  /** With rounding, they may not be: the shares 49.996 and 50.004 both
      round to 50.0 at two decimals, which sends the earlier class to the
      top while the label is the later one. */
  lemma RoundingMaySplitLabelAndTop()
    ensures var q := QueryScenario([1.0], Weights([[1.0]], [[0.49996], [0.50004]]), x => x, RoundTwoDecimals);
      q.Ok? && q.value.index == 1 && q.value.ranked[0].index == 0
  {
    var w := Weights([[1.0]], [[0.49996], [0.50004]]);
    var act := (x: real) => x;
    var out := Outputs([1.0], w, act);
    ForwardPropEntries([1.0], w.wih, w.who, act);
    assert out == [0.49996, 0.50004] by {
      assert Dot([1.0], [1.0]) == 1.0;
      assert Dot([0.49996], [1.0]) == 0.49996 && Dot([0.50004], [1.0]) == 0.50004;
    }
    assert Sum(out) == 1.0;
    ArgmaxUnique(out, 1);
    var raw := RawPercentages(out);
    assert raw == [49.996, 50.004];
    assert RoundTwoDecimals(49.996) == 50.0 && RoundTwoDecimals(50.004) == 50.0;
    var pcts := Rounded(RoundTwoDecimals, raw);
    assert pcts == [50.0, 50.0];
    ArgmaxUnique(pcts, 0);
    RankHead(pcts);
  }

  // ---------------------------------------------------------------------
  // All scenarios
  // ---------------------------------------------------------------------

  /** Scenario i's query with the weights load(i) that scenario i saved. */
  function ScenarioQuery(inputs: Vector, load: nat -> Weights, act: real -> real, round: real -> real)
    : nat -> Result<Query>
  {
    (i: nat) => QueryScenario(inputs, load(i), act, round)
  }

  /** Every successful scenario query ranks at least one class. */
  lemma ScenarioQueriesRanked(inputs: Vector, load: nat -> Weights, act: real -> real, round: real -> real)
    ensures forall i: nat :: ScenarioQuery(inputs, load, act, round)(i).Ok? ==>
      |ScenarioQuery(inputs, load, act, round)(i).value.ranked| > 0
  {
    forall i: nat | ScenarioQuery(inputs, load, act, round)(i).Ok?
      ensures |ScenarioQuery(inputs, load, act, round)(i).value.ranked| > 0
    {
      assert ScenarioQuery(inputs, load, act, round)(i) == QueryScenario(inputs, load(i), act, round);
    }
  }

  /** The queries of scenarios 0 .. n - 1; the first failing scenario ends
      the loop with its error. */
  function Queries(query: nat -> Result<Query>, n: nat): (r: Result<seq<Query>>)
    ensures r.Ok? <==> forall i :: 0 <= i < n ==> query(i).Ok?
    ensures r.Ok? ==> |r.value| == n
    ensures r.Ok? ==> forall i :: 0 <= i < n ==> query(i) == Ok(r.value[i])
    ensures r.Err? ==> exists i :: 0 <= i < n && query(i) == Err(r.error)
  {
    if n == 0 then Ok([])
    else
      var front :- Queries(query, n - 1);
      var q :- query(n - 1);
      Ok(front + [q])
  }

  /** Once a scenario has failed, later scenarios are not queried. */
  lemma {:induction false} QueriesStop(query: nat -> Result<Query>, k: nat, n: nat)
    requires k <= n
    requires Queries(query, k).Err?
    ensures Queries(query, n) == Queries(query, k)
    decreases n
  {
    if n > k {
      QueriesStop(query, k, n - 1);
    }
  }

  /** What the browser is sent about the sketch: a label and a confidence
      for every scenario, and the ranked classes, their percentages and the
      band of the headline scenario 3. */
  datatype Display = Display(predictions: seq<nat>, confidences: seq<real>, band: string,
                             indices: seq<nat>, values: seq<real>)

  /** Each scenario's label is the index of its own largest output. */
  function Predictions(qs: seq<Query>): (r: seq<nat>)
    ensures |r| == |qs| && forall i :: 0 <= i < |qs| ==> r[i] == qs[i].index
  {
    seq(|qs|, i requires 0 <= i < |qs| => qs[i].index)
  }

  /** The labels as the scenario loop appends them: str(index[0]) every
      time, the label of scenario 0. */
  function PredictionsAsWritten(qs: seq<Query>): (r: seq<nat>)
    ensures |r| == |qs| && forall i :: 0 <= i < |qs| ==> r[i] == qs[0].index
  {
    if |qs| == 0 then [] else seq(|qs|, _ => qs[0].index)
  }

  /** The labels as written report scenario i's own prediction exactly when
      it happens to agree with scenario 0's. */
  lemma PredictionsAsWrittenRepeatFirst(qs: seq<Query>, i: nat)
    requires i < |qs|
    ensures PredictionsAsWritten(qs)[i] == Predictions(qs)[i] <==> qs[i].index == qs[0].index
  {
  }

  /** The top-ranked percentage of every scenario. */
  function Confidences(qs: seq<Query>): (r: seq<real>)
    requires forall i :: 0 <= i < |qs| ==> |qs[i].ranked| > 0
    ensures |r| == |qs| && forall i :: 0 <= i < |qs| ==> r[i] == qs[i].ranked[0].value
  {
    seq(|qs|, i requires 0 <= i < |qs| => qs[i].ranked[0].value)
  }

  /** The classes of a ranking, in ranked order. */
  function ClassesOf(ranked: seq<Entry>): (r: seq<nat>)
    ensures |r| == |ranked| && forall j :: 0 <= j < |ranked| ==> r[j] == ranked[j].index
  {
    seq(|ranked|, j requires 0 <= j < |ranked| => ranked[j].index)
  }

  /** The percentages of a ranking, in ranked order. */
  function ValuesOf(ranked: seq<Entry>): (r: seq<real>)
    ensures |r| == |ranked| && forall j :: 0 <= j < |ranked| ==> r[j] == ranked[j].value
  {
    seq(|ranked|, j requires 0 <= j < |ranked| => ranked[j].value)
  }

  /** The parameters sent to the browser, given the scenario queries and
      the labels appended for them. The band is that of scenario 3's
      confidence. */
  function Report(qs: seq<Query>, labels: seq<nat>): (d: Display)
    requires |qs| == |Scenarios|
    requires forall i :: 0 <= i < |qs| ==> |qs[i].ranked| > 0
    ensures |d.confidences| == |qs| && |d.indices| == |d.values| == |qs[3].ranked|
    ensures d.band == BandName(ConfidenceBand(d.confidences[3]))
  {
    var headline := qs[3].ranked;
    Display(labels, Confidences(qs), BandName(ConfidenceBand(headline[0].value)),
            ClassesOf(headline), ValuesOf(headline))
  }

  /** What process_image computes from the sketch and the saved weights, with
      the labels it appends: scenario 0's label for every scenario. */
  function Processed(raw: seq<real>, load: nat -> Weights, act: real -> real, round: real -> real)
    : (r: Result<Display>)
    ensures r.Ok? ==> |raw| == SketchSide * SketchSide
    ensures r.Ok? ==> |r.value.predictions| == |r.value.confidences| == |Scenarios|
  {
    var inputs :- Compressed(raw);
    var qs :- Queries(ScenarioQuery(inputs, load, act, round), |Scenarios|);
    ScenarioQueriesRanked(inputs, load, act, round);
    Ok(Report(qs, PredictionsAsWritten(qs)))
  }

  /** process_image with each scenario labelled by its own prediction
      (str(index[i])); everything else as in Processed. */
  function CorrectedProcessed(raw: seq<real>, load: nat -> Weights, act: real -> real, round: real -> real)
    : (r: Result<Display>)
    ensures r.Ok? ==> |raw| == SketchSide * SketchSide
    ensures r.Ok? ==> |r.value.predictions| == |r.value.confidences| == |Scenarios|
  {
    var inputs :- Compressed(raw);
    var qs :- Queries(ScenarioQuery(inputs, load, act, round), |Scenarios|);
    ScenarioQueriesRanked(inputs, load, act, round);
    Ok(Report(qs, Predictions(qs)))
  }

  /** The loop over the scenarios as written: each successful query appends
      str(index[0]), scenario 0's label, and the query's own confidence; the
      first failing one ends the loop. */
  method QueryScenarios(query: nat -> Result<Query>)
    returns (r: Result<seq<Query>>, labels: seq<nat>, confidences: seq<real>)
    requires forall i: nat :: query(i).Ok? ==> |query(i).value.ranked| > 0
    ensures r == Queries(query, |Scenarios|)
    ensures r.Ok? ==> labels == PredictionsAsWritten(r.value)
    ensures r.Ok? ==> confidences == Confidences(r.value)
  {
    var queries: seq<Query> := [];
    labels, confidences := [], [];
    var i := 0;
    while i < |Scenarios|
      invariant 0 <= i <= |Scenarios|
      invariant Queries(query, i) == Ok(queries)
      invariant labels == PredictionsAsWritten(queries)
      invariant |confidences| == |queries| == i
      invariant forall k :: 0 <= k < i ==> confidences[k] == queries[k].ranked[0].value
    {
      var q := query(i);
      if q.Err? {
        QueriesStop(query, i + 1, |Scenarios|);
        return Err(q.error), labels, confidences;
      }
      queries := queries + [q.value];
      labels := labels + [queries[0].index];
      confidences := confidences + [q.value.ranked[0].value];
      i := i + 1;
    }
    return Ok(queries), labels, confidences;
  }

  /** The scenario loop with each query appending its own label. */
  method QueryScenariosCorrected(query: nat -> Result<Query>)
    returns (r: Result<seq<Query>>, labels: seq<nat>, confidences: seq<real>)
    requires forall i: nat :: query(i).Ok? ==> |query(i).value.ranked| > 0
    ensures r == Queries(query, |Scenarios|)
    ensures r.Ok? ==> labels == Predictions(r.value)
    ensures r.Ok? ==> confidences == Confidences(r.value)
  {
    var queries: seq<Query> := [];
    labels, confidences := [], [];
    var i := 0;
    while i < |Scenarios|
      invariant 0 <= i <= |Scenarios|
      invariant Queries(query, i) == Ok(queries)
      invariant labels == Predictions(queries)
      invariant |confidences| == |queries| == i
      invariant forall k :: 0 <= k < i ==> confidences[k] == queries[k].ranked[0].value
    {
      var q := query(i);
      if q.Err? {
        QueriesStop(query, i + 1, |Scenarios|);
        return Err(q.error), labels, confidences;
      }
      queries := queries + [q.value];
      labels := labels + [q.value.index];
      confidences := confidences + [q.value.ranked[0].value];
      i := i + 1;
    }
    return Ok(queries), labels, confidences;
  }

  /** process_image as written: the scenario loop, then the headline ranking
      split into classes and percentages, and the headline band. */
  method ProcessImage(raw: seq<real>, load: nat -> Weights, act: real -> real, round: real -> real)
    returns (r: Result<Display>)
    ensures r == Processed(raw, load, act, round)
  {
    var compressed := CompressImage(raw);
    if compressed.Err? {
      return Err(compressed.error);
    }
    var query := ScenarioQuery(compressed.value, load, act, round);
    ScenarioQueriesRanked(compressed.value, load, act, round);
    var queries, labels, confidences := QueryScenarios(query);
    if queries.Err? {
      return Err(queries.error);
    }
    var headline := queries.value[3].ranked;
    var indices, values := SplitRanking(headline);
    r := Ok(Display(labels, confidences, BandName(ConfidenceBand(headline[0].value)), indices, values));
  }

  /** process_image with every scenario labelled by its own prediction. */
  method ProcessImageCorrected(raw: seq<real>, load: nat -> Weights, act: real -> real, round: real -> real)
    returns (r: Result<Display>)
    ensures r == CorrectedProcessed(raw, load, act, round)
  {
    var compressed := CompressImage(raw);
    if compressed.Err? {
      return Err(compressed.error);
    }
    var query := ScenarioQuery(compressed.value, load, act, round);
    ScenarioQueriesRanked(compressed.value, load, act, round);
    var queries, labels, confidences := QueryScenariosCorrected(query);
    if queries.Err? {
      return Err(queries.error);
    }
    var headline := queries.value[3].ranked;
    var indices, values := SplitRanking(headline);
    r := Ok(Display(labels, confidences, BandName(ConfidenceBand(headline[0].value)), indices, values));
  }

  /** The loop that splits the headline ranking into its classes and its
      percentages. */
  method SplitRanking(ranked: seq<Entry>) returns (indices: seq<nat>, values: seq<real>)
    ensures indices == ClassesOf(ranked) && values == ValuesOf(ranked)
  {
    indices, values := [], [];
    for j := 0 to |ranked|
      invariant |indices| == |values| == j
      invariant forall k :: 0 <= k < j ==> indices[k] == ranked[k].index && values[k] == ranked[k].value
    {
      indices := indices + [ranked[j].index];
      values := values + [ranked[j].value];
    }
  }

  /** A successful process_image ran every scenario's query; the corrected
      one succeeds on the same sketches and differs only in its labels. */
  lemma ProcessedQueries(raw: seq<real>, load: nat -> Weights, act: real -> real, round: real -> real)
    requires Processed(raw, load, act, round).Ok?
    ensures Compressed(raw).Ok?
    ensures Queries(ScenarioQuery(Compressed(raw).value, load, act, round), |Scenarios|).Ok?
    ensures forall i :: 0 <= i < |Scenarios| ==>
      |Queries(ScenarioQuery(Compressed(raw).value, load, act, round), |Scenarios|).value[i].ranked| > 0
    ensures Processed(raw, load, act, round)
         == Ok(Report(Queries(ScenarioQuery(Compressed(raw).value, load, act, round), |Scenarios|).value,
                      PredictionsAsWritten(Queries(ScenarioQuery(Compressed(raw).value, load, act, round), |Scenarios|).value)))
    ensures CorrectedProcessed(raw, load, act, round)
         == Ok(Report(Queries(ScenarioQuery(Compressed(raw).value, load, act, round), |Scenarios|).value,
                      Predictions(Queries(ScenarioQuery(Compressed(raw).value, load, act, round), |Scenarios|).value)))
  {
    ScenarioQueriesRanked(Compressed(raw).value, load, act, round);
  }

  /** Scenario i's label and confidence. As written the label is the first
      largest output of scenario 0's weights on the compressed sketch;
      corrected, of scenario i's own. The confidence is (with a rounding that
      keeps the order and outputs adding up to something positive) the
      rounded percentage of scenario i's largest output, and the band is
      that of scenario 3's confidence. */
  lemma ProcessedMeaning(raw: seq<real>, load: nat -> Weights, act: real -> real, round: real -> real, i: nat)
    requires Processed(raw, load, act, round).Ok?
    requires i < |Scenarios|
    ensures Compressed(raw).Ok?
    ensures Shaped(Compressed(raw).value, load(i)) && |load(i).who| > 0
    ensures Shaped(Compressed(raw).value, load(0)) && |load(0).who| > 0
    ensures Processed(raw, load, act, round).value.predictions[i]
         == Argmax(Outputs(Compressed(raw).value, load(0), act))
    ensures CorrectedProcessed(raw, load, act, round).Ok?
    ensures CorrectedProcessed(raw, load, act, round).value.predictions[i]
         == Argmax(Outputs(Compressed(raw).value, load(i), act))
    ensures CorrectedProcessed(raw, load, act, round).value.confidences
         == Processed(raw, load, act, round).value.confidences
    ensures Monotone(round) && Sum(Outputs(Compressed(raw).value, load(i), act)) > 0.0 ==>
      Processed(raw, load, act, round).value.confidences[i]
        == round(RawPercentages(Outputs(Compressed(raw).value, load(i), act))
                   [Argmax(Outputs(Compressed(raw).value, load(i), act))])
    ensures Processed(raw, load, act, round).value.band
         == BandName(ConfidenceBand(Processed(raw, load, act, round).value.confidences[3]))
  {
    var inputs := Compressed(raw).value;
    var query := ScenarioQuery(inputs, load, act, round);
    ProcessedQueries(raw, load, act, round);
    var qs := Queries(query, |Scenarios|).value;
    assert query(i) == QueryScenario(inputs, load(i), act, round) == Ok(qs[i]);
    assert query(0) == QueryScenario(inputs, load(0), act, round) == Ok(qs[0]);
    QueryMeaning(inputs, load(i), act, round);
    QueryMeaning(inputs, load(0), act, round);
  }

  /** The headline ranking lists every class of scenario 3 once, from the
      largest percentage down, ties in class order. */
  lemma HeadlineRanking(raw: seq<real>, load: nat -> Weights, act: real -> real, round: real -> real)
    requires Processed(raw, load, act, round).Ok?
    ensures |Processed(raw, load, act, round).value.indices| == |load(3).who|
    ensures forall c :: 0 <= c < |load(3).who| ==> c in Processed(raw, load, act, round).value.indices
    ensures forall j, k :: 0 <= j < k < |load(3).who| ==>
      Processed(raw, load, act, round).value.indices[j] != Processed(raw, load, act, round).value.indices[k]
    ensures forall j, k :: 0 <= j < k < |load(3).who| ==>
      Processed(raw, load, act, round).value.values[j] >= Processed(raw, load, act, round).value.values[k]
  {
    var inputs := Compressed(raw).value;
    var query := ScenarioQuery(inputs, load, act, round);
    ProcessedQueries(raw, load, act, round);
    var qs := Queries(query, |Scenarios|).value;
    assert query(3) == QueryScenario(inputs, load(3), act, round) == Ok(qs[3]);
    QueryMeaning(inputs, load(3), act, round);
    RankedClasses(qs[3].percentages);
  }

  /** The classes of a ranking are every class once, and its percentages
      never increase down the list. */
  lemma RankedClasses(v: Vector)
    ensures |ClassesOf(Rank(v))| == |ValuesOf(Rank(v))| == |v|
    ensures forall c :: 0 <= c < |v| ==> c in ClassesOf(Rank(v))
    ensures forall j, k :: 0 <= j < k < |v| ==> ClassesOf(Rank(v))[j] != ClassesOf(Rank(v))[k]
    ensures forall j, k :: 0 <= j < k < |v| ==> ValuesOf(Rank(v))[j] >= ValuesOf(Rank(v))[k]
  {
    var ranked := Rank(v);
    var classes := ClassesOf(ranked);
    RankListsEveryClass(v);
    forall c | 0 <= c < |v| ensures c in classes {
      assert Entry(c, v[c]) in ranked;
      var j :| 0 <= j < |ranked| && ranked[j] == Entry(c, v[c]);
      assert classes[j] == c;
    }
    forall j, k | 0 <= j < k < |v| ensures ValuesOf(ranked)[j] >= ValuesOf(ranked)[k] {
      assert Before(ranked[j], ranked[k]);
    }
  }

  /** The labels as written are wrong whenever scenario i's weights pick
      another class than scenario 0's; the corrected labels are right. */
  lemma LabelsAsWrittenRepeatScenario0(raw: seq<real>, load: nat -> Weights, act: real -> real,
                                       round: real -> real, i: nat)
    requires Processed(raw, load, act, round).Ok?
    requires i < |Scenarios|
    requires Compressed(raw).Ok?
    requires Shaped(Compressed(raw).value, load(i)) && |load(i).who| > 0
    requires Shaped(Compressed(raw).value, load(0)) && |load(0).who| > 0
    requires Argmax(Outputs(Compressed(raw).value, load(i), act))
          != Argmax(Outputs(Compressed(raw).value, load(0), act))
    ensures Processed(raw, load, act, round).value.predictions[i]
         != Argmax(Outputs(Compressed(raw).value, load(i), act))
    ensures CorrectedProcessed(raw, load, act, round).Ok?
    ensures CorrectedProcessed(raw, load, act, round).value.predictions[i]
         == Argmax(Outputs(Compressed(raw).value, load(i), act))
  {
    ProcessedMeaning(raw, load, act, round, i);
  }
}
