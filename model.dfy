/** The pure part of neuron_network.py: label encoding, the cost, the
    forward pass as a layer-by-layer trace, the backward recurrence that
    yields the gradients, and arg-max evaluation. The activation pair and
    the exponential are parameters: the model never looks inside them. */
module Model {
  import opened Matrices

  datatype Option<+T> = None | Some(value: T)

  /** One dense layer, the (inputs, outputs) pair of the layer list. */
  datatype Layer = Layer(inputs: nat, outputs: nat)

  /** What the forward and backward passes read from a network: its layer
      list, the activation function and its derivative (both applied cell
      by cell), the exponential used by softmax, and the softmax flag. */
  datatype Net = Net(
    layers: seq<Layer>,
    activate: real -> real,
    prime: real -> real,
    exp: real -> real,
    softMaxOutput: bool)

  /** The exponential is positive everywhere, as np.exp is. */
  ghost predicate ExpPositive(exp: real -> real)
  {
    forall x :: 0.0 < exp(x)
  }

  /** Shapes of `wights`: layer l is (outputs, inputs). */
  function WeightShapes(layers: seq<Layer>): (r: seq<Shape>)
    ensures |r| == |layers|
    ensures forall l :: 0 <= l < |layers| ==> r[l] == Shape(layers[l].outputs, layers[l].inputs)
  {
    seq(|layers|, l requires 0 <= l < |layers| => Shape(layers[l].outputs, layers[l].inputs))
  }

  /** Shapes of `biases`: layer l is (outputs, 1). */
  function BiasShapes(layers: seq<Layer>): (r: seq<Shape>)
    ensures |r| == |layers|
    ensures forall l :: 0 <= l < |layers| ==> r[l] == Shape(layers[l].outputs, 1)
  {
    seq(|layers|, l requires 0 <= l < |layers| => Shape(layers[l].outputs, 1))
  }

  /** Each layer consumes what the previous one produces; otherwise the
      matrix product of the forward pass fails. */
  predicate Chained(layers: seq<Layer>)
  {
    forall l :: 0 <= l < |layers| - 1 ==> Feeds(layers, l)
  }

  /** Layer l produces what layer l + 1 consumes. */
  predicate Feeds(layers: seq<Layer>, l: nat)
    requires l + 1 < |layers|
  {
    layers[l].outputs == layers[l + 1].inputs
  }

  predicate ParamsFit(layers: seq<Layer>, ws: seq<Matrix>, bs: seq<Matrix>)
  {
    Fits(ws, WeightShapes(layers)) && Fits(bs, BiasShapes(layers))
  }

  /** What a forward pass needs of the network: chained layers, and a
      positive exponential when softmax is on. */
  ghost predicate NetOK(net: Net)
  {
    Chained(net.layers) && (net.softMaxOutput ==> ExpPositive(net.exp))
  }

  /** An input the first layer can take; with no layers, any input. */
  predicate InputFits(layers: seq<Layer>, x: seq<real>)
  {
    |layers| > 0 ==> |x| == layers[0].inputs
  }

  /** Rows of the network's output column for an input of width n. */
  function OutputWidth(layers: seq<Layer>, n: nat): nat
  {
    if |layers| == 0 then n else layers[|layers| - 1].outputs
  }

  /** Python's index for `arr[result]` on an array of `size` rows. */
  function PyIndex(result: int, size: nat): int
  {
    if result < 0 then result + size else result
  }

  /** get_output_array: a size x 1 column of zeros with a 1 in row
      `result`, counted from the end when negative as Python does; an
      index outside [-size, size) is the IndexError, None here. */
  predicate InLabelRange(result: int, size: nat)
  {
    -(size as int) <= result < size
  }

  /** The first n rows of the one-hot column with its 1 in row k. */
  function OneHotRows(k: int, n: nat): seq<seq<real>>
  {
    if n == 0 then [] else OneHotRows(k, n - 1) + [[if n - 1 == k then 1.0 else 0.0]]
  }

  lemma {:induction false} OneHotRowsFacts(k: int, n: nat)
    ensures |OneHotRows(k, n)| == n
    ensures forall i :: 0 <= i < n ==> OneHotRows(k, n)[i] == [if i == k then 1.0 else 0.0]
  {
    if n > 0 {
      OneHotRowsFacts(k, n - 1);
    }
  }

  function OutputArray(result: int, size: nat): (r: Option<Matrix>)
    ensures r.Some? <==> InLabelRange(result, size)
    ensures r.Some? ==> HasShape(r.value, Shape(size, 1)) && 0 <= PyIndex(result, size) < size
    ensures r.Some? ==> forall i :: 0 <= i < size ==>
              (r.value.cells[i][0] == 1.0 <==> i == PyIndex(result, size)) &&
              (r.value.cells[i][0] == 0.0 <==> i != PyIndex(result, size))
  {
    if InLabelRange(result, size) then
      var k := PyIndex(result, size);
      OneHotRowsFacts(k, size);
      Some(Mat(size, 1, OneHotRows(k, size)))
    else
      None
  }

  /** cost_function: the derivative of the squared error, a - y. */
  function Cost(a: Matrix, y: Matrix): (r: Matrix)
    requires SameShape(a, y)
    ensures SameShape(r, a)
    ensures forall i, j :: 0 <= i < r.rows && 0 <= j < r.cols ==> y.cells[i][j] + r.cells[i][j] == a.cells[i][j]
  {
    Sub(a, y)
  }

  /** The sums of the first n columns of m. */
  function ColumnSums(m: Matrix, n: nat): seq<real>
    requires n <= m.cols
  {
    if n == 0 then [] else ColumnSums(m, n - 1) + [Sum(Column(m, n - 1))]
  }

  lemma {:induction false} ColumnSumsFacts(m: Matrix, n: nat)
    requires n <= m.cols
    ensures |ColumnSums(m, n)| == n && forall j :: 0 <= j < n ==> ColumnSums(m, n)[j] == Sum(Column(m, j))
  {
    if n > 0 {
      ColumnSumsFacts(m, n - 1);
    }
  }

  /** The first n cells of u, each divided by the matching entry of d. */
  function DivideRow(u: seq<real>, d: seq<real>, n: nat): seq<real>
    requires n <= |u| && n <= |d| && forall j :: 0 <= j < n ==> d[j] != 0.0
  {
    if n == 0 then [] else DivideRow(u, d, n - 1) + [u[n - 1] / d[n - 1]]
  }

  lemma {:induction false} DivideRowFacts(u: seq<real>, d: seq<real>, n: nat)
    requires n <= |u| && n <= |d| && forall j :: 0 <= j < n ==> d[j] != 0.0
    ensures |DivideRow(u, d, n)| == n && forall j :: 0 <= j < n ==> DivideRow(u, d, n)[j] == u[j] / d[j]
  {
    if n > 0 {
      DivideRowFacts(u, d, n - 1);
    }
  }

  /** The first n rows of x, each divided entry by entry by d. */
  function DivideRows(x: seq<seq<real>>, d: seq<real>, n: nat): seq<seq<real>>
    requires n <= |x| && forall i :: 0 <= i < n ==> |x[i]| == |d|
    requires n > 0 ==> forall j :: 0 <= j < |d| ==> d[j] != 0.0
  {
    if n == 0 then [] else DivideRows(x, d, n - 1) + [DivideRow(x[n - 1], d, |d|)]
  }

  lemma {:induction false} DivideRowsFacts(x: seq<seq<real>>, d: seq<real>, n: nat)
    requires n <= |x| && forall i :: 0 <= i < n ==> |x[i]| == |d|
    requires n > 0 ==> forall j :: 0 <= j < |d| ==> d[j] != 0.0
    ensures |DivideRows(x, d, n)| == n && forall i :: 0 <= i < n ==> |DivideRows(x, d, n)[i]| == |d|
    ensures forall i, j :: 0 <= i < n && 0 <= j < |d| ==> DivideRows(x, d, n)[i][j] == x[i][j] / d[j]
  {
    if n > 0 {
      DivideRowsFacts(x, d, n - 1);
      DivideRowFacts(x[n - 1], d, |d|);
    }
  }

  /** Every column of exp(a) has a positive sum, when a has a row. */
  lemma ExpColumnsPositive(exp: real -> real, a: Matrix)
    requires ExpPositive(exp)
    ensures a.rows > 0 ==> forall j :: 0 <= j < a.cols ==> 0.0 < Sum(Column(Apply(exp, a), j))
  {
    var e := Apply(exp, a);
    forall j | 0 <= j < a.cols && 0 < a.rows
      ensures 0.0 < Sum(Column(e, j))
    {
      var c := Column(e, j);
      forall i | 0 <= i < |c|
        ensures 0.0 < c[i]
      {
        var x := a.cells[i][j];
        assert 0.0 < exp(x);
        assert c[i] == e.cells[i][j] == exp(x);
      }
    }
  }

  /** Column-wise softmax exp(a) / sum(exp(a), axis=0), without the
      maximum subtraction that would guard exp against overflow. */
  function Softmax(exp: real -> real, a: Matrix): (r: Matrix)
    requires ExpPositive(exp)
    ensures SameShape(r, a)
    ensures a.rows > 0 ==> forall j :: 0 <= j < a.cols ==> 0.0 < Sum(Column(Apply(exp, a), j))
    ensures forall i, j :: 0 <= i < r.rows && 0 <= j < r.cols ==>
              r.cells[i][j] == Apply(exp, a).cells[i][j] / Sum(Column(Apply(exp, a), j))
  {
    var e := Apply(exp, a);
    ExpColumnsPositive(exp, a);
    var sums := ColumnSums(e, a.cols);
    ColumnSumsFacts(e, a.cols);
    DivideRowsFacts(e.cells, sums, a.rows);
    Mat(a.rows, a.cols, DivideRows(e.cells, sums, a.rows))
  }

  /** The softmax step applied to the last activation when the flag is set. */
  function Finish(net: Net, a: Matrix): (r: Matrix)
    requires net.softMaxOutput ==> ExpPositive(net.exp)
    ensures SameShape(r, a)
  {
    if net.softMaxOutput then Softmax(net.exp, a) else a
  }

  /** The cached lists of a training forward pass: `activations` and `z_values`. */
  datatype Trace = Trace(acts: seq<Matrix>, zs: seq<Matrix>)

  /** Rows of activation i: the input's width, then each layer's outputs. */
  function ActRows(layers: seq<Layer>, n: nat, i: nat): nat
    requires i <= |layers|
  {
    if i == 0 then n else layers[i - 1].outputs
  }

  /** The first k layers of the forward loop from input column a0:
      z_i = W_i a_i + b_i and a_(i+1) = f(z_i). */
  function Run(net: Net, ws: seq<Matrix>, bs: seq<Matrix>, a0: Matrix, k: nat): (t: Trace)
    requires Chained(net.layers) && ParamsFit(net.layers, ws, bs)
    requires a0.cols == 1 && (|net.layers| > 0 ==> a0.rows == net.layers[0].inputs)
    requires k <= |net.layers|
    ensures |t.acts| == k + 1 && |t.zs| == k && t.acts[0] == a0
    ensures forall i :: 0 <= i <= k ==> HasShape(t.acts[i], Shape(ActRows(net.layers, a0.rows, i), 1))
    ensures forall i :: 0 <= i < k ==> HasShape(t.zs[i], Shape(net.layers[i].outputs, 1))
  {
    if k == 0 then Trace([a0], [])
    else
      var t := Run(net, ws, bs, a0, k - 1);
      assert k - 1 > 0 ==> Feeds(net.layers, k - 2);
      var z := Add(MatMul(ws[k - 1], t.acts[k - 1]), bs[k - 1]);
      var acts, zs := t.acts + [Apply(net.activate, z)], t.zs + [z];
      assert forall i :: 0 <= i < k ==> acts[i] == t.acts[i];
      assert forall i :: 0 <= i < k - 1 ==> zs[i] == t.zs[i];
      Trace(acts, zs)
  }

  /** forward_for_learning_fast: the full trace from input x, with softmax
      applied to the last activation when the flag is set. */
  function Forward(net: Net, ws: seq<Matrix>, bs: seq<Matrix>, x: seq<real>): (t: Trace)
    requires NetOK(net) && ParamsFit(net.layers, ws, bs) && InputFits(net.layers, x)
    ensures |t.acts| == |net.layers| + 1 && |t.zs| == |net.layers|
    ensures forall i :: 0 <= i <= |net.layers| ==> HasShape(t.acts[i], Shape(ActRows(net.layers, |x|, i), 1))
    ensures forall i :: 0 <= i < |net.layers| ==> HasShape(t.zs[i], Shape(net.layers[i].outputs, 1))
  {
    var t := Run(net, ws, bs, ColumnOf(x), |net.layers|);
    var last := |net.layers|;
    Trace(t.acts[last := Finish(net, t.acts[last])], t.zs)
  }

  /** The network's output column for x: the last activation of Forward. */
  function Output(net: Net, ws: seq<Matrix>, bs: seq<Matrix>, x: seq<real>): (r: Matrix)
    requires NetOK(net) && ParamsFit(net.layers, ws, bs) && InputFits(net.layers, x)
    ensures HasShape(r, Shape(OutputWidth(net.layers, |x|), 1))
  {
    Forward(net, ws, bs, x).acts[|net.layers|]
  }

  /** What the backward pass needs of a trace and a target: the trace of a
      network with at least one layer, and a target shaped like the output. */
  predicate TraceFits(net: Net, ws: seq<Matrix>, t: Trace, y: Matrix)
  {
    && Chained(net.layers) && Fits(ws, WeightShapes(net.layers)) && |net.layers| > 0
    && |t.acts| == |net.layers| + 1 && |t.zs| == |net.layers|
    && (forall i :: 0 <= i < |net.layers| ==> HasShape(t.zs[i], Shape(net.layers[i].outputs, 1)))
    && HasShape(t.acts[|net.layers|], Shape(net.layers[|net.layers| - 1].outputs, 1))
    && HasShape(y, Shape(net.layers[|net.layers| - 1].outputs, 1))
  }

  /** The error signal of layer i: at the last layer cost ⊙ f'(z), below it
      (W_(i+1)ᵀ delta_(i+1)) ⊙ f'(z_i). */
  function Delta(net: Net, ws: seq<Matrix>, t: Trace, y: Matrix, i: nat): (d: Matrix)
    requires TraceFits(net, ws, t, y) && i < |net.layers|
    ensures HasShape(d, Shape(net.layers[i].outputs, 1))
    decreases |net.layers| - i
  {
    var last := |net.layers| - 1;
    if i == last then
      Mul(Cost(t.acts[last + 1], y), Apply(net.prime, t.zs[last]))
    else
      assert Feeds(net.layers, i);
      Mul(MatMul(Transpose(ws[i + 1]), Delta(net, ws, t, y, i + 1)), Apply(net.prime, t.zs[i]))
  }

  /** Per-layer gradients of one example, `err_b` and `err_w`. */
  datatype Grads = Grads(b: seq<Matrix>, w: seq<Matrix>)

  predicate GradsFit(layers: seq<Layer>, g: Grads)
  {
    Fits(g.b, BiasShapes(layers)) && Fits(g.w, WeightShapes(layers))
  }

  /** An example backpropagate accepts: a network with a layer, an input the
      first layer takes and a label get_output_array can encode. */
  predicate ExampleFits(layers: seq<Layer>, x: seq<real>, result: int)
  {
    |layers| > 0 && |x| == layers[0].inputs && InLabelRange(result, layers[|layers| - 1].outputs)
  }

  /** The one-hot target of backpropagate. */
  function Target(layers: seq<Layer>, result: int): (y: Matrix)
    requires |layers| > 0 && InLabelRange(result, layers[|layers| - 1].outputs)
    ensures HasShape(y, Shape(layers[|layers| - 1].outputs, 1))
  {
    OutputArray(result, layers[|layers| - 1].outputs).value
  }

  /** The error signals of all layers, input-to-output order. */
  function Deltas(net: Net, ws: seq<Matrix>, t: Trace, y: Matrix): (ds: seq<Matrix>)
    requires TraceFits(net, ws, t, y)
    ensures Fits(ds, BiasShapes(net.layers))
    ensures forall i :: 0 <= i < |ds| ==> ds[i] == Delta(net, ws, t, y, i)
  {
    seq(|net.layers|, i requires 0 <= i < |net.layers| => Delta(net, ws, t, y, i))
  }

  /** `err_w`: each layer's error signal times the transposed activation
      that fed the layer. */
  function WeightGrads(ds: seq<Matrix>, acts: seq<Matrix>): (gw: seq<Matrix>)
    requires |acts| >= |ds|
    requires forall i :: 0 <= i < |ds| ==> ds[i].cols == 1 && acts[i].cols == 1
    ensures |gw| == |ds|
    ensures forall i :: 0 <= i < |ds| ==> gw[i] == MatMul(ds[i], Transpose(acts[i]))
  {
    seq(|ds|, i requires 0 <= i < |ds| => MatMul(ds[i], Transpose(acts[i])))
  }

  /** The forward trace of an example backpropagate accepts is ready for
      the backward pass, and each of its activations is a column. */
  lemma TraceReady(net: Net, ws: seq<Matrix>, bs: seq<Matrix>, x: seq<real>, result: int)
    requires NetOK(net) && ParamsFit(net.layers, ws, bs) && ExampleFits(net.layers, x, result)
    ensures TraceFits(net, ws, Forward(net, ws, bs, x), Target(net.layers, result))
    ensures ColumnTrace(Forward(net, ws, bs, x))
  {
  }

  /** Error signals shaped like the biases, times the transposed
      activations of a forward trace, are shaped like the weights. */
  lemma OuterProductsFit(layers: seq<Layer>, n0: nat, ds: seq<Matrix>, acts: seq<Matrix>)
    requires Chained(layers) && (|layers| > 0 ==> n0 == layers[0].inputs)
    requires Fits(ds, BiasShapes(layers)) && |acts| == |layers| + 1
    requires forall i :: 0 <= i <= |layers| ==> HasShape(acts[i], Shape(ActRows(layers, n0, i), 1))
    ensures forall i :: 0 <= i < |ds| ==> ds[i].cols == 1 && acts[i].cols == 1
    ensures Fits(WeightGrads(ds, acts), WeightShapes(layers))
  {
    forall i | 0 <= i < |layers|
      ensures HasShape(WeightGrads(ds, acts)[i], WeightShapes(layers)[i])
    {
      if i > 0 {
        assert Feeds(layers, i - 1);
      }
    }
  }

  /** backpropagate: the gradients of one example, in input-to-output
      order, each shaped like the parameter it adjusts. */
  function Gradients(net: Net, ws: seq<Matrix>, bs: seq<Matrix>, x: seq<real>, result: int): (g: Grads)
    requires NetOK(net) && ParamsFit(net.layers, ws, bs) && ExampleFits(net.layers, x, result)
    ensures GradsFit(net.layers, g)
  {
    var t := Forward(net, ws, bs, x);
    var y := Target(net.layers, result);
    TraceReady(net, ws, bs, x, result);
    var ds := Deltas(net, ws, t, y);
    OuterProductsFit(net.layers, |x|, ds, t.acts);
    Grads(ds, WeightGrads(ds, t.acts))
  }

  /** Every activation of a trace is a column. */
  predicate ColumnTrace(t: Trace)
  {
    forall i :: 0 <= i < |t.acts| ==> t.acts[i].cols == 1
  }

  /** The two lists backpropagate builds before reversing them: the error
      signals and weight gradients of layers L - 1 down to i, output layer
      first. */
  function Backward(net: Net, ws: seq<Matrix>, t: Trace, y: Matrix, i: nat): (g: Grads)
    requires TraceFits(net, ws, t, y) && ColumnTrace(t) && i < |net.layers|
    ensures |g.b| == |g.w| == |net.layers| - i
    decreases |net.layers| - i
  {
    var d := Delta(net, ws, t, y, i);
    var w := MatMul(d, Transpose(t.acts[i]));
    if i == |net.layers| - 1 then Grads([d], [w])
    else
      var g := Backward(net, ws, t, y, i + 1);
      Grads(g.b + [d], g.w + [w])
  }

  /** list.reverse() */
  function Reversed<T>(s: seq<T>): (r: seq<T>)
    ensures |r| == |s| && forall i :: 0 <= i < |s| ==> r[i] == s[|s| - 1 - i]
  {
    if |s| == 0 then [] else [s[|s| - 1]] + Reversed(s[..|s| - 1])
  }

  /** np.argmax on a vector: the first index of a largest entry. */
  function Argmax(v: seq<real>): (k: nat)
    requires |v| > 0
    ensures k < |v|
    ensures forall j :: 0 <= j < |v| ==> v[j] <= v[k]
    ensures forall j :: 0 <= j < k ==> v[j] < v[k]
  {
    if |v| == 1 then 0
    else
      var m := Argmax(v[..|v| - 1]);
      if v[m] < v[|v| - 1] then |v| - 1 else m
  }

  /** predict: the arg-max of the output column. */
  function Predicted(net: Net, ws: seq<Matrix>, bs: seq<Matrix>, x: seq<real>): (k: nat)
    requires NetOK(net) && ParamsFit(net.layers, ws, bs) && InputFits(net.layers, x)
    requires OutputWidth(net.layers, |x|) > 0
    ensures k < OutputWidth(net.layers, |x|)
  {
    Argmax(Column(Output(net, ws, bs, x), 0))
  }

  /** The number of the first k (example, label) pairs whose prediction
      equals the label, as `test` counts `positive`. */
  function CountCorrect(net: Net, ws: seq<Matrix>, bs: seq<Matrix>, xs: seq<seq<real>>, ys: seq<int>, k: nat): (c: nat)
    requires NetOK(net) && ParamsFit(net.layers, ws, bs)
    requires k <= |xs| && k <= |ys|
    requires forall e :: 0 <= e < k ==> InputFits(net.layers, xs[e]) && OutputWidth(net.layers, |xs[e]|) > 0
    ensures c <= k
  {
    if k == 0 then 0
    else
      CountCorrect(net, ws, bs, xs, ys, k - 1)
        + (if Predicted(net, ws, bs, xs[k - 1]) as int == ys[k - 1] then 1 else 0)
  }
}
