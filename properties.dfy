/** What the model of neuron_network.py promises across its members: the
    label encoding against arg-max, the cost, softmax, the backward
    recurrence, what each optimizer does to the state over a mini-batch, an
    epoch and a whole session, and how `train` cuts mini-batches. */
module Properties {
  import opened Matrices
  import opened Model
  import opened Optimizers

  // Label encoding and evaluation.

  /** np.argmax undoes get_output_array: the one-hot column's arg-max is
      the row the label names. */
  lemma OneHotArgmax(result: int, size: nat)
    requires InLabelRange(result, size)
    ensures Argmax(Column(OutputArray(result, size).value, 0)) == PyIndex(result, size)
  {
    var c := Column(OutputArray(result, size).value, 0);
    var k := PyIndex(result, size);
    var m := Argmax(c);
    assert c[k] == 1.0;
    assert c[k] <= c[m];
    assert c[m] != 0.0;
  }

  /** The score `test` reports lies in [0, 100]. */
  lemma ScoreInPercent(correct: nat, pairs: nat, total: nat)
    requires correct <= pairs <= total && total > 0
    ensures 0.0 <= correct as real / total as real * 100.0 <= 100.0
  {
    assert correct as real / total as real <= 1.0 by {
      assert correct as real <= total as real;
    }
  }

  // The cost.

  /** cost_function vanishes in every cell exactly when the output is the target. */
  lemma CostZeroIff(a: Matrix, y: Matrix)
    requires SameShape(a, y)
    ensures Cost(a, y) == Zeros(Shape(a.rows, a.cols)) <==> a == y
  {
    var c, z := Cost(a, y), Zeros(Shape(a.rows, a.cols));
    if c == z {
      forall i, j | 0 <= i < a.rows && 0 <= j < a.cols
        ensures a.cells[i][j] == y.cells[i][j]
      {
        assert y.cells[i][j] + c.cells[i][j] == a.cells[i][j];
      }
      Extensionality(a, y);
    }
    if a == y {
      forall i, j | 0 <= i < a.rows && 0 <= j < a.cols
        ensures c.cells[i][j] == z.cells[i][j]
      {
        assert y.cells[i][j] + c.cells[i][j] == a.cells[i][j];
      }
      Extensionality(c, z);
    }
  }

  // Softmax.

  lemma DivideSum(x: real, y: real, d: real)
    requires d != 0.0
    ensures (x + y) / d == x / d + y / d
  {
  }

  /** Dividing every entry by d divides the sum by d. */
  lemma {:induction false} SumDivided(c: seq<real>, q: seq<real>, d: real)
    requires d != 0.0 && |q| == |c|
    requires forall i :: 0 <= i < |c| ==> q[i] == c[i] / d
    ensures Sum(q) == Sum(c) / d
  {
    if |c| > 0 {
      var n := |c| - 1;
      SumDivided(c[..n], q[..n], d);
      DivideSum(Sum(c[..n]), c[n], d);
    }
  }

  /** An entry of a non-negative sequence is at most its sum. */
  lemma {:induction false} EntryAtMostSum(c: seq<real>, k: nat)
    requires k < |c| && forall i :: 0 <= i < |c| ==> 0.0 <= c[i]
    ensures c[k] <= Sum(c)
  {
    var n := |c| - 1;
    if k < n {
      EntryAtMostSum(c[..n], k);
    } else {
      assert 0.0 <= Sum(c[..n]);
    }
  }

  lemma ShareBounds(x: real, t: real)
    requires 0.0 < x <= t
    ensures 0.0 < x / t <= 1.0 && t / t == 1.0
  {
    assert x / t <= t / t;
  }

  /** Positive weights divided by their total are shares: each in (0, 1],
      all adding up to one. */
  lemma Shares(c: seq<real>, q: seq<real>)
    requires 0 < |c| == |q| && forall i :: 0 <= i < |c| ==> 0.0 < c[i]
    requires forall i :: 0 <= i < |c| ==> q[i] == c[i] / Sum(c)
    ensures Sum(q) == 1.0 && forall i :: 0 <= i < |q| ==> 0.0 < q[i] <= 1.0
  {
    var t := Sum(c);
    SumDivided(c, q, t);
    forall i | 0 <= i < |q|
      ensures 0.0 < q[i] <= 1.0
    {
      EntryAtMostSum(c, i);
      ShareBounds(c[i], t);
    }
    EntryAtMostSum(c, 0);
    ShareBounds(c[0], t);
  }

  /** A column of exp applied cell by cell has only positive entries. */
  lemma ExpColumnPositive(exp: real -> real, a: Matrix, j: nat)
    requires ExpPositive(exp) && j < a.cols
    ensures forall i :: 0 <= i < a.rows ==> 0.0 < Column(Apply(exp, a), j)[i]
  {
    forall i | 0 <= i < a.rows
      ensures 0.0 < Column(Apply(exp, a), j)[i]
    {
      var x := a.cells[i][j];
      assert 0.0 < exp(x);
      assert Column(Apply(exp, a), j)[i] == Apply(exp, a).cells[i][j] == exp(x);
    }
  }

  /** Every column of the softmax output is a probability distribution:
      its entries lie in (0, 1] and add up to one. */
  lemma SoftmaxIsDistribution(exp: real -> real, a: Matrix, j: nat)
    requires ExpPositive(exp) && j < a.cols
    ensures var r := Softmax(exp, a);
            && (forall i :: 0 <= i < a.rows ==> 0.0 < r.cells[i][j] <= 1.0)
            && (a.rows > 0 ==> Sum(Column(r, j)) == 1.0)
  {
    if a.rows > 0 {
      var c := Column(Apply(exp, a), j);
      ExpColumnPositive(exp, a, j);
      Shares(c, Column(Softmax(exp, a), j));
    }
  }

  // The forward pass.

  /** Layer i of the forward loop, i < k: its z is W_i a_i + b_i and the
      next activation is f applied to that z, entry by entry. */
  lemma {:induction false} RunLayer(net: Net, ws: seq<Matrix>, bs: seq<Matrix>, a0: Matrix, k: nat, i: nat)
    requires Chained(net.layers) && ParamsFit(net.layers, ws, bs)
    requires a0.cols == 1 && (|net.layers| > 0 ==> a0.rows == net.layers[0].inputs)
    requires i < k <= |net.layers|
    ensures var t := Run(net, ws, bs, a0, k);
            && ws[i].cols == t.acts[i].rows && SameShape(MatMul(ws[i], t.acts[i]), bs[i])
            && t.zs[i] == Add(MatMul(ws[i], t.acts[i]), bs[i])
            && t.acts[i + 1] == Apply(net.activate, t.zs[i])
  {
    hide MatMul, Add, Apply;
    var t, p := Run(net, ws, bs, a0, k), Run(net, ws, bs, a0, k - 1);
    assert i > 0 ==> Feeds(net.layers, i - 1);
    if i < k - 1 {
      RunLayer(net, ws, bs, a0, k - 1, i);
      assert t.acts[i] == p.acts[i] && t.acts[i + 1] == p.acts[i + 1] && t.zs[i] == p.zs[i];
    }
  }

  /** forward_for_learning_fast at layer i: z_i = W_i a_i + b_i, and the
      next activation is f(z_i), passed through softmax when it is the
      last one and the flag is set. */
  lemma ForwardAtLayer(net: Net, ws: seq<Matrix>, bs: seq<Matrix>, x: seq<real>, i: nat)
    requires NetOK(net) && ParamsFit(net.layers, ws, bs) && InputFits(net.layers, x) && i < |net.layers|
    ensures var t := Forward(net, ws, bs, x);
            && ws[i].cols == t.acts[i].rows && SameShape(MatMul(ws[i], t.acts[i]), bs[i])
            && t.zs[i] == Add(MatMul(ws[i], t.acts[i]), bs[i])
            && t.acts[i + 1] == (if i + 1 == |net.layers| then Finish(net, Apply(net.activate, t.zs[i]))
                                 else Apply(net.activate, t.zs[i]))
  {
    hide Run, MatMul, Add, Apply, ColumnOf, Finish;
    RunLayer(net, ws, bs, ColumnOf(x), |net.layers|, i);
  }

  /** The first activation of forward_for_learning_fast is the input as a
      column, softmaxed only when there is no layer to run. */
  lemma ForwardInput(net: Net, ws: seq<Matrix>, bs: seq<Matrix>, x: seq<real>)
    requires NetOK(net) && ParamsFit(net.layers, ws, bs) && InputFits(net.layers, x)
    ensures Forward(net, ws, bs, x).acts[0] == (if |net.layers| == 0 then Finish(net, ColumnOf(x)) else ColumnOf(x))
  {
    hide Run, MatMul, Add, Apply, ColumnOf, Finish;
    var r := Run(net, ws, bs, ColumnOf(x), |net.layers|);
    assert Forward(net, ws, bs, x).acts == r.acts[|net.layers| := Finish(net, r.acts[|net.layers|])];
  }

  // Backpropagation.

  /** backpropagate against the error-signal recurrence: the bias
      gradients are the layers' error signals (Delta: (a - y) ⊙ f'(z) at the
      output layer, (Wᵀ δ) ⊙ f'(z) of the layer above below it), and each
      weight gradient is δ aᵀ of the activation that fed its layer. */
  lemma BackpropRecurrence(net: Net, ws: seq<Matrix>, bs: seq<Matrix>, x: seq<real>, result: int)
    requires NetOK(net) && ParamsFit(net.layers, ws, bs) && ExampleFits(net.layers, x, result)
    ensures TraceFits(net, ws, Forward(net, ws, bs, x), Target(net.layers, result))
    ensures forall i :: 0 <= i < |net.layers| ==>
              && Gradients(net, ws, bs, x, result).b[i] == Delta(net, ws, Forward(net, ws, bs, x), Target(net.layers, result), i)
              && Gradients(net, ws, bs, x, result).w[i]
                   == MatMul(Delta(net, ws, Forward(net, ws, bs, x), Target(net.layers, result), i), Transpose(Forward(net, ws, bs, x).acts[i]))
  {
    var t, y := Forward(net, ws, bs, x), Target(net.layers, result);
    assert TraceFits(net, ws, t, y);
  }

  /** Entry k of the output-first lists belongs to layer L - 1 - k. */
  lemma {:induction false} BackwardEntries(net: Net, ws: seq<Matrix>, t: Trace, y: Matrix, i: nat)
    requires TraceFits(net, ws, t, y) && ColumnTrace(t) && i < |net.layers|
    ensures forall k :: 0 <= k < |net.layers| - i ==>
              && Backward(net, ws, t, y, i).b[k] == Delta(net, ws, t, y, |net.layers| - 1 - k)
              && Backward(net, ws, t, y, i).w[k] == MatMul(Delta(net, ws, t, y, |net.layers| - 1 - k), Transpose(t.acts[|net.layers| - 1 - k]))
    decreases |net.layers| - i
  {
    if i < |net.layers| - 1 {
      BackwardEntries(net, ws, t, y, i + 1);
    }
  }

  /** backpropagate's lists, built from the output layer down and then
      reversed, are the gradients of the model. */
  lemma BackwardIsGradients(net: Net, ws: seq<Matrix>, bs: seq<Matrix>, x: seq<real>, result: int)
    requires NetOK(net) && ParamsFit(net.layers, ws, bs) && ExampleFits(net.layers, x, result)
    ensures TraceFits(net, ws, Forward(net, ws, bs, x), Target(net.layers, result))
    ensures ColumnTrace(Forward(net, ws, bs, x))
    ensures var g := Backward(net, ws, Forward(net, ws, bs, x), Target(net.layers, result), 0);
            Grads(Reversed(g.b), Reversed(g.w)) == Gradients(net, ws, bs, x, result)
  {
    TraceReady(net, ws, bs, x, result);
    var t, y := Forward(net, ws, bs, x), Target(net.layers, result);
    var g, r := Backward(net, ws, t, y, 0), Gradients(net, ws, bs, x, result);
    BackwardEntries(net, ws, t, y, 0);
    BackpropRecurrence(net, ws, bs, x, result);
    ReversedBiasGradients(net, ws, t, y, g.b, r.b);
    ReversedWeightGradients(net, ws, t, y, g.w, r.w);
  }

  /** The output-first error signals, reversed, are the bias gradients. */
  lemma ReversedBiasGradients(net: Net, ws: seq<Matrix>, t: Trace, y: Matrix, back: seq<Matrix>, grads: seq<Matrix>)
    requires TraceFits(net, ws, t, y) && |back| == |grads| == |net.layers|
    requires forall k :: 0 <= k < |back| ==> back[k] == Delta(net, ws, t, y, |net.layers| - 1 - k)
    requires forall i :: 0 <= i < |grads| ==> grads[i] == Delta(net, ws, t, y, i)
    ensures Reversed(back) == grads
  {
    hide Delta;
    var r := Reversed(back);
    forall i | 0 <= i < |r|
      ensures r[i] == grads[i]
    {
      assert r[i] == back[|net.layers| - 1 - i];
    }
  }

  /** The output-first weight gradients, reversed, are the weight gradients. */
  lemma ReversedWeightGradients(net: Net, ws: seq<Matrix>, t: Trace, y: Matrix, back: seq<Matrix>, grads: seq<Matrix>)
    requires TraceFits(net, ws, t, y) && ColumnTrace(t) && |back| == |grads| == |net.layers|
    requires forall k :: 0 <= k < |back| ==>
               back[k] == MatMul(Delta(net, ws, t, y, |net.layers| - 1 - k), Transpose(t.acts[|net.layers| - 1 - k]))
    requires forall i :: 0 <= i < |grads| ==> grads[i] == MatMul(Delta(net, ws, t, y, i), Transpose(t.acts[i]))
    ensures Reversed(back) == grads
  {
    hide Delta, MatMul, Transpose;
    var r := Reversed(back);
    forall i | 0 <= i < |r|
      ensures r[i] == grads[i]
    {
      assert r[i] == back[|net.layers| - 1 - i];
    }
  }

  // Momentum and Nesterov.

  /** The momentum update with momentum zero is the mean step. */
  lemma MomentumUpdateWithoutMomentum(eta: real, size: real, gs: seq<Matrix>, ps: seq<Matrix>)
    requires size != 0.0 && SameShapes(gs, ps)
    ensures MomentumUpdate(eta, size, 0.0, gs, ps) == MeanStep(eta, size, gs)
  {
    var u, n := MomentumUpdate(eta, size, 0.0, gs, ps), MeanStep(eta, size, gs);
    forall l, i, j | 0 <= l < |u| && 0 <= i < u[l].rows && 0 <= j < u[l].cols
      ensures u[l].cells[i][j] == n[l].cells[i][j]
    {
      assert u[l].cells[i][j] == eta * gs[l].cells[i][j] / size + ps[l].cells[i][j] * 0.0;
    }
    ExtensionalityAll(u, n);
  }

  /** momentum_train with momentum zero is plain mini-batch gradient
      descent: every parameter moves by eta times the mean gradient. */
  lemma MomentumWithoutMomentumIsDescent(cfg: Config, s: State, xs: seq<seq<real>>, ys: seq<int>, eta: real)
    requires StepReady(cfg, s, xs, ys) && cfg.momentum == 0.0
    ensures var r, g := MomentumStep(cfg, s, xs, ys, eta), BatchGrads(cfg, s, xs, ys);
            && SameShapes(s.weights, MeanStep(eta, |xs| as real, g.w))
            && SameShapes(s.biases, MeanStep(eta, |xs| as real, g.b))
            && r.weights == SubAll(s.weights, MeanStep(eta, |xs| as real, g.w))
            && r.biases == SubAll(s.biases, MeanStep(eta, |xs| as real, g.b))
  {
    var g := BatchGrads(cfg, s, xs, ys);
    var layers := cfg.net.layers;
    FitsAgree(g.w, s.oldErrW, WeightShapes(layers));
    FitsAgree(g.b, s.oldErrB, BiasShapes(layers));
    FitsAgree(s.weights, g.w, WeightShapes(layers));
    FitsAgree(s.biases, g.b, BiasShapes(layers));
    MomentumUpdateWithoutMomentum(eta, |xs| as real, g.w, s.oldErrW);
    MomentumUpdateWithoutMomentum(eta, |xs| as real, g.b, s.oldErrB);
  }

  /** The Nesterov update with momentum zero is the mean step too. */
  lemma NesterovUpdateWithoutMomentum(eta: real, size: real, gs: seq<Matrix>, ps: seq<Matrix>)
    requires size != 0.0 && SameShapes(gs, ps)
    ensures NesterovUpdate(eta, size, 0.0, gs, ps) == MeanStep(eta, size, gs)
  {
    var u, n := NesterovUpdate(eta, size, 0.0, gs, ps), MeanStep(eta, size, gs);
    forall l, i, j | 0 <= l < |u| && 0 <= i < u[l].rows && 0 <= j < u[l].cols
      ensures u[l].cells[i][j] == n[l].cells[i][j]
    {
      var g := gs[l].cells[i][j];
      assert u[l].cells[i][j] == eta * (g + 0.0 * ps[l].cells[i][j]) / size + ps[l].cells[i][j] * 0.0;
      assert n[l].cells[i][j] == eta * g / size;
    }
    ExtensionalityAll(u, n);
  }

  /** nestors_momentum_train with momentum zero is plain mini-batch
      gradient descent as well. */
  lemma NesterovWithoutMomentumIsDescent(cfg: Config, s: State, xs: seq<seq<real>>, ys: seq<int>, eta: real)
    requires StepReady(cfg, s, xs, ys) && cfg.momentum == 0.0
    ensures var r, g := NesterovStep(cfg, s, xs, ys, eta), BatchGrads(cfg, s, xs, ys);
            && SameShapes(s.weights, MeanStep(eta, |xs| as real, g.w))
            && SameShapes(s.biases, MeanStep(eta, |xs| as real, g.b))
            && r.weights == SubAll(s.weights, MeanStep(eta, |xs| as real, g.w))
            && r.biases == SubAll(s.biases, MeanStep(eta, |xs| as real, g.b))
  {
    var g := BatchGrads(cfg, s, xs, ys);
    var layers := cfg.net.layers;
    FitsAgree(g.w, s.oldErrW, WeightShapes(layers));
    FitsAgree(g.b, s.oldErrB, BiasShapes(layers));
    FitsAgree(s.weights, g.w, WeightShapes(layers));
    FitsAgree(s.biases, g.b, BiasShapes(layers));
    NesterovUpdateWithoutMomentum(eta, |xs| as real, g.w, s.oldErrW);
    NesterovUpdateWithoutMomentum(eta, |xs| as real, g.b, s.oldErrB);
  }

  /** No previous update is remembered: both `old_err` lists are zero. */
  predicate AtRest(layers: seq<Layer>, s: State)
  {
    s.oldErrW == ZeroGrads(layers).w && s.oldErrB == ZeroGrads(layers).b
  }

  /** With zero previous updates the momentum term drops out of both
      momentum rules, whatever the momentum. */
  lemma UpdatesFromRest(eta: real, size: real, m: real, gs: seq<Matrix>, ps: seq<Matrix>)
    requires size != 0.0 && SameShapes(gs, ps)
    requires forall l, i, j :: 0 <= l < |ps| && 0 <= i < ps[l].rows && 0 <= j < ps[l].cols ==> ps[l].cells[i][j] == 0.0
    ensures NesterovUpdate(eta, size, m, gs, ps) == MomentumUpdate(eta, size, m, gs, ps)
    ensures MomentumUpdate(eta, size, m, gs, ps) == MomentumUpdate(eta, size, 0.0, gs, ps)
  {
    var u, v, w := NesterovUpdate(eta, size, m, gs, ps), MomentumUpdate(eta, size, m, gs, ps), MomentumUpdate(eta, size, 0.0, gs, ps);
    forall l, i, j | 0 <= l < |u| && 0 <= i < u[l].rows && 0 <= j < u[l].cols
      ensures u[l].cells[i][j] == v[l].cells[i][j] == w[l].cells[i][j]
    {
      var g := gs[l].cells[i][j];
      assert ps[l].cells[i][j] == 0.0;
      assert u[l].cells[i][j] == eta * (g + m * 0.0) / size + 0.0 * m;
      assert v[l].cells[i][j] == eta * g / size + 0.0 * m;
      assert w[l].cells[i][j] == eta * g / size + 0.0 * 0.0;
    }
    ExtensionalityAll(u, v);
    ExtensionalityAll(v, w);
  }

  lemma ZerosAreZero(shapes: seq<Shape>)
    ensures forall l, i, j :: 0 <= l < |shapes| && 0 <= i < ZerosAll(shapes)[l].rows && 0 <= j < ZerosAll(shapes)[l].cols ==>
              ZerosAll(shapes)[l].cells[i][j] == 0.0
  {
  }

  /** From rest, nestors_momentum_train makes exactly the move momentum_train makes. */
  lemma NesterovFromRestIsMomentum(cfg: Config, s: State, xs: seq<seq<real>>, ys: seq<int>, eta: real)
    requires StepReady(cfg, s, xs, ys) && AtRest(cfg.net.layers, s)
    ensures NesterovStep(cfg, s, xs, ys, eta) == MomentumStep(cfg, s, xs, ys, eta)
  {
    var g := BatchGrads(cfg, s, xs, ys);
    var layers := cfg.net.layers;
    FitsAgree(g.w, s.oldErrW, WeightShapes(layers));
    FitsAgree(g.b, s.oldErrB, BiasShapes(layers));
    ZerosAreZero(WeightShapes(layers));
    ZerosAreZero(BiasShapes(layers));
    UpdatesFromRest(eta, |xs| as real, cfg.momentum, g.w, s.oldErrW);
    UpdatesFromRest(eta, |xs| as real, cfg.momentum, g.b, s.oldErrB);
  }

  /** The momentum family: the two optimizers that read `momentum`. */
  predicate MomentumFamily(cfg: Config)
  {
    cfg.opt == Momentum || cfg.opt == NestrovMomentum
  }

  /** Plain mini-batch gradient descent, as a configuration: momentum_train
      with momentum zero. */
  function Plain(cfg: Config): (p: Config)
    ensures p.net == cfg.net && p.sqrt == cfg.sqrt && p.opt == Momentum && p.momentum == 0.0
    ensures ConfigOK(cfg) ==> ConfigOK(p)
  {
    cfg.(opt := Momentum, momentum := 0.0)
  }

  /** A momentum-family mini-batch from rest, followed by train's reset,
      ends where plain gradient descent does. */
  lemma StepFromRestIsPlain(cfg: Config, s: State, xs: seq<seq<real>>, ys: seq<int>, eta: real)
    requires StepReady(cfg, s, xs, ys) && AtRest(cfg.net.layers, s) && MomentumFamily(cfg)
    ensures StepReady(Plain(cfg), s, xs, ys)
    ensures ResetMomentum(cfg.net.layers, MiniBatchStep(cfg, s, xs, ys, eta))
         == ResetMomentum(cfg.net.layers, MiniBatchStep(Plain(cfg), s, xs, ys, eta))
  {
    var layers := cfg.net.layers;
    var g := BatchGrads(cfg, s, xs, ys);
    assert BatchGrads(Plain(cfg), s, xs, ys) == g;
    FitsAgree(g.w, s.oldErrW, WeightShapes(layers));
    FitsAgree(g.b, s.oldErrB, BiasShapes(layers));
    ZerosAreZero(WeightShapes(layers));
    ZerosAreZero(BiasShapes(layers));
    UpdatesFromRest(eta, |xs| as real, cfg.momentum, g.w, s.oldErrW);
    UpdatesFromRest(eta, |xs| as real, cfg.momentum, g.b, s.oldErrB);
  }

  // Unrolling the training loop one step at a time.

  /** One more epoch of a session: the session so far, then every
      mini-batch of the examples shuffled once more. */
  lemma TrainSteps(cfg: Config, s: State, xs: seq<seq<real>>, ys: seq<int>, ds: seq<seq<nat>>, size: nat, eta: real)
    requires ConfigOK(cfg) && StateOK(cfg, s) && DataFits(cfg.net.layers, xs, ys)
    requires size > 0 && AllDrawsFit(ds, |xs|) && |ds| > 0
    ensures AllDrawsFit(ds[..|ds| - 1], |xs|) && DataFits(cfg.net.layers, Shuffled(xs, ds), Shuffled(ys, ds))
    ensures Train(cfg, s, xs, ys, ds, size, eta)
         == Epoch(cfg, Train(cfg, s, xs, ys, ds[..|ds| - 1], size, eta), Shuffled(xs, ds), Shuffled(ys, ds), size, eta, NumBatches(|xs|, size))
  {
    ShuffledFits(cfg.net.layers, xs, ys, ds);
  }

  // The momentum family under train's reset.

  /** One pass of train's inner loop leaves the previous updates at zero,
      and for the momentum family from rest it is the plain pass. */
  lemma BatchStepFromRestIsPlain(cfg: Config, s: State, xs: seq<seq<real>>, ys: seq<int>, size: nat, eta: real, b: nat)
    requires ConfigOK(cfg) && StateOK(cfg, s) && DataFits(cfg.net.layers, xs, ys)
    requires size > 0 && b < NumBatches(|xs|, size) && AtRest(cfg.net.layers, s) && MomentumFamily(cfg)
    ensures BatchStep(cfg, s, xs, ys, size, eta, b) == BatchStep(Plain(cfg), s, xs, ys, size, eta, b)
    ensures AtRest(cfg.net.layers, BatchStep(cfg, s, xs, ys, size, eta, b))
  {
    SliceFits(cfg.net.layers, xs, ys, b, size);
    StepFromRestIsPlain(cfg, s, Slice(xs, b, size), Slice(ys, b, size), eta);
  }

  /** Every pass of train's inner loop leaves the previous updates at
      zero, whatever the optimizer. */
  lemma BatchStepEndsAtRest(cfg: Config, s: State, xs: seq<seq<real>>, ys: seq<int>, size: nat, eta: real, b: nat)
    requires ConfigOK(cfg) && StateOK(cfg, s) && DataFits(cfg.net.layers, xs, ys)
    requires size > 0 && b < NumBatches(|xs|, size)
    ensures AtRest(cfg.net.layers, BatchStep(cfg, s, xs, ys, size, eta, b))
  {
    SliceFits(cfg.net.layers, xs, ys, b, size);
  }

  /** A whole epoch of the momentum family from rest is an epoch of plain
      gradient descent, and it ends at rest. */
  lemma {:induction false} EpochFromRestIsPlain(cfg: Config, s: State, xs: seq<seq<real>>, ys: seq<int>, size: nat, eta: real, b: nat)
    requires ConfigOK(cfg) && StateOK(cfg, s) && DataFits(cfg.net.layers, xs, ys)
    requires size > 0 && b <= NumBatches(|xs|, size) && AtRest(cfg.net.layers, s) && MomentumFamily(cfg)
    ensures Epoch(cfg, s, xs, ys, size, eta, b) == Epoch(Plain(cfg), s, xs, ys, size, eta, b)
    ensures AtRest(cfg.net.layers, Epoch(cfg, s, xs, ys, size, eta, b))
  {
    hide BatchStep, MiniBatchStep, ResetMomentum;
    if b > 0 {
      EpochFromRestIsPlain(cfg, s, xs, ys, size, eta, b - 1);
      BatchStepFromRestIsPlain(cfg, Epoch(cfg, s, xs, ys, size, eta, b - 1), xs, ys, size, eta, b - 1);
    }
  }

  /** A whole training session of the momentum family from rest, such as
      from construction, is a session of plain gradient descent: `momentum`
      never takes effect. */
  lemma {:induction false} TrainFromRestIsPlain(cfg: Config, s: State, xs: seq<seq<real>>, ys: seq<int>, ds: seq<seq<nat>>, size: nat, eta: real)
    requires ConfigOK(cfg) && StateOK(cfg, s) && DataFits(cfg.net.layers, xs, ys)
    requires size > 0 && AllDrawsFit(ds, |xs|) && AtRest(cfg.net.layers, s) && MomentumFamily(cfg)
    ensures Train(cfg, s, xs, ys, ds, size, eta) == Train(Plain(cfg), s, xs, ys, ds, size, eta)
    ensures AtRest(cfg.net.layers, Train(cfg, s, xs, ys, ds, size, eta))
  {
    if |ds| > 0 {
      var prev := Train(cfg, s, xs, ys, ds[..|ds| - 1], size, eta);
      TrainFromRestIsPlain(cfg, s, xs, ys, ds[..|ds| - 1], size, eta);
      TrainSteps(cfg, s, xs, ys, ds, size, eta);
      TrainSteps(Plain(cfg), s, xs, ys, ds, size, eta);
      EpochFromRestIsPlain(cfg, prev, Shuffled(xs, ds), Shuffled(ys, ds), size, eta, NumBatches(|xs|, size));
    }
  }

  /** A freshly constructed network is at rest with `init` clear, so a
      momentum-family session started right after construction is a session
      of plain gradient descent. */
  lemma TrainFromConstructionIsPlain(cfg: Config, ws: seq<Matrix>, bs: seq<Matrix>, xs: seq<seq<real>>, ys: seq<int>, ds: seq<seq<nat>>, size: nat, eta: real)
    requires ConfigOK(cfg) && ParamsFit(cfg.net.layers, ws, bs) && DataFits(cfg.net.layers, xs, ys)
    requires size > 0 && AllDrawsFit(ds, |xs|) && MomentumFamily(cfg)
    ensures var s := Initial(cfg, ws, bs);
            && AtRest(cfg.net.layers, s) && !s.init
            && Train(cfg, s, xs, ys, ds, size, eta) == Train(Plain(cfg), s, xs, ys, ds, size, eta)
  {
    TrainFromRestIsPlain(cfg, Initial(cfg, ws, bs), xs, ys, ds, size, eta);
  }

  // Adadelta and Adam: the `init` flag.

  /** With a decay in [0, 1] every blended cell lies between its old and
      its new value: the running averages of Adadelta and Adam are convex
      combinations. */
  lemma BlendBetween(d: real, olds: seq<Matrix>, news: seq<Matrix>, l: nat, i: nat, j: nat)
    requires 0.0 <= d <= 1.0 && SameShapes(olds, news)
    requires l < |olds| && i < olds[l].rows && j < olds[l].cols
    ensures var r, o, n := Blend(d, olds, news)[l].cells[i][j], olds[l].cells[i][j], news[l].cells[i][j];
            (o <= n ==> o <= r <= n) && (n <= o ==> n <= r <= o)
  {
    var r, o, n := Blend(d, olds, news)[l].cells[i][j], olds[l].cells[i][j], news[l].cells[i][j];
    var lo, hi := if o <= n then o else n, if o <= n then n else o;
    var e := hi - lo;
    assert 0.0 <= (1.0 - d) * e && 0.0 <= d * e;
    if o <= n {
      assert r - o == (1.0 - d) * e && n - r == d * e;
    } else {
      assert o - r == (1.0 - d) * e && r - n == d * e;
    }
  }

  /** The first Adadelta call seeds the accumulators with the batch's
      squared gradients; every later call blends them in with adadelta_y. */
  lemma AdadeltaSeedsThenBlends(cfg: Config, s: State, xs: seq<seq<real>>, ys: seq<int>, eta: real)
    requires StepReady(cfg, s, xs, ys) && AdadeltaDecayOK(cfg)
    ensures var r, q := AdadeltaStep(cfg, s, xs, ys, eta), FreshSquares(cfg, s, xs, ys);
            && r.init
            && (!s.init ==> r.errWSquare == q.w && r.errBSquare == q.b)
            && (s.init ==>
                  && SameShapes(s.errWSquare, q.w) && SameShapes(s.errBSquare, q.b)
                  && r.errWSquare == Blend(cfg.adadeltaY, s.errWSquare, q.w)
                  && r.errBSquare == Blend(cfg.adadeltaY, s.errBSquare, q.b))
  {
    var q := FreshSquares(cfg, s, xs, ys);
    FitsAgree(s.errWSquare, q.w, WeightShapes(cfg.net.layers));
    FitsAgree(s.errBSquare, q.b, BiasShapes(cfg.net.layers));
  }

  /** The first Adam call seeds both moments with the batch's gradients
      and squared gradients; every later call blends them in, the sums
      with adam_b1 and the squares with adam_b2. */
  lemma AdamSeedsThenBlends(cfg: Config, s: State, xs: seq<seq<real>>, ys: seq<int>, eta: real)
    requires StepReady(cfg, s, xs, ys) && AdamDecaysOK(cfg) && TrackersOK(s)
    ensures var r, g, q := AdamStep(cfg, s, xs, ys, eta), BatchGrads(cfg, s, xs, ys), FreshSquares(cfg, s, xs, ys);
            && r.init
            && (!s.init ==> r.errWSum == g.w && r.errBSum == g.b && r.errWSquare == q.w && r.errBSquare == q.b)
            && (s.init ==>
                  && SameShapes(s.errWSum, g.w) && SameShapes(s.errBSum, g.b)
                  && SameShapes(s.errWSquare, q.w) && SameShapes(s.errBSquare, q.b)
                  && r.errWSum == Blend(cfg.adamB1, s.errWSum, g.w)
                  && r.errBSum == Blend(cfg.adamB1, s.errBSum, g.b)
                  && r.errWSquare == Blend(cfg.adamB2, s.errWSquare, q.w)
                  && r.errBSquare == Blend(cfg.adamB2, s.errBSquare, q.b))
  {
    var layers := cfg.net.layers;
    var g, q := BatchGrads(cfg, s, xs, ys), FreshSquares(cfg, s, xs, ys);
    FitsAgree(s.errWSum, g.w, WeightShapes(layers));
    FitsAgree(s.errBSum, g.b, BiasShapes(layers));
    FitsAgree(s.errWSquare, q.w, WeightShapes(layers));
    FitsAgree(s.errBSquare, q.b, BiasShapes(layers));
  }

  /** After a session `init` is set exactly when it was set before, or
      Adadelta or Adam ran a mini-batch; it is never cleared. */
  lemma {:induction false} TrainSetsInit(cfg: Config, s: State, xs: seq<seq<real>>, ys: seq<int>, ds: seq<seq<nat>>, size: nat, eta: real)
    requires ConfigOK(cfg) && StateOK(cfg, s) && DataFits(cfg.net.layers, xs, ys)
    requires size > 0 && AllDrawsFit(ds, |xs|)
    ensures Train(cfg, s, xs, ys, ds, size, eta).init
         == (s.init || ((cfg.opt == Adadelta || cfg.opt == Adam) && |ds| > 0 && NumBatches(|xs|, size) > 0))
  {
    if |ds| > 0 {
      TrainSteps(cfg, s, xs, ys, ds, size, eta);
      TrainSetsInit(cfg, s, xs, ys, ds[..|ds| - 1], size, eta);
    }
  }

  // Adam's power trackers.

  /** b raised to the n-th power, as repeated `*=` builds it. */
  function Pow(b: real, n: nat): real
  {
    if n == 0 then 1.0 else Decayed(Pow(b, n - 1), b)
  }

  /** Powers add their exponents. */
  lemma {:induction false} PowAdd(b: real, m: nat, n: nat)
    ensures Pow(b, m + n) == Pow(b, m) * Pow(b, n)
    decreases n
  {
    if n > 0 {
      var p, q := Pow(b, m), Pow(b, n - 1);
      PowAdd(b, m, n - 1);
      DecayedScales(p, q, b);
      assert Pow(b, m + n) == Decayed(p * q, b);
    }
  }

  /** Decaying a product decays one factor. */
  lemma DecayedScales(p: real, q: real, b: real)
    ensures Decayed(p * q, b) == p * Decayed(q, b)
  {
    assert (p * q) * b == p * (q * b);
  }

  /** For a decay strictly between 0 and 1 every power is positive and
      each one is strictly smaller than the one before. */
  lemma {:induction false} PowStrictlyDecreasing(b: real, n: nat)
    requires 0.0 < b < 1.0
    ensures 0.0 < Pow(b, n + 1) < Pow(b, n)
    decreases n
  {
    if n > 0 {
      PowStrictlyDecreasing(b, n - 1);
    }
    var p := Pow(b, n);
    assert 0.0 < p;
    assert Pow(b, n + 1) == p * b;
    assert p * b < p * 1.0;
  }

  /** An Adam mini-batch multiplies each power tracker by its decay, after
      the bias correction has used the old value. */
  lemma AdamStepAdvancesPowers(cfg: Config, s: State, xs: seq<seq<real>>, ys: seq<int>, eta: real)
    requires StepReady(cfg, s, xs, ys) && AdamDecaysOK(cfg) && TrackersOK(s)
    ensures var r := AdamStep(cfg, s, xs, ys, eta);
            r.adamB1Pow == Decayed(s.adamB1Pow, cfg.adamB1) && r.adamB2Pow == Decayed(s.adamB2Pow, cfg.adamB2)
  {
  }

  /** The bias correction of the k-th Adam mini-batch (from zero), which is
      the step that keeps the class invariant `PowersTrack`: while each
      tracker is b^(k+1) the divisor 1 - b^(k+1) is positive, the weights
      move by the moments divided by it, and the trackers end at b^(k+2). */
  lemma PowerTrackerIsBiasCorrection(cfg: Config, s: State, xs: seq<seq<real>>, ys: seq<int>, eta: real, k: nat)
    requires StepReady(cfg, s, xs, ys) && AdamDecaysOK(cfg)
    requires s.adamB1Pow == Pow(cfg.adamB1, k + 1) && s.adamB2Pow == Pow(cfg.adamB2, k + 1)
    ensures TrackersOK(s) && 0.0 < 1.0 - s.adamB1Pow && 0.0 < 1.0 - s.adamB2Pow
    ensures var r := AdamStep(cfg, s, xs, ys, eta);
            && NonNegative(r.errWSquare)
            && r.weights == AdamParams(cfg.sqrt, WeightShapes(cfg.net.layers), s.weights, r.errWSum, r.errWSquare,
                                       Pow(cfg.adamB1, k + 1), Pow(cfg.adamB2, k + 1), eta, |xs| as real)
            && r.adamB1Pow == Pow(cfg.adamB1, k + 2) && r.adamB2Pow == Pow(cfg.adamB2, k + 2)
  {
    PowInUnit(cfg.adamB1, k + 1);
    PowInUnit(cfg.adamB2, k + 1);
  }

  lemma {:induction false} PowInUnit(b: real, n: nat)
    requires 0.0 <= b < 1.0 && n > 0
    ensures 0.0 <= Pow(b, n) < 1.0
  {
    if n == 1 {
      assert Pow(b, 0) == 1.0;
    } else {
      PowInUnit(b, n - 1);
      PowerStep(Pow(b, n - 1), b);
    }
  }

  // The mini-batches of `train`.

  /** Every mini-batch `train` cuts is full: all int(n / size) start
      offsets leave room for `size` examples. */
  lemma BatchesAreFull<T>(xs: seq<T>, b: nat, size: nat)
    requires size > 0 && b < NumBatches(|xs|, size)
    ensures b + size <= |xs|
    ensures Slice(xs, b, size) == xs[b .. b + size] && |Slice(xs, b, size)| == size
  {
    BatchInside(|xs|, size, b);
  }

  /** int(n / size) in `train` counts the whole batches that fit. */
  lemma {:induction false} NumBatchesIsQuotient(n: nat, size: nat)
    requires size > 0
    ensures NumBatches(n, size) == n / size
    decreases n
  {
    if n >= size {
      NumBatchesIsQuotient(n - size, size);
      QuotientStep(n, size);
    }
  }

  lemma QuotientStep(n: nat, size: nat)
    requires 0 < size <= n
    ensures n / size == (n - size) / size + 1
  {
    var q, r := (n - size) / size, (n - size) % size;
    var q', r' := n / size, n % size;
    assert q' * size + r' == (q + 1) * size + r;
    var k := q' - (q + 1);
    assert k * size == q' * size - (q + 1) * size == r - r';
    MultipleAtLeast(k, size);
    MultipleAtLeast(-k, size);
  }

  /** A positive multiple of d is at least d. */
  lemma MultipleAtLeast(k: int, d: int)
    ensures 0 < d && 1 <= k ==> d <= k * d
  {
    if 0 < d && 1 <= k {
      assert k * d == (k - 1) * d + d;
    }
  }

  /** As written, consecutive mini-batches start one example apart, so
      with two or more examples per batch they share examples. */
  lemma BatchesOverlap<T>(xs: seq<T>, b: nat, size: nat)
    requires size >= 2 && b + 1 < NumBatches(|xs|, size)
    ensures b + 1 + size <= |xs|
    ensures Slice(xs, b, size) == xs[b .. b + size] && Slice(xs, b + 1, size) == xs[b + 1 .. b + 1 + size]
    ensures Slice(xs, b, size)[1] == Slice(xs, b + 1, size)[0] == xs[b + 1]
  {
    BatchInside(|xs|, size, b);
    BatchInside(|xs|, size, b + 1);
  }

  /** The mini-batches `train` makes of xs, in order, as written. */
  function AsWrittenBatches<T>(xs: seq<T>, size: nat): (r: seq<seq<T>>)
    requires size > 0
    ensures |r| == NumBatches(|xs|, size)
    ensures forall b :: 0 <= b < |r| ==> r[b] == Slice(xs, b, size)
  {
    seq(NumBatches(|xs|, size), b requires 0 <= b => Slice(xs, b, size))
  }

  /** The concatenation of a list of batches. */
  function Flatten<T>(bs: seq<seq<T>>): (r: seq<T>)
  {
    if |bs| == 0 then [] else bs[0] + Flatten(bs[1..])
  }

  /** Four examples in batches of two: the as-written batches are [0, 1]
      and [1, 2], so example 1 is learned twice per epoch and example 3
      never, while every example fits in a whole batch. */
  lemma AsWrittenSkipsExamples()
    ensures AsWrittenBatches([0, 1, 2, 3], 2) == [[0, 1], [1, 2]]
    ensures Flatten(AsWrittenBatches([0, 1, 2, 3], 2)) == [0, 1, 1, 2]
    ensures 3 !in Flatten(AsWrittenBatches([0, 1, 2, 3], 2))
  {
    var xs: seq<int> := [0, 1, 2, 3];
    assert NumBatches(0, 2) == 0;
    assert NumBatches(2, 2) == 1;
    assert NumBatches(4, 2) == 2;
    var r := AsWrittenBatches(xs, 2);
    assert r[0] == [0, 1] && r[1] == [1, 2];
    assert r == [[0, 1], [1, 2]];
    assert r[1..] == [[1, 2]] && |r[1..][1..]| == 0;
    assert Flatten(r[1..]) == [1, 2] + Flatten(r[1..][1..]) == [1, 2];
    assert Flatten(r) == [0, 1] + Flatten(r[1..]);
  }

  /** The evidently intended mini-batches: consecutive runs of `size`
      examples, xs[0 : size], xs[size : 2 * size], and so on. */
  function Batches<T>(xs: seq<T>, size: nat): (r: seq<seq<T>>)
    requires size > 0
    ensures |r| == NumBatches(|xs|, size)
    ensures forall b :: 0 <= b < |r| ==> |r[b]| == size
    decreases |xs|
  {
    if |xs| < size then [] else [xs[..size]] + Batches(xs[size..], size)
  }

  /** The intended batches partition the examples: laid end to end they
      are xs with fewer than `size` examples left over, so every example
      but that tail is learned exactly once per epoch, in order. */
  lemma {:induction false} BatchesPartition<T>(xs: seq<T>, size: nat)
    requires size > 0
    ensures var f := Flatten(Batches(xs, size));
            |f| <= |xs| && f == xs[..|f|] && |xs| - |f| < size
    decreases |xs|
  {
    if |xs| >= size {
      BatchesPartition(xs[size..], size);
      var rest := Batches(xs[size..], size);
      assert Batches(xs, size)[1..] == rest;
      var f := Flatten(rest);
      assert Flatten(Batches(xs, size)) == xs[..size] + f;
      assert xs[size..][..|f|] == xs[size .. size + |f|];
      assert xs[..size] + xs[size .. size + |f|] == xs[..size + |f|];
    }
  }

  // The shuffle.

  /** The Fisher-Yates pass only reorders. */
  lemma {:induction false} ShuffleDownPermutes<T>(xs: seq<T>, d: seq<nat>, k: nat)
    requires DrawsFit(d, |xs|) && k <= |xs|
    ensures multiset(ShuffleDown(xs, d, k)) == multiset(xs)
    decreases k
  {
    if k > 1 {
      ShuffleDownPermutes(Swap(xs, k - 1, d[k - 1]), d, k - 1);
    }
  }

  /** Every epoch's shuffle is a permutation, so after any number of
      epochs the examples are the ones the caller passed. */
  lemma {:induction false} ShuffledPermutes<T>(xs: seq<T>, ds: seq<seq<nat>>)
    requires AllDrawsFit(ds, |xs|)
    ensures multiset(Shuffled(xs, ds)) == multiset(xs)
  {
    if |ds| > 0 {
      var ds' := ds[..|ds| - 1];
      assert AllDrawsFit(ds', |xs|);
      ShuffledPermutes(xs, ds');
      ShuffleDownPermutes(Shuffled(xs, ds'), ds[|ds| - 1], |xs|);
    }
  }
}
