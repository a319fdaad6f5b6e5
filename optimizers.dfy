/** The optimizer state of NeuronNetwork and the five mini-batch update
    rules, the mini-batch partition of `train`, and whole training sessions,
    all as functions of the state before them. np.sqrt is a parameter. */
module Optimizers {
  import opened Matrices
  import opened Model

  datatype Optimalisation = Momentum | NestrovMomentum | Adagrad | Adadelta | Adam

  /** np.finfo(float).eps, which is 2^-52. */
  const Eps: real := 0.0000000000000002220446049250313080847263336181640625

  /** Everything an update reads besides the state: the network, the
      hyperparameters, the square root and the selected optimizer. */
  datatype Config = Config(
    net: Net,
    momentum: real,
    adadeltaY: real,
    adamB1: real,
    adamB2: real,
    sqrt: real -> real,
    opt: Optimalisation)

  /** np.sqrt is non-negative on non-negative arguments and positive on positive ones. */
  ghost predicate SqrtOK(sqrt: real -> real)
  {
    && (forall x :: 0.0 <= x ==> 0.0 <= sqrt(x))
    && (forall x :: 0.0 < x ==> 0.0 < sqrt(x))
  }

  /** adadelta_y for which Adadelta's blend of squares stays non-negative. */
  predicate AdadeltaDecayOK(cfg: Config)
  {
    0.0 <= cfg.adadeltaY <= 1.0
  }

  /** adam_b1 and adam_b2 for which 1 - adam_b1_pow and 1 - adam_b2_pow
      stay positive and the blend of squares stays non-negative. */
  predicate AdamDecaysOK(cfg: Config)
  {
    0.0 <= cfg.adamB1 < 1.0 && 0.0 <= cfg.adamB2 < 1.0
  }

  /** The decays the selected optimizer reads are in range; the others are
      free, as nothing reads them. */
  predicate DecaysOK(cfg: Config)
  {
    (cfg.opt == Adadelta ==> AdadeltaDecayOK(cfg)) && (cfg.opt == Adam ==> AdamDecaysOK(cfg))
  }

  ghost predicate ConfigOK(cfg: Config)
  {
    NetOK(cfg.net) && SqrtOK(cfg.sqrt) && DecaysOK(cfg)
  }

  /** The fields the optimizers and `train` update: the parameters, the
      previous momentum updates `old_err_*`, the squared-gradient
      accumulators `err_*_square`, Adam's first moments `err_*_sum`, the
      `init` flag and Adam's two power trackers. */
  datatype State = State(
    weights: seq<Matrix>,
    biases: seq<Matrix>,
    oldErrW: seq<Matrix>,
    oldErrB: seq<Matrix>,
    errWSquare: seq<Matrix>,
    errBSquare: seq<Matrix>,
    errWSum: seq<Matrix>,
    errBSum: seq<Matrix>,
    init: bool,
    adamB1Pow: real,
    adamB2Pow: real)

  /** Every list is shaped by the layer list and the squared-gradient
      accumulators are non-negative. */
  predicate StateFits(layers: seq<Layer>, s: State)
  {
    && ParamsFit(layers, s.weights, s.biases)
    && ParamsFit(layers, s.oldErrW, s.oldErrB)
    && ParamsFit(layers, s.errWSquare, s.errBSquare)
    && ParamsFit(layers, s.errWSum, s.errBSum)
    && NonNegative(s.errWSquare) && NonNegative(s.errBSquare)
  }

  /** Adam's power trackers lie in [0, 1). */
  predicate TrackersOK(s: State)
  {
    0.0 <= s.adamB1Pow < 1.0 && 0.0 <= s.adamB2Pow < 1.0
  }

  /** The state fits the network, and the power trackers are in range when
      Adam is the selected optimizer. */
  predicate StateOK(cfg: Config, s: State)
  {
    StateFits(cfg.net.layers, s) && (cfg.opt == Adam ==> TrackersOK(s))
  }

  function ZeroGrads(layers: seq<Layer>): (g: Grads)
    ensures GradsFit(layers, g)
  {
    Grads(ZerosAll(BiasShapes(layers)), ZerosAll(WeightShapes(layers)))
  }

  /** Every cell lies in [0, 1), as np.random.random draws them. */
  predicate UnitDraws(rs: seq<Matrix>)
  {
    forall l, i, j :: 0 <= l < |rs| && 0 <= i < rs[l].rows && 0 <= j < rs[l].cols ==>
      0.0 <= rs[l].cells[i][j] < 1.0
  }

  /** The constructor's initial parameters from the draws rs: with
      `negative`, (r - 0.5) * 2 * scale, spread over [-scale, scale);
      otherwise r * scale, spread over [0, scale). */
  function InitialParams(negative: bool, scale: real, rs: seq<Matrix>): (ps: seq<Matrix>)
    ensures SameShapes(ps, rs)
    ensures UnitDraws(rs) && 0.0 <= scale ==>
              forall l, i, j :: 0 <= l < |ps| && 0 <= i < ps[l].rows && 0 <= j < ps[l].cols ==>
                (if negative then -scale else 0.0) <= ps[l].cells[i][j] <= scale
                && (0.0 < scale ==> ps[l].cells[i][j] < scale)
  {
    var ps := if negative then ApplyAll(r => (r - 0.5) * 2.0 * scale, rs) else ApplyAll(r => r * scale, rs);
    assert UnitDraws(rs) && 0.0 <= scale ==>
             forall l, i, j :: 0 <= l < |ps| && 0 <= i < ps[l].rows && 0 <= j < ps[l].cols ==>
               (if negative then -scale else 0.0) <= ps[l].cells[i][j] <= scale
               && (0.0 < scale ==> ps[l].cells[i][j] < scale) by {
      if UnitDraws(rs) && 0.0 <= scale {
        forall l, i, j | 0 <= l < |ps| && 0 <= i < ps[l].rows && 0 <= j < ps[l].cols
          ensures (if negative then -scale else 0.0) <= ps[l].cells[i][j] <= scale
          ensures 0.0 < scale ==> ps[l].cells[i][j] < scale
        {
          var r := rs[l].cells[i][j];
          assert 0.0 <= r < 1.0;
          if negative {
            assert ps[l].cells[i][j] == (r - 0.5) * 2.0 * scale;
            assert (r - 0.5) * 2.0 * scale == (2.0 * r - 1.0) * scale;
            assert -scale <= (2.0 * r - 1.0) * scale <= scale;
            assert 0.0 < scale ==> (2.0 * r - 1.0) * scale < scale;
          } else {
            assert ps[l].cells[i][j] == r * scale;
            assert r * scale <= scale;
            assert 0.0 < scale ==> r * scale < scale;
          }
        }
      }
    }
    ps
  }

  /** The state right after construction, given the initial parameters. */
  function Initial(cfg: Config, ws: seq<Matrix>, bs: seq<Matrix>): (s: State)
    requires ParamsFit(cfg.net.layers, ws, bs) && DecaysOK(cfg)
    ensures StateOK(cfg, s)
    ensures s.weights == ws && s.biases == bs && !s.init
    ensures s.oldErrW == s.errWSquare == s.errWSum == ZerosAll(WeightShapes(cfg.net.layers))
    ensures s.oldErrB == s.errBSquare == s.errBSum == ZerosAll(BiasShapes(cfg.net.layers))
    ensures s.adamB1Pow == cfg.adamB1 && s.adamB2Pow == cfg.adamB2
  {
    var z := ZeroGrads(cfg.net.layers);
    State(ws, bs, z.w, z.b, z.w, z.b, z.w, z.b, false, cfg.adamB1, cfg.adamB2)
  }

  /** How many (example, label) pairs `zip` yields. */
  function Pairs<X, Y>(xs: seq<X>, ys: seq<Y>): nat
  {
    if |xs| <= |ys| then |xs| else |ys|
  }

  /** Every pair the update loop visits can be backpropagated. */
  predicate BatchFits(layers: seq<Layer>, xs: seq<seq<real>>, ys: seq<int>)
  {
    forall e :: 0 <= e < Pairs(xs, ys) ==> ExampleFits(layers, xs[e], ys[e])
  }

  /** `[a + b for a, b in zip(acc, g)]` for both lists of gradients. */
  function AddGrads(layers: seq<Layer>, acc: Grads, g: Grads): (r: Grads)
    requires GradsFit(layers, acc) && GradsFit(layers, g)
    ensures GradsFit(layers, r)
  {
    FitsAgree(acc.b, g.b, BiasShapes(layers));
    FitsAgree(acc.w, g.w, WeightShapes(layers));
    var rb, rw := AddAll(acc.b, g.b), AddAll(acc.w, g.w);
    FitsLike(rb, acc.b, BiasShapes(layers));
    FitsLike(rw, acc.w, WeightShapes(layers));
    Grads(rb, rw)
  }

  /** `[a + np.square(b) for a, b in zip(acc, g)]` for both lists; no cell
      of the accumulator goes down. */
  function AddSquares(layers: seq<Layer>, acc: Grads, g: Grads): (r: Grads)
    requires GradsFit(layers, acc) && GradsFit(layers, g)
    ensures GradsFit(layers, r)
    ensures AtLeast(r.b, acc.b) && AtLeast(r.w, acc.w)
  {
    FitsAgree(acc.b, g.b, BiasShapes(layers));
    FitsAgree(acc.w, g.w, WeightShapes(layers));
    var rb, rw := AddAll(acc.b, SquareAll(g.b)), AddAll(acc.w, SquareAll(g.w));
    FitsLike(rb, acc.b, BiasShapes(layers));
    FitsLike(rw, acc.w, WeightShapes(layers));
    AddSquaresGrows(acc.b, g.b);
    AddSquaresGrows(acc.w, g.w);
    Grads(rb, rw)
  }

  /** The summed gradients of the first k pairs, added into zero
      accumulators one example at a time. */
  function GradSum(net: Net, ws: seq<Matrix>, bs: seq<Matrix>, xs: seq<seq<real>>, ys: seq<int>, k: nat): (g: Grads)
    requires NetOK(net) && ParamsFit(net.layers, ws, bs) && BatchFits(net.layers, xs, ys)
    requires k <= Pairs(xs, ys)
    ensures GradsFit(net.layers, g)
  {
    if k == 0 then ZeroGrads(net.layers)
    else
      AddGrads(net.layers, GradSum(net, ws, bs, xs, ys, k - 1), Gradients(net, ws, bs, xs[k - 1], ys[k - 1]))
  }

  /** The squared gradients of the first k pairs added into `start` one
      example at a time; no cell ever falls below its start value. */
  function SquareSum(net: Net, ws: seq<Matrix>, bs: seq<Matrix>, xs: seq<seq<real>>, ys: seq<int>, k: nat, start: Grads): (g: Grads)
    requires NetOK(net) && ParamsFit(net.layers, ws, bs) && BatchFits(net.layers, xs, ys)
    requires k <= Pairs(xs, ys) && GradsFit(net.layers, start)
    ensures GradsFit(net.layers, g)
    ensures AtLeast(g.b, start.b) && AtLeast(g.w, start.w)
  {
    if k == 0 then
      FitsAgree(start.b, start.b, BiasShapes(net.layers));
      FitsAgree(start.w, start.w, WeightShapes(net.layers));
      start
    else
      var g := SquareSum(net, ws, bs, xs, ys, k - 1, start);
      var r := AddSquares(net.layers, g, Gradients(net, ws, bs, xs[k - 1], ys[k - 1]));
      AtLeastTransitive(r.b, g.b, start.b);
      AtLeastTransitive(r.w, g.w, start.w);
      r
  }

  /** Momentum's update `eta * g / size + p * momentum`, cell by cell. */
  function MomentumUpdate(eta: real, size: real, m: real, gs: seq<Matrix>, ps: seq<Matrix>): (us: seq<Matrix>)
    requires size != 0.0 && SameShapes(gs, ps)
    ensures SameShapes(us, gs)
    ensures forall l, i, j {:trigger us[l].cells[i][j]} :: 0 <= l < |us| && 0 <= i < us[l].rows && 0 <= j < us[l].cols ==>
              us[l].cells[i][j] == eta * gs[l].cells[i][j] / size + ps[l].cells[i][j] * m
  {
    ZipWithAll((g, p) => eta * g / size + p * m, gs, ps)
  }

  /** Nesterov's update `eta * (g + momentum * p) / size + p * momentum`, cell by cell. */
  function NesterovUpdate(eta: real, size: real, m: real, gs: seq<Matrix>, ps: seq<Matrix>): (us: seq<Matrix>)
    requires size != 0.0 && SameShapes(gs, ps)
    ensures SameShapes(us, gs)
    ensures forall l, i, j {:trigger us[l].cells[i][j]} :: 0 <= l < |us| && 0 <= i < us[l].rows && 0 <= j < us[l].cols ==>
              us[l].cells[i][j] == eta * (gs[l].cells[i][j] + m * ps[l].cells[i][j]) / size + ps[l].cells[i][j] * m
  {
    ZipWithAll((g, p) => eta * (g + m * p) / size + p * m, gs, ps)
  }

  /** `eta * g / size`, cell by cell. */
  function MeanStep(eta: real, size: real, gs: seq<Matrix>): (r: seq<Matrix>)
    requires size != 0.0
    ensures SameShapes(r, gs)
  {
    ApplyAll(g => eta * g / size, gs)
  }

  /** `d * old + (1 - d) * new`, cell by cell; with d in [0, 1] it keeps
      non-negative accumulators non-negative. */
  function Blend(d: real, olds: seq<Matrix>, news: seq<Matrix>): (r: seq<Matrix>)
    requires SameShapes(olds, news)
    ensures SameShapes(r, olds)
    ensures forall l, i, j {:trigger r[l].cells[i][j]} :: 0 <= l < |r| && 0 <= i < r[l].rows && 0 <= j < r[l].cols ==>
              r[l].cells[i][j] == d * olds[l].cells[i][j] + (1.0 - d) * news[l].cells[i][j]
    ensures 0.0 <= d <= 1.0 && NonNegative(olds) && NonNegative(news) ==> NonNegative(r)
  {
    var r := ZipWithAll((o, n) => d * o + (1.0 - d) * n, olds, news);
    assert 0.0 <= d <= 1.0 && NonNegative(olds) && NonNegative(news) ==> NonNegative(r) by {
      if 0.0 <= d <= 1.0 && NonNegative(olds) && NonNegative(news) {
        forall l, i, j | 0 <= l < |r| && 0 <= i < r[l].rows && 0 <= j < r[l].cols
          ensures 0.0 <= r[l].cells[i][j]
        {
          var o, n := olds[l].cells[i][j], news[l].cells[i][j];
          assert 0.0 <= d * o && 0.0 <= (1.0 - d) * n;
        }
      }
    }
    r
  }

  /** `x / c`, cell by cell, as Adam's bias correction divides. */
  function DivideAll(xs: seq<Matrix>, c: real): (r: seq<Matrix>)
    requires 0.0 < c
    ensures SameShapes(r, xs)
    ensures NonNegative(xs) ==> NonNegative(r)
  {
    ApplyAll(x => x / c, xs)
  }

  /** One matrix of Adagrad/Adadelta's step: `p - n * (1 / sqrt(s + eps))`. */
  function AdaptiveMatrix(sqrt: real -> real, p: Matrix, n: Matrix, s: Matrix): (r: Matrix)
    requires SqrtOK(sqrt) && SameShape(p, n) && SameShape(p, s)
    requires forall i, j :: 0 <= i < s.rows && 0 <= j < s.cols ==> 0.0 <= s.cells[i][j]
    ensures SameShape(r, p)
  {
    Mat(p.rows, p.cols,
        seq(p.rows, i requires 0 <= i < p.rows =>
          seq(p.cols, j requires 0 <= j < p.cols =>
            p.cells[i][j] - n.cells[i][j] * (1.0 / sqrt(s.cells[i][j] + Eps)))))
  }

  /** Every parameter list of Adagrad/Adadelta's step. */
  function AdaptiveDescent(sqrt: real -> real, ps: seq<Matrix>, ns: seq<Matrix>, ss: seq<Matrix>): (r: seq<Matrix>)
    requires SqrtOK(sqrt) && SameShapes(ps, ns) && SameShapes(ps, ss) && NonNegative(ss)
    ensures SameShapes(r, ps)
  {
    seq(|ps|, l requires 0 <= l < |ps| => AdaptiveMatrix(sqrt, ps[l], ns[l], ss[l]))
  }

  /** One matrix of Adam's step: `p - eta / (sqrt(v) + eps) * m / size`. */
  function AdamMatrix(sqrt: real -> real, eta: real, size: real, p: Matrix, m: Matrix, v: Matrix): (r: Matrix)
    requires SqrtOK(sqrt) && size != 0.0 && SameShape(p, m) && SameShape(p, v)
    requires forall i, j :: 0 <= i < v.rows && 0 <= j < v.cols ==> 0.0 <= v.cells[i][j]
    ensures SameShape(r, p)
  {
    Mat(p.rows, p.cols,
        seq(p.rows, i requires 0 <= i < p.rows =>
          seq(p.cols, j requires 0 <= j < p.cols =>
            p.cells[i][j] - eta / (sqrt(v.cells[i][j]) + Eps) * m.cells[i][j] / size)))
  }

  /** Every parameter list of Adam's step. */
  function AdamDescent(sqrt: real -> real, eta: real, size: real, ps: seq<Matrix>, ms: seq<Matrix>, vs: seq<Matrix>): (r: seq<Matrix>)
    requires SqrtOK(sqrt) && size != 0.0 && SameShapes(ps, ms) && SameShapes(ps, vs) && NonNegative(vs)
    ensures SameShapes(r, ps)
  {
    seq(|ps|, l requires 0 <= l < |ps| => AdamMatrix(sqrt, eta, size, ps[l], ms[l], vs[l]))
  }

  /** What every update rule needs before it runs. */
  ghost predicate StepReady(cfg: Config, s: State, xs: seq<seq<real>>, ys: seq<int>)
  {
    ConfigOK(cfg) && StateOK(cfg, s) && BatchFits(cfg.net.layers, xs, ys) && |xs| > 0
  }

  /** The summed gradients of a mini-batch, taken at the current parameters. */
  function BatchGrads(cfg: Config, s: State, xs: seq<seq<real>>, ys: seq<int>): (g: Grads)
    requires StepReady(cfg, s, xs, ys)
    ensures GradsFit(cfg.net.layers, g)
  {
    GradSum(cfg.net, s.weights, s.biases, xs, ys, Pairs(xs, ys))
  }

  /** The state of the loop of adagrad_train, adadelta_train and
      adam_train after k pairs: the gradients summed from zero in `acc`,
      their squares added into `start` in `square`. */
  ghost predicate SummedUpTo(cfg: Config, s: State, xs: seq<seq<real>>, ys: seq<int>, start: Grads, k: nat, acc: Grads, square: Grads)
  {
    && StepReady(cfg, s, xs, ys) && GradsFit(cfg.net.layers, start) && k <= Pairs(xs, ys)
    && acc == GradSum(cfg.net, s.weights, s.biases, xs, ys, k)
    && square == SquareSum(cfg.net, s.weights, s.biases, xs, ys, k, start)
  }

  /** The squared gradients of a mini-batch added into `start`. */
  function BatchSquares(cfg: Config, s: State, xs: seq<seq<real>>, ys: seq<int>, start: Grads): (g: Grads)
    requires StepReady(cfg, s, xs, ys) && GradsFit(cfg.net.layers, start)
    ensures GradsFit(cfg.net.layers, g)
    ensures AtLeast(g.b, start.b) && AtLeast(g.w, start.w)
  {
    SquareSum(cfg.net, s.weights, s.biases, xs, ys, Pairs(xs, ys), start)
  }

  /** The batch's squared gradients summed from zero, as adadelta_train
      and adam_train collect them. */
  function FreshSquares(cfg: Config, s: State, xs: seq<seq<real>>, ys: seq<int>): (g: Grads)
    requires StepReady(cfg, s, xs, ys)
    ensures GradsFit(cfg.net.layers, g)
    ensures NonNegative(g.b) && NonNegative(g.w)
  {
    var zero := ZeroGrads(cfg.net.layers);
    var q := BatchSquares(cfg, s, xs, ys, zero);
    AtLeastNonNegative(q.b, zero.b);
    AtLeastNonNegative(q.w, zero.w);
    q
  }

  /** `[p - u for p, u in zip(ps, us)]`: every parameter list after its move. */
  function Descend(shapes: seq<Shape>, ps: seq<Matrix>, us: seq<Matrix>): (r: seq<Matrix>)
    requires Fits(ps, shapes) && Fits(us, shapes)
    ensures Fits(r, shapes)
    ensures forall l :: 0 <= l < |r| ==> r[l] == Sub(ps[l], us[l])
  {
    FitsAgree(ps, us, shapes);
    var r := SubAll(ps, us);
    FitsLike(r, ps, shapes);
    r
  }

  /** The second half of momentum_train: the update from the summed
      gradients g of a batch of `size` examples. */
  function MomentumApply(cfg: Config, s: State, g: Grads, size: real, eta: real): (r: State)
    requires StateFits(cfg.net.layers, s) && GradsFit(cfg.net.layers, g) && size != 0.0
    ensures StateFits(cfg.net.layers, r)
    ensures r.init == s.init && r.adamB1Pow == s.adamB1Pow && r.adamB2Pow == s.adamB2Pow
    ensures r.oldErrW == MomentumUpdate(eta, size, cfg.momentum, g.w, s.oldErrW)
    ensures r.oldErrB == MomentumUpdate(eta, size, cfg.momentum, g.b, s.oldErrB)
    ensures r.weights == Descend(WeightShapes(cfg.net.layers), s.weights, r.oldErrW)
    ensures r.biases == Descend(BiasShapes(cfg.net.layers), s.biases, r.oldErrB)
    ensures r.(weights := s.weights, biases := s.biases, oldErrW := s.oldErrW, oldErrB := s.oldErrB) == s
  {
    var bShapes, wShapes := BiasShapes(cfg.net.layers), WeightShapes(cfg.net.layers);
    FitsAgree(g.b, s.oldErrB, bShapes);
    FitsAgree(g.w, s.oldErrW, wShapes);
    var ub := MomentumUpdate(eta, size, cfg.momentum, g.b, s.oldErrB);
    var uw := MomentumUpdate(eta, size, cfg.momentum, g.w, s.oldErrW);
    FitsLike(ub, g.b, bShapes);
    FitsLike(uw, g.w, wShapes);
    s.(weights := Descend(wShapes, s.weights, uw), biases := Descend(bShapes, s.biases, ub), oldErrW := uw, oldErrB := ub)
  }

  /** momentum_train */
  function MomentumStep(cfg: Config, s: State, xs: seq<seq<real>>, ys: seq<int>, eta: real): (r: State)
    requires StepReady(cfg, s, xs, ys)
    ensures StateFits(cfg.net.layers, r)
    ensures r.init == s.init && r.adamB1Pow == s.adamB1Pow && r.adamB2Pow == s.adamB2Pow
  {
    MomentumApply(cfg, s, BatchGrads(cfg, s, xs, ys), |xs| as real, eta)
  }

  /** The second half of nestors_momentum_train: the update from the
      summed gradients g of a batch of `size` examples. */
  function NesterovApply(cfg: Config, s: State, g: Grads, size: real, eta: real): (r: State)
    requires StateFits(cfg.net.layers, s) && GradsFit(cfg.net.layers, g) && size != 0.0
    ensures StateFits(cfg.net.layers, r)
    ensures r.init == s.init && r.adamB1Pow == s.adamB1Pow && r.adamB2Pow == s.adamB2Pow
    ensures r.oldErrW == NesterovUpdate(eta, size, cfg.momentum, g.w, s.oldErrW)
    ensures r.oldErrB == NesterovUpdate(eta, size, cfg.momentum, g.b, s.oldErrB)
    ensures r.weights == Descend(WeightShapes(cfg.net.layers), s.weights, r.oldErrW)
    ensures r.biases == Descend(BiasShapes(cfg.net.layers), s.biases, r.oldErrB)
    ensures r.(weights := s.weights, biases := s.biases, oldErrW := s.oldErrW, oldErrB := s.oldErrB) == s
  {
    var bShapes, wShapes := BiasShapes(cfg.net.layers), WeightShapes(cfg.net.layers);
    FitsAgree(g.b, s.oldErrB, bShapes);
    FitsAgree(g.w, s.oldErrW, wShapes);
    var ub := NesterovUpdate(eta, size, cfg.momentum, g.b, s.oldErrB);
    var uw := NesterovUpdate(eta, size, cfg.momentum, g.w, s.oldErrW);
    FitsLike(ub, g.b, bShapes);
    FitsLike(uw, g.w, wShapes);
    s.(weights := Descend(wShapes, s.weights, uw), biases := Descend(bShapes, s.biases, ub), oldErrW := uw, oldErrB := ub)
  }

  /** nestors_momentum_train */
  function NesterovStep(cfg: Config, s: State, xs: seq<seq<real>>, ys: seq<int>, eta: real): (r: State)
    requires StepReady(cfg, s, xs, ys)
    ensures StateFits(cfg.net.layers, r)
    ensures r.init == s.init && r.adamB1Pow == s.adamB1Pow && r.adamB2Pow == s.adamB2Pow
  {
    NesterovApply(cfg, s, BatchGrads(cfg, s, xs, ys), |xs| as real, eta)
  }

  /** One parameter list after Adagrad/Adadelta's step: the mean gradient
      `eta * g / size` scaled by `1 / sqrt(sq + eps)` and subtracted. */
  function AdaptiveParams(sqrt: real -> real, shapes: seq<Shape>, ps: seq<Matrix>, g: seq<Matrix>, sq: seq<Matrix>, eta: real, size: real): (r: seq<Matrix>)
    requires SqrtOK(sqrt) && size != 0.0
    requires Fits(ps, shapes) && Fits(g, shapes) && Fits(sq, shapes) && NonNegative(sq)
    ensures Fits(r, shapes)
    ensures forall l, i, j {:trigger r[l].cells[i][j]} :: 0 <= l < |r| && 0 <= i < r[l].rows && 0 <= j < r[l].cols ==>
              r[l].cells[i][j] == ps[l].cells[i][j] - eta * g[l].cells[i][j] / size * (1.0 / sqrt(sq[l].cells[i][j] + Eps))
  {
    var n := MeanStep(eta, size, g);
    FitsLike(n, g, shapes);
    FitsAgree(ps, n, shapes);
    FitsAgree(ps, sq, shapes);
    var r := AdaptiveDescent(sqrt, ps, n, sq);
    FitsLike(r, ps, shapes);
    r
  }

  /** The second half of adagrad_train: the accumulators take q, the old
      accumulators with this batch's squared gradients added, and set each
      cell's rate for the mean gradient of the summed gradients g. */
  function AdagradApply(cfg: Config, s: State, g: Grads, q: Grads, size: real, eta: real): (r: State)
    requires SqrtOK(cfg.sqrt) && StateFits(cfg.net.layers, s) && size != 0.0
    requires GradsFit(cfg.net.layers, g) && GradsFit(cfg.net.layers, q) && NonNegative(q.b) && NonNegative(q.w)
    ensures StateFits(cfg.net.layers, r)
    ensures r.init == s.init && r.adamB1Pow == s.adamB1Pow && r.adamB2Pow == s.adamB2Pow
    ensures r.errBSquare == q.b && r.errWSquare == q.w
  {
    var layers := cfg.net.layers;
    s.(errBSquare := q.b, errWSquare := q.w,
       weights := AdaptiveParams(cfg.sqrt, WeightShapes(layers), s.weights, g.w, q.w, eta, size),
       biases := AdaptiveParams(cfg.sqrt, BiasShapes(layers), s.biases, g.b, q.b, eta, size))
  }

  /** adagrad_train: the batch's squared gradients go straight into the
      session accumulators, which then set each cell's rate. */
  function AdagradStep(cfg: Config, s: State, xs: seq<seq<real>>, ys: seq<int>, eta: real): (r: State)
    requires StepReady(cfg, s, xs, ys)
    ensures StateFits(cfg.net.layers, r)
    ensures r.init == s.init && r.adamB1Pow == s.adamB1Pow && r.adamB2Pow == s.adamB2Pow
    ensures AtLeast(r.errWSquare, s.errWSquare) && AtLeast(r.errBSquare, s.errBSquare)
  {
    var q := BatchSquares(cfg, s, xs, ys, Grads(s.errBSquare, s.errWSquare));
    AtLeastNonNegative(q.b, s.errBSquare);
    AtLeastNonNegative(q.w, s.errWSquare);
    AdagradApply(cfg, s, BatchGrads(cfg, s, xs, ys), q, |xs| as real, eta)
  }

  /** The accumulator after a seed-or-blend step: this batch's values on
      the first call, `d * old + (1 - d) * new` afterwards. */
  function SeedOrBlend(init: bool, d: real, shapes: seq<Shape>, olds: seq<Matrix>, news: seq<Matrix>): (r: seq<Matrix>)
    requires Fits(olds, shapes) && Fits(news, shapes)
    ensures Fits(r, shapes)
    ensures !init ==> r == news
    ensures init ==> forall l, i, j {:trigger r[l].cells[i][j]} :: 0 <= l < |r| && 0 <= i < r[l].rows && 0 <= j < r[l].cols ==>
              r[l].cells[i][j] == d * olds[l].cells[i][j] + (1.0 - d) * news[l].cells[i][j]
    ensures 0.0 <= d <= 1.0 && NonNegative(olds) && NonNegative(news) ==> NonNegative(r)
  {
    if init then
      FitsAgree(olds, news, shapes);
      var r := Blend(d, olds, news);
      FitsLike(r, olds, shapes);
      r
    else news
  }

  /** The second half of adadelta_train, from the summed gradients g and
      the batch's squared gradients q. */
  function AdadeltaApply(cfg: Config, s: State, g: Grads, q: Grads, size: real, eta: real): (r: State)
    requires ConfigOK(cfg) && AdadeltaDecayOK(cfg) && StateFits(cfg.net.layers, s) && size != 0.0
    requires GradsFit(cfg.net.layers, g) && GradsFit(cfg.net.layers, q) && NonNegative(q.b) && NonNegative(q.w)
    ensures StateFits(cfg.net.layers, r)
    ensures r.init && r.adamB1Pow == s.adamB1Pow && r.adamB2Pow == s.adamB2Pow
  {
    var layers := cfg.net.layers;
    var sqB := SeedOrBlend(s.init, cfg.adadeltaY, BiasShapes(layers), s.errBSquare, q.b);
    var sqW := SeedOrBlend(s.init, cfg.adadeltaY, WeightShapes(layers), s.errWSquare, q.w);
    s.(init := true, errBSquare := sqB, errWSquare := sqW,
       weights := AdaptiveParams(cfg.sqrt, WeightShapes(layers), s.weights, g.w, sqW, eta, size),
       biases := AdaptiveParams(cfg.sqrt, BiasShapes(layers), s.biases, g.b, sqB, eta, size))
  }

  /** adadelta_train: the first call seeds the accumulators with this
      batch's squared gradients, later calls blend them in with adadelta_y. */
  function AdadeltaStep(cfg: Config, s: State, xs: seq<seq<real>>, ys: seq<int>, eta: real): (r: State)
    requires StepReady(cfg, s, xs, ys) && AdadeltaDecayOK(cfg)
    ensures StateFits(cfg.net.layers, r)
    ensures r.init && r.adamB1Pow == s.adamB1Pow && r.adamB2Pow == s.adamB2Pow
  {
    AdadeltaApply(cfg, s, BatchGrads(cfg, s, xs, ys), FreshSquares(cfg, s, xs, ys), |xs| as real, eta)
  }

  /** A power tracker multiplied by its decay: `adam_b1_pow *= adam_b1`. */
  function Decayed(p: real, b: real): real
  {
    p * b
  }

  /** A power tracker multiplied by its decay stays in [0, 1) and does
      not grow. */
  lemma PowerStep(p: real, b: real)
    requires 0.0 <= p < 1.0 && 0.0 <= b < 1.0
    ensures 0.0 <= Decayed(p, b) <= p && Decayed(p, b) < 1.0
  {
    assert p * b <= p * 1.0;
  }

  /** One parameter list after Adam's step, with the moments corrected by
      the power trackers `p1`, `p2` as they were before the step. */
  function AdamParams(sqrt: real -> real, shapes: seq<Shape>, ps: seq<Matrix>, sums: seq<Matrix>, squares: seq<Matrix>,
                      p1: real, p2: real, eta: real, size: real): (r: seq<Matrix>)
    requires SqrtOK(sqrt) && size != 0.0 && p1 < 1.0 && p2 < 1.0
    requires Fits(ps, shapes) && Fits(sums, shapes) && Fits(squares, shapes) && NonNegative(squares)
    ensures Fits(r, shapes)
    ensures forall l, i, j {:trigger squares[l].cells[i][j]} :: 0 <= l < |squares| && 0 <= i < squares[l].rows && 0 <= j < squares[l].cols ==>
              0.0 <= sqrt(squares[l].cells[i][j] / (1.0 - p2))
    ensures forall l, i, j {:trigger r[l].cells[i][j]} :: 0 <= l < |r| && 0 <= i < r[l].rows && 0 <= j < r[l].cols ==>
              r[l].cells[i][j] == ps[l].cells[i][j]
                 - eta / (sqrt(squares[l].cells[i][j] / (1.0 - p2)) + Eps) * (sums[l].cells[i][j] / (1.0 - p1)) / size
  {
    var m := DivideAll(sums, 1.0 - p1);
    var v := DivideAll(squares, 1.0 - p2);
    FitsLike(m, sums, shapes);
    FitsLike(v, squares, shapes);
    FitsAgree(ps, m, shapes);
    FitsAgree(ps, v, shapes);
    var r := AdamDescent(sqrt, eta, size, ps, m, v);
    FitsLike(r, ps, shapes);
    r
  }

  /** The first half of adam_train: both moments seeded on the first call
      and blended with b1 and b2 afterwards, and the power trackers advanced. */
  function AdamMoments(cfg: Config, s: State, g: Grads, q: Grads): (r: State)
    requires ConfigOK(cfg) && AdamDecaysOK(cfg) && StateFits(cfg.net.layers, s) && TrackersOK(s)
    requires GradsFit(cfg.net.layers, g) && GradsFit(cfg.net.layers, q)
    requires NonNegative(q.b) && NonNegative(q.w)
    ensures StateFits(cfg.net.layers, r) && TrackersOK(r)
    ensures r.init && r.adamB1Pow == Decayed(s.adamB1Pow, cfg.adamB1) && r.adamB2Pow == Decayed(s.adamB2Pow, cfg.adamB2)
    ensures r.errBSquare == SeedOrBlend(s.init, cfg.adamB2, BiasShapes(cfg.net.layers), s.errBSquare, q.b)
    ensures r.errWSquare == SeedOrBlend(s.init, cfg.adamB2, WeightShapes(cfg.net.layers), s.errWSquare, q.w)
    ensures r.errBSum == SeedOrBlend(s.init, cfg.adamB1, BiasShapes(cfg.net.layers), s.errBSum, g.b)
    ensures r.errWSum == SeedOrBlend(s.init, cfg.adamB1, WeightShapes(cfg.net.layers), s.errWSum, g.w)
  {
    var layers := cfg.net.layers;
    PowerStep(s.adamB1Pow, cfg.adamB1);
    PowerStep(s.adamB2Pow, cfg.adamB2);
    s.(init := true,
       errBSquare := SeedOrBlend(s.init, cfg.adamB2, BiasShapes(layers), s.errBSquare, q.b),
       errWSquare := SeedOrBlend(s.init, cfg.adamB2, WeightShapes(layers), s.errWSquare, q.w),
       errBSum := SeedOrBlend(s.init, cfg.adamB1, BiasShapes(layers), s.errBSum, g.b),
       errWSum := SeedOrBlend(s.init, cfg.adamB1, WeightShapes(layers), s.errWSum, g.w),
       adamB1Pow := Decayed(s.adamB1Pow, cfg.adamB1), adamB2Pow := Decayed(s.adamB2Pow, cfg.adamB2))
  }

  /** The second half of adam_train, from the summed gradients g and the
      batch's squared gradients q: the moments corrected with the power
      trackers as they were before this batch. */
  function AdamApply(cfg: Config, s: State, g: Grads, q: Grads, size: real, eta: real): (r: State)
    requires ConfigOK(cfg) && AdamDecaysOK(cfg) && StateFits(cfg.net.layers, s) && TrackersOK(s) && size != 0.0
    requires GradsFit(cfg.net.layers, g) && GradsFit(cfg.net.layers, q) && NonNegative(q.b) && NonNegative(q.w)
    ensures StateFits(cfg.net.layers, r) && TrackersOK(r) && r.init
  {
    var layers := cfg.net.layers;
    var m := AdamMoments(cfg, s, g, q);
    m.(weights := AdamParams(cfg.sqrt, WeightShapes(layers), s.weights, m.errWSum, m.errWSquare, s.adamB1Pow, s.adamB2Pow, eta, size),
       biases := AdamParams(cfg.sqrt, BiasShapes(layers), s.biases, m.errBSum, m.errBSquare, s.adamB1Pow, s.adamB2Pow, eta, size))
  }

  /** adam_train: seed or blend both moments, correct them with the power
      trackers as they were before this batch, then advance the trackers. */
  function AdamStep(cfg: Config, s: State, xs: seq<seq<real>>, ys: seq<int>, eta: real): (r: State)
    requires StepReady(cfg, s, xs, ys) && AdamDecaysOK(cfg) && TrackersOK(s)
    ensures StateFits(cfg.net.layers, r) && TrackersOK(r) && r.init
  {
    AdamApply(cfg, s, BatchGrads(cfg, s, xs, ys), FreshSquares(cfg, s, xs, ys), |xs| as real, eta)
  }

  /** _train_mini_batch: the update rule of the selected optimizer. */
  function MiniBatchStep(cfg: Config, s: State, xs: seq<seq<real>>, ys: seq<int>, eta: real): (r: State)
    requires StepReady(cfg, s, xs, ys)
    ensures StateOK(cfg, r)
    ensures r.init == (s.init || cfg.opt == Adadelta || cfg.opt == Adam)
    ensures cfg.opt != Adam ==> r.adamB1Pow == s.adamB1Pow && r.adamB2Pow == s.adamB2Pow
    ensures cfg.opt == Adagrad ==> AtLeast(r.errWSquare, s.errWSquare) && AtLeast(r.errBSquare, s.errBSquare)
  {
    match cfg.opt
    case Momentum => MomentumStep(cfg, s, xs, ys, eta)
    case NestrovMomentum => NesterovStep(cfg, s, xs, ys, eta)
    case Adagrad => AdagradStep(cfg, s, xs, ys, eta)
    case Adadelta => AdadeltaStep(cfg, s, xs, ys, eta)
    case Adam => AdamStep(cfg, s, xs, ys, eta)
  }

  // The training loop.

  /** The random draws of one np.random.shuffle over n elements: the
      partner index d[i] <= i for every position i. */
  predicate DrawsFit(d: seq<nat>, n: nat)
  {
    |d| == n && forall i :: 0 <= i < n ==> d[i] <= i
  }

  /** The draws of every epoch. */
  predicate AllDrawsFit(ds: seq<seq<nat>>, n: nat)
  {
    forall e :: 0 <= e < |ds| ==> DrawsFit(ds[e], n)
  }

  function Swap<T>(xs: seq<T>, i: nat, j: nat): (r: seq<T>)
    requires i < |xs| && j < |xs|
    ensures |r| == |xs| && r[i] == xs[j] && r[j] == xs[i]
    ensures forall k :: 0 <= k < |xs| && k != i && k != j ==> r[k] == xs[k]
    ensures multiset(r) == multiset(xs)
  {
    xs[i := xs[j]][j := xs[i]]
  }

  /** The Fisher-Yates pass of np.random.shuffle from position k - 1 down
      to 1: position i is swapped with position d[i]. */
  function ShuffleDown<T>(xs: seq<T>, d: seq<nat>, k: nat): (r: seq<T>)
    requires DrawsFit(d, |xs|) && k <= |xs|
    ensures |r| == |xs|
    decreases k
  {
    if k <= 1 then xs else ShuffleDown(Swap(xs, k - 1, d[k - 1]), d, k - 1)
  }

  /** np.random.shuffle with the draws d. */
  function Shuffle<T>(xs: seq<T>, d: seq<nat>): (r: seq<T>)
    requires DrawsFit(d, |xs|)
    ensures |r| == |xs|
  {
    ShuffleDown(xs, d, |xs|)
  }

  /** xs after one shuffle per epoch, first epoch first. */
  function Shuffled<T>(xs: seq<T>, ds: seq<seq<nat>>): (r: seq<T>)
    requires AllDrawsFit(ds, |xs|)
    ensures |r| == |xs|
  {
    if |ds| == 0 then xs else Shuffle(Shuffled(xs, ds[..|ds| - 1]), ds[|ds| - 1])
  }

  function Iota(n: nat): (r: seq<nat>)
    ensures |r| == n && forall i :: 0 <= i < n ==> r[i] == i
  {
    seq(n, i => i)
  }

  /** A shuffle moves elements the way it moves their positions: if ys
      holds xs at positions idx, the shuffled ys holds xs at the shuffled idx. */
  lemma {:induction false} ShuffleDownTracks<T>(xs: seq<T>, ys: seq<T>, idx: seq<nat>, d: seq<nat>, k: nat)
    requires |ys| == |idx| && DrawsFit(d, |ys|) && k <= |ys|
    requires forall i :: 0 <= i < |ys| ==> idx[i] < |xs| && ys[i] == xs[idx[i]]
    ensures forall i :: 0 <= i < |ys| ==>
              ShuffleDown<nat>(idx, d, k)[i] < |xs| && ShuffleDown(ys, d, k)[i] == xs[ShuffleDown<nat>(idx, d, k)[i]]
    decreases k
  {
    if k > 1 {
      var ys', idx' := Swap(ys, k - 1, d[k - 1]), Swap(idx, k - 1, d[k - 1]);
      ShuffleDownTracks(xs, ys', idx', d, k - 1);
    }
  }

  /** Where position i came from after the shuffles of every epoch. */
  function Origin(ds: seq<seq<nat>>, n: nat, i: nat): nat
    requires AllDrawsFit(ds, n) && i < n
  {
    Shuffled<nat>(Iota(n), ds)[i]
  }

  /** Element i of the shuffled sequence is element Origin(...) of the
      original, whatever the sequence: two sequences shuffled with the
      same draws keep their pairs. */
  lemma {:induction false} ShuffledTracks<T>(xs: seq<T>, ds: seq<seq<nat>>)
    requires AllDrawsFit(ds, |xs|)
    ensures forall i :: 0 <= i < |xs| ==>
              Origin(ds, |xs|, i) < |xs| && Shuffled(xs, ds)[i] == xs[Origin(ds, |xs|, i)]
  {
    if |ds| > 0 {
      var ds' := ds[..|ds| - 1];
      assert AllDrawsFit(ds', |xs|);
      ShuffledTracks(xs, ds');
      var ys, idx := Shuffled(xs, ds'), Shuffled<nat>(Iota(|xs|), ds');
      assert forall i :: 0 <= i < |ys| ==> idx[i] == Origin(ds', |xs|, i);
      ShuffleDownTracks(xs, ys, idx, ds[|ds| - 1], |xs|);
    }
  }

  /** How many mini-batches `train` makes of n examples: int(n / size),
      counted as the number of whole batches that fit. */
  function NumBatches(n: nat, size: nat): nat
    requires size > 0
    decreases n
  {
    if n < size then 0 else 1 + NumBatches(n - size, size)
  }

  /** Python's slice xs[b : b + size], cut short at the end of xs. */
  function Slice<T>(xs: seq<T>, b: nat, size: nat): (r: seq<T>)
    ensures |r| <= size
  {
    if b >= |xs| then [] else xs[b .. if b + size <= |xs| then b + size else |xs|]
  }

  /** Every example can be backpropagated and each has its label. */
  predicate DataFits(layers: seq<Layer>, xs: seq<seq<real>>, ys: seq<int>)
  {
    |xs| == |ys| && forall e :: 0 <= e < |xs| ==> ExampleFits(layers, xs[e], ys[e])
  }

  /** `train` zeroes `old_err_b` and `old_err_w` after every mini-batch
      and leaves every other field as it was. */
  function ResetMomentum(layers: seq<Layer>, s: State): (r: State)
    requires StateFits(layers, s)
    ensures StateFits(layers, r)
    ensures r.oldErrB == ZerosAll(BiasShapes(layers)) && r.oldErrW == ZerosAll(WeightShapes(layers))
    ensures r.(oldErrB := s.oldErrB, oldErrW := s.oldErrW) == s
    ensures r.init == s.init && r.adamB1Pow == s.adamB1Pow && r.adamB2Pow == s.adamB2Pow
    ensures r.errWSquare == s.errWSquare && r.errBSquare == s.errBSquare
  {
    var z := ZeroGrads(layers);
    s.(oldErrB := z.b, oldErrW := z.w)
  }

  /** Every start offset `train` uses leaves room for a full mini-batch. */
  lemma {:induction false} BatchInside(n: nat, size: nat, b: nat)
    requires size > 0 && b < NumBatches(n, size)
    ensures b + size <= n
    decreases n
  {
    if b > 0 {
      BatchInside(n - size, size, b - 1);
    }
  }

  /** Every mini-batch `train` makes is non-empty and can be backpropagated. */
  lemma SliceFits(layers: seq<Layer>, xs: seq<seq<real>>, ys: seq<int>, b: nat, size: nat)
    requires DataFits(layers, xs, ys) && size > 0 && b < NumBatches(|xs|, size)
    ensures |Slice(xs, b, size)| > 0 && BatchFits(layers, Slice(xs, b, size), Slice(ys, b, size))
    ensures |Slice(xs, b, size)| == |Slice(ys, b, size)|
    ensures forall e :: 0 <= e < |Slice(xs, b, size)| ==> Slice(xs, b, size)[e] == xs[b + e] && Slice(ys, b, size)[e] == ys[b + e]
  {
    BatchInside(|xs|, size, b);
    var batch, labels := Slice(xs, b, size), Slice(ys, b, size);
    forall e | 0 <= e < Pairs(batch, labels)
      ensures ExampleFits(layers, batch[e], labels[e])
    {
      assert batch[e] == xs[b + e] && labels[e] == ys[b + e];
    }
  }

  /** Examples and labels shuffled with the same draws still fit. */
  lemma ShuffledFits(layers: seq<Layer>, xs: seq<seq<real>>, ys: seq<int>, ds: seq<seq<nat>>)
    requires DataFits(layers, xs, ys) && AllDrawsFit(ds, |xs|)
    ensures DataFits(layers, Shuffled(xs, ds), Shuffled(ys, ds))
  {
    var sx, sy := Shuffled(xs, ds), Shuffled(ys, ds);
    ShuffledTracks(xs, ds);
    ShuffledTracks(ys, ds);
    forall e | 0 <= e < |sx|
      ensures ExampleFits(layers, sx[e], sy[e])
    {
      var o := Origin(ds, |xs|, e);
      assert sx[e] == xs[o] && sy[e] == ys[o];
    }
  }

  /** One pass of train's inner loop: mini-batch b through the selected
      optimizer, then the previous updates zeroed. */
  function BatchStep(cfg: Config, s: State, xs: seq<seq<real>>, ys: seq<int>, size: nat, eta: real, b: nat): (r: State)
    requires ConfigOK(cfg) && StateOK(cfg, s) && DataFits(cfg.net.layers, xs, ys)
    requires size > 0 && b < NumBatches(|xs|, size)
    ensures StateOK(cfg, r)
    ensures r.init == (s.init || cfg.opt == Adadelta || cfg.opt == Adam)
    ensures cfg.opt != Adam ==> r.adamB1Pow == s.adamB1Pow && r.adamB2Pow == s.adamB2Pow
    ensures cfg.opt == Adagrad ==> AtLeast(r.errWSquare, s.errWSquare) && AtLeast(r.errBSquare, s.errBSquare)
  {
    SliceFits(cfg.net.layers, xs, ys, b, size);
    ResetMomentum(cfg.net.layers, MiniBatchStep(cfg, s, Slice(xs, b, size), Slice(ys, b, size), eta))
  }

  /** The state after the first b mini-batches of one epoch over xs, ys. */
  function Epoch(cfg: Config, s: State, xs: seq<seq<real>>, ys: seq<int>, size: nat, eta: real, b: nat): (r: State)
    requires ConfigOK(cfg) && StateOK(cfg, s) && DataFits(cfg.net.layers, xs, ys)
    requires size > 0 && b <= NumBatches(|xs|, size)
    ensures StateOK(cfg, r)
    ensures r.init == (s.init || ((cfg.opt == Adadelta || cfg.opt == Adam) && b > 0))
    ensures cfg.opt != Adam ==> r.adamB1Pow == s.adamB1Pow && r.adamB2Pow == s.adamB2Pow
    ensures cfg.opt == Adagrad ==> AtLeast(r.errWSquare, s.errWSquare) && AtLeast(r.errBSquare, s.errBSquare)
  {
    if b == 0 then s
    else
      var prev := Epoch(cfg, s, xs, ys, size, eta, b - 1);
      var r := BatchStep(cfg, prev, xs, ys, size, eta, b - 1);
      AtLeastChain(r.errWSquare, prev.errWSquare, s.errWSquare);
      AtLeastChain(r.errBSquare, prev.errBSquare, s.errBSquare);
      r
  }

  /** train: for every epoch, shuffle examples and labels with the same
      draws, as restoring the generator state between the two shuffles
      makes them, then run every mini-batch of the epoch. */
  function Train(cfg: Config, s: State, xs: seq<seq<real>>, ys: seq<int>, ds: seq<seq<nat>>, size: nat, eta: real): (r: State)
    requires ConfigOK(cfg) && StateOK(cfg, s) && DataFits(cfg.net.layers, xs, ys)
    requires (|ds| > 0 ==> size > 0) && AllDrawsFit(ds, |xs|)
    ensures StateOK(cfg, r)
    ensures cfg.opt != Adam ==> r.adamB1Pow == s.adamB1Pow && r.adamB2Pow == s.adamB2Pow
    ensures cfg.opt == Adagrad ==> AtLeast(r.errWSquare, s.errWSquare) && AtLeast(r.errBSquare, s.errBSquare)
  {
    if |ds| == 0 then s
    else
      var prev := Train(cfg, s, xs, ys, ds[..|ds| - 1], size, eta);
      ShuffledFits(cfg.net.layers, xs, ys, ds);
      var r := Epoch(cfg, prev, Shuffled(xs, ds), Shuffled(ys, ds), size, eta, NumBatches(|xs|, size));
      AtLeastChain(r.errWSquare, prev.errWSquare, s.errWSquare);
      AtLeastChain(r.errBSquare, prev.errBSquare, s.errBSquare);
      r
  }
}
