/** NeuronNetwork itself: a class whose fields are the ones the source
    updates in place, whose methods run the source's loops, and whose
    contracts tie every new state to the functions of Model and Optimizers. */
module Network {
  import opened Matrices
  import opened Model
  import opened Optimizers
  import opened Properties

  /** np.random.shuffle on an array, with the generator's draws d: from the
      last position down to position 1, position i trades places with d[i]. */
  method ShuffleInPlace<T>(a: array<T>, d: seq<nat>)
    requires DrawsFit(d, a.Length)
    modifies a
    ensures a[..] == Shuffle(old(a[..]), d)
  {
    var i := a.Length;
    while i > 1
      invariant 0 <= i <= a.Length
      invariant ShuffleDown(a[..], d, i) == Shuffle(old(a[..]), d)
    {
      ghost var before := a[..];
      var j := d[i - 1];
      a[i - 1], a[j] := a[j], a[i - 1];
      assert a[..] == Swap(before, i - 1, j);
      i := i - 1;
    }
  }

  class NeuronNetwork {
    const net: Net
    const initRangeScale: real
    const momentum: real
    const adadeltaY: real
    const adamB1: real
    const adamB2: real
    const sqrt: real -> real
    const opt: Optimalisation

    var weights: seq<Matrix>
    var biases: seq<Matrix>
    var oldErrW: seq<Matrix>
    var oldErrB: seq<Matrix>
    var errWSquare: seq<Matrix>
    var errBSquare: seq<Matrix>
    var errWSum: seq<Matrix>
    var errBSum: seq<Matrix>
    var init: bool
    var adamB1Pow: real
    var adamB2Pow: real
    /** The cache of the last training forward pass. */
    var zValues: seq<Matrix>
    var activations: seq<Matrix>
    /** How many Adam mini-batches the network has learned from. */
    ghost var adamSteps: nat

    /** The network and hyperparameters every update reads. */
    function Config(): Optimizers.Config
    {
      Optimizers.Config(net, momentum, adadeltaY, adamB1, adamB2, sqrt, opt)
    }

    /** The fields the optimizers and `train` update. */
    function State(): Optimizers.State
      reads this`weights, this`biases, this`oldErrW, this`oldErrB, this`errWSquare, this`errBSquare
      reads this`errWSum, this`errBSum, this`init, this`adamB1Pow, this`adamB2Pow
    {
      Optimizers.State(weights, biases, oldErrW, oldErrB, errWSquare, errBSquare, errWSum, errBSum,
                       init, adamB1Pow, adamB2Pow)
    }

    /** The class invariant: a well-formed configuration, every list shaped
        by the layer list, and each Adam power tracker equal to its decay
        raised to one more than the Adam mini-batches learned so far. */
    ghost predicate Valid()
      reads this`weights, this`biases, this`oldErrW, this`oldErrB, this`errWSquare, this`errBSquare
      reads this`errWSum, this`errBSum, this`init, this`adamB1Pow, this`adamB2Pow, this`adamSteps
    {
      Ready() && PowersTrack()
    }

    /** Each Adam power tracker equals its decay raised to one more than
        the Adam mini-batches learned so far. */
    ghost predicate PowersTrack()
      reads this`adamB1Pow, this`adamB2Pow, this`adamSteps
    {
      adamB1Pow == Pow(adamB1, adamSteps + 1) && adamB2Pow == Pow(adamB2, adamSteps + 1)
    }

    /** What an optimizer's update needs: a well-formed configuration and
        every list shaped by the layer list. */
    ghost predicate Ready()
      reads this`weights, this`biases, this`oldErrW, this`oldErrB, this`errWSquare, this`errBSquare
      reads this`errWSum, this`errBSum, this`init, this`adamB1Pow, this`adamB2Pow
    {
      ConfigOK(Config()) && StateOK(Config(), State())
    }

    /** What a forward or backward pass needs: a well-formed network and
        parameters shaped by its layer list. */
    ghost predicate CanRun()
      reads this`weights, this`biases
    {
      NetOK(net) && ParamsFit(net.layers, weights, biases)
    }

    /** __init__, with the draws of np.random.random for the weights and
        the biases as parameters. */
    constructor (layers: seq<Layer>, initRangeScale: real, activate: real -> real, prime: real -> real,
                 momentum: real, adadeltaY: real, adamB1: real, adamB2: real,
                 negative: bool, softMaxOutput: bool, optimalisation: Optimalisation,
                 exp: real -> real, sqrt: real -> real, drawsW: seq<Matrix>, drawsB: seq<Matrix>)
      requires ConfigOK(Optimizers.Config(Net(layers, activate, prime, exp, softMaxOutput),
                                          momentum, adadeltaY, adamB1, adamB2, sqrt, optimalisation))
      requires Fits(drawsW, WeightShapes(layers)) && Fits(drawsB, BiasShapes(layers))
      ensures Valid() && adamSteps == 0
      ensures net == Net(layers, activate, prime, exp, softMaxOutput) && opt == optimalisation
      ensures this.initRangeScale == initRangeScale && this.momentum == momentum && this.adadeltaY == adadeltaY
      ensures this.adamB1 == adamB1 && this.adamB2 == adamB2 && this.sqrt == sqrt
      ensures State() == Initial(Config(), InitialParams(negative, initRangeScale, drawsW),
                                 InitialParams(negative, initRangeScale, drawsB))
      ensures zValues == [] && activations == []
    {
      this.adadeltaY := adadeltaY;
      this.adamB1 := adamB1;
      this.adamB2 := adamB2;
      adamB1Pow := adamB1;
      adamB2Pow := adamB2;
      opt := optimalisation;
      net := Net(layers, activate, prime, exp, softMaxOutput);
      this.momentum := momentum;
      this.initRangeScale := initRangeScale;
      this.sqrt := sqrt;
      zValues := [];
      activations := [];
      var z := ZeroGrads(layers);
      oldErrB, oldErrW := z.b, z.w;
      init := false;
      errBSquare, errWSquare := z.b, z.w;
      errBSum, errWSum := z.b, z.w;
      var ws := InitialParams(negative, initRangeScale, drawsW);
      var bs := InitialParams(negative, initRangeScale, drawsB);
      FitsLike(ws, drawsW, WeightShapes(layers));
      FitsLike(bs, drawsB, BiasShapes(layers));
      weights, biases := ws, bs;
      adamSteps := 0;
      assert Pow(adamB1, 0) == 1.0 && Pow(adamB2, 0) == 1.0;
    }

    /** forward_for_learning_fast: fills `activations` and `z_values` with
        the trace of x and returns the last activation. */
    method ForwardForLearningFast(x: seq<real>) returns (out: Matrix)
      requires CanRun() && InputFits(net.layers, x)
      modifies this`activations, this`zValues
      ensures Trace(activations, zValues) == Forward(net, weights, biases, x)
      ensures out == Output(net, weights, biases, x)
    {
      hide Run, MatMul, Add, Apply, Softmax, ColumnOf;
      activations := [ColumnOf(x)];
      zValues := [];
      var i := 0;
      while i < |weights|
        invariant 0 <= i <= |net.layers|
        invariant Trace(activations, zValues) == Run(net, weights, biases, ColumnOf(x), i)
      {
        ForwardLayer(x, i);
        i := i + 1;
      }
      if net.softMaxOutput {
        activations := activations[|activations| - 1 := Softmax(net.exp, activations[|activations| - 1])];
      }
      out := activations[|activations| - 1];
    }

    /** One pass of the forward loop: layer i's z and activation appended. */
    method ForwardLayer(ghost x: seq<real>, i: nat)
      requires CanRun() && InputFits(net.layers, x) && i < |net.layers|
      requires Trace(activations, zValues) == Run(net, weights, biases, ColumnOf(x), i)
      modifies this`activations, this`zValues
      ensures Trace(activations, zValues) == Run(net, weights, biases, ColumnOf(x), i + 1)
    {
      hide MatMul, Add, Apply, ColumnOf;
      assert i > 0 ==> Feeds(net.layers, i - 1);
      zValues := zValues + [Add(MatMul(weights[i], activations[|activations| - 1]), biases[i])];
      activations := activations + [Apply(net.activate, zValues[|zValues| - 1])];
    }

    /** forward_for_testing: the same output, keeping only the current
        activation and leaving the cache alone. */
    method ForwardForTesting(x: seq<real>) returns (out: Matrix)
      requires CanRun() && InputFits(net.layers, x)
      ensures out == Output(net, weights, biases, x)
    {
      hide MatMul, Add, Apply, Softmax, ColumnOf;
      var activation := ColumnOf(x);
      var i := 0;
      while i < |weights|
        invariant 0 <= i <= |net.layers|
        invariant activation == Run(net, weights, biases, ColumnOf(x), i).acts[i]
      {
        assert i > 0 ==> Feeds(net.layers, i - 1);
        var z := Add(MatMul(weights[i], activation), biases[i]);
        activation := Apply(net.activate, z);
        i := i + 1;
      }
      if net.softMaxOutput {
        out := Softmax(net.exp, activation);
        return;
      }
      out := activation;
    }

    /** backpropagate: a training forward pass, then the error signals from
        the last layer down, reversed into input-to-output order. */
    method Backpropagate(x: seq<real>, result: int) returns (g: Grads)
      requires CanRun() && ExampleFits(net.layers, x, result)
      modifies this`activations, this`zValues
      ensures activations == Forward(net, weights, biases, x).acts
      ensures zValues == Forward(net, weights, biases, x).zs
      ensures g == Gradients(net, weights, biases, x, result)
    {
      hide Gradients, Run, MatMul, Mul, Apply, Transpose, Cost, Softmax;
      var _ := ForwardForLearningFast(x);
      ghost var t := Forward(net, weights, biases, x);
      TraceReady(net, weights, biases, x, result);
      var last := |net.layers|;
      var y := OutputArray(result, net.layers[last - 1].outputs).value;
      var cost := Cost(activations[last], y);
      var delta := Mul(cost, Apply(net.prime, zValues[last - 1]));
      var errB := [delta];
      var errW := [MatMul(delta, Transpose(activations[last - 1]))];
      var layerIndex := 2;
      while layerIndex <= last
        invariant 2 <= layerIndex <= last + 1
        invariant Grads(errB, errW) == Backward(net, weights, t, y, last + 1 - layerIndex)
        invariant delta == Delta(net, weights, t, y, last + 1 - layerIndex)
      {
        var zValue := zValues[last - layerIndex];
        var prime := Apply(net.prime, zValue);
        assert Feeds(net.layers, last - layerIndex);
        delta := Mul(MatMul(Transpose(weights[last - layerIndex + 1]), delta), prime);
        assert delta == Delta(net, weights, t, y, last - layerIndex);
        var w := MatMul(delta, Transpose(activations[last - layerIndex]));
        assert Backward(net, weights, t, y, last - layerIndex) == Grads(errB + [delta], errW + [w]);
        errB := errB + [delta];
        errW := errW + [w];
        layerIndex := layerIndex + 1;
      }
      ghost var back := Backward(net, weights, t, y, 0);
      assert errB == back.b && errW == back.w;
      BackwardIsGradients(net, weights, biases, x, result);
      errB := Reversed(errB);
      errW := Reversed(errW);
      g := Grads(errB, errW);
    }

    /** The loop every optimizer starts with: the gradients of each (example,
        label) pair of the mini-batch summed from zero, at the parameters of
        the current state s. */
    method SumGradients(ghost s: Optimizers.State, xs: seq<seq<real>>, ys: seq<int>) returns (acc: Grads)
      requires State() == s && StepReady(Config(), s, xs, ys)
      modifies this`activations, this`zValues
      ensures acc == BatchGrads(Config(), s, xs, ys)
    {
      hide Gradients, AddGrads;
      acc := ZeroGrads(net.layers);
      var k := 0;
      while k < Pairs(xs, ys)
        invariant k <= Pairs(xs, ys)
        invariant acc == GradSum(net, weights, biases, xs, ys, k)
      {
        var g := Backpropagate(xs[k], ys[k]);
        acc := AddGrads(net.layers, acc, g);
        k := k + 1;
      }
    }

    /** momentum_train */
    method MomentumTrain(xs: seq<seq<real>>, ys: seq<int>, eta: real)
      requires Valid() && BatchFits(net.layers, xs, ys) && |xs| > 0
      modifies this
      ensures Valid() && adamSteps == old(adamSteps)
      ensures State() == MomentumStep(Config(), old(State()), xs, ys, eta)
    {
      hide MomentumApply, GradSum, SquareSum, Gradients;
      ghost var s := State();
      var err := SumGradients(s, xs, ys);
      ApplyMomentum(s, err, |xs| as real, eta);
    }

    /** The second half of momentum_train: the update from the summed
        gradients of a batch of `size` examples. */
    method ApplyMomentum(ghost s: Optimizers.State, err: Grads, size: real, eta: real)
      requires State() == s && StateFits(net.layers, s) && GradsFit(net.layers, err) && size != 0.0
      modifies this`weights, this`biases, this`oldErrW, this`oldErrB
      ensures State() == MomentumApply(Config(), s, err, size, eta)
    {
      var bShapes, wShapes := BiasShapes(net.layers), WeightShapes(net.layers);
      FitsAgree(err.b, oldErrB, bShapes);
      FitsAgree(err.w, oldErrW, wShapes);
      var errB := MomentumUpdate(eta, size, momentum, err.b, oldErrB);
      var errW := MomentumUpdate(eta, size, momentum, err.w, oldErrW);
      FitsLike(errB, err.b, bShapes);
      FitsLike(errW, err.w, wShapes);
      weights := Descend(wShapes, weights, errW);
      biases := Descend(bShapes, biases, errB);
      oldErrW := errW;
      oldErrB := errB;
    }

    /** nestors_momentum_train */
    method NestorsMomentumTrain(xs: seq<seq<real>>, ys: seq<int>, eta: real)
      requires Valid() && BatchFits(net.layers, xs, ys) && |xs| > 0
      modifies this
      ensures Valid() && adamSteps == old(adamSteps)
      ensures State() == NesterovStep(Config(), old(State()), xs, ys, eta)
    {
      hide NesterovApply, GradSum, SquareSum, Gradients;
      ghost var s := State();
      var err := SumGradients(s, xs, ys);
      ApplyNesterov(s, err, |xs| as real, eta);
    }

    /** The second half of nestors_momentum_train. */
    method ApplyNesterov(ghost s: Optimizers.State, err: Grads, size: real, eta: real)
      requires State() == s && StateFits(net.layers, s) && GradsFit(net.layers, err) && size != 0.0
      modifies this`weights, this`biases, this`oldErrW, this`oldErrB
      ensures State() == NesterovApply(Config(), s, err, size, eta)
    {
      var bShapes, wShapes := BiasShapes(net.layers), WeightShapes(net.layers);
      FitsAgree(err.b, oldErrB, bShapes);
      FitsAgree(err.w, oldErrW, wShapes);
      var errB := NesterovUpdate(eta, size, momentum, err.b, oldErrB);
      var errW := NesterovUpdate(eta, size, momentum, err.w, oldErrW);
      FitsLike(errB, err.b, bShapes);
      FitsLike(errW, err.w, wShapes);
      weights := Descend(wShapes, weights, errW);
      biases := Descend(bShapes, biases, errB);
      oldErrW := errW;
      oldErrB := errB;
    }

    /** The loop of adagrad_train, adadelta_train and adam_train: the
        gradients of the mini-batch summed from zero, and their squares
        added into `start` (the session accumulators for adagrad, zero for
        the other two). */
    method SumGradientsAndSquares(ghost s: Optimizers.State, xs: seq<seq<real>>, ys: seq<int>, start: Grads)
      returns (acc: Grads, square: Grads)
      requires State() == s && StepReady(Config(), s, xs, ys) && GradsFit(net.layers, start)
      modifies this`activations, this`zValues
      ensures acc == BatchGrads(Config(), s, xs, ys)
      ensures square == BatchSquares(Config(), s, xs, ys, start)
    {
      hide Gradients, AddGrads, AddSquares, ZeroGrads, StepReady;
      acc, square := ZeroGrads(net.layers), start;
      var k := 0;
      while k < Pairs(xs, ys)
        invariant SummedUpTo(Config(), s, xs, ys, start, k, acc, square)
      {
        acc, square := AddExample(s, xs, ys, start, k, acc, square);
        k := k + 1;
      }
    }

    /** One pass of that loop: pair k backpropagated, its gradients added
        into `acc` and their squares into `square`. */
    method AddExample(ghost s: Optimizers.State, xs: seq<seq<real>>, ys: seq<int>, ghost start: Grads, k: nat, acc: Grads, square: Grads)
      returns (acc': Grads, square': Grads)
      requires State() == s && SummedUpTo(Config(), s, xs, ys, start, k, acc, square) && k < Pairs(xs, ys)
      modifies this`activations, this`zValues
      ensures SummedUpTo(Config(), s, xs, ys, start, k + 1, acc', square')
    {
      hide Gradients, AddGrads, AddSquares;
      var g := Backpropagate(xs[k], ys[k]);
      acc' := AddGrads(net.layers, acc, g);
      square' := AddSquares(net.layers, square, g);
    }

    /** adagrad_train: the squared gradients go straight into the
        accumulators inside the loop. */
    method AdagradTrain(xs: seq<seq<real>>, ys: seq<int>, eta: real)
      requires Valid() && BatchFits(net.layers, xs, ys) && |xs| > 0
      modifies this
      ensures Valid() && adamSteps == old(adamSteps)
      ensures State() == AdagradStep(Config(), old(State()), xs, ys, eta)
    {
      hide AdagradApply, GradSum, SquareSum, Gradients;
      ghost var s := State();
      var err, square := SumGradientsAndSquares(s, xs, ys, Grads(errBSquare, errWSquare));
      AtLeastNonNegative(square.b, s.errBSquare);
      AtLeastNonNegative(square.w, s.errWSquare);
      ApplyAdagrad(s, err, square, |xs| as real, eta);
    }

    /** The second half of adagrad_train: the accumulators take the sums
        of the loop, then set each cell's rate. */
    method ApplyAdagrad(ghost s: Optimizers.State, err: Grads, square: Grads, size: real, eta: real)
      requires State() == s && ConfigOK(Config()) && StateFits(net.layers, s)
      requires GradsFit(net.layers, err) && GradsFit(net.layers, square) && size != 0.0
      requires NonNegative(square.b) && NonNegative(square.w)
      modifies this`errBSquare, this`errWSquare, this`weights, this`biases
      ensures State() == AdagradApply(Config(), s, err, square, size, eta)
    {
      errBSquare, errWSquare := square.b, square.w;
      weights := AdaptiveParams(sqrt, WeightShapes(net.layers), weights, err.w, errWSquare, eta, size);
      biases := AdaptiveParams(sqrt, BiasShapes(net.layers), biases, err.b, errBSquare, eta, size);
    }

    /** adadelta_train: this batch's squared gradients seed the
        accumulators on the first call and are blended in afterwards. */
    method AdadeltaTrain(xs: seq<seq<real>>, ys: seq<int>, eta: real)
      requires Valid() && AdadeltaDecayOK(Config()) && BatchFits(net.layers, xs, ys) && |xs| > 0
      modifies this
      ensures Valid() && adamSteps == old(adamSteps)
      ensures State() == AdadeltaStep(Config(), old(State()), xs, ys, eta)
    {
      hide AdadeltaApply, GradSum, SquareSum, Gradients;
      ghost var s := State();
      var zero := ZeroGrads(net.layers);
      var err, square := SumGradientsAndSquares(s, xs, ys, zero);
      AtLeastNonNegative(square.b, zero.b);
      AtLeastNonNegative(square.w, zero.w);
      ApplyAdadelta(s, err, square, |xs| as real, eta);
    }

    /** The second half of adadelta_train: the accumulators seeded or
        blended, then each cell's rate set by them. */
    method ApplyAdadelta(ghost s: Optimizers.State, err: Grads, square: Grads, size: real, eta: real)
      requires State() == s && ConfigOK(Config()) && AdadeltaDecayOK(Config()) && StateFits(net.layers, s)
      requires GradsFit(net.layers, err) && GradsFit(net.layers, square) && size != 0.0
      requires NonNegative(square.b) && NonNegative(square.w)
      modifies this`init, this`errBSquare, this`errWSquare, this`weights, this`biases
      ensures State() == AdadeltaApply(Config(), s, err, square, size, eta)
    {
      var bShapes, wShapes := BiasShapes(net.layers), WeightShapes(net.layers);
      if init {
        FitsAgree(errBSquare, square.b, bShapes);
        FitsAgree(errWSquare, square.w, wShapes);
        errBSquare := Blend(adadeltaY, errBSquare, square.b);
        errWSquare := Blend(adadeltaY, errWSquare, square.w);
        FitsLike(errBSquare, square.b, bShapes);
        FitsLike(errWSquare, square.w, wShapes);
      } else {
        init := true;
        errBSquare := square.b;
        errWSquare := square.w;
      }
      weights := AdaptiveParams(sqrt, wShapes, weights, err.w, errWSquare, eta, size);
      biases := AdaptiveParams(sqrt, bShapes, biases, err.b, errBSquare, eta, size);
    }

    /** adam_train: both moments seeded or blended, corrected by the power
        trackers, which advance right after they are used. */
    method AdamTrain(xs: seq<seq<real>>, ys: seq<int>, eta: real)
      requires Valid() && AdamDecaysOK(Config()) && BatchFits(net.layers, xs, ys) && |xs| > 0
      modifies this
      ensures Valid() && adamSteps == old(adamSteps) + 1
      ensures TrackersOK(old(State())) && State() == AdamStep(Config(), old(State()), xs, ys, eta)
    {
      hide AdamApply, GradSum, SquareSum, Gradients;
      ghost var s := State();
      PowerTrackerIsBiasCorrection(Config(), s, xs, ys, eta, adamSteps);
      var zero := ZeroGrads(net.layers);
      var sum, square := SumGradientsAndSquares(s, xs, ys, zero);
      AtLeastNonNegative(square.b, zero.b);
      AtLeastNonNegative(square.w, zero.w);
      ApplyAdam(s, sum, square, |xs| as real, eta);
      adamSteps := adamSteps + 1;
    }

    /** The second half of adam_train. */
    method ApplyAdam(ghost s: Optimizers.State, sum: Grads, square: Grads, size: real, eta: real)
      requires State() == s && ConfigOK(Config()) && AdamDecaysOK(Config()) && StateFits(net.layers, s) && TrackersOK(s)
      requires GradsFit(net.layers, sum) && GradsFit(net.layers, square) && size != 0.0
      requires NonNegative(square.b) && NonNegative(square.w)
      modifies this`init, this`errBSquare, this`errWSquare, this`errBSum, this`errWSum
      modifies this`weights, this`biases, this`adamB1Pow, this`adamB2Pow
      ensures State() == AdamApply(Config(), s, sum, square, size, eta)
      ensures adamB1Pow == Decayed(s.adamB1Pow, adamB1) && adamB2Pow == Decayed(s.adamB2Pow, adamB2)
    {
      hide AdamParams, SeedOrBlend, DivideAll, AdamDescent, Blend, BiasShapes, WeightShapes;
      ghost var m := AdamMoments(Config(), s, sum, square);
      BlendMoments(sum, square);
      assert errBSum == m.errBSum && errWSum == m.errWSum && errBSquare == m.errBSquare && errWSquare == m.errWSquare;
      CorrectAndDescend(size, eta);
    }

    /** The second half of adam_train's update: the moments corrected with
        the power trackers, each tracker advanced right after its use, and
        the parameters moved. */
    method CorrectAndDescend(size: real, eta: real)
      requires SqrtOK(sqrt) && size != 0.0 && 0.0 <= adamB1Pow < 1.0 && 0.0 <= adamB2Pow < 1.0
      requires ParamsFit(net.layers, weights, biases) && ParamsFit(net.layers, errWSum, errBSum)
      requires ParamsFit(net.layers, errWSquare, errBSquare) && NonNegative(errWSquare) && NonNegative(errBSquare)
      modifies this`weights, this`biases, this`adamB1Pow, this`adamB2Pow
      ensures weights == AdamParams(sqrt, WeightShapes(net.layers), old(weights), errWSum, errWSquare, old(adamB1Pow), old(adamB2Pow), eta, size)
      ensures biases == AdamParams(sqrt, BiasShapes(net.layers), old(biases), errBSum, errBSquare, old(adamB1Pow), old(adamB2Pow), eta, size)
      ensures adamB1Pow == Decayed(old(adamB1Pow), adamB1) && adamB2Pow == Decayed(old(adamB2Pow), adamB2)
    {
      hide DivideAll, AdamDescent, BiasShapes, WeightShapes;
      var bShapes, wShapes := BiasShapes(net.layers), WeightShapes(net.layers);
      var mb := DivideAll(errBSum, 1.0 - adamB1Pow);
      var mw := DivideAll(errWSum, 1.0 - adamB1Pow);
      adamB1Pow := Decayed(adamB1Pow, adamB1);
      var vb := DivideAll(errBSquare, 1.0 - adamB2Pow);
      var vw := DivideAll(errWSquare, 1.0 - adamB2Pow);
      adamB2Pow := Decayed(adamB2Pow, adamB2);
      FitsLike(mb, errBSum, bShapes);
      FitsLike(mw, errWSum, wShapes);
      FitsLike(vb, errBSquare, bShapes);
      FitsLike(vw, errWSquare, wShapes);
      FitsAgree(weights, mw, wShapes);
      FitsAgree(weights, vw, wShapes);
      FitsAgree(biases, mb, bShapes);
      FitsAgree(biases, vb, bShapes);
      weights := AdamDescent(sqrt, eta, size, weights, mw, vw);
      biases := AdamDescent(sqrt, eta, size, biases, mb, vb);
    }

    /** The first half of adam_train's update: both moments seeded with
        this batch's sums on the first call, blended in afterwards. */
    method BlendMoments(sum: Grads, square: Grads)
      requires GradsFit(net.layers, sum) && GradsFit(net.layers, square)
      requires GradsFit(net.layers, Grads(errBSum, errWSum)) && GradsFit(net.layers, Grads(errBSquare, errWSquare))
      modifies this`init, this`errBSquare, this`errWSquare, this`errBSum, this`errWSum
      ensures init
      ensures errBSquare == SeedOrBlend(old(init), adamB2, BiasShapes(net.layers), old(errBSquare), square.b)
      ensures errWSquare == SeedOrBlend(old(init), adamB2, WeightShapes(net.layers), old(errWSquare), square.w)
      ensures errBSum == SeedOrBlend(old(init), adamB1, BiasShapes(net.layers), old(errBSum), sum.b)
      ensures errWSum == SeedOrBlend(old(init), adamB1, WeightShapes(net.layers), old(errWSum), sum.w)
    {
      if init {
        var bShapes, wShapes := BiasShapes(net.layers), WeightShapes(net.layers);
        FitsAgree(errBSquare, square.b, bShapes);
        FitsAgree(errWSquare, square.w, wShapes);
        FitsAgree(errBSum, sum.b, bShapes);
        FitsAgree(errWSum, sum.w, wShapes);
        errBSquare := Blend(adamB2, errBSquare, square.b);
        errWSquare := Blend(adamB2, errWSquare, square.w);
        errBSum := Blend(adamB1, errBSum, sum.b);
        errWSum := Blend(adamB1, errWSum, sum.w);
      } else {
        init := true;
        errBSquare := square.b;
        errWSquare := square.w;
        errBSum := sum.b;
        errWSum := sum.w;
      }
    }

    /** _train_mini_batch: the update rule of the selected optimizer. */
    method TrainMiniBatch(xs: seq<seq<real>>, ys: seq<int>, eta: real)
      requires Valid() && BatchFits(net.layers, xs, ys) && |xs| > 0
      modifies this
      ensures Valid() && adamSteps == old(adamSteps) + (if opt == Adam then 1 else 0)
      ensures State() == MiniBatchStep(Config(), old(State()), xs, ys, eta)
    {
      match opt
      case Momentum => MomentumTrain(xs, ys, eta);
      case NestrovMomentum => NestorsMomentumTrain(xs, ys, eta);
      case Adagrad => AdagradTrain(xs, ys, eta);
      case Adadelta => AdadeltaTrain(xs, ys, eta);
      case Adam => AdamTrain(xs, ys, eta);
    }

    /** train: every epoch shuffles the caller's examples and labels in
        place with the same draws, cuts the mini-batches, and learns from
        each, zeroing the previous updates after every one. */
    method Train(input: array<seq<real>>, values: array<int>, epochs: nat, draws: seq<seq<nat>>, miniBatchSize: nat, eta: real)
      requires Valid() && DataFits(net.layers, input[..], values[..])
      requires |draws| == epochs && AllDrawsFit(draws, input.Length) && (epochs > 0 ==> miniBatchSize > 0)
      modifies this, input, values
      ensures Valid()
      ensures input[..] == Shuffled(old(input[..]), draws) && values[..] == Shuffled(old(values[..]), draws)
      ensures State() == Optimizers.Train(Config(), old(State()), old(input[..]), old(values[..]), draws, miniBatchSize, eta)
      ensures adamSteps == old(adamSteps) + (if opt == Adam && epochs > 0 then epochs * NumBatches(input.Length, miniBatchSize) else 0)
    {
      hide Epoch, Shuffle, PowersTrack;
      ghost var s0, xs0, ys0 := State(), input[..], values[..];
      ghost var perEpoch := if miniBatchSize > 0 then NumBatches(input.Length, miniBatchSize) else 0;
      var epoch := 0;
      while epoch < epochs
        invariant epoch <= epochs && Valid()
        invariant input[..] == Shuffled(xs0, draws[..epoch]) && values[..] == Shuffled(ys0, draws[..epoch])
        invariant State() == Optimizers.Train(Config(), s0, xs0, ys0, draws[..epoch], miniBatchSize, eta)
        invariant adamSteps == old(adamSteps) + (if opt == Adam && epochs > 0 then epoch * perEpoch else 0)
      {
        assert draws[..epoch + 1][..epoch] == draws[..epoch];
        TrainEpoch(input, values, s0, xs0, ys0, draws[..epoch + 1], miniBatchSize, eta);
        NextMultiple(epoch, perEpoch);
        epoch := epoch + 1;
      }
      assert draws[..epochs] == draws;
    }

    lemma NextMultiple(e: nat, n: nat)
      ensures (e + 1) * n == e * n + n
    {
    }

    /** One pass of train's epoch loop: both arrays shuffled by the same
        draw, then the epoch's mini-batches. */
    method TrainEpoch(input: array<seq<real>>, values: array<int>, ghost s0: Optimizers.State, ghost xs0: seq<seq<real>>, ghost ys0: seq<int>,
                      draws: seq<seq<nat>>, miniBatchSize: nat, eta: real)
      requires Valid() && DataFits(net.layers, xs0, ys0) && StateOK(Config(), s0)
      requires |draws| > 0 && AllDrawsFit(draws, |xs0|) && miniBatchSize > 0
      requires input[..] == Shuffled(xs0, draws[..|draws| - 1]) && values[..] == Shuffled(ys0, draws[..|draws| - 1])
      requires State() == Optimizers.Train(Config(), s0, xs0, ys0, draws[..|draws| - 1], miniBatchSize, eta)
      modifies this, input, values
      ensures Valid()
      ensures input[..] == Shuffled(xs0, draws) && values[..] == Shuffled(ys0, draws)
      ensures State() == Optimizers.Train(Config(), s0, xs0, ys0, draws, miniBatchSize, eta)
      ensures adamSteps == old(adamSteps) + (if opt == Adam then NumBatches(input.Length, miniBatchSize) else 0)
    {
      hide Epoch, Shuffle, PowersTrack;
      ShuffleInPlace(input, draws[|draws| - 1]);
      ShuffleInPlace(values, draws[|draws| - 1]);
      ShuffledFits(net.layers, xs0, ys0, draws);
      RunEpoch(input[..], values[..], miniBatchSize, eta);
    }

    /** One epoch of train after the shuffle: the list of mini-batches,
        then each through _train_mini_batch, with the previous updates
        zeroed after every one. */
    method RunEpoch(input: seq<seq<real>>, values: seq<int>, miniBatchSize: nat, eta: real)
      requires Valid() && DataFits(net.layers, input, values) && miniBatchSize > 0
      modifies this
      ensures Valid()
      ensures State() == Epoch(Config(), old(State()), input, values, miniBatchSize, eta, NumBatches(|input|, miniBatchSize))
      ensures adamSteps == old(adamSteps) + (if opt == Adam then NumBatches(|input|, miniBatchSize) else 0)
    {
      hide BatchStep, PowersTrack;
      NumBatchesIsQuotient(|input|, miniBatchSize);
      var count := |input| / miniBatchSize;
      var miniBatches := seq(count, b requires 0 <= b < count => Slice(input, b, miniBatchSize));
      var miniBatchesResults := seq(count, b requires 0 <= b < count => Slice(values, b, miniBatchSize));
      ghost var start := State();
      var num := 0;
      while num < count
        invariant num <= count && Valid()
        invariant State() == Epoch(Config(), start, input, values, miniBatchSize, eta, num)
        invariant adamSteps == old(adamSteps) + (if opt == Adam then num else 0)
      {
        LearnBatch(input, values, miniBatchSize, eta, num, miniBatches[num], miniBatchesResults[num]);
        num := num + 1;
      }
    }

    /** One pass of train's inner loop: mini-batch `num` through
        _train_mini_batch, then the previous updates zeroed. */
    method LearnBatch(ghost input: seq<seq<real>>, ghost values: seq<int>, ghost miniBatchSize: nat, eta: real, ghost num: nat,
                      batch: seq<seq<real>>, result: seq<int>)
      requires Valid() && DataFits(net.layers, input, values) && miniBatchSize > 0 && num < NumBatches(|input|, miniBatchSize)
      requires batch == Slice(input, num, miniBatchSize) && result == Slice(values, num, miniBatchSize)
      modifies this
      ensures Valid() && adamSteps == old(adamSteps) + (if opt == Adam then 1 else 0)
      ensures State() == BatchStep(Config(), old(State()), input, values, miniBatchSize, eta, num)
    {
      hide MiniBatchStep;
      SliceFits(net.layers, input, values, num, miniBatchSize);
      TrainMiniBatch(batch, result, eta);
      var zero := ZeroGrads(net.layers);
      oldErrB := zero.b;
      oldErrW := zero.w;
    }

    /** test: the share of (example, label) pairs whose prediction is the
        label, in percent of the number of labels; with no labels the
        division fails, None here. */
    method Test(input: seq<seq<real>>, values: seq<int>) returns (score: Option<real>)
      requires Valid()
      requires forall e :: 0 <= e < Pairs(input, values) ==>
                 InputFits(net.layers, input[e]) && OutputWidth(net.layers, |input[e]|) > 0
      ensures score.None? <==> |values| == 0
      ensures score.Some? ==>
                score.value == CountCorrect(net, weights, biases, input, values, Pairs(input, values)) as real
                                 / |values| as real * 100.0
                && 0.0 <= score.value <= 100.0
    {
      hide Output, Forward, Argmax, Column, PowersTrack;
      var positive := 0;
      var iter := 0;
      while iter < Pairs(input, values)
        invariant iter <= Pairs(input, values)
        invariant positive == CountCorrect(net, weights, biases, input, values, iter)
      {
        var out := ForwardForTesting(input[iter]);
        var result := Argmax(Column(out, 0));
        if result == values[iter] {
          positive := positive + 1;
        }
        iter := iter + 1;
      }
      if |values| == 0 {
        return None;
      }
      ScoreInPercent(positive, Pairs(input, values), |values|);
      score := Some(positive as real / |values| as real * 100.0);
    }

    /** predict: the first row of the largest output. */
    method Predict(input: seq<real>) returns (k: nat)
      requires Valid() && InputFits(net.layers, input) && OutputWidth(net.layers, |input|) > 0
      ensures k == Predicted(net, weights, biases, input)
      ensures k < OutputWidth(net.layers, |input|)
      ensures forall j :: 0 <= j < OutputWidth(net.layers, |input|) ==>
                Output(net, weights, biases, input).cells[j][0] <= Output(net, weights, biases, input).cells[k][0]
    {
      var out := ForwardForTesting(input);
      k := Argmax(Column(out, 0));
    }
  }
}
