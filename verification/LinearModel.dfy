/**
 Linear regression by full-batch gradient descent on the mean squared error.

 The class `LinearModel` is the mutable model with its loops; the functions before it say what the loops
 compute; the lemmas between them are what training promises: the loss never rises.
 */
module LinearModels {
  import opened Vectors

  datatype Option<+T> = None | Some(value: T)

  datatype Sample = Sample(features: Vec, target: real)

  ghost predicate Shaped(D: seq<Sample>, d: nat) {
    forall i | 0 <= i < |D| :: |D[i].features| == d
  }

  /** The residual of one prediction. */
  function Err(m: Params, s: Sample): real
    requires |m.w| == |s.features|
  {
    Inner(m, Point(s.features)) - s.target
  }

  /** Sum of squared residuals. */
  function SqErr(m: Params, D: seq<Sample>): real
    requires Shaped(D, |m.w|)
  {
    if |D| == 0 then 0.0
    else var n := |D| - 1; SqErr(m, D[..n]) + Err(m, D[n]) * Err(m, D[n])
  }

  /** Half the gradient of `SqErr`: every sample's point weighted by its residual. */
  function GradSum(m: Params, D: seq<Sample>): (g: Params)
    requires Shaped(D, |m.w|)
    ensures |g.w| == |m.w|
  {
    if |D| == 0 then PZero(|m.w|)
    else var n := |D| - 1; PAdd(GradSum(m, D[..n]), PScale(Err(m, D[n]), Point(D[n].features)))
  }

  /** Sum of squared lengths of the points: |D| times the mean of 1 + |x|^2. */
  function Energy(D: seq<Sample>): real
  {
    if |D| == 0 then 0.0
    else var n := |D| - 1; Energy(D[..n]) + Inner(Point(D[n].features), Point(D[n].features))
  }

  function Mean(sum: real, n: nat): real
    requires n > 0
  {
    sum / (n as real)
  }

  function MSEOf(m: Params, D: seq<Sample>): real
    requires Shaped(D, |m.w|) && |D| > 0
  {
    Mean(SqErr(m, D), |D|)
  }

  /** A model that is off by the same amount everywhere has that amount squared as its mean squared error. */
  lemma {:induction false} EqualErrors(m: Params, D: seq<Sample>, e: real)
    requires Shaped(D, |m.w|) && forall i | 0 <= i < |D| :: Err(m, D[i]) == e
    ensures SqErr(m, D) == (|D| as real) * (e * e)
    ensures |D| > 0 ==> MSEOf(m, D) == e * e
  {
    hide Err;
    if |D| > 0 {
      EqualErrors(m, D[..|D| - 1], e);
      MeanOfSum(SqErr(m, D), e * e, |D|);
    }
  }

  lemma MeanOfSum(sum: real, x: real, n: nat)
    requires n > 0 && sum == (n as real) * x
    ensures Mean(sum, n) == x
  {}

  /** The factor 2/n on every gradient term; with no samples there are no terms and any value will do. */
  function Factor(n: nat): real {
    if n == 0 then 0.0 else 2.0 / (n as real)
  }

  /** The term (2/n) * err that multiplies a sample's features. */
  function Push(n: nat, err: real): real {
    Factor(n) * err
  }

  /** How far along the gradient sum one epoch moves: downhill, lr times the mean. */
  function Move(lr: real, n: nat): real {
    -lr * Factor(n)
  }

  /** One epoch: move against the gradient of the mean squared error. */
  function Step(m: Params, D: seq<Sample>, lr: real): (r: Params)
    requires Shaped(D, |m.w|)
    ensures |r.w| == |m.w|
  {
    PAdd(m, PScale(Move(lr, |D|), GradSum(m, D)))
  }

  function Epochs(m: Params, D: seq<Sample>, epochs: int, lr: real): (r: Params)
    requires Shaped(D, |m.w|)
    ensures |r.w| == |m.w|
    decreases epochs
  {
    if epochs <= 0 then m else Step(Epochs(m, D, epochs - 1, lr), D, lr)
  }

  // ---------- the loss as a quadratic form ----------

  /** Sum of squared predictions of a direction. */
  function SqLin(d: Params, D: seq<Sample>): real
    requires Shaped(D, |d.w|)
  {
    if |D| == 0 then 0.0
    else var n := |D| - 1;
         var v := Inner(d, Point(D[n].features));
         SqLin(d, D[..n]) + v * v
  }

  lemma {:induction false} SqLinNonNeg(d: Params, D: seq<Sample>)
    requires Shaped(D, |d.w|)
    ensures SqLin(d, D) >= 0.0
  {
    if |D| != 0 {
      SqLinNonNeg(d, D[..|D| - 1]);
    }
  }

  function Quadratic(a: real, b: real, c: real, t: real): real {
    a + t * b + t * t * c
  }

  /** Exact second-order expansion of the loss around any model, along any direction. */
  lemma {:induction false} LossExpansion(m: Params, t: real, d: Params, D: seq<Sample>)
    requires |d.w| == |m.w| && Shaped(D, |m.w|)
    ensures SqErr(PAdd(m, PScale(t, d)), D)
         == Quadratic(SqErr(m, D), 2.0 * Inner(d, GradSum(m, D)), SqLin(d, D), t)
  {
    hide Inner;
    if |D| == 0 {
      InnerZero(d);
    } else {
      var n := |D| - 1;
      var z := Point(D[n].features);
      LossExpansion(m, t, d, D[..n]);
      InnerComb(m, t, d, z);
      InnerAdd(d, GradSum(m, D[..n]), PScale(Err(m, D[n]), z));
      InnerScale(d, Err(m, D[n]), z);
      ExpandStep(SqErr(m, D[..n]), Inner(d, GradSum(m, D[..n])), SqLin(d, D[..n]), Err(m, D[n]), t, Inner(d, z));
    }
  }

  /** g is the gradient of the mean squared error at m: the loss along any direction is linear in it up to t * t. */
  ghost predicate IsGradient(g: Params, m: Params, D: seq<Sample>)
    requires |g.w| == |m.w| && Shaped(D, |m.w|) && |D| > 0
  {
    forall d: Params, t: real | |d.w| == |m.w| ::
      MSEOf(PAdd(m, PScale(t, d)), D) == Quadratic(MSEOf(m, D), Inner(d, g), Mean(SqLin(d, D), |D|), t)
  }

  lemma GradientIsDerivative(m: Params, D: seq<Sample>)
    requires Shaped(D, |m.w|) && |D| > 0
    ensures IsGradient(PScale(Factor(|D|), GradSum(m, D)), m, D)
  {
    hide Inner, PAdd, PScale, Mean, Factor, SqErr, SqLin, GradSum, Quadratic;
    forall d: Params, t: real | |d.w| == |m.w|
      ensures MSEOf(PAdd(m, PScale(t, d)), D)
           == Quadratic(MSEOf(m, D), Inner(d, PScale(Factor(|D|), GradSum(m, D))), Mean(SqLin(d, D), |D|), t)
    {
      LossExpansion(m, t, d, D);
      InnerScale(d, Factor(|D|), GradSum(m, D));
      MeanAlong(SqErr(PAdd(m, PScale(t, d)), D), SqErr(m, D), Inner(d, GradSum(m, D)), SqLin(d, D), t,
                Inner(d, PScale(Factor(|D|), GradSum(m, D))), |D|);
    }
  }

  lemma MeanAlong(sum: real, s: real, g: real, q: real, t: real, h: real, n: nat)
    requires n > 0 && sum == Quadratic(s, 2.0 * g, q, t) && h == Factor(n) * g
    ensures Mean(sum, n) == Quadratic(Mean(s, n), h, Mean(q, n), t)
  {
    var r := n as real;
    assert sum / r == s / r + (t * (2.0 * g)) / r + (t * t * q) / r;
    assert (t * (2.0 * g)) / r == t * ((2.0 / r) * g);
    assert (t * t * q) / r == t * t * (q / r);
  }

  lemma GradientIsUnique(g: Params, h: Params, m: Params, D: seq<Sample>)
    requires |g.w| == |h.w| == |m.w| && Shaped(D, |m.w|) && |D| > 0
    requires IsGradient(g, m, D) && IsGradient(h, m, D)
    ensures g == h
  {
    hide Inner, PAdd, PScale, Mean, SqErr, SqLin, MSEOf;
    var d := PAdd(g, PScale(-1.0, h));
    var moved := PAdd(m, PScale(1.0, d));
    assert MSEOf(moved, D) == Quadratic(MSEOf(m, D), Inner(d, g), Mean(SqLin(d, D), |D|), 1.0);
    assert MSEOf(moved, D) == Quadratic(MSEOf(m, D), Inner(d, h), Mean(SqLin(d, D), |D|), 1.0);
    InnerAdd(d, g, PScale(-1.0, h));
    InnerScale(d, -1.0, h);
    EqualIfNoDistance(g, h);
  }

  /** One epoch moves by -lr times the gradient, whatever way that is found. */
  lemma StepIsGradientDescent(m: Params, D: seq<Sample>, lr: real, g: Params)
    requires |g.w| == |m.w| && Shaped(D, |m.w|) && |D| > 0 && IsGradient(g, m, D)
    ensures Step(m, D, lr) == PAdd(m, PScale(-lr, g))
  {
    hide IsGradient, PAdd, PScale, GradSum, Factor;
    GradientIsDerivative(m, D);
    GradientIsUnique(g, PScale(Factor(|D|), GradSum(m, D)), m, D);
    PScaleScale(-lr, Factor(|D|), Move(lr, |D|), GradSum(m, D));
  }

  lemma ExpandStep(s: real, g: real, q: real, e: real, t: real, v: real)
    ensures Quadratic(s, 2.0 * g, q, t) + (e + t * v) * (e + t * v)
         == Quadratic(s + e * e, 2.0 * (g + e * v), q + v * v, t)
  {
    assert (e + t * v) * (e + t * v) == e * e + t * (2.0 * (e * v)) + t * t * (v * v);
  }

  /** Curvature along `d` is at most |d|^2 times the energy of the data. */
  lemma {:induction false} CurvatureBound(d: Params, D: seq<Sample>)
    requires Shaped(D, |d.w|)
    ensures SqLin(d, D) <= Inner(d, d) * Energy(D)
  {
    hide Inner;
    if |D| != 0 {
      var n := |D| - 1;
      var z := Point(D[n].features);
      CurvatureBound(d, D[..n]);
      PointNotNull(D[n].features);
      CauchySchwarz(d, z);
      BoundStep(Inner(d, d), SqLin(d, D[..n]), Inner(d, z), Energy(D[..n]), Inner(z, z));
    }
  }

  lemma PointNotNull(x: Vec)
    ensures Inner(Point(x), Point(x)) > 0.0
  {
    DotNonNeg(x);
  }

  lemma BoundStep(a: real, s: real, v: real, e1: real, e2: real)
    requires s <= a * e1 && v * v <= a * e2
    ensures s + v * v <= a * (e1 + e2)
  {
    assert a * (e1 + e2) == a * e1 + a * e2;
  }

  // ---------- gradient descent never raises the loss ----------

  ghost predicate SafeRate(D: seq<Sample>, lr: real)
    requires |D| > 0
  {
    0.0 <= lr && lr * Mean(Energy(D), |D|) <= 1.0
  }

  lemma StepDescends(m: Params, D: seq<Sample>, lr: real)
    requires Shaped(D, |m.w|) && |D| > 0 && SafeRate(D, lr)
    ensures MSEOf(Step(m, D, lr), D) <= MSEOf(m, D)
  {
    hide Inner, Factor, Mean;
    var g := GradSum(m, D);
    var t := lr * Factor(|D|);
    LossExpansion(m, -t, g, D);
    assert -t == Move(lr, |D|);
    CurvatureBound(g, D);
    InnerNonNeg(g);
    RateTimesEnergy(lr, Energy(D), |D|);
    DescentArithmetic(Inner(g, g), SqLin(g, D), Energy(D), t);
    MeanMono(SqErr(Step(m, D, lr), D), SqErr(m, D), |D|);
  }

  lemma RateTimesEnergy(lr: real, e: real, n: nat)
    requires n > 0 && 0.0 <= lr && lr * Mean(e, n) <= 1.0
    ensures 0.0 <= lr * Factor(n)
    ensures (lr * Factor(n)) * e <= 2.0
  {
    var r := n as real;
    assert (lr * (2.0 / r)) * e == 2.0 * (lr * (e / r));
  }

  lemma DescentArithmetic(a: real, q: real, e: real, t: real)
    requires a >= 0.0 && t >= 0.0 && q <= a * e && t * e <= 2.0
    ensures 2.0 * (-t) * a + (-t) * (-t) * q <= 0.0
  {
    assert (-t) * (-t) == t * t;
    assert t * t * q <= t * t * (a * e);
    assert t * t * (a * e) == t * a * (t * e);
    assert t * a * (t * e) <= t * a * 2.0;
  }

  lemma MeanMono(a: real, c: real, n: nat)
    requires a <= c && n > 0
    ensures Mean(a, n) <= Mean(c, n)
  {}

  /** Training for any number of epochs returns a loss no larger than the one it started from. */
  lemma {:induction false} TrainingDescends(m: Params, D: seq<Sample>, epochs: int, lr: real)
    requires Shaped(D, |m.w|) && |D| > 0 && SafeRate(D, lr)
    ensures MSEOf(Epochs(m, D, epochs, lr), D) <= MSEOf(m, D)
    decreases epochs
  {
    if epochs > 0 {
      TrainingDescends(m, D, epochs - 1, lr);
      StepDescends(Epochs(m, D, epochs - 1, lr), D, lr);
    }
  }

  ghost predicate InUnitBox(D: seq<Sample>) {
    forall i, j | 0 <= i < |D| && 0 <= j < |D[i].features| :: 0.0 <= D[i].features[j] <= 1.0
  }

  lemma {:induction false} UnitDot(x: Vec)
    requires forall j | 0 <= j < |x| :: 0.0 <= x[j] <= 1.0
    ensures Dot(x, x) <= |x| as real
  {
    if |x| != 0 {
      UnitDot(x[..|x| - 1]);
      UnitSquare(x[|x| - 1]);
    }
  }

  lemma UnitSquare(v: real)
    requires 0.0 <= v <= 1.0
    ensures v * v <= 1.0
  {
    assert v * v <= v * 1.0;
  }

  lemma {:induction false} UnitEnergy(D: seq<Sample>, d: nat)
    requires Shaped(D, d) && InUnitBox(D)
    ensures Energy(D) <= (|D| as real) * (d as real + 1.0)
  {
    if |D| != 0 {
      var n := |D| - 1;
      UnitEnergy(D[..n], d);
      UnitDot(D[n].features);
      assert |D| as real == n as real + 1.0;
      assert (n as real + 1.0) * (d as real + 1.0) == (n as real) * (d as real + 1.0) + (d as real + 1.0);
    }
  }

  /** For features scaled into [0,1], a rate of at most 1/(features + 1) is safe. */
  lemma UnitBoxRateIsSafe(D: seq<Sample>, d: nat, lr: real)
    requires Shaped(D, d) && |D| > 0 && InUnitBox(D)
    requires 0.0 <= lr <= 1.0 / (d as real + 1.0)
    ensures SafeRate(D, lr)
  {
    UnitEnergy(D, d);
    RateBound(lr, Energy(D), d as real + 1.0, |D|);
  }

  lemma RateBound(lr: real, e: real, k: real, n: nat)
    requires n > 0 && k > 0.0 && e <= (n as real) * k && 0.0 <= lr <= 1.0 / k
    ensures lr * Mean(e, n) <= 1.0
  {
    var r := n as real;
    assert e / r <= k by {
      assert (e / r) * r == e;
      assert (e / r - k) * r <= 0.0;
    }
    assert lr * (e / r) <= lr * k;
    assert (1.0 / k) * k == 1.0;
    assert lr * k <= (1.0 / k) * k;
  }

  // ---------- the model with its loops ----------

  function Samples(X: seq<Vec>, y: Vec): (D: seq<Sample>)
    requires |X| == |y|
    ensures |D| == |X|
  {
    seq(|X|, i requires 0 <= i < |X| => Sample(X[i], y[i]))
  }

  /** The first d entries of every sample. */
  function Cut(X: seq<Vec>, d: nat): (r: seq<Vec>)
    requires forall i | 0 <= i < |X| :: |X[i]| >= d
    ensures |r| == |X|
  {
    seq(|X|, i requires 0 <= i < |X| => X[i][..d])
  }

  lemma CutShaped(X: seq<Vec>, y: Vec, d: nat)
    requires |X| <= |y| && forall i | 0 <= i < |X| :: |X[i]| >= d
    ensures var D := Samples(Cut(X, d), y[..|X|]);
            Shaped(D, d) && forall i | 0 <= i < |X| :: D[i] == Sample(X[i][..d], y[i])
  {}

  lemma CutNothing(X: seq<Vec>, y: Vec, d: nat)
    requires |X| == |y| && forall i | 0 <= i < |X| :: |X[i]| == d
    ensures Cut(X, d) == X && y[..|X|] == y
  {
    assert forall i | 0 <= i < |X| :: X[i][..d] == X[i];
  }

  class LinearModel {
    var Weights: array<real>
    var Bias: real
    var NumFeatures: nat

    ghost predicate Valid()
      reads this
    {
      Weights.Length == NumFeatures
    }

    ghost function Value(): Params
      reads this, Weights
    {
      Params(Weights[..], Bias)
    }

    constructor (numFeatures: nat)
      ensures Valid() && fresh(Weights) && NumFeatures == numFeatures
      ensures Value() == PZero(numFeatures)
    {
      Weights := new real[numFeatures](_ => 0.0);
      Bias := 0.0;
      NumFeatures := numFeatures;
      new;
      assert Weights[..] == VZero(numFeatures);
    }

    /** Entries of x past the last weight are not looked at. */
    method Predict(x: Vec) returns (r: real)
      requires Valid() && |x| >= NumFeatures
      ensures r == Inner(Value(), Point(x[..NumFeatures]))
      ensures |x| == NumFeatures ==> r == Inner(Value(), Point(x))
    {
      var y := 0.0;
      for i := 0 to Weights.Length
        invariant i <= |x| && y == Dot(Weights[..i], x[..i])
      {
        y := y + Weights[i] * x[i];
        assert Weights[..i + 1][..i] == Weights[..i] && x[..i + 1][..i] == x[..i];
      }
      assert Weights[..Weights.Length] == Weights[..];
      assert |x| == NumFeatures ==> x[..Weights.Length] == x;
      return y + Bias;
    }

    /** `None` stands for the undefined quotient 0/0 of an empty data set; targets past the last sample do not count. */
    method MSE(X: seq<Vec>, y: Vec) returns (r: Option<real>)
      requires Valid() && |X| <= |y| && forall i | 0 <= i < |X| :: |X[i]| >= NumFeatures
      ensures Shaped(Samples(Cut(X, NumFeatures), y[..|X|]), NumFeatures)
      ensures r == if |X| == 0 then None else Some(MSEOf(Value(), Samples(Cut(X, NumFeatures), y[..|X|])))
    {
      hide Inner;
      ghost var D := Samples(Cut(X, NumFeatures), y[..|X|]);
      CutShaped(X, y, NumFeatures);
      hide Samples, Cut;
      var sum := 0.0;
      for i := 0 to |X|
        invariant sum == SqErr(Value(), D[..i])
      {
        var p := Predict(X[i]);
        var d := p - y[i];
        assert d == Err(Value(), D[i]);
        sum := sum + d * d;
        assert D[..i + 1][..i] == D[..i];
      }
      assert D[..|X|] == D;
      return if |X| == 0 then None else Some(sum / (|X| as real));
    }

    method Train(X: seq<Vec>, y: Vec, epochs: int, lr: real) returns (loss: Option<real>)
      requires Valid() && |X| == |y| && forall i | 0 <= i < |X| :: |X[i]| == NumFeatures
      modifies this`Bias, Weights
      ensures Valid() && Weights == old(Weights)
      ensures Shaped(Samples(X, y), |old(Value()).w|)
      ensures Value() == Epochs(old(Value()), Samples(X, y), epochs, lr)
      ensures loss == if |X| == 0 then None else Some(MSEOf(Value(), Samples(X, y)))
    {
      hide Step, Inner, MSEOf, IsGradient, PAdd, PScale;
      ghost var D := Samples(X, y);
      var e := 0;
      while e < epochs
        invariant Valid() && Weights == old(Weights)
        invariant 0 <= e && (e <= epochs || e == 0)
        invariant Shaped(D, NumFeatures)
        invariant Value() == Epochs(old(Value()), D, e, lr)
      {
        Epoch(X, y, lr);
        e := e + 1;
      }
      CutNothing(X, y, NumFeatures);
      loss := MSE(X, y);
    }

    /** The body of the training loop: accumulate the gradient over the samples, then move. */
    method Epoch(X: seq<Vec>, y: Vec, lr: real)
      requires Valid() && |X| == |y| && forall i | 0 <= i < |X| :: |X[i]| == NumFeatures
      modifies this`Bias, Weights
      ensures Valid() && Weights == old(Weights)
      ensures Shaped(Samples(X, y), |old(Value()).w|)
      ensures Value() == Step(old(Value()), Samples(X, y), lr)
      ensures forall g: Params | |X| > 0 && |g.w| == |Weights[..]| && IsGradient(g, old(Value()), Samples(X, y)) ::
                Value() == PAdd(old(Value()), PScale(-lr, g))
    {
      hide PScale, PAdd, VScale, VAdd, Factor, GradSum, Step, IsGradient;
      ghost var D := Samples(X, y);
      ghost var m := Value();
      assert Shaped(D, |m.w|);
      var gradW, gradB := Gradient(X, y);
      ghost var g := Params(gradW[..], gradB);
      Accumulate(Weights, -lr, gradW[..]);
      Bias := Bias - lr * gradB;
      AccumulatedPair(m, -lr, g, Value());
      MoveIsStep(m, D, lr);
      forall g: Params | |X| > 0 && |g.w| == |Weights[..]| && IsGradient(g, m, D)
        ensures Step(m, D, lr) == PAdd(m, PScale(-lr, g))
      {
        StepIsGradientDescent(m, D, lr, g);
      }
    }

    /** The accumulation loops; every term carries the factor 2/n. */
    method Gradient(X: seq<Vec>, y: Vec) returns (gradW: array<real>, gradB: real)
      requires Valid() && |X| == |y| && forall i | 0 <= i < |X| :: |X[i]| == NumFeatures
      ensures fresh(gradW) && gradW.Length == NumFeatures
      ensures Shaped(Samples(X, y), NumFeatures)
      ensures Params(gradW[..], gradB) == PScale(Factor(|X|), GradSum(Value(), Samples(X, y)))
      ensures |X| > 0 ==> IsGradient(Params(gradW[..], gradB), Value(), Samples(X, y))
    {
      hide PScale, PAdd, VScale, VAdd, Inner, Factor, Push, PZero, IsGradient;
      ghost var D := Samples(X, y);
      ghost var m := Value();
      var n := |X|;
      gradW := new real[NumFeatures](_ => 0.0);
      gradB := 0.0;
      NullPair(Factor(n), gradW[..]);
      for i := 0 to n
        invariant Value() == m && Shaped(D, NumFeatures)
        invariant Params(gradW[..], gradB) == PScale(Factor(n), GradSum(m, D[..i]))
      {
        var p := Predict(X[i]);
        var err := p - y[i];
        ghost var was := Params(gradW[..], gradB);
        Accumulate(gradW, Push(n, err), X[i]);
        gradB := gradB + Push(n, err);
        assert D[..i + 1][..i] == D[..i];
        assert err == Err(m, D[i]);
        assert GradSum(m, D[..i + 1]) == PAdd(GradSum(m, D[..i]), PScale(err, Point(X[i])));
        AccumulatedPair(was, Push(n, err), Point(X[i]), Params(gradW[..], gradB));
        GradientTerm(n, GradSum(m, D[..i]), err, Point(X[i]));
      }
      assert D[..n] == D;
      if n > 0 {
        GradientIsDerivative(m, D);
      }
    }
  }

  /** The inner loop over features: `a[j] += k * x[j]` for every j. */
  method Accumulate(a: array<real>, k: real, x: Vec)
    requires |x| <= a.Length
    modifies a
    ensures a[..] == VAdd(old(a[..]), VScale(k, Pad(x, a.Length)))
    ensures |x| == a.Length ==> a[..] == VAdd(old(a[..]), VScale(k, x))
  {
    for j := 0 to |x|
      invariant forall i | 0 <= i < j :: a[i] == old(a[i]) + k * x[i]
      invariant forall i | j <= i < a.Length :: a[i] == old(a[i])
    {
      a[j] := a[j] + k * x[j];
    }
    ghost var p := Pad(x, a.Length);
    forall i | 0 <= i < a.Length ensures a[i] == old(a[i]) + k * p[i] {
      SameFactor(k, if i < |x| then x[i] else 0.0, p[i]);
    }
    ghost var r := VAdd(old(a[..]), VScale(k, p));
    assert forall i | 0 <= i < a.Length :: a[i] == r[i];
    assert |x| == a.Length ==> p == x;
  }

  lemma SameFactor(k: real, c: real, d: real)
    requires c == d
    ensures k * c == k * d && (c == 0.0 ==> k * d == 0.0)
  {}

  lemma AccumulatedPair(was: Params, k: real, g: Params, now: Params)
    requires |was.w| == |g.w|
    requires now.w == VAdd(was.w, VScale(k, g.w)) && now.b == was.b + k * g.b
    ensures now == PAdd(was, PScale(k, g))
  {}

  lemma MoveIsStep(m: Params, D: seq<Sample>, lr: real)
    requires Shaped(D, |m.w|)
    ensures PAdd(m, PScale(-lr, PScale(Factor(|D|), GradSum(m, D)))) == Step(m, D, lr)
  {
    hide PScale, PAdd, GradSum, Factor;
    PScaleScale(-lr, Factor(|D|), Move(lr, |D|), GradSum(m, D));
  }

  lemma NullPair(k: real, w: Vec)
    requires forall i | 0 <= i < |w| :: w[i] == 0.0
    ensures Params(w, 0.0) == PScale(k, PZero(|w|))
  {
    assert w == VZero(|w|);
    PScaleNull(k, |w|);
  }

  lemma GradientTerm(n: nat, g: Params, e: real, z: Params)
    requires |g.w| == |z.w|
    ensures PAdd(PScale(Factor(n), g), PScale(Push(n, e), z)) == PScale(Factor(n), PAdd(g, PScale(e, z)))
  {
    hide PScale, PAdd, Factor;
    PScaleAdd(Factor(n), g, PScale(e, z));
    PScaleScale(Factor(n), e, Push(n, e), z);
  }
}
