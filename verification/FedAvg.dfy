/**
 Federated averaging: the global model is the mean of the clients' models weighted by their sample counts.

 Three laws: the order in which updates arrive does not matter; on every data set the averaged model's loss
 is at most the weighted mean of the clients' losses; and when the clients trained one epoch from a common
 model, the average is exactly one epoch of centralised training on all their data.
 */
module Averaging {
  import opened Vectors
  import opened LinearModels

  datatype ClientUpdate = ClientUpdate(clientId: nat, model: Params, numSamples: nat, loss: Option<real>)

  ghost predicate SameShape(us: seq<ClientUpdate>, d: nat) {
    forall i | 0 <= i < |us| :: |us[i].model.w| == d
  }

  function Total(us: seq<ClientUpdate>): nat
  {
    if |us| == 0 then 0 else Total(us[..|us| - 1]) + us[|us| - 1].numSamples
  }

  /** The sum of the models, each taken `numSamples` times. */
  function Weighted(us: seq<ClientUpdate>, d: nat): (p: Params)
    requires SameShape(us, d)
    ensures |p.w| == d
  {
    if |us| == 0 then PZero(d)
    else var n := |us| - 1;
         PAdd(Weighted(us[..n], d), PScale(us[n].numSamples as real, us[n].model))
  }

  function Inverse(n: nat): real
    requires n > 0
  {
    1.0 / (n as real)
  }

  function FedAvgOf(us: seq<ClientUpdate>, d: nat): (p: Params)
    requires SameShape(us, d) && Total(us) > 0
    ensures |p.w| == d
  {
    PScale(Inverse(Total(us)), Weighted(us, d))
  }

  // ---------- arrival order ----------

  function Without(us: seq<ClientUpdate>, i: nat): seq<ClientUpdate>
    requires i < |us|
  {
    us[..i] + us[i + 1..]
  }

  lemma {:induction false} TakeOut(us: seq<ClientUpdate>, d: nat, i: nat)
    requires SameShape(us, d) && i < |us|
    ensures Total(us) == Total(Without(us, i)) + us[i].numSamples
    ensures Weighted(us, d) == PAdd(Weighted(Without(us, i), d), PScale(us[i].numSamples as real, us[i].model))
  {
    hide PAdd, PScale;
    var n := |us| - 1;
    if i == n {
      assert Without(us, i) == us[..n];
    } else {
      TakeOut(us[..n], d, i);
      var rest := Without(us, i);
      assert rest[..n - 1] == Without(us[..n], i) && rest[n - 1] == us[n];
      var base := Weighted(rest[..n - 1], d);
      var a, c := PScale(us[i].numSamples as real, us[i].model), PScale(us[n].numSamples as real, us[n].model);
      PAddAssoc(base, a, c);
      PAddCommutes(a, c);
      PAddAssoc(base, c, a);
    }
  }

  lemma SameRest(us: seq<ClientUpdate>, vs: seq<ClientUpdate>, i: nat)
    requires |us| > 0 && multiset(us) == multiset(vs) && i < |vs| && vs[i] == us[|us| - 1]
    ensures multiset(us[..|us| - 1]) == multiset(Without(vs, i))
  {
    var u := multiset{vs[i]};
    assert us == us[..|us| - 1] + [vs[i]];
    assert multiset(us) == multiset(us[..|us| - 1]) + u;
    assert vs == vs[..i] + ([vs[i]] + vs[i + 1..]);
    assert multiset(vs) == multiset(vs[..i]) + (u + multiset(vs[i + 1..]));
    assert multiset(Without(vs, i)) == multiset(vs[..i]) + multiset(vs[i + 1..]) == multiset(vs) - u;
    assert multiset(us[..|us| - 1]) == multiset(us) - u;
  }

  /** The average depends only on which updates arrived, not on their order. */
  lemma {:induction false} ArrivalOrderIrrelevant(us: seq<ClientUpdate>, vs: seq<ClientUpdate>, d: nat)
    requires SameShape(us, d) && SameShape(vs, d)
    requires multiset(us) == multiset(vs)
    ensures Total(us) == Total(vs) && Weighted(us, d) == Weighted(vs, d)
    ensures Total(us) > 0 ==> FedAvgOf(us, d) == FedAvgOf(vs, d)
  {
    hide PAdd, PScale;
    assert |us| == |multiset(us)| == |multiset(vs)| == |vs|;
    if |us| > 0 {
      var n := |us| - 1;
      assert us[n] in multiset(vs);
      var i :| 0 <= i < |vs| && vs[i] == us[n];
      SameRest(us, vs, i);
      ArrivalOrderIrrelevant(us[..n], Without(vs, i), d);
      TakeOut(vs, d, i);
    }
  }

  // ---------- the average is no worse than the clients ----------

  /** Weighted sum of the clients' squared errors. */
  function WeightedLoss(us: seq<ClientUpdate>, d: nat, D: seq<Sample>): real
    requires SameShape(us, d) && Shaped(D, d)
  {
    if |us| == 0 then 0.0
    else var n := |us| - 1;
         WeightedLoss(us[..n], d, D) + us[n].numSamples as real * SqErr(us[n].model, D)
  }

  /** The loss lies above its tangent at any model. */
  lemma LossAboveTangent(m: Params, q: Params, D: seq<Sample>)
    requires |m.w| == |q.w| && Shaped(D, |m.w|)
    ensures SqErr(q, D) >= SqErr(m, D) + 2.0 * Inner(GradSum(m, D), q) - 2.0 * Inner(GradSum(m, D), m)
  {
    hide Inner, SqErr, SqLin, GradSum;
    var g := GradSum(m, D);
    var d := PAdd(q, PScale(-1.0, m));
    assert PAdd(m, PScale(1.0, d)) == q by {
      assert PAdd(m, PScale(1.0, d)).w == q.w;
    }
    LossExpansion(m, 1.0, d, D);
    SqLinNonNeg(d, D);
    InnerSym(d, g);
    InnerAdd(g, q, PScale(-1.0, m));
    InnerScale(g, -1.0, m);
  }

  lemma {:induction false} TangentsAddUp(m: Params, us: seq<ClientUpdate>, d: nat, D: seq<Sample>)
    requires |m.w| == d && SameShape(us, d) && Shaped(D, d)
    ensures WeightedLoss(us, d, D)
         >= Total(us) as real * (SqErr(m, D) - 2.0 * Inner(GradSum(m, D), m))
            + 2.0 * Inner(GradSum(m, D), Weighted(us, d))
  {
    hide Inner, PAdd, PScale, SqErr, GradSum;
    var g := GradSum(m, D);
    if |us| == 0 {
      InnerZero(g);
    } else {
      var n := |us| - 1;
      var k := us[n].numSamples as real;
      TangentsAddUp(m, us[..n], d, D);
      LossAboveTangent(m, us[n].model, D);
      InnerAdd(g, Weighted(us[..n], d), PScale(k, us[n].model));
      InnerScale(g, k, us[n].model);
      TangentStep(WeightedLoss(us[..n], d, D), Total(us[..n]) as real, k,
        SqErr(m, D) - 2.0 * Inner(g, m), Inner(g, Weighted(us[..n], d)), Inner(g, us[n].model), SqErr(us[n].model, D));
    }
  }

  lemma TangentStep(l: real, t: real, k: real, c: real, a: real, v: real, f: real)
    requires l >= t * c + 2.0 * a && f >= c + 2.0 * v && k >= 0.0
    ensures l + k * f >= (t + k) * c + 2.0 * (a + k * v)
  {
    assert k * f >= k * (c + 2.0 * v);
  }

  /** Jensen: on any data set the averaged model is at most as bad as the weighted mean of the clients. */
  lemma AverageNoWorse(us: seq<ClientUpdate>, d: nat, D: seq<Sample>)
    requires SameShape(us, d) && Total(us) > 0 && Shaped(D, d)
    ensures Total(us) as real * SqErr(FedAvgOf(us, d), D) <= WeightedLoss(us, d, D)
  {
    hide Inner, PScale, SqErr, GradSum, Weighted, Total, WeightedLoss;
    var m := FedAvgOf(us, d);
    var g := GradSum(m, D);
    TangentsAddUp(m, us, d, D);
    InnerScale(g, Inverse(Total(us)), Weighted(us, d));
    JensenStep(Total(us), SqErr(m, D), Inner(g, Weighted(us, d)));
  }

  lemma JensenStep(n: nat, s: real, a: real)
    requires n > 0
    ensures n as real * (s - 2.0 * (Inverse(n) * a)) + 2.0 * a == n as real * s
  {
    assert n as real * Inverse(n) == 1.0;
    assert n as real * (2.0 * (Inverse(n) * a)) == (n as real * Inverse(n)) * (2.0 * a);
    assert n as real * (s - 2.0 * (Inverse(n) * a)) == n as real * s - n as real * (2.0 * (Inverse(n) * a));
  }

  // ---------- one federated epoch is one centralised epoch ----------

  function Concat(parts: seq<seq<Sample>>): seq<Sample>
  {
    if |parts| == 0 then [] else Concat(parts[..|parts| - 1]) + parts[|parts| - 1]
  }

  ghost predicate AllShaped(parts: seq<seq<Sample>>, d: nat) {
    forall k | 0 <= k < |parts| :: Shaped(parts[k], d)
  }

  lemma {:induction false} ConcatShaped(parts: seq<seq<Sample>>, d: nat)
    requires AllShaped(parts, d)
    ensures Shaped(Concat(parts), d)
  {
    if |parts| > 0 {
      ConcatShaped(parts[..|parts| - 1], d);
    }
  }

  lemma {:induction false} SamplesAddUp(us: seq<ClientUpdate>, parts: seq<seq<Sample>>)
    requires |us| == |parts| && forall k | 0 <= k < |us| :: us[k].numSamples == |parts[k]|
    ensures Total(us) == |Concat(parts)|
  {
    if |us| > 0 {
      SamplesAddUp(us[..|us| - 1], parts[..|us| - 1]);
    }
  }

  /** Every update is the model its client reaches from `m` in one epoch on its own part. */
  ghost predicate OneEpochUpdates(us: seq<ClientUpdate>, m: Params, parts: seq<seq<Sample>>, lr: real)
    requires AllShaped(parts, |m.w|)
  {
    |us| == |parts| &&
    forall k | 0 <= k < |us| :: us[k].model == Step(m, parts[k], lr) && us[k].numSamples == |parts[k]|
  }

  lemma {:induction false} GradSumConcat(m: Params, D: seq<Sample>, E: seq<Sample>)
    requires Shaped(D, |m.w|) && Shaped(E, |m.w|)
    ensures GradSum(m, D + E) == PAdd(GradSum(m, D), GradSum(m, E))
  {
    hide PAdd, PScale, Err;
    if |E| == 0 {
      assert D + E == D;
      PAddZero(GradSum(m, D));
    } else {
      var n := |E| - 1;
      GradSumConcat(m, D, E[..n]);
      assert (D + E)[..|D| + n] == D + E[..n];
      PAddAssoc(GradSum(m, D), GradSum(m, E[..n]), PScale(Err(m, E[n]), Point(E[n].features)));
    }
  }

  /** A client's share: taken n times, one epoch contributes n times the model and its whole gradient sum. */
  lemma Share(m: Params, D: seq<Sample>, lr: real)
    requires Shaped(D, |m.w|)
    ensures PScale(|D| as real, Step(m, D, lr)) == PAdd(PScale(|D| as real, m), PScale(-2.0 * lr, GradSum(m, D)))
  {
    hide GradSum, PAdd, PScale, Move;
    if |D| == 0 {
      NoGradient(m, D);
    }
    ShareOf(m, GradSum(m, D), lr, |D|, |D| as real);
  }

  /** Taken n times, a step along g is n times the model and g itself; with no samples there is no g. */
  lemma ShareOf(m: Params, g: Params, lr: real, n: nat, times: real)
    requires |m.w| == |g.w| && times == n as real && (n == 0 ==> g == PZero(|m.w|))
    ensures PScale(times, PAdd(m, PScale(Move(lr, n), g))) == PAdd(PScale(times, m), PScale(-2.0 * lr, g))
  {
    hide PAdd, PScale;
    PScaleAdd(times, m, PScale(Move(lr, n), g));
    if n == 0 {
      PScaleNull(times, |m.w|);
      PScaleNull(-2.0 * lr, |m.w|);
      PScaleNull(Move(lr, n), |m.w|);
    } else {
      ShareFactor(lr, n);
      PScaleScale(times, Move(lr, n), -2.0 * lr, g);
    }
  }

  lemma NoGradient(m: Params, D: seq<Sample>)
    requires |D| == 0
    ensures GradSum(m, D) == PZero(|m.w|)
  {}

  lemma ShareFactor(lr: real, n: nat)
    requires n > 0
    ensures n as real * (Move(lr, n)) == -2.0 * lr
  {
    assert n as real * Factor(n) == 2.0;
    assert n as real * (Move(lr, n)) == -lr * (n as real * Factor(n));
  }

  lemma {:induction false} SharesAddUp(us: seq<ClientUpdate>, m: Params, parts: seq<seq<Sample>>, lr: real)
    requires AllShaped(parts, |m.w|) && OneEpochUpdates(us, m, parts, lr)
    ensures Total(us) == |Concat(parts)| && SameShape(us, |m.w|) && Shaped(Concat(parts), |m.w|)
    ensures Weighted(us, |m.w|)
         == PAdd(PScale(Total(us) as real, m), PScale(-2.0 * lr, GradSum(m, Concat(parts))))
  {
    hide PAdd, PScale, GradSum, Step;
    ConcatShaped(parts, |m.w|);
    var d := |m.w|;
    if |us| == 0 {
      NoGradient(m, []);
      PScaleZero(m);
      PScaleNull(-2.0 * lr, d);
      PAddZero(PZero(d));
    } else {
      var n := |us| - 1;
      var D, E := Concat(parts[..n]), parts[n];
      SharesAddUp(us[..n], m, parts[..n], lr);
      Share(m, E, lr);
      GradSumConcat(m, D, E);
      PScaleAdd(-2.0 * lr, GradSum(m, D), GradSum(m, E));
      PScaleSum(|D| as real, |E| as real, m);
      assert (|D| + |E|) as real == |D| as real + |E| as real;
      Interchange(PScale(|D| as real, m), PScale(-2.0 * lr, GradSum(m, D)),
        PScale(|E| as real, m), PScale(-2.0 * lr, GradSum(m, E)));
    }
  }

  lemma Interchange(a: Params, c: Params, e: Params, f: Params)
    requires |a.w| == |c.w| == |e.w| == |f.w|
    ensures PAdd(PAdd(a, c), PAdd(e, f)) == PAdd(PAdd(a, e), PAdd(c, f))
  {}

  /** Averaging one-epoch results is one epoch on all the data together, however it was split. */
  lemma OneEpochIsCentralised(us: seq<ClientUpdate>, m: Params, parts: seq<seq<Sample>>, lr: real)
    requires AllShaped(parts, |m.w|) && OneEpochUpdates(us, m, parts, lr)
    requires |Concat(parts)| > 0
    ensures Shaped(Concat(parts), |m.w|) && SameShape(us, |m.w|) && Total(us) == |Concat(parts)|
    ensures FedAvgOf(us, |m.w|) == Step(m, Concat(parts), lr)
  {
    hide PAdd, PScale, GradSum, Inverse, Move;
    SharesAddUp(us, m, parts, lr);
    AverageShares(m, GradSum(m, Concat(parts)), lr, |Concat(parts)|);
  }

  lemma AverageShares(m: Params, g: Params, lr: real, n: nat)
    requires |m.w| == |g.w| && n > 0
    ensures PScale(Inverse(n), PAdd(PScale(n as real, m), PScale(-2.0 * lr, g))) == PAdd(m, PScale(Move(lr, n), g))
  {
    hide PAdd, PScale;
    var i, r := Inverse(n), n as real;
    PScaleAdd(i, PScale(r, m), PScale(-2.0 * lr, g));
    PScaleScale(i, r, 1.0, m);
    PScaleOne(m);
    PScaleScale(i, -2.0 * lr, Move(lr, n), g);
  }

  // ---------- the averaging loop ----------

  /** Nil for no updates at all; not a number, 0/0, when none of them has samples. */
  datatype Average = Nil | NotANumber | Model(params: Params)

  /** The updates with their weights filled up with zeros. */
  function Padded(us: seq<ClientUpdate>, d: nat): (r: seq<ClientUpdate>)
    requires forall i | 0 <= i < |us| :: |us[i].model.w| <= d
    ensures |r| == |us| && SameShape(r, d) && (SameShape(us, d) ==> r == us)
  {
    var r := seq(|us|, i requires 0 <= i < |us| => us[i].(model := Params(Pad(us[i].model.w, d), us[i].model.b)));
    assert SameShape(us, d) ==> forall i | 0 <= i < |us| :: r[i] == us[i] by {
      assert forall i | 0 <= i < |us| && |us[i].model.w| == d :: Pad(us[i].model.w, d) == us[i].model.w;
    }
    r
  }

  lemma {:induction false} PaddedTotal(us: seq<ClientUpdate>, d: nat)
    requires forall i | 0 <= i < |us| :: |us[i].model.w| <= d
    ensures Total(Padded(us, d)) == Total(us)
  {
    if |us| > 0 {
      PaddedTotal(us[..|us| - 1], d);
      assert Padded(us, d)[..|us| - 1] == Padded(us[..|us| - 1], d);
    }
  }

  /** An update with fewer weights than the first counts as if the rest were zero; one with more is a panic. */
  method FedAvg(us: seq<ClientUpdate>) returns (r: Average)
    requires |us| > 0 ==> forall i | 0 <= i < |us| :: |us[i].model.w| <= |us[0].model.w|
    ensures |us| == 0 ==> r == Nil
    ensures |us| > 0 && Total(us) == 0 ==> r == NotANumber
    ensures |us| > 0 ==> Total(Padded(us, |us[0].model.w|)) == Total(us)
    ensures |us| > 0 && Total(us) > 0 ==>
              r == Model(FedAvgOf(Padded(us, |us[0].model.w|), |us[0].model.w|))
  {
    hide PAdd, PScale, VAdd, VScale, Inverse, Pad, Padded;
    if |us| == 0 {
      return Nil;
    }
    var N := 0;
    for i := 0 to |us|
      invariant N == Total(us[..i])
    {
      assert us[..i + 1][..i] == us[..i];
      N := N + us[i].numSamples;
    }
    assert us[..|us|] == us;
    var d := |us[0].model.w|;
    PaddedTotal(us, d);
    if N == 0 {
      return NotANumber;
    }
    ghost var ps := Padded(us, d);
    var globalW := new real[d](_ => 0.0);
    var globalBias := 0.0;
    NullPair(Inverse(N), globalW[..]);
    for i := 0 to |us|
      invariant N == Total(us) && globalW.Length == d
      invariant Params(globalW[..], globalBias) == PScale(Inverse(N), Weighted(ps[..i], d))
    {
      var k := Portion(us[i].numSamples, N);
      ghost var was := Params(globalW[..], globalBias);
      Accumulate(globalW, k, us[i].model.w);
      globalBias := globalBias + k * us[i].model.b;
      PaddedAt(us, d, i);
      assert ps[..i + 1][..i] == ps[..i];
      AccumulatedPair(was, k, ps[i].model, Params(globalW[..], globalBias));
      PortionTerm(us[i].numSamples, N, Weighted(ps[..i], d), ps[i].model);
    }
    assert ps[..|us|] == ps;
    return Model(Params(globalW[..], globalBias));
  }

  lemma PaddedAt(us: seq<ClientUpdate>, d: nat, i: nat)
    requires (forall k | 0 <= k < |us| :: |us[k].model.w| <= d) && i < |us|
    ensures Padded(us, d)[i] == us[i].(model := Params(Pad(us[i].model.w, d), us[i].model.b))
  {}

  /** The coefficient float64(NumSamples) / float64(N). */
  function Portion(k: nat, n: nat): real
    requires n > 0
  {
    k as real / n as real
  }

  lemma PortionTerm(k: nat, n: nat, acc: Params, m: Params)
    requires n > 0 && |acc.w| == |m.w|
    ensures PAdd(PScale(Inverse(n), acc), PScale(Portion(k, n), m))
         == PScale(Inverse(n), PAdd(acc, PScale(k as real, m)))
  {
    hide PAdd, PScale;
    PScaleAdd(Inverse(n), acc, PScale(k as real, m));
    PScaleScale(Inverse(n), k as real, Portion(k, n), m);
  }
}
