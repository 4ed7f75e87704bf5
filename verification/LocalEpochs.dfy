/**
 How many clients and local epochs a round may have.

 Averaging the clients' models is the same as centralised training for all data, rates and starting models exactly
 when there is only one client or each trains for at most one epoch; and exactly then no round can raise the loss at
 a safe rate.  With more of both the two fail, already for one feature and one sample each at two of the clients.
 */
module LocalEpochs {
  import opened Vectors
  import opened LinearModels
  import opened Averaging

  /** Every update is the model its client reaches from `m` in so many epochs on its own part. */
  ghost predicate EpochUpdates(us: seq<ClientUpdate>, m: Params, parts: seq<seq<Sample>>, lr: real, epochs: int)
    requires AllShaped(parts, |m.w|)
  {
    |us| == |parts| &&
    forall k | 0 <= k < |us| :: us[k].model == Epochs(m, parts[k], epochs, lr) && us[k].numSamples == |parts[k]|
  }

  /** A round that starts from `m`: some data, and each client's update. */
  ghost predicate IsRound(us: seq<ClientUpdate>, m: Params, parts: seq<seq<Sample>>, lr: real, epochs: int) {
    AllShaped(parts, |m.w|) && |Concat(parts)| > 0 && EpochUpdates(us, m, parts, lr, epochs)
  }

  lemma RoundIsAverageable(us: seq<ClientUpdate>, m: Params, parts: seq<seq<Sample>>, lr: real, epochs: int)
    requires IsRound(us, m, parts, lr, epochs)
    ensures SameShape(us, |m.w|) && Total(us) == |Concat(parts)| && Shaped(Concat(parts), |m.w|)
  {
    hide Epochs;
    ConcatShaped(parts, |m.w|);
    SamplesAddUp(us, parts);
  }

  /** What a round makes of the global model. */
  ghost function Outcome(us: seq<ClientUpdate>, m: Params, parts: seq<seq<Sample>>, lr: real, epochs: int): (r: Params)
    requires IsRound(us, m, parts, lr, epochs)
    ensures |r.w| == |m.w| && Shaped(Concat(parts), |m.w|)
  {
    RoundIsAverageable(us, m, parts, lr, epochs);
    FedAvgOf(us, |m.w|)
  }

  /** With so many clients and local epochs a round is always centralised training. */
  ghost predicate AlwaysCentralised(clients: nat, epochs: int) {
    forall us, m, parts, lr | IsRound(us, m, parts, lr, epochs) && |parts| == clients ::
      Outcome(us, m, parts, lr, epochs) == Epochs(m, Concat(parts), epochs, lr)
  }

  /** With so many clients and local epochs a round at a safe rate never raises the loss over all the data. */
  ghost predicate NeverRaisesLoss(clients: nat, epochs: int) {
    forall us, m, parts, lr | IsRound(us, m, parts, lr, epochs) && |parts| == clients && SafeRate(Concat(parts), lr) ::
      MSEOf(Outcome(us, m, parts, lr, epochs), Concat(parts)) <= MSEOf(m, Concat(parts))
  }

  // ---------- a single client ----------

  /** The only client's model is the average, whatever its number of samples. */
  lemma OneClient(us: seq<ClientUpdate>, m: Params, parts: seq<seq<Sample>>, lr: real, epochs: int)
    requires IsRound(us, m, parts, lr, epochs) && |parts| == 1
    ensures Outcome(us, m, parts, lr, epochs) == Epochs(m, Concat(parts), epochs, lr)
  {
    hide Epochs, FedAvgOf, Total;
    RoundIsAverageable(us, m, parts, lr, epochs);
    assert parts[..0] == [];
    assert Concat(parts) == Concat(parts[..0]) + parts[0] == parts[0];
    SingleAverage(us, |m.w|);
  }

  lemma SingleAverage(us: seq<ClientUpdate>, d: nat)
    requires |us| == 1 && SameShape(us, d) && Total(us) > 0
    ensures FedAvgOf(us, d) == us[0].model
  {
    hide PAdd, PScale, Inverse;
    var u := us[0];
    assert us[..0] == [];
    assert Total(us[..0]) == 0 && Weighted(us[..0], d) == PZero(d);
    assert Total(us) == u.numSamples;
    assert Weighted(us, d) == PAdd(PZero(d), PScale(u.numSamples as real, u.model));
    PAddZero(PScale(u.numSamples as real, u.model));
    ScaleBack(u.numSamples, u.model);
  }

  lemma ScaleBack(n: nat, m: Params)
    requires n > 0
    ensures PScale(Inverse(n), PScale(n as real, m)) == m
  {
    PScaleScale(Inverse(n), n as real, 1.0, m);
    PScaleOne(m);
  }

  // ---------- up to one epoch ----------

  lemma NoMove(m: Params, D: seq<Sample>)
    requires Shaped(D, |m.w|)
    ensures Step(m, D, 0.0) == m
  {
    hide GradSum;
    PScaleZero(GradSum(m, D));
    PAddZero(m);
  }

  /** No epoch is one epoch at rate zero. */
  lemma UpToOneEpoch(us: seq<ClientUpdate>, m: Params, parts: seq<seq<Sample>>, lr: real, epochs: int)
    requires IsRound(us, m, parts, lr, epochs) && epochs <= 1
    ensures Outcome(us, m, parts, lr, epochs) == Epochs(m, Concat(parts), epochs, lr)
  {
    hide Step, FedAvgOf;
    RoundIsAverageable(us, m, parts, lr, epochs);
    var rate := if epochs == 1 then lr else 0.0;
    forall k | 0 <= k < |us| ensures us[k].model == Step(m, parts[k], rate) {
      SingleEpoch(m, parts[k], lr, epochs);
    }
    SingleEpoch(m, Concat(parts), lr, epochs);
    OneEpochIsCentralised(us, m, parts, rate);
  }

  lemma SingleEpoch(m: Params, D: seq<Sample>, lr: real, epochs: int)
    requires Shaped(D, |m.w|) && epochs <= 1
    ensures Epochs(m, D, epochs, lr) == Step(m, D, if epochs == 1 then lr else 0.0)
  {
    hide Step;
    NoMove(m, D);
    if epochs == 1 {
      assert Epochs(m, D, 1, lr) == Step(Epochs(m, D, 0, lr), D, lr);
    }
  }

  // ---------- two epochs or more ----------

  const RATE := 0.3
  const NEAR := Sample([0.0], 0.0)
  const FAR := Sample([2.0], 1.0)

  function Line(w: real, b: real): Params {
    Params([w], b)
  }

  /** The residual of the far client on its own sample after so many local epochs. */
  function Residual(epochs: nat): real {
    if epochs == 0 then -1.0 else -2.0 * Residual(epochs - 1)
  }

  function Bias(epochs: nat): real {
    (Residual(epochs) + 1.0) / 5.0
  }

  lemma {:induction false} ResidualGrows(epochs: nat)
    requires epochs >= 2
    ensures Residual(epochs) <= -4.0 || Residual(epochs) >= 8.0
  {
    if epochs == 2 {
      assert Residual(1) == -2.0 * Residual(0);
    } else {
      ResidualGrows(epochs - 1);
    }
  }

  lemma ErrOn(w: real, b: real, x: real, y: real)
    ensures Err(Line(w, b), Sample([x], y)) == w * x + b - y
  {
    assert Dot([w], [x]) == Dot([w][..0], [x][..0]) + w * x;
  }

  lemma StepOn(w: real, b: real, x: real, y: real, e: real, ex: real)
    requires e == w * x + b - y && ex == e * x
    ensures Shaped([Sample([x], y)], 1)
    ensures Step(Line(w, b), [Sample([x], y)], RATE) == Line(w - 0.6 * ex, b - 0.6 * e)
  {
    var m, D := Line(w, b), [Sample([x], y)];
    ErrOn(w, b, x, y);
    GradOn(m, x, y, e, ex);
    assert Move(RATE, 1) == -0.6;
  }

  lemma GradOn(m: Params, x: real, y: real, e: real, ex: real)
    requires |m.w| == 1 && Err(m, Sample([x], y)) == e && ex == e * x
    ensures GradSum(m, [Sample([x], y)]) == Line(ex, e)
  {
    hide Err;
    var D := [Sample([x], y)];
    assert D[..0] == [];
    var g := PScale(e, Point([x]));
    assert GradSum(m, D) == PAdd(GradSum(m, D[..0]), g);
    var z := Point([x]).w;
    assert z[0] == x;
    SameProduct(e, x, z[0]);
    assert g.w[0] == e * z[0];
    assert g.w[0] == ex;
    assert g.w == [ex];
    PAddZero(g);
  }

  lemma SameProduct(a: real, c: real, d: real)
    requires c == d
    ensures a * c == a * d
  {}

  lemma {:induction false} NearStays(epochs: nat)
    ensures Shaped([NEAR], 1) && Epochs(Line(0.0, 0.0), [NEAR], epochs, RATE) == Line(0.0, 0.0)
  {
    hide Step;
    if epochs > 0 {
      NearStays(epochs - 1);
      StepOn(0.0, 0.0, 0.0, 0.0, 0.0, 0.0);
    }
  }

  lemma {:induction false} FarOvershoots(epochs: nat)
    ensures Shaped([FAR], 1)
    ensures Epochs(Line(0.0, 0.0), [FAR], epochs, RATE) == Line(2.0 * Bias(epochs), Bias(epochs))
  {
    hide Step;
    if epochs > 0 {
      FarOvershoots(epochs - 1);
      var e := Residual(epochs - 1);
      StepOn(2.0 * Bias(epochs - 1), Bias(epochs - 1), 2.0, 1.0, e, 2.0 * e);
    }
  }

  /** What these two clients send, and any others, which have no samples. */
  function Sent(clients: nat, epochs: nat): seq<ClientUpdate> {
    TwoSent(2.0 * Bias(epochs), Bias(epochs)) +
      if clients <= 2 then [] else seq(clients - 2, i => ClientUpdate(0, Line(0.0, 0.0), 0, None))
  }

  function Parts(clients: nat): seq<seq<Sample>> {
    [[NEAR], [FAR]] + if clients <= 2 then [] else seq(clients - 2, i => [])
  }

  function TwoSent(w: real, b: real): seq<ClientUpdate> {
    [ClientUpdate(0, Line(0.0, 0.0), 1, None), ClientUpdate(1, Line(w, b), 1, None)]
  }

  lemma AverageOf(w: real, b: real)
    ensures SameShape(TwoSent(w, b), 1) && Total(TwoSent(w, b)) == 2
    ensures Weighted(TwoSent(w, b), 1) == Line(w, b)
    ensures FedAvgOf(TwoSent(w, b), 1) == Line(w / 2.0, b / 2.0)
  {
    var us := TwoSent(w, b);
    assert us[..1][..0] == [] && us[..1] == [us[0]];
    assert Total(us[..1]) == 1;
    assert Weighted(us[..1], 1) == Line(0.0, 0.0);
    assert Weighted(us, 1) == Line(w, b);
    Halved(w, b);
  }

  lemma Halved(w: real, b: real)
    ensures PScale(Inverse(2), Line(w, b)) == Line(w / 2.0, b / 2.0)
  {
    var h := PScale(Inverse(2), Line(w, b));
    assert h.w[0] == 0.5 * w && h.b == 0.5 * b;
    assert h.w == [w / 2.0];
  }

  /** Clients without samples leave the average alone. */
  lemma {:induction false} OthersDoNotCount(clients: nat, epochs: nat)
    requires clients >= 2
    ensures SameShape(Sent(clients, epochs), 1) && Total(Sent(clients, epochs)) == 2
    ensures Weighted(Sent(clients, epochs), 1) == Line(2.0 * Bias(epochs), Bias(epochs))
  {
    hide Weighted, PAdd, PScale, Bias;
    var us := Sent(clients, epochs);
    AverageOf(2.0 * Bias(epochs), Bias(epochs));
    if clients == 2 {
      assert us == TwoSent(2.0 * Bias(epochs), Bias(epochs));
    } else {
      OthersDoNotCount(clients - 1, epochs);
      assert us[..clients - 1] == Sent(clients - 1, epochs);
      NoSamples(us);
    }
  }

  lemma NoSamples(us: seq<ClientUpdate>)
    requires SameShape(us, 1) && |us| > 0 && us[|us| - 1].numSamples == 0
    ensures Weighted(us, 1) == Weighted(us[..|us| - 1], 1)
  {
    hide PAdd, PScale;
    PScaleZero(us[|us| - 1].model);
    PAddZero(Weighted(us[..|us| - 1], 1));
  }

  lemma LossOn(w: real, b: real)
    ensures Shaped([NEAR, FAR], 1)
    ensures MSEOf(Line(w, b), [NEAR, FAR]) == (b * b + (2.0 * w + b - 1.0) * (2.0 * w + b - 1.0)) / 2.0
  {
    var m, D := Line(w, b), [NEAR, FAR];
    ErrOn(w, b, 0.0, 0.0);
    ErrOn(w, b, 2.0, 1.0);
    assert D[..1] == [NEAR] && D[..1][..0] == [];
    assert SqErr(m, D[..1]) == b * b;
  }

  lemma RateIsSafe(D: seq<Sample>)
    requires |D| == 2 && D[0] == NEAR && D[1] == FAR
    ensures SafeRate(D, RATE)
  {
    hide Inner;
    LengthOn(0.0, 0.0);
    LengthOn(2.0, 4.0);
    assert D[..1][..0] == D[..0];
    assert Energy(D[..1]) == Energy(D[..0]) + Inner(Point([0.0]), Point([0.0]));
    assert Energy(D) == Energy(D[..1]) + Inner(Point([2.0]), Point([2.0]));
    hide Energy;
    RateTimes(Energy(D));
  }

  lemma RateTimes(energy: real)
    requires energy == 6.0
    ensures RATE * Mean(energy, 2) <= 1.0
  {
    assert Mean(energy, 2) == 3.0;
  }

  lemma LengthOn(x: real, xx: real)
    requires xx == x * x
    ensures Inner(Point([x]), Point([x])) == xx + 1.0
  {
    assert Dot([x], [x]) == Dot([x][..0], [x][..0]) + x * x;
  }

  lemma {:induction false} AllParts(clients: nat)
    requires clients >= 2
    ensures Concat(Parts(clients)) == [NEAR, FAR] && AllShaped(Parts(clients), 1)
  {
    var parts := Parts(clients);
    if clients == 2 {
      assert parts == [[NEAR], [FAR]];
      assert parts[..1] == [[NEAR]] && parts[..1][..0] == [];
      assert Concat(parts[..1]) == [NEAR];
    } else {
      AllParts(clients - 1);
      assert parts[..clients - 1] == Parts(clients - 1);
    }
  }

  lemma {:induction false} NobodyTrains(m: Params, epochs: int, lr: real)
    ensures Shaped([], |m.w|) && Epochs(m, [], epochs, lr) == m
    decreases epochs
  {
    hide Step;
    if epochs > 0 {
      NobodyTrains(m, epochs - 1, lr);
      StepOnNothing(m, lr);
    }
  }

  lemma StepOnNothing(m: Params, lr: real)
    ensures Step(m, [], lr) == m
  {
    PScaleNull(Move(lr, 0), |m.w|);
    PAddZero(m);
  }

  lemma OvershootCosts(s: real)
    requires 5.0 * s - 1.0 <= -4.0 || 5.0 * s - 1.0 >= 8.0
    ensures (s / 2.0) * (s / 2.0) + (2.0 * s + s / 2.0 - 1.0) * (2.0 * s + s / 2.0 - 1.0) > 1.0
  {
    var e := 2.0 * s + s / 2.0 - 1.0;
    assert e <= -2.5 || e >= 3.5;
    assert e * e > 1.0;
    assert (s / 2.0) * (s / 2.0) >= 0.0;
  }

  lemma SentIsRound(clients: nat, epochs: nat)
    requires clients >= 2
    ensures IsRound(Sent(clients, epochs), Line(0.0, 0.0), Parts(clients), RATE, epochs)
  {
    hide Epochs, Concat, Bias;
    AllParts(clients);
    NearStays(epochs);
    FarOvershoots(epochs);
    NobodyTrains(Line(0.0, 0.0), epochs, RATE);
  }

  /** With two clients or more and two epochs or more, some round at a safe rate raises the loss over all the data. */
  lemma SomeRoundRaisesLoss(clients: nat, epochs: nat)
    requires clients >= 2 && epochs >= 2
    ensures var m, parts := Line(0.0, 0.0), Parts(clients);
            IsRound(Sent(clients, epochs), m, parts, RATE, epochs) && SafeRate(Concat(parts), RATE) &&
            MSEOf(Outcome(Sent(clients, epochs), m, parts, RATE, epochs), Concat(parts)) > MSEOf(m, Concat(parts))
  {
    hide Epochs, MSEOf, Concat, SafeRate, Weighted, Total, Sent, Parts;
    var s := Bias(epochs);
    AllParts(clients);
    RateIsSafe([NEAR, FAR]);
    SentIsRound(clients, epochs);
    OthersDoNotCount(clients, epochs);
    Halved(2.0 * s, s);
    LossOn(0.0, 0.0);
    LossOn(s, s / 2.0);
    ResidualGrows(epochs);
    OvershootCosts(s);
  }

  // ---------- the exact condition ----------

  lemma RoundIsCentralised(us: seq<ClientUpdate>, m: Params, parts: seq<seq<Sample>>, lr: real, epochs: int)
    requires IsRound(us, m, parts, lr, epochs) && (|parts| <= 1 || epochs <= 1)
    ensures Outcome(us, m, parts, lr, epochs) == Epochs(m, Concat(parts), epochs, lr)
  {
    if epochs <= 1 {
      UpToOneEpoch(us, m, parts, lr, epochs);
    } else {
      assert |parts| > 0;
      OneClient(us, m, parts, lr, epochs);
    }
  }

  /** A round equals centralised training, for all data, rates and starts, exactly with one client or local epoch. */
  lemma CentralisedExactly(clients: nat, epochs: int)
    ensures AlwaysCentralised(clients, epochs) <==> clients <= 1 || epochs <= 1
  {
    hide Epochs, MSEOf, Concat, SafeRate, Parts, Sent, Outcome;
    if clients <= 1 || epochs <= 1 {
      forall us, m, parts, lr | IsRound(us, m, parts, lr, epochs) && |parts| == clients
        ensures Outcome(us, m, parts, lr, epochs) == Epochs(m, Concat(parts), epochs, lr)
      {
        RoundIsCentralised(us, m, parts, lr, epochs);
      }
    } else {
      PartsCount(clients);
      SomeRoundRaisesLoss(clients, epochs);
      TrainingDescends(Line(0.0, 0.0), Concat(Parts(clients)), epochs, RATE);
    }
  }

  lemma PartsCount(clients: nat)
    requires clients >= 2
    ensures |Parts(clients)| == clients
  {}

  /** No round at a safe rate can raise the loss over all the data, exactly with one client or one local epoch. */
  lemma DescentExactly(clients: nat, epochs: int)
    ensures NeverRaisesLoss(clients, epochs) <==> clients <= 1 || epochs <= 1
  {
    hide Epochs, MSEOf, Concat, SafeRate, Parts, Sent, Outcome;
    if clients <= 1 || epochs <= 1 {
      forall us, m, parts, lr
        | IsRound(us, m, parts, lr, epochs) && |parts| == clients && SafeRate(Concat(parts), lr)
        ensures MSEOf(Outcome(us, m, parts, lr, epochs), Concat(parts)) <= MSEOf(m, Concat(parts))
      {
        RoundIsCentralised(us, m, parts, lr, epochs);
        TrainingDescends(m, Concat(parts), epochs, lr);
      }
    } else {
      PartsCount(clients);
      SomeRoundRaisesLoss(clients, epochs);
    }
  }
}
