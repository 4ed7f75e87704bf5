/**
 What federated learning amounts to, from the first message to the closing of DoneCh.

 These theorems join the protocol (every interleaving of the actors) to the arithmetic (training and averaging).
 */
module FederatedTheorems {
  import opened Vectors
  import opened LinearModels
  import opened Averaging
  import opened LocalEpochs
  import opened FederatedActors
  import opened RoundProtocol
  import opened FederatedRuns

  /** A completed run: DoneCh has been closed at moment k. */
  ghost predicate Completed(cfg: Config, run: seq<System>, acts: seq<Action>, k: nat) {
    IsRun(cfg, run, acts) && k <= |acts| < |run| && run[k].told && run[k].st.coord.closed == 1
  }

  /** With one client, or at most one epoch per round, k rounds are as many epochs of training on all the data. */
  lemma {:induction false} RoundsAreCentralisedEpochs(cfg: Config, k: nat)
    requires RunOk(cfg) && (|cfg.parts| == 1 || cfg.epochs <= 1)
    ensures Shaped(Concat(cfg.parts), cfg.features)
    ensures GlobalModel(cfg, k) == Epochs(PZero(cfg.features), Concat(cfg.parts), cfg.epochs * k, cfg.lr)
  {
    hide LinearModels.Step, FedAvgOf;
    ConcatShaped(cfg.parts, cfg.features);
    if k > 0 {
      RoundsAreCentralisedEpochs(cfg, k - 1);
      var m := GlobalModel(cfg, k - 1);
      RoundsAreRounds(cfg, m);
      RoundIsCentralised(Updates(cfg, m), m, cfg.parts, cfg.lr, cfg.epochs);
      OneMoreRound(PZero(cfg.features), Concat(cfg.parts), cfg.epochs, k, cfg.lr);
    }
  }

  lemma RoundsAreRounds(cfg: Config, m: Params)
    requires RunOk(cfg) && |m.w| == cfg.features
    ensures IsRound(Updates(cfg, m), m, cfg.parts, cfg.lr, cfg.epochs)
  {
    hide Epochs;
  }

  lemma OneMoreRound(m: Params, D: seq<Sample>, epochs: int, k: nat, lr: real)
    requires Shaped(D, |m.w|) && k > 0
    ensures Epochs(Epochs(m, D, epochs * (k - 1), lr), D, epochs, lr) == Epochs(m, D, epochs * k, lr)
  {
    hide Epochs;
    EpochCount(epochs, k);
    EpochsAddUp(m, D, epochs * (k - 1), epochs, epochs * k, lr);
  }

  lemma EpochsAddUp(m: Params, D: seq<Sample>, before: int, epochs: int, after: int, lr: real)
    requires Shaped(D, |m.w|) && after == before + epochs
    requires if epochs > 0 then before >= 0 else before <= 0 && after <= 0
    ensures Epochs(Epochs(m, D, before, lr), D, epochs, lr) == Epochs(m, D, after, lr)
  {
    if epochs > 0 {
      EpochsAdd(m, D, before, epochs, lr);
    }
  }

  lemma EpochCount(epochs: int, k: nat)
    requires k > 0
    ensures epochs * k == epochs * (k - 1) + epochs
    ensures if epochs > 0 then epochs * (k - 1) >= 0 else epochs * (k - 1) <= 0 && epochs * k <= 0
  {}

  lemma {:induction false} EpochsAdd(m: Params, D: seq<Sample>, a: nat, c: nat, lr: real)
    requires Shaped(D, |m.w|)
    ensures Epochs(Epochs(m, D, a, lr), D, c, lr) == Epochs(m, D, a + c, lr)
  {
    hide LinearModels.Step;
    if c > 0 {
      EpochsAdd(m, D, a, c - 1, lr);
    }
  }

  /** After k rounds the global model is the centralised one. */
  ghost predicate Centralised(cfg: Config, k: nat)
    requires RunOk(cfg)
  {
    Shaped(Concat(cfg.parts), cfg.features) &&
    GlobalModel(cfg, k) == Epochs(PZero(cfg.features), Concat(cfg.parts), cfg.epochs * k, cfg.lr)
  }

  /** After k rounds the loss over all clients' data is at most that of the zero model. */
  ghost predicate Descended(cfg: Config, k: nat)
    requires RunOk(cfg)
  {
    Shaped(Concat(cfg.parts), cfg.features) &&
    MSEOf(GlobalModel(cfg, k), Concat(cfg.parts)) <= MSEOf(PZero(cfg.features), Concat(cfg.parts))
  }

  ghost predicate RoundsCentralised(clients: nat, epochs: int) {
    forall cfg, k: nat | RunOk(cfg) && |cfg.parts| == clients && cfg.epochs == epochs :: Centralised(cfg, k)
  }

  ghost predicate RoundsDescend(clients: nat, epochs: int) {
    forall cfg, k: nat
      | RunOk(cfg) && |cfg.parts| == clients && cfg.epochs == epochs && SafeRate(Concat(cfg.parts), cfg.lr) ::
      Descended(cfg, k)
  }

  /** One round between two clients of one sample each and others that have none. */
  function TwoOfMany(clients: nat, epochs: int): Config {
    Config(1, RATE, epochs, 1, Parts(clients), [NEAR], 0.0)
  }

  lemma TwoOfManyOvershoot(clients: nat, epochs: nat)
    requires clients >= 2 && epochs >= 2
    ensures var cfg := TwoOfMany(clients, epochs);
            RunOk(cfg) && |cfg.parts| == clients && SafeRate(Concat(cfg.parts), cfg.lr) && !Descended(cfg, 1)
  {
    hide Epochs, FedAvgOf, MSEOf, Concat, SafeRate, PZero, Parts, Sent;
    var cfg := TwoOfMany(clients, epochs);
    var m := PZero(1);
    PartsCount(clients);
    AllParts(clients);
    SomeRoundRaisesLoss(clients, epochs);
    ZeroIsLine();
    assert GlobalModel(cfg, 0) == m;
    RoundsAreRounds(cfg, m);
    SameOutcome(cfg, m, Sent(clients, epochs));
  }

  lemma ZeroIsLine()
    ensures PZero(1) == Line(0.0, 0.0)
  {}

  /** The outcome of a round depends on the models and sample counts only. */
  lemma SameOutcome(cfg: Config, m: Params, us: seq<ClientUpdate>)
    requires RunOk(cfg) && |m.w| == cfg.features && IsRound(us, m, cfg.parts, cfg.lr, cfg.epochs)
    ensures IsRound(Updates(cfg, m), m, cfg.parts, cfg.lr, cfg.epochs)
    ensures Outcome(us, m, cfg.parts, cfg.lr, cfg.epochs) == Outcome(Updates(cfg, m), m, cfg.parts, cfg.lr, cfg.epochs)
  {
    hide Epochs;
    RoundsAreRounds(cfg, m);
    RoundIsAverageable(us, m, cfg.parts, cfg.lr, cfg.epochs);
    SameWeighted(us, Updates(cfg, m), cfg.features);
  }

  lemma {:induction false} SameWeighted(us: seq<ClientUpdate>, vs: seq<ClientUpdate>, d: nat)
    requires SameShape(us, d) && |us| == |vs|
    requires forall k | 0 <= k < |us| :: vs[k].model == us[k].model && vs[k].numSamples == us[k].numSamples
    ensures SameShape(vs, d) && Total(us) == Total(vs) && Weighted(us, d) == Weighted(vs, d)
  {
    if |us| > 0 {
      SameWeighted(us[..|us| - 1], vs[..|us| - 1], d);
    }
  }

  /** Federated training is centralised, for every configuration, exactly with one client or one local epoch. */
  lemma RoundsCentralisedExactly(clients: nat, epochs: int)
    ensures RoundsCentralised(clients, epochs) <==> clients <= 1 || epochs <= 1
  {
    hide Epochs, MSEOf, Concat, SafeRate, GlobalModel, Parts;
    if clients <= 1 || epochs <= 1 {
      forall cfg, k: nat | RunOk(cfg) && |cfg.parts| == clients && cfg.epochs == epochs ensures Centralised(cfg, k) {
        RoundsAreCentralisedEpochs(cfg, k);
      }
    } else {
      TwoOfManyOvershoot(clients, epochs);
      if RoundsCentralised(clients, epochs) {
        CentralisedDescends(TwoOfMany(clients, epochs), 1);
      }
    }
  }

  lemma CentralisedDescends(cfg: Config, k: nat)
    requires RunOk(cfg) && Centralised(cfg, k) && SafeRate(Concat(cfg.parts), cfg.lr)
    ensures Descended(cfg, k)
  {
    hide Epochs, MSEOf, Concat, SafeRate, GlobalModel;
    TrainingDescends(PZero(cfg.features), Concat(cfg.parts), cfg.epochs * k, cfg.lr);
  }

  /** At a safe rate it never ends above the zero model's loss exactly with one client or one local epoch. */
  lemma RoundsDescendExactly(clients: nat, epochs: int)
    ensures RoundsDescend(clients, epochs) <==> clients <= 1 || epochs <= 1
  {
    hide Epochs, MSEOf, Concat, SafeRate, GlobalModel, Parts;
    if clients <= 1 || epochs <= 1 {
      forall cfg, k: nat
        | RunOk(cfg) && |cfg.parts| == clients && cfg.epochs == epochs && SafeRate(Concat(cfg.parts), cfg.lr)
        ensures Descended(cfg, k)
      {
        RoundsAreCentralisedEpochs(cfg, k);
        CentralisedDescends(cfg, k);
      }
    } else {
      TwoOfManyOvershoot(clients, epochs);
    }
  }

  /** Whatever the interleaving, a completed run of one client or one local epoch leaves the centralised model. */
  lemma FederatedIsCentralised(cfg: Config, run: seq<System>, acts: seq<Action>, k: nat)
    requires RunOk(cfg) && (|cfg.parts| == 1 || cfg.epochs <= 1) && Completed(cfg, run, acts, k)
    ensures Shaped(Concat(cfg.parts), cfg.features)
    ensures run[k].st.coord.model
         == Epochs(PZero(cfg.features), Concat(cfg.parts), cfg.epochs * run[k].st.coord.round, cfg.lr)
  {
    hide GlobalModel, IsRun, HistoryOk, LogOk;
    RunsComputeTheRounds(cfg, run, acts, k);
    RoundsAreCentralisedEpochs(cfg, run[k].st.coord.round);
  }

  /** So its loss over all training data is no larger than that of the zero model it started from. */
  lemma FederatedRunDescends(cfg: Config, run: seq<System>, acts: seq<Action>, k: nat)
    requires RunOk(cfg) && (|cfg.parts| == 1 || cfg.epochs <= 1) && Completed(cfg, run, acts, k)
    requires SafeRate(Concat(cfg.parts), cfg.lr)
    ensures |run[k].st.coord.model.w| == cfg.features && Shaped(Concat(cfg.parts), cfg.features)
    ensures MSEOf(run[k].st.coord.model, Concat(cfg.parts)) <= MSEOf(PZero(cfg.features), Concat(cfg.parts))
  {
    hide IsRun, SafeRate, MSEOf, Epochs, PZero, Concat;
    FederatedIsCentralised(cfg, run, acts, k);
    TrainingDescends(PZero(cfg.features), Concat(cfg.parts), cfg.epochs * run[k].st.coord.round, cfg.lr);
  }

  /** Any two completed runs of one configuration stop after the same round, with the same model and the same log. */
  lemma CompletedRunsAgree(cfg: Config, run: seq<System>, acts: seq<Action>, k: nat,
                           run': seq<System>, acts': seq<Action>, k': nat)
    requires RunOk(cfg) && Completed(cfg, run, acts, k) && Completed(cfg, run', acts', k')
    ensures run[k].st.coord.round == run'[k'].st.coord.round
    ensures run[k].st.coord.model == run'[k'].st.coord.model
    ensures run[k].st.mon.log == run'[k'].st.mon.log
  {
    hide GlobalModel, IsRun, HistoryOk, LogOk, Converged;
    RunsComputeTheRounds(cfg, run, acts, k);
    RunsComputeTheRounds(cfg, run', acts', k');
    var s, t := run[k].st, run'[k'].st;
    if s.coord.round < t.coord.round {
      StopsNoLater(cfg, s, t);
    } else if t.coord.round < s.coord.round {
      StopsNoLater(cfg, t, s);
    }
    SameLogs(cfg, s, t);
  }

  /** Equal numbers of rounds have equal logs, though the updates may have arrived in different orders. */
  lemma SameLogs(cfg: Config, s: State, t: State)
    requires RunOk(cfg) && HistoryOk(cfg, s.history) && HistoryOk(cfg, t.history)
    requires LogOk(cfg, s.mon.log, s.history) && LogOk(cfg, t.mon.log, t.history)
    requires |s.mon.log| == |t.mon.log|
    ensures s.mon.log == t.mon.log
  {
    hide GlobalModel, MSEOf, AverageLoss, Updates;
    forall i | 0 <= i < |s.mon.log| ensures s.mon.log[i] == t.mon.log[i] {
      LossOrderIrrelevant(s.history[i].updates, t.history[i].updates);
    }
  }

  /** A run cannot have gone past a round at which another one stopped. */
  lemma StopsNoLater(cfg: Config, s: State, t: State)
    requires RunOk(cfg)
    requires HistoryOk(cfg, s.history) && LogOk(cfg, s.mon.log, s.history) && |s.mon.log| == s.coord.round
    requires HistoryOk(cfg, t.history) && LogOk(cfg, t.mon.log, t.history) && |t.mon.log| == t.coord.round
    requires s.coord.round >= cfg.totalRounds ||
             (s.coord.round > 0 && Converged(s.mon.log[s.coord.round - 1].mse, cfg.threshold))
    requires NotYetConverged(cfg, t.mon.log, t.coord.round)
    requires t.coord.round > 0 ==> t.coord.round <= cfg.totalRounds
    ensures t.coord.round <= s.coord.round
  {
    hide GlobalModel, HistoryOk, MSEOf, AverageLoss, Converged;
    var r := s.coord.round;
    if 0 < r <= |t.mon.log| {
      assert s.mon.log[r - 1].mse == t.mon.log[r - 1].mse;
    }
  }
}
