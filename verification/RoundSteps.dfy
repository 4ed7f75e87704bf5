/**
 Every delivery of the round protocol keeps the invariant and uses up one unit of the remaining work.
 One lemma per actor; together they are `DeliveryKeepsInv`.
 */
module RoundSteps {
  import opened Vectors
  import opened LinearModels
  import opened Averaging
  import opened FederatedActors
  import opened RoundProtocol

  lemma SendOne(s: State, to: Ref, msg: Msg)
    requires !to.ClientRef?
    ensures Send(s, [Envelope(to, msg)])
         == s.(toCoord := s.toCoord + (if to == CoordinatorRef then [msg] else []),
               toAgg := s.toAgg + (if to == AggregatorRef then [msg] else []),
               toMon := s.toMon + (if to == MonitorRef then [msg] else []))
  {
    var out := [Envelope(to, msg)];
    forall r ensures For(out, r) == if r == to then [msg] else [] {
      ForTwo(out[0], out[0], r);
    }
    hide For;
    var t := Send(s, out);
    assert forall i | 0 <= i < |s.toClient| :: t.toClient[i] == s.toClient[i];
    assert t.toClient == s.toClient;
  }

  /** The step itself loses no update. */
  ghost predicate LosesNothing(cfg: Config, s: State, t: State) {
    NothingLost(cfg, s) ==> NothingLost(cfg, t)
  }

  lemma OnlyInCollection(cfg: Config, s: State)
    requires RunOk(cfg) && Inv(cfg, s)
    ensures PhaseOf(s) != Collecting ==> ClientsIdle(cfg, s)
  {
    hide GlobalModel, Updates, MSEOf, AverageLoss, HistoryOk, LogOk, CollectInv;
  }

  // ---------- a client trains ----------

  lemma OneMoreUnderWay(q: seq<Msg>, r: int, u: ClientUpdate)
    requires OnlyRound(q, r)
    ensures OnlyRound(q + [LocalUpdate(r, u)], r)
    ensures UnderWay(q + [LocalUpdate(r, u)]) == UnderWay(q) + [u]
  {}

  lemma OneFewerWaiting(q: seq<seq<Msg>>, i: nat)
    requires i < |q| && q[i] != []
    ensures Waiting(q[i := []]) == Waiting(q) - {i} && i in Waiting(q)
  {}

  /** A change inside the collection phase: only the clients' queues and the aggregator are touched. */
  lemma StillCollecting(cfg: Config, s: State, t: State)
    requires RunOk(cfg) && Inv(cfg, s) && PhaseOf(s) == Collecting
    requires t == s.(toClient := t.toClient, toAgg := t.toAgg, agg := t.agg)
    requires |t.toClient| == |cfg.parts| == t.agg.numClients
    requires CollectInv(cfg, t)
    ensures Inv(cfg, t) && PhaseOf(t) == Collecting
    ensures Remaining(cfg, s) - Remaining(cfg, t)
         == 2 * |Waiting(s.toClient)| + |s.toAgg| - (2 * |Waiting(t.toClient)| + |t.toAgg|)
  {
    hide GlobalModel, Updates, MSEOf, AverageLoss, HistoryOk, LogOk, Waiting, CollectInv, ClientsIdle;
  }

  lemma ClientDelivers(cfg: Config, s: State, i: nat)
    requires RunOk(cfg) && Inv(cfg, s) && CanDeliver(cfg, s, ClientRef(i))
    ensures var t := Deliver(cfg, s, ClientRef(i)); Inv(cfg, t) && OneLess(cfg, s, t) && LosesNothing(cfg, s, t)
  {
    OnlyInCollection(cfg, s);
    hide GlobalModel, HistoryOk, LogOk, MSEOf, AverageLoss, UpdateOf, Deliver, Waiting, CollectInv, Remaining;
    var u := UpdateOf(cfg, i, s.coord.model, cfg.lr, cfg.epochs);
    var t := s.(toClient := s.toClient[i := []], toAgg := s.toAgg + [LocalUpdate(s.coord.round, u)]);
    ClientResult(cfg, s, i);
    TrainedKeepsCollection(cfg, s, t, i, u);
    StillCollecting(cfg, s, t);
  }

  lemma ClientResult(cfg: Config, s: State, i: nat)
    requires ConfigOk(cfg) && |s.coord.model.w| == cfg.features && CollectInv(cfg, s)
    requires CanDeliver(cfg, s, ClientRef(i)) && |s.toClient| == |cfg.parts|
    ensures i < |s.toClient| && s.toClient[i] != []
    ensures Deliver(cfg, s, ClientRef(i))
         == s.(toClient := s.toClient[i := []],
               toAgg := s.toAgg + [LocalUpdate(s.coord.round, UpdateOf(cfg, i, s.coord.model, cfg.lr, cfg.epochs))])
  {
    hide UpdateOf, For, Send, Waiting, Ids, Genuine, NoRepeats, UnderWay;
    var u := UpdateOf(cfg, i, s.coord.model, cfg.lr, cfg.epochs);
    assert s.toClient[i] == [StartRound(s.coord.round, s.coord.model, cfg.lr, cfg.epochs)];
    assert s.toClient[i][1..] == [];
    SendOne(s.(toClient := s.toClient[i := []]), AggregatorRef, LocalUpdate(s.coord.round, u));
  }

  lemma TrainedKeepsCollection(cfg: Config, s: State, t: State, i: nat, u: ClientUpdate)
    requires ConfigOk(cfg) && |s.coord.model.w| == cfg.features && CollectInv(cfg, s)
    requires i < |s.toClient| == |cfg.parts| && s.toClient[i] != []
    requires u == UpdateOf(cfg, i, s.coord.model, cfg.lr, cfg.epochs)
    requires t == s.(toClient := s.toClient[i := []], toAgg := s.toAgg + [LocalUpdate(s.coord.round, u)])
    ensures CollectInv(cfg, t) && |Waiting(t.toClient)| + 1 == |Waiting(s.toClient)| && |t.toAgg| == |s.toAgg| + 1
  {
    hide UpdateOf, Waiting, Ids;
    OneMoreUnderWay(s.toAgg, s.coord.round, u);
    OneFewerWaiting(s.toClient, i);
    assert Arrived(t) == Arrived(s) + [u];
    IdsAppend(Arrived(s), u);
    NewId(Arrived(s), i);
  }

  lemma NewId(us: seq<ClientUpdate>, i: nat)
    requires i !in Ids(us)
    ensures forall k | 0 <= k < |us| :: us[k].clientId != i
  {}

  /** A client's update that meets a full mailbox: its StartRound is used up and nothing arrives. */
  function Dropped(s: State, i: nat): State
    requires i < |s.toClient|
  {
    s.(toClient := s.toClient[i := []])
  }

  /** Losing an update keeps the invariant too: the round it belonged to can then no longer be completed. */
  lemma DropKeepsInv(cfg: Config, s: State, i: nat)
    requires RunOk(cfg) && Inv(cfg, s) && CanDeliver(cfg, s, ClientRef(i))
    ensures Inv(cfg, Dropped(s, i)) && Remaining(cfg, Dropped(s, i)) + 2 == Remaining(cfg, s)
    ensures s.toClient[i][1..] == []
  {
    OnlyInCollection(cfg, s);
    hide GlobalModel, HistoryOk, LogOk, MSEOf, AverageLoss, UpdateOf, Waiting, Remaining, CollectInv;
    DropKeepsCollection(cfg, s, i);
    StillCollecting(cfg, s, Dropped(s, i));
  }

  lemma DropKeepsCollection(cfg: Config, s: State, i: nat)
    requires ConfigOk(cfg) && |s.coord.model.w| == cfg.features && CollectInv(cfg, s)
    requires i < |s.toClient| && s.toClient[i] != []
    ensures CollectInv(cfg, Dropped(s, i)) && |Waiting(Dropped(s, i).toClient)| + 1 == |Waiting(s.toClient)|
    ensures s.toClient[i][1..] == []
  {
    hide UpdateOf, Waiting, Genuine, NoRepeats, Ids;
    OneFewerWaiting(s.toClient, i);
    assert Arrived(Dropped(s, i)) == Arrived(s);
  }

  // ---------- the aggregator takes an update in ----------

  lemma TakenIn(s: State, u: ClientUpdate)
    requires OnlyRound(s.toAgg, s.coord.round) && |s.toAgg| > 0 && s.toAgg[0].update == u
    ensures Collected(s.agg, s.coord.round, u) == Got(s) + [u]
    ensures OnlyRound(s.toAgg[1..], s.coord.round)
    ensures Arrived(s) == (Got(s) + [u]) + UnderWay(s.toAgg[1..])
  {
    assert s.toAgg == [s.toAgg[0]] + s.toAgg[1..];
    assert UnderWay(s.toAgg) == [u] + UnderWay(s.toAgg[1..]);
  }

  /** The update that completes the set: it is the last one under way and no client is still waiting. */
  lemma LastUpdate(cfg: Config, s: State, u: ClientUpdate)
    requires ConfigOk(cfg) && |s.coord.model.w| == cfg.features && CollectInv(cfg, s)
    requires |s.toClient| == |cfg.parts|
    requires |s.toAgg| > 0 && s.toAgg[0].update == u && |Got(s)| + 1 >= |cfg.parts|
    ensures var us := Got(s) + [u];
            s.toAgg[1..] == [] && s.toClient == NoMail(|cfg.parts|) && |us| == |cfg.parts| &&
            Genuine(cfg, us, s.coord.model) && multiset(us) == multiset(Updates(cfg, s.coord.model))
  {
    hide UpdateOf, Ids, Updates;
    TakenIn(s, u);
    FullHouse(cfg, Arrived(s), s.coord.model);
    assert |UnderWay(s.toAgg[1..])| == 0;
    assert Arrived(s) == Got(s) + [u];
    NobodyWaits(s.toClient);
  }

  lemma RoundAverage(cfg: Config, us: seq<ClientUpdate>, k: nat)
    requires RunOk(cfg) && multiset(us) == multiset(Updates(cfg, GlobalModel(cfg, k)))
    requires Genuine(cfg, us, GlobalModel(cfg, k))
    ensures Averageable(us, cfg.features) && FedAvgOf(us, cfg.features) == GlobalModel(cfg, k + 1)
  {
    hide UpdateOf, FedAvgOf, Updates;
    var m := GlobalModel(cfg, k);
    UpdatesAverageable(cfg, m);
    GenuineShape(cfg, us, m);
    ArrivalOrderIrrelevant(us, Updates(cfg, m), cfg.features);
  }

  lemma GenuineShape(cfg: Config, us: seq<ClientUpdate>, m: Params)
    requires ConfigOk(cfg) && |m.w| == cfg.features && Genuine(cfg, us, m)
    ensures SameShape(us, cfg.features)
  {
    hide Epochs;
  }

  lemma AggregatorReady(cfg: Config, s: State)
    requires RunOk(cfg) && Inv(cfg, s) && |s.toAgg| > 0
    ensures PhaseOf(s) == Collecting && CanDeliver(cfg, s, AggregatorRef)
  {
    OnlyInCollection(cfg, s);
    hide GlobalModel, Updates, MSEOf, AverageLoss, HistoryOk, LogOk, UpdateOf, Ids, Genuine, NoRepeats;
    var u := s.toAgg[0].update;
    TakenIn(s, u);
    if |Got(s)| + 1 >= |cfg.parts| {
      LastUpdate(cfg, s, u);
      RoundAverage(cfg, Got(s) + [u], |s.history|);
    }
  }

  lemma AggregatorDelivers(cfg: Config, s: State)
    requires RunOk(cfg) && Inv(cfg, s) && CanDeliver(cfg, s, AggregatorRef)
    ensures var t := Deliver(cfg, s, AggregatorRef); Inv(cfg, t) && OneLess(cfg, s, t) && LosesNothing(cfg, s, t)
  {
    AggregatorReady(cfg, s);
    if |Got(s)| + 1 >= |cfg.parts| {
      AggregatorCompletes(cfg, s);
    } else {
      AggregatorCollects(cfg, s);
    }
  }

  lemma AggregatorCollects(cfg: Config, s: State)
    requires RunOk(cfg) && Inv(cfg, s) && PhaseOf(s) == Collecting && CanDeliver(cfg, s, AggregatorRef)
    requires |Got(s)| + 1 < |cfg.parts|
    ensures var t := Deliver(cfg, s, AggregatorRef); Inv(cfg, t) && OneLess(cfg, s, t) && LosesNothing(cfg, s, t)
  {
    hide GlobalModel, Updates, MSEOf, AverageLoss, HistoryOk, LogOk, UpdateOf, For, Send, Waiting, Ids, Genuine,
         NoRepeats, UnderWay, Remaining;
    var r, u := s.coord.round, s.toAgg[0].update;
    TakenIn(s, u);
    var t := s.(agg := s.agg.(updates := Got(s) + [u], round := r), toAgg := s.toAgg[1..]);
    NothingToSend(t);
    assert Deliver(cfg, s, AggregatorRef) == t;
    assert Arrived(t) == Arrived(s);
    StillCollecting(cfg, s, t);
  }

  lemma AggregatorCompletes(cfg: Config, s: State)
    requires RunOk(cfg) && Inv(cfg, s) && PhaseOf(s) == Collecting && CanDeliver(cfg, s, AggregatorRef)
    requires |Got(s)| + 1 >= |cfg.parts|
    ensures var t := Deliver(cfg, s, AggregatorRef); Inv(cfg, t) && OneLess(cfg, s, t) && LosesNothing(cfg, s, t)
  {
    hide GlobalModel, Updates, AverageLoss, UpdateOf, Waiting, Genuine, Handle, Send, Got, CollectInv, CanDeliver,
         LogOk;
    CompletedRound(cfg, s);
    var us := Got(s) + [s.toAgg[0].update];
    LogStaysOk(cfg, s.mon.log, s.history, Aggregation(s.coord.round, us));
    NobodyWaits(s.toClient);
  }

  lemma CompletedRound(cfg: Config, s: State)
    requires RunOk(cfg) && Inv(cfg, s) && PhaseOf(s) == Collecting && CanDeliver(cfg, s, AggregatorRef)
    requires |Got(s)| + 1 >= |cfg.parts|
    ensures s.toAgg[0].LocalUpdate?
    ensures var r := s.coord.round;
            var us := Got(s) + [s.toAgg[0].update];
            && s.toClient == NoMail(|cfg.parts|) && |s.toAgg| == 1
            && |us| == |cfg.parts| && multiset(us) == multiset(Updates(cfg, s.coord.model))
            && Deliver(cfg, s, AggregatorRef)
               == s.(agg := s.agg.(updates := [], round := r), toAgg := [],
                     toCoord := [AggregationResult(r, GlobalModel(cfg, r), AverageLoss(us))],
                     history := s.history + [Aggregation(r, us)])
  {
    hide GlobalModel, Updates, AverageLoss, UpdateOf, For, Send, Waiting, Ids, Genuine, NoRepeats, UnderWay, FedAvgOf,
         SameShape, Total, HistoryOk, LogOk;
    var r, u := s.coord.round, s.toAgg[0].update;
    var us := Got(s) + [u];
    TakenIn(s, u);
    LastUpdate(cfg, s, u);
    RoundAverage(cfg, us, |s.history|);
    var t := s.(agg := s.agg.(updates := [], round := r), toAgg := [], history := s.history + [Aggregation(r, us)]);
    SendOne(t, CoordinatorRef, AggregationResult(r, GlobalModel(cfg, r), AverageLoss(us)));
  }

  lemma LogStaysOk(cfg: Config, log: seq<Metric>, h: seq<Aggregation>, a: Aggregation)
    requires RunOk(cfg) && HistoryOk(cfg, h) && LogOk(cfg, log, h) && HistoryOk(cfg, h + [a])
    ensures LogOk(cfg, log, h + [a])
  {
    hide GlobalModel, Updates, AverageLoss;
  }

  lemma NobodyWaits(q: seq<seq<Msg>>)
    ensures Waiting(q) == {} <==> q == NoMail(|q|)
  {
    if Waiting(q) == {} {
      forall i | 0 <= i < |q| ensures q[i] == [] {
        assert i !in Waiting(q);
      }
    }
  }

  // ---------- the coordinator acts ----------

  lemma CoordinatorDelivers(cfg: Config, s: State)
    requires RunOk(cfg) && Inv(cfg, s) && CanDeliver(cfg, s, CoordinatorRef)
    ensures var t := Deliver(cfg, s, CoordinatorRef); Inv(cfg, t) && OneLess(cfg, s, t) && LosesNothing(cfg, s, t)
  {
    hide GlobalModel, Updates, MSEOf, AverageLoss, HistoryOk, LogOk, CollectInv, Deliver, Remaining;
    match PhaseOf(s)
    case Starting => StartIsDelivered(cfg, s);
    case Averaged => ResultIsDelivered(cfg, s);
    case Reported => ReportIsDelivered(cfg, s);
    case _ =>
  }

  lemma StartIsDelivered(cfg: Config, s: State)
    requires RunOk(cfg) && Inv(cfg, s) && PhaseOf(s) == Starting
    ensures CanDeliver(cfg, s, CoordinatorRef)
    ensures var t := Deliver(cfg, s, CoordinatorRef); Inv(cfg, t) && OneLess(cfg, s, t) && LosesNothing(cfg, s, t)
  {
    hide GlobalModel, Updates, MSEOf, AverageLoss, HistoryOk, LogOk, CollectInv, Send, BeginRound, Everyone;
    assert s.toCoord[1..] == [];
    RoundBegins(cfg, s.(toCoord := [], coord := s.coord.(clients := Everyone(|cfg.parts|))));
  }

  lemma ResultIsDelivered(cfg: Config, s: State)
    requires RunOk(cfg) && Inv(cfg, s) && PhaseOf(s) == Averaged
    ensures CanDeliver(cfg, s, CoordinatorRef)
    ensures var t := Deliver(cfg, s, CoordinatorRef); Inv(cfg, t) && OneLess(cfg, s, t) && LosesNothing(cfg, s, t)
  {
    var r := s.coord.round;
    assert |s.history[r - 1].updates| > 0;
    var m, loss := GlobalModel(cfg, r), AverageLoss(s.history[r - 1].updates);
    hide GlobalModel, Updates, MSEOf, AverageLoss, HistoryOk, LogOk, CollectInv, Deliver, ClientsIdle, Remaining;
    ResultOutcome(cfg, s, m, r, loss);
    var t := s.(toCoord := [], coord := s.coord.(model := m),
                toMon := [SetGlobalModel(m), RoundComplete(r, loss, |s.coord.clients|)]);
    assert Base(cfg, t);
    IdleStays(cfg, s, t);
    assert Inv(cfg, t);
    StepDown(cfg, s, t);
  }

  lemma IdleStays(cfg: Config, s: State, t: State)
    requires ClientsIdle(cfg, s) && t.toAgg == s.toAgg && t.agg == s.agg && t.toClient == s.toClient
    ensures ClientsIdle(cfg, t)
  {}

  lemma ResultOutcome(cfg: Config, s: State, m: Params, r: int, loss: Option<real>)
    requires s.toCoord == [AggregationResult(r, m, loss)] && s.toMon == []
    ensures Deliver(cfg, s, CoordinatorRef)
         == s.(toCoord := [], coord := s.coord.(model := m),
               toMon := [SetGlobalModel(m), RoundComplete(r, loss, |s.coord.clients|)])
  {
    hide Send, For;
    assert s.toCoord[1..] == [];
    SendTwo(s.(toCoord := [], coord := s.coord.(model := m)), SetGlobalModel(m),
      RoundComplete(r, loss, |s.coord.clients|));
  }

  lemma SendTwo(s: State, a: Msg, c: Msg)
    ensures Send(s, [Envelope(MonitorRef, a), Envelope(MonitorRef, c)]) == s.(toMon := s.toMon + [a, c])
  {
    var out := [Envelope(MonitorRef, a), Envelope(MonitorRef, c)];
    forall r ensures For(out, r) == if r == MonitorRef then [a, c] else [] {
      ForTwo(out[0], out[1], r);
      ForTwo(out[1], out[0], r);
    }
    hide For;
    var t := Send(s, out);
    assert forall i | 0 <= i < |s.toClient| :: t.toClient[i] == s.toClient[i];
    assert t.toClient == s.toClient;
  }

  lemma ReportIsDelivered(cfg: Config, s: State)
    requires RunOk(cfg) && Inv(cfg, s) && PhaseOf(s) == Reported
    ensures CanDeliver(cfg, s, CoordinatorRef)
    ensures var t := Deliver(cfg, s, CoordinatorRef); Inv(cfg, t) && OneLess(cfg, s, t) && LosesNothing(cfg, s, t)
  {
    hide GlobalModel, Updates, MSEOf, AverageLoss, HistoryOk, LogOk, CollectInv, Send, BeginRound, Everyone, Converged;
    var c := s.(toCoord := []);
    assert s.toCoord[1..] == [];
    if s.toCoord[0].converged {
      NothingToSend(c.(coord := s.coord.(closed := 1)));
      assert Deliver(cfg, s, CoordinatorRef) == c.(coord := s.coord.(closed := 1));
    } else {
      RoundBegins(cfg, c);
    }
  }

  // ---------- the monitor acts ----------

  lemma MonitorDelivers(cfg: Config, s: State)
    requires RunOk(cfg) && Inv(cfg, s) && CanDeliver(cfg, s, MonitorRef)
    ensures var t := Deliver(cfg, s, MonitorRef); Inv(cfg, t) && OneLess(cfg, s, t) && LosesNothing(cfg, s, t)
  {
    hide GlobalModel, Updates, MSEOf, AverageLoss, HistoryOk, LogOk, CollectInv, Deliver, Remaining;
    match PhaseOf(s)
    case Announcing => ModelIsDelivered(cfg, s);
    case Evaluating => RoundIsEvaluated(cfg, s);
    case _ =>
  }

  lemma ModelIsDelivered(cfg: Config, s: State)
    requires RunOk(cfg) && Inv(cfg, s) && PhaseOf(s) == Announcing
    ensures CanDeliver(cfg, s, MonitorRef)
    ensures var t := Deliver(cfg, s, MonitorRef); Inv(cfg, t) && OneLess(cfg, s, t) && LosesNothing(cfg, s, t)
  {
    hide GlobalModel, Updates, MSEOf, AverageLoss, HistoryOk, LogOk, CollectInv, Send;
    var t := s.(mon := s.mon.(model := Some(GlobalModel(cfg, s.coord.round))), toMon := s.toMon[1..]);
    NothingToSend(t);
    assert Deliver(cfg, s, MonitorRef) == t;
  }

  lemma RoundIsEvaluated(cfg: Config, s: State)
    requires RunOk(cfg) && Inv(cfg, s) && PhaseOf(s) == Evaluating
    ensures CanDeliver(cfg, s, MonitorRef)
    ensures var t := Deliver(cfg, s, MonitorRef); Inv(cfg, t) && OneLess(cfg, s, t) && LosesNothing(cfg, s, t)
  {
    var r := s.coord.round;
    assert |s.history[r - 1].updates| > 0;
    var loss := AverageLoss(s.history[r - 1].updates);
    var mse := MSEOf(GlobalModel(cfg, r), cfg.validation);
    hide GlobalModel, Updates, MSEOf, AverageLoss, HistoryOk, CollectInv, Converged, Deliver, LogOk, ClientsIdle,
         Remaining;
    EvaluationOutcome(cfg, s, GlobalModel(cfg, r), r, loss);
    var t := s.(toMon := [], mon := s.mon.(log := s.mon.log + [Metric(r, mse, loss)]),
                toCoord := [MetricsReport(r, mse, Converged(mse, cfg.threshold))]);
    EvaluationKeepsInv(cfg, s, t);
    StepDown(cfg, s, t);
  }

  lemma EvaluationKeepsInv(cfg: Config, s: State, t: State)
    requires RunOk(cfg) && Inv(cfg, s) && PhaseOf(s) == Evaluating && |s.history[s.coord.round - 1].updates| > 0
    requires var r := s.coord.round;
             var mse := MSEOf(GlobalModel(cfg, r), cfg.validation);
             var m := Metric(r, mse, AverageLoss(s.history[r - 1].updates));
             t == s.(toMon := [], mon := s.mon.(log := s.mon.log + [m]),
                     toCoord := [MetricsReport(r, mse, Converged(mse, cfg.threshold))])
    ensures Inv(cfg, t) && PhaseOf(t) == Reported
  {
    EvaluationKeepsBase(cfg, s, t);
    hide Base, GlobalModel, Updates, MSEOf, AverageLoss, HistoryOk, CollectInv, Converged, LogOk, ClientsIdle;
    IdleStays(cfg, s, t);
  }

  lemma EvaluationKeepsBase(cfg: Config, s: State, t: State)
    requires RunOk(cfg) && Inv(cfg, s) && PhaseOf(s) == Evaluating && |s.history[s.coord.round - 1].updates| > 0
    requires var r := s.coord.round;
             var m := Metric(r, MSEOf(GlobalModel(cfg, r), cfg.validation), AverageLoss(s.history[r - 1].updates));
             t == s.(toMon := [], mon := s.mon.(log := s.mon.log + [m]), toCoord := t.toCoord)
    ensures Base(cfg, t)
  {
    hide GlobalModel, Updates, MSEOf, AverageLoss, HistoryOk, CollectInv, Converged, LogOk, ClientsIdle;
    LogGrows(cfg, s.mon.log, s.history);
  }

  /** From one phase after an aggregation to the next in the same round. */
  lemma StepDown(cfg: Config, s: State, t: State)
    requires t.coord.round == s.coord.round
    requires (PhaseOf(s) == Averaged && PhaseOf(t) == Announcing) ||
             (PhaseOf(s) == Evaluating && PhaseOf(t) == Reported)
    ensures OneLess(cfg, s, t)
  {
    hide PhaseOf, Times, Waiting;
  }

  lemma EvaluationOutcome(cfg: Config, s: State, m: Params, r: int, loss: Option<real>)
    requires ConfigOk(cfg) && |cfg.validation| > 0 && |m.w| == cfg.features
    requires s.toMon == [RoundComplete(r, loss, |cfg.parts|)] && s.toCoord == [] && s.mon.model == Some(m)
    ensures CanDeliver(cfg, s, MonitorRef)
    ensures var mse := MSEOf(m, cfg.validation);
            Deliver(cfg, s, MonitorRef)
            == s.(toMon := [], mon := s.mon.(log := s.mon.log + [Metric(r, mse, loss)]),
                  toCoord := [MetricsReport(r, mse, Converged(mse, cfg.threshold))])
  {
    hide Send, For, MSEOf, Converged;
    var mse := MSEOf(m, cfg.validation);
    assert s.toMon[1..] == [];
    SendOne(s.(toMon := [], mon := s.mon.(log := s.mon.log + [Metric(r, mse, loss)])), CoordinatorRef,
      MetricsReport(r, mse, Converged(mse, cfg.threshold)));
  }

  lemma LogGrows(cfg: Config, log: seq<Metric>, h: seq<Aggregation>)
    requires RunOk(cfg) && HistoryOk(cfg, h) && LogOk(cfg, log, h) && |log| < |h|
    ensures |h[|log|].updates| > 0
    ensures var m := GlobalModel(cfg, |log| + 1);
            LogOk(cfg, log + [Metric(|log| + 1, MSEOf(m, cfg.validation), AverageLoss(h[|log|].updates))], h)
  {
    hide GlobalModel, Updates, AverageLoss, MSEOf;
  }

  // ---------- together ----------

  /** Any delivery from a state of the protocol leads to a state of the protocol with one unit less to do. */
  lemma DeliveryKeepsInv(cfg: Config, s: State, r: Ref)
    requires RunOk(cfg) && Inv(cfg, s) && CanDeliver(cfg, s, r)
    ensures var t := Deliver(cfg, s, r); Inv(cfg, t) && OneLess(cfg, s, t) && LosesNothing(cfg, s, t)
  {
    hide Inv, Deliver, OneLess, CanDeliver, LosesNothing;
    match r
    case CoordinatorRef => CoordinatorDelivers(cfg, s);
    case AggregatorRef => AggregatorDelivers(cfg, s);
    case MonitorRef => MonitorDelivers(cfg, s);
    case ClientRef(i) => ClientDelivers(cfg, s, i);
  }

  ghost predicate Mail(s: State, r: Ref) {
    match r
    case CoordinatorRef => s.toCoord != []
    case AggregatorRef => s.toAgg != []
    case MonitorRef => s.toMon != []
    case ClientRef(i) => i < |s.toClient| && s.toClient[i] != []
  }

  /** No handler is ever handed a message it cannot process. */
  lemma MailIsDeliverable(cfg: Config, s: State, r: Ref)
    requires RunOk(cfg) && Inv(cfg, s) && Mail(s, r)
    ensures CanDeliver(cfg, s, r)
  {
    if r == AggregatorRef {
      AggregatorReady(cfg, s);
    } else {
      OnlyInCollection(cfg, s);
      hide GlobalModel, Updates, MSEOf, AverageLoss, HistoryOk, LogOk, Genuine, NoRepeats, Ids, Waiting;
    }
  }

  /** Once DoneCh is closed no message is waiting; as long as it is open one is, if none was lost. */
  lemma MailUntilDone(cfg: Config, s: State)
    requires RunOk(cfg) && Inv(cfg, s)
    ensures s.coord.closed <= 1 && (s.coord.closed == 1 ==> forall r :: !Mail(s, r))
    ensures NothingLost(cfg, s) && s.coord.closed == 0 ==> exists r :: Mail(s, r)
  {
    hide GlobalModel, Updates, MSEOf, AverageLoss, HistoryOk, LogOk;
    match PhaseOf(s)
    case Collecting =>
      if NothingLost(cfg, s) {
        MailWhileCollecting(cfg, s);
      }
    case Done =>
    case Announcing => assert Mail(s, MonitorRef);
    case Evaluating => assert Mail(s, MonitorRef);
    case _ => assert Mail(s, CoordinatorRef);
  }

  /** Without clients the first round never ends: nobody has mail, and DoneCh stays open. */
  lemma NoClientsStall(cfg: Config)
    requires ConfigOk(cfg) && cfg.parts == [] && cfg.totalRounds > 0
    ensures CanDeliver(cfg, Initial(cfg), CoordinatorRef)
    ensures var t := Deliver(cfg, Initial(cfg), CoordinatorRef); t.coord.closed == 0 && forall r :: !Mail(t, r)
  {
    var s := Initial(cfg);
    var (t, out) := Handle(cfg, s, CoordinatorRef);
    assert out == [];
    NothingToSend(t);
  }

  lemma MailWhileCollecting(cfg: Config, s: State)
    requires |Got(s)| < |cfg.parts| == |Waiting(s.toClient)| + |Got(s)| + |s.toAgg|
    ensures exists r :: Mail(s, r)
  {
    if |s.toAgg| > 0 {
      assert Mail(s, AggregatorRef);
    } else {
      assert Waiting(s.toClient) != {};
      var i :| i in Waiting(s.toClient);
      assert Mail(s, ClientRef(i));
    }
  }

  lemma InitialIsInv(cfg: Config)
    requires RunOk(cfg)
    ensures Inv(cfg, Initial(cfg)) && PhaseOf(Initial(cfg)) == Starting
    ensures Remaining(cfg, Initial(cfg)) == Times(cfg.totalRounds, PerRound(|cfg.parts|)) + 1
  {}
}
