/**
 The federated round protocol as a transition system over the handlers.

 A state holds the actors and their queues; a step delivers the head of one queue and appends what the handler
 sends.  The invariant counts tokens phase by phase: during collection each client is in exactly one of three
 places (its StartRound is waiting, its LocalUpdate is under way, or its update has been collected) unless its
 update was lost to a full mailbox, and otherwise exactly one actor has anything to do.
 */
module RoundProtocol {
  import opened Vectors
  import opened LinearModels
  import opened Averaging
  import opened FederatedActors

  /** Hypotheses of a run: at least one client, some training data, a validation set. */
  ghost predicate RunOk(cfg: Config) {
    ConfigOk(cfg) && |cfg.parts| > 0 && |Concat(cfg.parts)| > 0 && |cfg.validation| > 0
  }

  // ---------- what a round computes ----------

  /** One update per client, computed from the same global model, in the order of the clients. */
  ghost function Updates(cfg: Config, m: Params): (us: seq<ClientUpdate>)
    requires ConfigOk(cfg) && |m.w| == cfg.features
    ensures |us| == |cfg.parts|
  {
    seq(|cfg.parts|, i requires 0 <= i < |cfg.parts| => UpdateOf(cfg, i, m, cfg.lr, cfg.epochs))
  }

  lemma UpdatesAverageable(cfg: Config, m: Params)
    requires RunOk(cfg) && |m.w| == cfg.features
    ensures Averageable(Updates(cfg, m), cfg.features)
  {
    SamplesAddUp(Updates(cfg, m), cfg.parts);
  }

  /** The global model after k rounds, a function of the configuration alone. */
  ghost function GlobalModel(cfg: Config, k: nat): (m: Params)
    requires RunOk(cfg)
    ensures |m.w| == cfg.features
  {
    if k == 0 then PZero(cfg.features)
    else
      UpdatesAverageable(cfg, GlobalModel(cfg, k - 1));
      FedAvgOf(Updates(cfg, GlobalModel(cfg, k - 1)), cfg.features)
  }

  // ---------- states and steps ----------

  /** One aggregation the aggregator has carried out: the round and the updates it averaged. */
  datatype Aggregation = Aggregation(round: int, updates: seq<ClientUpdate>)

  datatype State = State(
    coord: Coordinator, agg: Aggregator, mon: Monitor,
    toCoord: seq<Msg>, toAgg: seq<Msg>, toMon: seq<Msg>, toClient: seq<seq<Msg>>,
    history: seq<Aggregation>)

  /** The messages of `out` addressed to r, in sending order. */
  function For(out: seq<Envelope>, r: Ref): seq<Msg>
  {
    if |out| == 0 then []
    else For(out[..|out| - 1], r) + if out[|out| - 1].to == r then [out[|out| - 1].msg] else []
  }

  function Send(s: State, out: seq<Envelope>): State {
    s.(toCoord := s.toCoord + For(out, CoordinatorRef),
       toAgg := s.toAgg + For(out, AggregatorRef),
       toMon := s.toMon + For(out, MonitorRef),
       toClient := seq(|s.toClient|, i requires 0 <= i < |s.toClient| => s.toClient[i] + For(out, ClientRef(i))))
  }

  ghost predicate CanDeliver(cfg: Config, s: State, r: Ref) {
    match r
    case CoordinatorRef => |s.toCoord| > 0
    case AggregatorRef => |s.toAgg| > 0 && AggregatorAccepts(s.agg, s.toAgg[0], cfg.features)
    case MonitorRef => |s.toMon| > 0 && MonitorAccepts(cfg, s.mon, s.toMon[0])
    case ClientRef(i) => i < |s.toClient| && |s.toClient[i]| > 0 && ClientAccepts(cfg, i, s.toClient[i][0])
  }

  /** The handler's effect on its actor, with its message taken off the queue, and what it sends. */
  ghost function Handle(cfg: Config, s: State, r: Ref): (State, seq<Envelope>)
    requires CanDeliver(cfg, s, r)
  {
    match r
    case CoordinatorRef =>
      var (c, out) := CoordinatorReceive(cfg, s.coord, s.toCoord[0]);
      (s.(coord := c, toCoord := s.toCoord[1..]), out)
    case AggregatorRef =>
      var msg := s.toAgg[0];
      var (a, out) := AggregatorReceive(s.agg, msg, cfg.features);
      (s.(agg := a, toAgg := s.toAgg[1..],
          history := if |out| == 0 then s.history
                     else s.history + [Aggregation(msg.round, Collected(s.agg, msg.round, msg.update))]), out)
    case MonitorRef =>
      var (m, out) := MonitorReceive(cfg, s.mon, s.toMon[0]);
      (s.(mon := m, toMon := s.toMon[1..]), out)
    case ClientRef(i) =>
      (s.(toClient := s.toClient[i := s.toClient[i][1..]]), ClientReceive(cfg, i, s.toClient[i][0]))
  }

  ghost function Deliver(cfg: Config, s: State, r: Ref): State
    requires CanDeliver(cfg, s, r)
  {
    var (t, out) := Handle(cfg, s, r); Send(t, out)
  }

  function Everyone(n: nat): (c: seq<nat>)
    ensures |c| == n
  {
    seq(n, i => i)
  }

  function NoMail(n: nat): seq<seq<Msg>> {
    seq(n, _ => [])
  }

  /** The moment StartFederatedLearning has been told to the coordinator. */
  function Initial(cfg: Config): State {
    State(Coordinator([], 0, PZero(cfg.features), 0), Aggregator(|cfg.parts|, [], 0), Monitor(None, []),
          [StartFederatedLearning(Everyone(|cfg.parts|))], [], [], NoMail(|cfg.parts|), [])
  }

  // ---------- who has been heard ----------

  function All(n: nat): set<nat>
  {
    if n == 0 then {} else All(n - 1) + {n - 1}
  }

  lemma {:induction false} AllMembers(n: nat)
    ensures |All(n)| == n && forall i: nat :: i in All(n) <==> i < n
  {
    if n > 0 {
      AllMembers(n - 1);
    }
  }

  function Ids(us: seq<ClientUpdate>): set<nat> {
    set u | u in us :: u.clientId
  }

  ghost predicate NoRepeats(us: seq<ClientUpdate>) {
    forall a, c | 0 <= a < c < |us| :: us[a].clientId != us[c].clientId
  }

  lemma {:induction false} IdsSize(us: seq<ClientUpdate>)
    requires NoRepeats(us)
    ensures |Ids(us)| == |us|
  {
    if |us| > 0 {
      var n := |us| - 1;
      IdsSize(us[..n]);
      assert us == us[..n] + [us[n]];
      assert Ids(us) == Ids(us[..n]) + {us[n].clientId};
      assert us[n].clientId !in Ids(us[..n]);
    }
  }

  lemma IdsAppend(us: seq<ClientUpdate>, u: ClientUpdate)
    ensures Ids(us + [u]) == Ids(us) + {u.clientId}
  {}

  /** Every update is the one its client computes from m. */
  ghost predicate Genuine(cfg: Config, us: seq<ClientUpdate>, m: Params)
    requires ConfigOk(cfg) && |m.w| == cfg.features
  {
    forall k | 0 <= k < |us| ::
      us[k].clientId < |cfg.parts| && us[k] == UpdateOf(cfg, us[k].clientId, m, cfg.lr, cfg.epochs)
  }

  lemma {:induction false} CountDistinct(us: seq<ClientUpdate>, u: ClientUpdate)
    requires NoRepeats(us)
    ensures multiset(us)[u] == if u in us then 1 else 0
  {
    if |us| > 0 {
      var n := |us| - 1;
      CountDistinct(us[..n], u);
      assert us == us[..n] + [us[n]];
      assert multiset(us) == multiset(us[..n]) + multiset{us[n]};
    }
  }

  /** As many distinct genuine updates as clients: every client is among them. */
  lemma EveryoneHeard(cfg: Config, us: seq<ClientUpdate>, m: Params)
    requires ConfigOk(cfg) && |m.w| == cfg.features
    requires Genuine(cfg, us, m) && NoRepeats(us) && |us| >= |cfg.parts|
    ensures |us| == |cfg.parts| && Ids(us) == All(|cfg.parts|)
  {
    hide UpdateOf;
    var n := |cfg.parts|;
    IdsSize(us);
    AllMembers(n);
    assert Ids(us) <= All(n);
    assert |All(n) - Ids(us)| == |All(n)| - |Ids(us)|;
    assert All(n) - Ids(us) == {};
  }

  /** Then the updates are, up to their order, one from each client. */
  lemma FullHouse(cfg: Config, us: seq<ClientUpdate>, m: Params)
    requires ConfigOk(cfg) && |m.w| == cfg.features
    requires Genuine(cfg, us, m) && NoRepeats(us) && |us| >= |cfg.parts|
    ensures |us| == |cfg.parts| && Ids(us) == All(|cfg.parts|)
    ensures multiset(us) == multiset(Updates(cfg, m))
  {
    hide UpdateOf, Genuine, Ids, NoRepeats;
    var vs := Updates(cfg, m);
    EveryoneHeard(cfg, us, m);
    UpdateIds(cfg, m);
    forall u ensures multiset(us)[u] == multiset(vs)[u] {
      CountDistinct(us, u);
      CountDistinct(vs, u);
      SameMembers(cfg, us, m, u);
    }
  }

  lemma SameMembers(cfg: Config, us: seq<ClientUpdate>, m: Params, u: ClientUpdate)
    requires ConfigOk(cfg) && |m.w| == cfg.features
    requires Genuine(cfg, us, m) && Ids(us) == All(|cfg.parts|)
    ensures u in us <==> u in Updates(cfg, m)
  {
    hide UpdateOf;
    var vs := Updates(cfg, m);
    AllMembers(|cfg.parts|);
    if u in us {
      var j :| 0 <= j < |us| && us[j] == u;
      assert vs[u.clientId] == u;
    }
    if u in vs {
      var k :| 0 <= k < |vs| && vs[k] == u;
      assert k in All(|cfg.parts|);
      var j :| 0 <= j < |us| && us[j].clientId == k;
    }
  }

  lemma UpdateIds(cfg: Config, m: Params)
    requires ConfigOk(cfg) && |m.w| == cfg.features
    ensures NoRepeats(Updates(cfg, m))
  {}

  // ---------- the invariant ----------

  datatype Phase = Starting | Collecting | Averaged | Announcing | Evaluating | Reported | Done

  function PhaseOf(s: State): Phase {
    if s.coord.closed > 0 then Done
    else if |s.toCoord| > 0 then
      if s.toCoord[0].StartFederatedLearning? then Starting
      else if s.toCoord[0].AggregationResult? then Averaged
      else Reported
    else if |s.toMon| > 1 then Announcing
    else if |s.toMon| == 1 then Evaluating
    else Collecting
  }

  /** The updates already collected for the current round, and those still under way. */
  function Got(s: State): seq<ClientUpdate> {
    if s.agg.round == s.coord.round then s.agg.updates else []
  }

  function UnderWay(q: seq<Msg>): seq<ClientUpdate>
    requires forall k | 0 <= k < |q| :: q[k].LocalUpdate?
  {
    seq(|q|, k requires 0 <= k < |q| => q[k].update)
  }

  function Waiting(q: seq<seq<Msg>>): set<nat> {
    set i: nat | i < |q| && q[i] != []
  }

  function Arrived(s: State): seq<ClientUpdate>
    requires forall k | 0 <= k < |s.toAgg| :: s.toAgg[k].LocalUpdate?
  {
    Got(s) + UnderWay(s.toAgg)
  }

  ghost predicate OnlyRound(q: seq<Msg>, round: int) {
    forall k | 0 <= k < |q| :: q[k].LocalUpdate? && q[k].round == round
  }

  ghost predicate CollectInv(cfg: Config, s: State)
    requires ConfigOk(cfg) && |s.coord.model.w| == cfg.features
  {
    var n := |cfg.parts|;
    var r, m := s.coord.round, s.coord.model;
    && (s.agg.round == r || (s.agg.round == r - 1 && s.agg.updates == []))
    && OnlyRound(s.toAgg, r)
    && |Got(s)| < n
    && (forall i | 0 <= i < |s.toClient| ::
          s.toClient[i] == [] || s.toClient[i] == [StartRound(r, m, cfg.lr, cfg.epochs)])
    && Genuine(cfg, Arrived(s), m) && NoRepeats(Arrived(s))
    && Waiting(s.toClient) + Ids(Arrived(s)) <= All(n) && Waiting(s.toClient) !! Ids(Arrived(s))
  }

  /** No update of the round under way has been lost on its way to the aggregator. */
  ghost predicate NothingLost(cfg: Config, s: State) {
    PhaseOf(s) == Collecting ==> |Waiting(s.toClient)| + |Got(s)| + |s.toAgg| == |cfg.parts|
  }

  /** Nothing is waiting at the clients or the aggregator, which holds no updates. */
  ghost predicate ClientsIdle(cfg: Config, s: State) {
    s.toAgg == [] && s.agg.updates == [] && s.toClient == NoMail(|cfg.parts|)
  }

  /** Every aggregation so far: in order of rounds, each from one genuine update per client. */
  ghost predicate HistoryOk(cfg: Config, h: seq<Aggregation>)
    requires RunOk(cfg)
  {
    forall k | 0 <= k < |h| ::
      h[k].round == k + 1 && |h[k].updates| == |cfg.parts| &&
      multiset(h[k].updates) == multiset(Updates(cfg, GlobalModel(cfg, k)))
  }

  /** Every evaluation so far: of that round's average, with that round's loss. */
  ghost predicate LogOk(cfg: Config, log: seq<Metric>, h: seq<Aggregation>)
    requires RunOk(cfg) && HistoryOk(cfg, h)
  {
    |log| <= |h| &&
    forall k | 0 <= k < |log| ::
      log[k] == Metric(k + 1, MSEOf(GlobalModel(cfg, k + 1), cfg.validation), AverageLoss(h[k].updates))
  }

  /** Training went on past every round before the current one, so none of those had converged. */
  ghost predicate NotYetConverged(cfg: Config, log: seq<Metric>, round: int) {
    forall k | 0 <= k < |log| && k + 1 < round :: !Converged(log[k].mse, cfg.threshold)
  }

  ghost predicate Base(cfg: Config, s: State)
    requires RunOk(cfg)
  {
    && NotYetConverged(cfg, s.mon.log, s.coord.round)
    && |s.toClient| == |cfg.parts| && s.agg.numClients == |cfg.parts|
    && HistoryOk(cfg, s.history) && LogOk(cfg, s.mon.log, s.history)
    && (s.mon.model.Some? ==> |s.mon.model.value.w| == cfg.features)
    && 0 <= s.coord.round && s.coord.closed <= 1
    && (s.coord.round > 0 ==> s.coord.round <= cfg.totalRounds && s.coord.clients == Everyone(|cfg.parts|))
  }

  ghost predicate PhaseInv(cfg: Config, s: State)
    requires RunOk(cfg) && Base(cfg, s)
  {
    var r := s.coord.round;
    var h, e := |s.history|, |s.mon.log|;
    match PhaseOf(s)
    case Starting =>
      r == h == e == 0 && s.coord.model == GlobalModel(cfg, 0) &&
      s.toCoord == [StartFederatedLearning(Everyone(|cfg.parts|))] && s.toMon == [] &&
      ClientsIdle(cfg, s) && s.agg.round == 0
    case Collecting =>
      r >= 1 && h == e == r - 1 && s.coord.model == GlobalModel(cfg, h) && s.toCoord == [] && s.toMon == [] &&
      CollectInv(cfg, s)
    case Averaged =>
      r >= 1 && h == r && e == r - 1 && ClientsIdle(cfg, s) && s.agg.round == r && s.toMon == [] &&
      s.toCoord == [AggregationResult(r, GlobalModel(cfg, r), AverageLoss(s.history[r - 1].updates))]
    case Announcing =>
      r >= 1 && h == r && e == r - 1 && ClientsIdle(cfg, s) && s.agg.round == r && s.toCoord == [] &&
      s.coord.model == GlobalModel(cfg, r) &&
      s.toMon == [SetGlobalModel(GlobalModel(cfg, r)),
                  RoundComplete(r, AverageLoss(s.history[r - 1].updates), |cfg.parts|)]
    case Evaluating =>
      r >= 1 && h == r && e == r - 1 && ClientsIdle(cfg, s) && s.agg.round == r && s.toCoord == [] &&
      s.coord.model == GlobalModel(cfg, r) && s.mon.model == Some(GlobalModel(cfg, r)) &&
      s.toMon == [RoundComplete(r, AverageLoss(s.history[r - 1].updates), |cfg.parts|)]
    case Reported =>
      r >= 1 && h == e == r && ClientsIdle(cfg, s) && s.agg.round == r && s.toMon == [] &&
      s.coord.model == GlobalModel(cfg, r) &&
      s.toCoord == [MetricsReport(r, s.mon.log[r - 1].mse, Converged(s.mon.log[r - 1].mse, cfg.threshold))]
    case Done =>
      h == e == r && ClientsIdle(cfg, s) && s.toCoord == [] && s.toMon == [] &&
      s.coord.model == GlobalModel(cfg, r) &&
      (r >= cfg.totalRounds || (r >= 1 && Converged(s.mon.log[r - 1].mse, cfg.threshold)))
  }

  ghost predicate Inv(cfg: Config, s: State)
    requires RunOk(cfg)
  {
    Base(cfg, s) && PhaseInv(cfg, s)
  }

  // ---------- how much is left ----------

  function PerRound(n: nat): nat {
    2 * n + 4
  }

  function Times(rounds: int, k: nat): nat
    decreases rounds
  {
    if rounds <= 0 then 0 else Times(rounds - 1, k) + k
  }

  /** The number of deliveries still to come if the monitor never reports convergence. */
  function Remaining(cfg: Config, s: State): nat {
    var n := |cfg.parts|;
    var later := Times(cfg.totalRounds - s.coord.round, PerRound(n));
    match PhaseOf(s)
    case Starting => later + 1
    case Collecting => later + 2 * |Waiting(s.toClient)| + |s.toAgg| + 4
    case Averaged => later + 4
    case Announcing => later + 3
    case Evaluating => later + 2
    case Reported => later + 1
    case Done => 0
  }

  /** One delivery uses up one unit, or ends the run because the model has converged. */
  ghost predicate OneLess(cfg: Config, s: State, t: State) {
    Remaining(cfg, t) + 1 == Remaining(cfg, s) ||
    (PhaseOf(s) == Reported && PhaseOf(t) == Done && Remaining(cfg, s) > 0)
  }

  // ---------- each delivery keeps the invariant ----------

  lemma ForTwo(a: Envelope, c: Envelope, r: Ref)
    ensures For([], r) == []
    ensures For([a], r) == if a.to == r then [a.msg] else []
    ensures For([a, c], r) == For([a], r) + For([c], r)
  {
    assert [a, c][..1] == [a] && [a][..0] == [] && [c][..0] == [];
  }

  lemma {:induction false} ForBroadcast(cfg: Config, k: nat, round: int, m: Params, r: Ref)
    ensures For(Broadcast(cfg, Everyone(k), round, m), r)
         == if r.ClientRef? && r.id < k then [StartRound(round, m, cfg.lr, cfg.epochs)] else []
  {
    if k > 0 {
      ForBroadcast(cfg, k - 1, round, m, r);
      OneMoreTold(cfg, k, round, m);
      var out := Broadcast(cfg, Everyone(k), round, m);
      hide Broadcast;
      assert For(out, r) == For(out[..k - 1], r) + if out[k - 1].to == r then [out[k - 1].msg] else [];
    }
  }

  lemma OneMoreTold(cfg: Config, k: nat, round: int, m: Params)
    requires k > 0
    ensures var out := Broadcast(cfg, Everyone(k), round, m);
            |out| == k && out[..k - 1] == Broadcast(cfg, Everyone(k - 1), round, m) &&
            out[k - 1] == Envelope(ClientRef(k - 1), StartRound(round, m, cfg.lr, cfg.epochs))
  {}

  /** An idle state from which the coordinator goes on to its next round. */
  ghost predicate BetweenRounds(cfg: Config, s: State)
    requires RunOk(cfg)
  {
    Base(cfg, s) && s.coord.closed == 0 && s.coord.clients == Everyone(|cfg.parts|) &&
    s.toCoord == [] && s.toMon == [] && ClientsIdle(cfg, s) && s.agg.round == s.coord.round &&
    |s.history| == |s.mon.log| == s.coord.round && s.coord.model == GlobalModel(cfg, s.coord.round) &&
    NotYetConverged(cfg, s.mon.log, s.coord.round + 1)
  }

  lemma NothingToSend(s: State)
    ensures Send(s, []) == s
  {
    var t := Send(s, []);
    assert forall i | 0 <= i < |s.toClient| :: t.toClient[i] == s.toClient[i];
    assert t.toClient == s.toClient;
  }

  lemma RoundBegins(cfg: Config, s: State)
    requires RunOk(cfg) && BetweenRounds(cfg, s)
    ensures var (c, out) := BeginRound(cfg, s.coord);
            var t := Send(s.(coord := c), out);
            Inv(cfg, t) && Remaining(cfg, t) == Times(cfg.totalRounds - s.coord.round, PerRound(|cfg.parts|))
            && PhaseOf(t) == (if s.coord.round >= cfg.totalRounds then Done else Collecting) && NothingLost(cfg, t)
  {
    hide GlobalModel, Updates, MSEOf, AverageLoss, HistoryOk, LogOk;
    if s.coord.round >= cfg.totalRounds {
      NothingToSend(s.(coord := s.coord.(closed := 1)));
    } else {
      RoundStarts(cfg, s);
    }
  }

  lemma RoundStarts(cfg: Config, s: State)
    requires RunOk(cfg) && BetweenRounds(cfg, s) && s.coord.round < cfg.totalRounds
    ensures var c := s.coord.(round := s.coord.round + 1);
            var t := Send(s.(coord := c), Broadcast(cfg, c.clients, c.round, c.model));
            Inv(cfg, t) && PhaseOf(t) == Collecting && NothingLost(cfg, t)
            && Remaining(cfg, t) == Times(cfg.totalRounds - s.coord.round, PerRound(|cfg.parts|))
  {
    hide GlobalModel, Updates, MSEOf, AverageLoss, HistoryOk, LogOk, Broadcast, For, Send, CollectInv, Waiting,
         Converged;
    var c := s.coord.(round := s.coord.round + 1);
    var t := Send(s.(coord := c), Broadcast(cfg, c.clients, c.round, c.model));
    var msg := StartRound(c.round, c.model, cfg.lr, cfg.epochs);
    AllTold(cfg, s.(coord := c), c.round, c.model);
    assert t == s.(coord := c, toClient := seq(|cfg.parts|, _ => [msg]));
    AllWaiting(cfg, t, msg);
  }

  /** A broadcast puts its message in the empty queue of every client and nowhere else. */
  lemma AllTold(cfg: Config, s: State, round: int, m: Params)
    requires s.toClient == NoMail(|cfg.parts|)
    ensures Send(s, Broadcast(cfg, Everyone(|cfg.parts|), round, m))
         == s.(toClient := seq(|cfg.parts|, _ => [StartRound(round, m, cfg.lr, cfg.epochs)]))
  {
    var n := |cfg.parts|;
    var out := Broadcast(cfg, Everyone(n), round, m);
    var msg := StartRound(round, m, cfg.lr, cfg.epochs);
    hide Broadcast, For, Send;
    forall r ensures For(out, r) == if r.ClientRef? && r.id < n then [msg] else [] {
      ForBroadcast(cfg, n, round, m, r);
    }
    SentAround(s, out, n, msg);
  }

  /** The message goes to each of the first n clients and to nobody else. */
  ghost predicate ToEveryone(out: seq<Envelope>, n: nat, msg: Msg) {
    forall r :: For(out, r) == if r.ClientRef? && r.id < n then [msg] else []
  }

  lemma SentAround(s: State, out: seq<Envelope>, n: nat, msg: Msg)
    requires s.toClient == NoMail(n) && ToEveryone(out, n, msg)
    ensures Send(s, out) == s.(toClient := seq(n, _ => [msg]))
  {
    hide For;
    var t := Send(s, out);
    forall i | 0 <= i < n ensures t.toClient[i] == [msg] {
      assert s.toClient[i] == [];
    }
    assert t.toClient == seq(n, _ => [msg]);
  }

  lemma AllWaiting(cfg: Config, t: State, msg: Msg)
    requires ConfigOk(cfg) && |t.coord.model.w| == cfg.features && |cfg.parts| > 0
    requires msg == StartRound(t.coord.round, t.coord.model, cfg.lr, cfg.epochs)
    requires t.toClient == seq(|cfg.parts|, _ => [msg])
    requires t.toAgg == [] && t.agg.updates == [] && t.agg.round == t.coord.round - 1
    ensures CollectInv(cfg, t) && |Waiting(t.toClient)| == |cfg.parts|
  {
    AllMembers(|cfg.parts|);
    assert Waiting(t.toClient) == All(|cfg.parts|);
    assert Arrived(t) == [];
    assert Ids([]) == {};
  }
}
