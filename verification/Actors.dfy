/**
 The four actors of a federated round and the messages between them.

 Each handler is a function from the actor's state and one message to its new state and the messages it
 sends; the classes are the actors themselves, whose `Receive` methods are proved to do what the functions say.
 */
module FederatedActors {
  import opened Vectors
  import opened LinearModels
  import opened Averaging

  datatype Ref = CoordinatorRef | AggregatorRef | MonitorRef | ClientRef(id: nat)

  datatype Msg =
    | Started
    | ClusterAssign
    | StartFederatedLearning(clients: seq<nat>)
    | StartRound(round: int, model: Params, lr: real, epochs: int)
    | LocalUpdate(round: int, update: ClientUpdate)
    | AggregationResult(round: int, model: Params, loss: Option<real>)
    | SetGlobalModel(model: Params)
    | RoundComplete(round: int, loss: Option<real>, numClients: nat)
    | MetricsReport(round: int, mse: real, converged: bool)

  datatype Envelope = Envelope(to: Ref, msg: Msg)

  /** The settings of a run: rounds and training parameters, the clients' data, the validation data. */
  datatype Config = Config(
    totalRounds: int, lr: real, epochs: int, features: nat,
    parts: seq<seq<Sample>>, validation: seq<Sample>, threshold: real)

  ghost predicate ConfigOk(cfg: Config) {
    AllShaped(cfg.parts, cfg.features) && Shaped(cfg.validation, cfg.features)
  }

  // ---------- coordinator ----------

  datatype Coordinator = Coordinator(clients: seq<nat>, round: int, model: Params, closed: nat)

  function Broadcast(cfg: Config, clients: seq<nat>, round: int, model: Params): seq<Envelope> {
    seq(|clients|, i requires 0 <= i < |clients| =>
      Envelope(ClientRef(clients[i]), StartRound(round, model, cfg.lr, cfg.epochs)))
  }

  function BeginRound(cfg: Config, c: Coordinator): (Coordinator, seq<Envelope>) {
    if c.round >= cfg.totalRounds then (c.(closed := c.closed + 1), [])
    else (c.(round := c.round + 1), Broadcast(cfg, c.clients, c.round + 1, c.model))
  }

  function CoordinatorReceive(cfg: Config, c: Coordinator, msg: Msg): (Coordinator, seq<Envelope>) {
    match msg
    case StartFederatedLearning(clients) => BeginRound(cfg, c.(clients := clients))
    case AggregationResult(round, model, loss) =>
      (c.(model := model),
       [Envelope(MonitorRef, SetGlobalModel(model)), Envelope(MonitorRef, RoundComplete(round, loss, |c.clients|))])
    case MetricsReport(round, mse, converged) =>
      if converged then (c.(closed := c.closed + 1), []) else BeginRound(cfg, c)
    case _ => (c, [])
  }

  class CoordinatorActor {
    const cfg: Config
    var clients: seq<nat>
    var currentRound: int
    var globalModel: Params
    // How often DoneCh was closed.
    var closed: nat

    ghost function Value(): Coordinator
      reads this
    {
      Coordinator(clients, currentRound, globalModel, closed)
    }

    constructor (cfg: Config)
      ensures this.cfg == cfg && Value() == Coordinator([], 0, PZero(cfg.features), 0)
    {
      this.cfg := cfg;
      clients, currentRound, globalModel, closed := [], 0, PZero(cfg.features), 0;
    }

    method Receive(msg: Msg) returns (out: seq<Envelope>)
      modifies this
      ensures (Value(), out) == CoordinatorReceive(cfg, old(Value()), msg)
    {
      out := [];
      match msg
      case StartFederatedLearning(cs) =>
        clients := cs;
        out := StartNextRound();
      case AggregationResult(round, model, loss) =>
        globalModel := model;
        out := [Envelope(MonitorRef, SetGlobalModel(model)),
                Envelope(MonitorRef, RoundComplete(round, loss, |clients|))];
      case MetricsReport(round, mse, converged) =>
        if converged {
          closed := closed + 1;
        } else {
          out := StartNextRound();
        }
      case _ =>
    }

    method StartNextRound() returns (out: seq<Envelope>)
      modifies this
      ensures (Value(), out) == BeginRound(cfg, old(Value()))
    {
      out := [];
      if currentRound >= cfg.totalRounds {
        closed := closed + 1;
        return;
      }
      currentRound := currentRound + 1;
      for i := 0 to |clients|
        invariant Value() == old(Value()).(round := old(currentRound) + 1)
        invariant out == Broadcast(cfg, clients, currentRound, globalModel)[..i]
      {
        out := out + [Envelope(ClientRef(clients[i]), StartRound(currentRound, globalModel, cfg.lr, cfg.epochs))];
      }
      assert out == Broadcast(cfg, clients, currentRound, globalModel);
    }
  }

  // ---------- aggregator ----------

  datatype Aggregator = Aggregator(numClients: nat, updates: seq<ClientUpdate>, round: int)

  /** Adding losses; undefined as soon as one of them is. */
  function LossPlus(a: Option<real>, c: Option<real>): Option<real> {
    match (a, c)
    case (Some(x), Some(y)) => Some(x + y)
    case _ => None
  }

  function LossSum(us: seq<ClientUpdate>): Option<real>
  {
    if |us| == 0 then Some(0.0) else LossPlus(LossSum(us[..|us| - 1]), us[|us| - 1].loss)
  }

  function AverageLoss(us: seq<ClientUpdate>): Option<real>
    requires |us| > 0
  {
    match LossSum(us)
    case Some(s) => Some(s / (|us| as real))
    case None => None
  }

  /** The average is undefined exactly when some client's loss is. */
  lemma {:induction false} LossDefined(us: seq<ClientUpdate>)
    ensures LossSum(us).Some? <==> forall i | 0 <= i < |us| :: us[i].loss.Some?
  {
    if |us| > 0 {
      LossDefined(us[..|us| - 1]);
    }
  }

  lemma {:induction false} SameLosses(us: seq<ClientUpdate>, x: real)
    requires forall i | 0 <= i < |us| :: us[i].loss == Some(x)
    ensures LossSum(us) == Some(NTimes(|us|, x))
  {
    if |us| > 0 {
      SameLosses(us[..|us| - 1], x);
      OneMoreTime(|us| - 1, x);
    }
  }

  function NTimes(n: nat, x: real): real {
    n as real * x
  }

  lemma OneMoreTime(n: nat, x: real)
    ensures NTimes(n, x) + x == NTimes(n + 1, x)
  {}

  /** Equal losses are their own average. */
  lemma AverageOfEqualLosses(us: seq<ClientUpdate>, x: real)
    requires |us| > 0 && forall i | 0 <= i < |us| :: us[i].loss == Some(x)
    ensures AverageLoss(us) == Some(x)
  {
    SameLosses(us, x);
    assert NTimes(|us|, x) / (|us| as real) == x;
  }

  lemma {:induction false} LossSumShifts(us: seq<ClientUpdate>, i: nat, y: real)
    requires i < |us| && forall k | 0 <= k < |us| :: us[k].loss.Some?
    ensures LossSum(us).Some?
    ensures LossSum(us[i := us[i].(loss := Some(y))]) == Some(LossSum(us).value + (y - us[i].loss.value))
  {
    LossDefined(us);
    var n := |us| - 1;
    var vs := us[i := us[i].(loss := Some(y))];
    if i < n {
      LossSumShifts(us[..n], i, y);
      assert vs[..n] == us[..n][i := us[i].(loss := Some(y))];
    } else {
      assert vs[..n] == us[..n];
    }
  }

  /** Every client's loss weighs one n-th, whatever its number of samples. */
  lemma LossesWeighEqually(us: seq<ClientUpdate>, i: nat, y: real)
    requires i < |us| && forall k | 0 <= k < |us| :: us[k].loss.Some?
    ensures AverageLoss(us).Some?
    ensures AverageLoss(us[i := us[i].(loss := Some(y))])
         == Some(AverageLoss(us).value + (y - us[i].loss.value) / (|us| as real))
  {
    LossSumShifts(us, i, y);
    SumOfQuotients(LossSum(us).value, y - us[i].loss.value, |us|);
  }

  lemma SumOfQuotients(a: real, c: real, n: nat)
    requires n > 0
    ensures (a + c) / (n as real) == a / (n as real) + c / (n as real)
  {}

  lemma {:induction false} TakeLossOut(us: seq<ClientUpdate>, i: nat)
    requires i < |us|
    ensures LossSum(us) == LossPlus(LossSum(Without(us, i)), us[i].loss)
  {
    var n := |us| - 1;
    if i == n {
      assert Without(us, i) == us[..n];
    } else {
      TakeLossOut(us[..n], i);
      var rest := Without(us, i);
      assert rest[..n - 1] == Without(us[..n], i) && rest[n - 1] == us[n];
    }
  }

  /** The averaged loss depends only on which updates arrived, not on their order. */
  lemma {:induction false} LossOrderIrrelevant(us: seq<ClientUpdate>, vs: seq<ClientUpdate>)
    requires multiset(us) == multiset(vs)
    ensures |us| == |vs| && LossSum(us) == LossSum(vs)
    ensures |us| > 0 ==> AverageLoss(us) == AverageLoss(vs)
  {
    assert |us| == |multiset(us)| == |multiset(vs)| == |vs|;
    if |us| > 0 {
      var n := |us| - 1;
      assert us[n] in multiset(vs);
      var i :| 0 <= i < |vs| && vs[i] == us[n];
      SameRest(us, vs, i);
      LossOrderIrrelevant(us[..n], Without(vs, i));
      TakeLossOut(vs, i);
    }
  }

  /** The updates held once this one is taken in; an update of another round starts afresh. */
  function Collected(a: Aggregator, round: int, update: ClientUpdate): seq<ClientUpdate> {
    (if round != a.round then [] else a.updates) + [update]
  }

  /** What `FedAvg` needs of the updates it is given: one shape, and at least one sample among them. */
  ghost predicate Averageable(us: seq<ClientUpdate>, d: nat) {
    SameShape(us, d) && Total(us) > 0
  }

  ghost predicate AggregatorAccepts(a: Aggregator, msg: Msg, d: nat) {
    (msg.LocalUpdate? && |Collected(a, msg.round, msg.update)| >= a.numClients) ==>
      Averageable(Collected(a, msg.round, msg.update), d)
  }

  function AggregatorReceive(a: Aggregator, msg: Msg, d: nat): (Aggregator, seq<Envelope>)
    requires AggregatorAccepts(a, msg, d)
  {
    match msg
    case LocalUpdate(round, update) =>
      var us := Collected(a, round, update);
      if |us| >= a.numClients then
        (a.(updates := [], round := round),
         [Envelope(CoordinatorRef, AggregationResult(round, FedAvgOf(us, d), AverageLoss(us)))])
      else (a.(updates := us, round := round), [])
    case _ => (a, [])
  }

  class AggregatorActor {
    var numClients: nat
    var updates: seq<ClientUpdate>
    var currentRoundID: int

    ghost function Value(): Aggregator
      reads this
    {
      Aggregator(numClients, updates, currentRoundID)
    }

    constructor (numClients: nat)
      ensures Value() == Aggregator(numClients, [], 0)
    {
      this.numClients, updates, currentRoundID := numClients, [], 0;
    }

    method Receive(msg: Msg, ghost d: nat) returns (out: seq<Envelope>)
      requires AggregatorAccepts(Value(), msg, d)
      modifies this
      ensures (Value(), out) == AggregatorReceive(old(Value()), msg, d)
    {
      out := [];
      if msg.LocalUpdate? {
        if msg.round != currentRoundID {
          updates := [];
          currentRoundID := msg.round;
        }
        updates := updates + [msg.update];
        if |updates| >= numClients {
          out := Aggregate(d);
        }
      }
    }

    method Aggregate(ghost d: nat) returns (out: seq<Envelope>)
      requires |updates| > 0 && Averageable(updates, d)
      modifies this`updates
      ensures updates == []
      ensures var us := old(updates);
              out == [Envelope(CoordinatorRef, AggregationResult(currentRoundID, FedAvgOf(us, d), AverageLoss(us)))]
    {
      var global := FedAvg(updates);
      var total: Option<real> := Some(0.0);
      for i := 0 to |updates|
        invariant total == LossSum(updates[..i])
      {
        assert updates[..i + 1][..i] == updates[..i];
        total := LossPlus(total, updates[i].loss);
      }
      assert updates[..|updates|] == updates;
      var avg := match total case Some(s) => Some(s / (|updates| as real)) case None => None;
      assert SameShape(updates, |updates[0].model.w|);
      out := [Envelope(CoordinatorRef, AggregationResult(currentRoundID, global.params, avg))];
      updates := [];
    }
  }

  // ---------- monitor ----------

  datatype Metric = Metric(round: int, mse: real, loss: Option<real>)

  datatype Monitor = Monitor(model: Option<Params>, log: seq<Metric>)

  /** RMSE below the threshold, compared on squares. */
  predicate Converged(mse: real, threshold: real) {
    threshold > 0.0 && mse < threshold * threshold
  }

  /** What the source compares with the threshold: the root mean squared error. */
  ghost predicate IsRoot(rmse: real, mse: real) {
    rmse >= 0.0 && rmse * rmse == mse
  }

  lemma SquaresCompare(a: real, c: real)
    requires a >= 0.0 && c > 0.0
    ensures a < c <==> a * a < c * c
  {
    assert (c - a) * (c + a) == c * c - a * a;
    ProductSign(c - a, c + a);
  }

  lemma ProductSign(a: real, c: real)
    requires c > 0.0
    ensures a > 0.0 <==> a * c > 0.0
  {}

  /** The comparison of squares decides what comparing the root would. */
  lemma ConvergedMeansRootBelow(rmse: real, mse: real, threshold: real)
    requires IsRoot(rmse, mse)
    ensures Converged(mse, threshold) <==> rmse < threshold
  {
    if threshold > 0.0 {
      SquaresCompare(rmse, threshold);
    }
  }

  ghost predicate RootBelow(mse: real, threshold: real) {
    forall rmse | IsRoot(rmse, mse) :: rmse < threshold
  }

  ghost predicate RootAtLeast(mse: real, threshold: real) {
    forall rmse | IsRoot(rmse, mse) :: rmse >= threshold
  }

  lemma ConvergenceIsAboutRoots(mse: real, threshold: real)
    ensures if Converged(mse, threshold) then RootBelow(mse, threshold) else RootAtLeast(mse, threshold)
  {
    hide Converged, IsRoot;
    forall rmse | IsRoot(rmse, mse) ensures Converged(mse, threshold) <==> rmse < threshold {
      ConvergedMeansRootBelow(rmse, mse, threshold);
    }
  }

  ghost predicate MonitorAccepts(cfg: Config, m: Monitor, msg: Msg) {
    Shaped(cfg.validation, cfg.features) &&
    (msg.SetGlobalModel? ==> |msg.model.w| == cfg.features) &&
    (m.model.Some? ==> |m.model.value.w| == cfg.features)
  }

  function MonitorReceive(cfg: Config, m: Monitor, msg: Msg): (Monitor, seq<Envelope>)
    requires MonitorAccepts(cfg, m, msg)
  {
    match msg
    case SetGlobalModel(model) => (m.(model := Some(model)), [])
    case RoundComplete(round, loss, numClients) =>
      if m.model == None || |cfg.validation| == 0 then (m, [])
      else
        var mse := MSEOf(m.model.value, cfg.validation);
        (m.(log := m.log + [Metric(round, mse, loss)]),
         [Envelope(CoordinatorRef, MetricsReport(round, mse, Converged(mse, cfg.threshold)))])
    case _ => (m, [])
  }

  /** The flag of a report says whether the root of the reported error is below the threshold. */
  lemma ReportsAreHonest(cfg: Config, m: Monitor, msg: Msg)
    requires MonitorAccepts(cfg, m, msg)
    ensures var out := MonitorReceive(cfg, m, msg).1;
            forall i, rmse | 0 <= i < |out| && out[i].msg.MetricsReport? && IsRoot(rmse, out[i].msg.mse) ::
              out[i].msg.converged <==> rmse < cfg.threshold
  {
    hide MSEOf, IsRoot, Converged;
    var out := MonitorReceive(cfg, m, msg).1;
    forall i, rmse | 0 <= i < |out| && out[i].msg.MetricsReport? && IsRoot(rmse, out[i].msg.mse)
      ensures out[i].msg.converged <==> rmse < cfg.threshold
    {
      ConvergedMeansRootBelow(rmse, out[i].msg.mse, cfg.threshold);
    }
  }

  class MonitorActor {
    const cfg: Config
    const valX: seq<Vec>
    const valY: Vec
    var globalModel: LinearModel?
    var metricsLog: seq<Metric>

    ghost predicate Valid()
      reads this, globalModel, if globalModel == null then {} else {globalModel.Weights}
    {
      |valX| == |valY| && Samples(valX, valY) == cfg.validation && Shaped(cfg.validation, cfg.features) &&
      (globalModel != null ==> globalModel.Valid() && globalModel.NumFeatures == cfg.features)
    }

    ghost function Value(): Monitor
      reads this, globalModel, if globalModel == null then {} else {globalModel.Weights}
    {
      Monitor(if globalModel == null then None else Some(globalModel.Value()), metricsLog)
    }

    constructor (cfg: Config, valX: seq<Vec>, valY: Vec)
      requires |valX| == |valY| && Samples(valX, valY) == cfg.validation && Shaped(cfg.validation, cfg.features)
      ensures Valid() && Value() == Monitor(None, []) && this.cfg == cfg
    {
      this.cfg, this.valX, this.valY := cfg, valX, valY;
      globalModel := null;
      metricsLog := [];
    }

    method Receive(msg: Msg) returns (out: seq<Envelope>)
      requires Valid() && MonitorAccepts(cfg, Value(), msg)
      modifies this, globalModel, if globalModel == null then {} else {globalModel.Weights}
      ensures Valid()
      ensures (Value(), out) == MonitorReceive(cfg, old(Value()), msg)
      ensures forall i, rmse | 0 <= i < |out| && out[i].msg.MetricsReport? && IsRoot(rmse, out[i].msg.mse) ::
                out[i].msg.converged <==> rmse < cfg.threshold
    {
      ReportsAreHonest(cfg, Value(), msg);
      out := [];
      match msg
      case SetGlobalModel(model) =>
        if globalModel == null {
          globalModel := new LinearModel(|model.w|);
        }
        CopyWeights(globalModel, model.w);
        globalModel.Bias := model.b;
      case RoundComplete(round, loss, numClients) =>
        if globalModel == null || |valX| == 0 {
          return;
        }
        var mse := Evaluate(globalModel, valX, valY);
        metricsLog := metricsLog + [Metric(round, mse, loss)];
        out := [Envelope(CoordinatorRef, MetricsReport(round, mse, Converged(mse, cfg.threshold)))];
      case _ =>
    }
  }

  /** `copy(m.Weights, w)` */
  method CopyWeights(m: LinearModel, w: Vec)
    requires m.Valid() && |w| == m.NumFeatures
    modifies m.Weights
    ensures m.Weights[..] == w
  {
    for i := 0 to |w|
      invariant m.Weights[..i] == w[..i]
    {
      m.Weights[i] := w[i];
    }
  }

  /** Predictions for the whole validation set first, then the mean of their squared errors. */
  method Evaluate(m: LinearModel, X: seq<Vec>, y: Vec) returns (mse: real)
    requires m.Valid() && |X| == |y| > 0 && Shaped(Samples(X, y), m.NumFeatures)
    ensures mse == MSEOf(m.Value(), Samples(X, y))
  {
    hide Inner;
    ghost var D := Samples(X, y);
    assert forall i | 0 <= i < |X| :: |D[i].features| == |X[i]|;
    var pred: seq<real> := [];
    for i := 0 to |X|
      invariant |pred| == i
      invariant forall k | 0 <= k < i :: pred[k] == Inner(m.Value(), Point(X[k]))
    {
      var p := m.Predict(X[i]);
      pred := pred + [p];
    }
    var sum := 0.0;
    for i := 0 to |X|
      invariant sum == SqErr(m.Value(), D[..i])
    {
      sum := sum + (pred[i] - y[i]) * (pred[i] - y[i]);
      assert D[..i + 1][..i] == D[..i];
    }
    assert D[..|X|] == D;
    return sum / (|X| as real);
  }

  // ---------- client ----------

  /** The update client i computes from a global model. */
  function UpdateOf(cfg: Config, i: nat, model: Params, lr: real, epochs: int): (u: ClientUpdate)
    requires i < |cfg.parts| && Shaped(cfg.parts[i], |model.w|)
    ensures |u.model.w| == |model.w| && u.clientId == i && u.numSamples == |cfg.parts[i]|
  {
    var m := Epochs(model, cfg.parts[i], epochs, lr);
    ClientUpdate(i, m, |cfg.parts[i]|, if |cfg.parts[i]| == 0 then None else Some(MSEOf(m, cfg.parts[i])))
  }

  /** The loss a client reports is that of the very model it sends, on its own data; at a safe rate it has not risen. */
  lemma ReportedLossIsOwn(cfg: Config, i: nat, model: Params, lr: real, epochs: int)
    requires i < |cfg.parts| && Shaped(cfg.parts[i], |model.w|)
    ensures var u := UpdateOf(cfg, i, model, lr, epochs);
            if |cfg.parts[i]| == 0 then u.loss == None
            else
              u.loss == Some(MSEOf(u.model, cfg.parts[i])) &&
              (SafeRate(cfg.parts[i], lr) ==> u.loss.value <= MSEOf(model, cfg.parts[i]))
  {
    hide MSEOf, SafeRate, Epochs;
    if |cfg.parts[i]| > 0 && SafeRate(cfg.parts[i], lr) {
      TrainingDescends(model, cfg.parts[i], epochs, lr);
    }
  }

  ghost predicate ClientAccepts(cfg: Config, i: nat, msg: Msg) {
    i < |cfg.parts| && (msg.StartRound? ==> Shaped(cfg.parts[i], |msg.model.w|))
  }

  function ClientReceive(cfg: Config, i: nat, msg: Msg): seq<Envelope>
    requires ClientAccepts(cfg, i, msg)
  {
    match msg
    case StartRound(round, model, lr, epochs) =>
      [Envelope(AggregatorRef, LocalUpdate(round, UpdateOf(cfg, i, model, lr, epochs)))]
    case _ => []
  }

  class ClientActor {
    const clientID: nat
    const X: seq<Vec>
    const y: Vec

    constructor (clientID: nat, X: seq<Vec>, y: Vec)
      requires |X| == |y|
      ensures this.clientID == clientID && this.X == X && this.y == y
    {
      this.clientID, this.X, this.y := clientID, X, y;
    }

    method Receive(ghost cfg: Config, msg: Msg) returns (out: seq<Envelope>)
      requires |X| == |y| && ClientAccepts(cfg, clientID, msg) && cfg.parts[clientID] == Samples(X, y)
      ensures out == ClientReceive(cfg, clientID, msg)
    {
      out := [];
      match msg
      case StartRound(round, model, lr, epochs) =>
        var local := new LinearModel(|model.w|);
        CopyWeights(local, model.w);
        local.Bias := model.b;
        assert local.Value() == model;
        assert forall k | 0 <= k < |X| :: |Samples(X, y)[k].features| == |X[k]|;
        var loss := local.Train(X, y, epochs, lr);
        out := [Envelope(AggregatorRef,
                         LocalUpdate(round, ClientUpdate(clientID, Params(local.Weights[..], local.Bias), |X|, loss)))];
      case _ =>
    }
  }
}
