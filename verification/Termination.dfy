/**
 Whole runs end, and exactly when they end with DoneCh closed.

 Every action, those of the lifecycle included, lowers one measure, so a run with nothing left to do is reached and
 has closed DoneCh.  That needs a validation set and at most 99 clients, and nothing less will do.
 */
module RunTermination {
  import opened Vectors
  import LinearModels
  import opened Averaging
  import opened FederatedActors
  import opened RoundProtocol
  import opened FederatedRuns

  // ---------- lifecycle messages still in mailboxes ----------

  function NoiseIn(q: seq<Msg>): nat {
    ProperShorter(q);
    |q| - |Proper(q)|
  }

  function ClientNoise(q: seq<seq<Msg>>): nat
  {
    if |q| == 0 then 0 else ClientNoise(q[..|q| - 1]) + NoiseIn(q[|q| - 1])
  }

  function NoiseCount(s: State): nat {
    NoiseIn(s.toCoord) + NoiseIn(s.toAgg) + NoiseIn(s.toMon) + ClientNoise(s.toClient)
  }

  lemma {:induction false} ClientNoiseUpdate(q: seq<seq<Msg>>, i: nat, v: seq<Msg>)
    requires i < |q|
    ensures ClientNoise(q[i := v]) == ClientNoise(q) - NoiseIn(q[i]) + NoiseIn(v)
  {
    hide NoiseIn;
    var n := |q| - 1;
    if i < n {
      ClientNoiseUpdate(q[..n], i, v);
      assert q[i := v][..n] == q[..n][i := v];
    } else {
      assert q[i := v][..n] == q[..n];
    }
  }

  lemma {:induction false} ClientNoiseSame(q: seq<seq<Msg>>, p: seq<seq<Msg>>)
    requires |q| == |p| && forall i | 0 <= i < |q| :: NoiseIn(q[i]) == NoiseIn(p[i])
    ensures ClientNoise(q) == ClientNoise(p)
  {
    hide NoiseIn;
    if |q| > 0 {
      ClientNoiseSame(q[..|q| - 1], p[..|p| - 1]);
    }
  }

  lemma NoiseOfQueue(s: State, r: Ref, q: seq<Msg>)
    requires Exists(s, r)
    ensures NoiseCount(WithQueue(s, r, q)) == NoiseCount(s) - NoiseIn(Queue(s, r)) + NoiseIn(q)
  {
    hide NoiseIn;
    if r.ClientRef? {
      ClientNoiseUpdate(s.toClient, r.id, q);
    }
  }

  lemma OneMoreIsNoise(q: seq<Msg>, msg: Msg)
    ensures NoiseIn(q + [msg]) == NoiseIn(q) + if Noise(msg) then 1 else 0
  {
    assert (q + [msg])[..|q|] == q;
  }

  lemma OneLessIsNoise(q: seq<Msg>)
    requires |q| > 0
    ensures NoiseIn(q) == NoiseIn(q[1..]) + if Noise(q[0]) then 1 else 0
  {
    ProperHead(q);
  }

  /** Delivering a round message leaves the lifecycle messages where they are. */
  lemma DeliveryKeepsNoiseAt(cfg: Config, s: State, r: Ref, p: Ref)
    requires CanDeliver(cfg, s, r) && Exists(s, r) && |Queue(s, r)| > 0 && !Noise(Queue(s, r)[0]) && Exists(s, p)
    ensures Exists(Deliver(cfg, s, r), p) && NoiseIn(Queue(Deliver(cfg, s, r), p)) == NoiseIn(Queue(s, p))
  {
    hide Handle, Proper, CanDeliver, Send, Queue;
    var (u, out) := Handle(cfg, s, r);
    QueueAfterHandle(cfg, s, r, p);
    QueueOfSend(u, out, p);
    HandlersAreQuiet(cfg, s, r);
    ProperMail(out, p);
    ProperAppend(Queue(u, p), For(out, p));
    ProperHead(Queue(s, r));
  }

  lemma DeliveryKeepsNoise(cfg: Config, s: State, r: Ref)
    requires CanDeliver(cfg, s, r) && Exists(s, r) && |Queue(s, r)| > 0 && !Noise(Queue(s, r)[0])
    ensures NoiseCount(Deliver(cfg, s, r)) == NoiseCount(s)
  {
    var t := Deliver(cfg, s, r);
    hide Deliver, CanDeliver, NoiseIn;
    DeliveryKeepsNoiseAt(cfg, s, r, CoordinatorRef);
    DeliveryKeepsNoiseAt(cfg, s, r, AggregatorRef);
    DeliveryKeepsNoiseAt(cfg, s, r, MonitorRef);
    DeliveryKeepsClients(cfg, s, r);
    forall i | 0 <= i < |s.toClient| ensures NoiseIn(t.toClient[i]) == NoiseIn(s.toClient[i]) {
      DeliveryKeepsNoiseAt(cfg, s, r, ClientRef(i));
    }
    ClientNoiseSame(t.toClient, s.toClient);
  }

  lemma DeliveryKeepsClients(cfg: Config, s: State, r: Ref)
    requires CanDeliver(cfg, s, r)
    ensures |Deliver(cfg, s, r).toClient| == |s.toClient|
  {
    hide Handle, Send, CanDeliver;
    var (u, out) := Handle(cfg, s, r);
    SendKeepsClients(u, out);
    QueueAfterHandle(cfg, s, r, CoordinatorRef);
  }

  // ---------- the measure ----------

  function Refs(n: nat): set<Ref>
  {
    if n == 0 then {CoordinatorRef, AggregatorRef, MonitorRef} else Refs(n - 1) + {ClientRef(n - 1)}
  }

  lemma {:induction false} RefsMembers(n: nat)
    ensures |Refs(n)| == n + 3
    ensures forall r :: r in Refs(n) <==> (r.ClientRef? ==> r.id < n)
  {
    if n > 0 {
      RefsMembers(n - 1);
    }
  }

  /** Boots and assignments still to come count twice, as each leaves a message behind. */
  ghost function Errands(cfg: Config, s: System): nat {
    2 * |Refs(|cfg.parts|) - s.booted| + 2 * |All(|cfg.parts|) - s.placed| + (if s.told then 0 else 1)
  }

  ghost function Work(cfg: Config, s: System): nat {
    Errands(cfg, s) + NoiseCount(s.st) + StillToDo(cfg, s)
  }

  lemma OneFewer<T>(all: set<T>, done: set<T>, x: T)
    requires x in all && x !in done
    ensures |all - (done + {x})| == |all - done| - 1
  {
    assert all - (done + {x}) == (all - done) - {x};
  }

  lemma BootShrinks(cfg: Config, s: System, r: Ref)
    requires |s.st.toClient| == |cfg.parts| && Exists(s.st, r) && r !in s.booted
    ensures Errands(cfg, s.(booted := s.booted + {r})) == Errands(cfg, s) - 2
  {
    RefsMembers(|cfg.parts|);
    OneFewer(Refs(|cfg.parts|), s.booted, r);
  }

  lemma AssignShrinks(cfg: Config, s: System, i: nat)
    requires i < |cfg.parts| && i !in s.placed
    ensures Errands(cfg, s.(placed := s.placed + {i})) == Errands(cfg, s) - 2
  {
    AllMembers(|cfg.parts|);
    OneFewer(All(|cfg.parts|), s.placed, i);
  }

  lemma ToldNoise(q: seq<Msg>, msg: Msg)
    requires Noise(msg)
    ensures NoiseIn(Tell(q, msg)) <= NoiseIn(q) + 1
  {
    OneMoreIsNoise(q, msg);
  }

  /** Every action lowers the measure, a lost message included. */
  lemma EveryActionCounts(cfg: Config, s: System, a: Action, t: System)
    requires RunOk(cfg) && Sound(cfg, s) && Step(cfg, s, a, t)
    ensures Work(cfg, t) < Work(cfg, s)
  {
    StepIsRefined(cfg, s, a, t);
    WorkShrinks(cfg, s, a, t);
    hide StillToDo, Core, Inv, LittleNoise, NoiseIn, NoiseCount, WithQueue, Queue, Tell, Handle, SendBounded, Deliver,
         CanDeliver;
    match a
    case Boot(r) =>
      BootShrinks(cfg, s, r);
      NoiseOfQueue(s.st, r, Tell(Queue(s.st, r), Started));
      ToldNoise(Queue(s.st, r), Started);
    case Assign(i) =>
      AssignShrinks(cfg, s, i);
      QueueOfClient(s.st, i);
      NoiseOfQueue(s.st, ClientRef(i), Tell(Queue(s.st, ClientRef(i)), ClusterAssign));
      ToldNoise(Queue(s.st, ClientRef(i)), ClusterAssign);
    case StartAll => StartKeepsNoise(s.st, StartFederatedLearning(Everyone(|cfg.parts|)));
    case Take(r) =>
      TakeCounts(cfg, s.st, r);
      NoiseOfQueue(s.st, r, Queue(s.st, r)[1..]);
      OneLessIsNoise(Queue(s.st, r));
  }

  lemma StartKeepsNoise(s: State, msg: Msg)
    requires !Noise(msg)
    ensures NoiseCount(s.(toCoord := s.toCoord + [msg])) == NoiseCount(s)
  {
    OneMoreIsNoise(s.toCoord, msg);
    hide NoiseIn;
  }

  lemma TakeCounts(cfg: Config, s: State, r: Ref)
    requires CanDeliver(cfg, s, r)
    ensures Exists(s, r) && |Queue(s, r)| > 0
    ensures NoiseCount(Deliver(cfg, s, r)) == NoiseCount(s) - if Noise(Queue(s, r)[0]) then 1 else 0
  {
    HasMail(cfg, s, r);
    hide CanDeliver, Deliver, NoiseIn, NoiseCount, Queue, WithQueue;
    if Noise(Queue(s, r)[0]) {
      NoiseIsDelivered(cfg, s, r);
      NoiseOfQueue(s, r, Queue(s, r)[1..]);
      OneLessIsNoise(Queue(s, r));
    } else {
      DeliveryKeepsNoise(cfg, s, r);
    }
  }

  // ---------- runs end, with DoneCh closed ----------

  lemma {:induction false} RunsShrink(cfg: Config, run: seq<System>, acts: seq<Action>, k: nat)
    requires RunOk(cfg) && IsRun(cfg, run, acts) && k <= |acts|
    ensures Work(cfg, run[k]) + k <= Work(cfg, run[0])
  {
    hide Work, Sound, Step;
    if k > 0 {
      RunsShrink(cfg, run, acts, k - 1);
      RunsAreSound(cfg, run, acts, k - 1);
      EveryActionCounts(cfg, run[k - 1], acts[k - 1], run[k]);
    }
  }

  lemma {:induction false} NoMailNoNoise(n: nat)
    ensures ClientNoise(NoMail(n)) == 0
  {
    if n > 0 {
      NoMailNoNoise(n - 1);
      assert NoMail(n)[..n - 1] == NoMail(n - 1);
    }
  }

  lemma InitialWork(cfg: Config)
    ensures Work(cfg, InitialSystem(cfg)) == 4 * |cfg.parts| + 7 + Budget(cfg)
  {
    hide Budget;
    var n := |cfg.parts|;
    RefsMembers(n);
    AllMembers(n);
    NoMailNoNoise(n);
    assert Refs(n) - {} == Refs(n) && All(n) - {} == All(n);
  }

  /** No run is longer than this, lifecycle actions included, with any number of clients. */
  lemma RunsEnd(cfg: Config, run: seq<System>, acts: seq<Action>)
    requires RunOk(cfg) && IsRun(cfg, run, acts)
    ensures |acts| <= 4 * |cfg.parts| + 7 + Budget(cfg)
  {
    RunsShrink(cfg, run, acts, |acts|);
    InitialWork(cfg);
    hide Work, Budget;
  }

  ghost predicate Stuck(cfg: Config, s: System) {
    forall a, t :: !Step(cfg, s, a, t)
  }

  /** While DoneCh is open and no update of the round has been lost there is something to do. */
  lemma SomethingToDo(cfg: Config, run: seq<System>, acts: seq<Action>, k: nat) returns (a: Action, t: System)
    requires RunOk(cfg) && IsRun(cfg, run, acts) && k <= |acts|
    requires !run[k].told || (run[k].st.coord.closed == 0 && Complete(cfg, run[k]))
    ensures Step(cfg, run[k], a, t)
  {
    hide Handle, CanDeliver, SendBounded, Proper, Complete;
    var s := run[k];
    if !s.told {
      a := StartAll;
      t := s.(st := s.st.(toCoord := Tell(s.st.toCoord, StartFederatedLearning(Everyone(|cfg.parts|)))), told := true);
    } else {
      RunsDoNotStall(cfg, run, acts, k);
      var r :| CanDeliver(cfg, s.st, r);
      var (u, out) := Handle(cfg, s.st, r);
      a, t := Take(r), s.(st := SendBounded(u, out));
    }
  }

  /**
   So every run comes to a point where nothing is left to do, and there DoneCh is closed, once, exactly if no update
   of the round has been lost; with at most 99 clients it always is.
   */
  lemma StuckMeansDone(cfg: Config, run: seq<System>, acts: seq<Action>, k: nat)
    requires RunOk(cfg) && IsRun(cfg, run, acts) && k <= |acts| && Stuck(cfg, run[k])
    ensures run[k].told && (run[k].st.coord.closed == 1 <==> Complete(cfg, run[k]))
    ensures |cfg.parts| <= 99 ==> run[k].st.coord.closed == 1
  {
    hide Step;
    RunsAreOpenOrDone(cfg, run, acts, k);
    hide Complete;
    if !run[k].told || (run[k].st.coord.closed == 0 && Complete(cfg, run[k])) {
      var a, t := SomethingToDo(cfg, run, acts, k);
    }
    if |cfg.parts| <= 99 {
      RunsAreComplete(cfg, run, acts, k);
    }
  }

  lemma RunsAreOpenOrDone(cfg: Config, run: seq<System>, acts: seq<Action>, k: nat)
    requires RunOk(cfg) && IsRun(cfg, run, acts) && k <= |acts|
    ensures run[k].told ==> run[k].st.coord.closed <= 1
    ensures run[k].st.coord.closed == 1 ==> Complete(cfg, run[k])
  {
    CoreActors(run[k].st);
    if run[k].told {
      RunsDoNotStall(cfg, run, acts, k);
    }
    hide Core;
  }

  /** The run can be continued to one that closes DoneCh. */
  ghost predicate Closable(cfg: Config, run: seq<System>, acts: seq<Action>) {
    exists run', acts' :: IsRun(cfg, run', acts') && run <= run' && acts <= acts' && Closed(run')
  }

  ghost predicate Closed(run: seq<System>) {
    |run| > 0 && run[|run| - 1].st.coord.closed > 0
  }

  lemma {:induction false} RunsAreClosable(cfg: Config, run: seq<System>, acts: seq<Action>)
    requires RunOk(cfg) && |cfg.parts| <= 99 && IsRun(cfg, run, acts)
    ensures Closable(cfg, run, acts)
    decreases Work(cfg, run[|acts|])
  {
    hide Work, Step, Sound;
    var n := |acts|;
    RunsAreComplete(cfg, run, acts, n);
    RunsAreOpenOrDone(cfg, run, acts, n);
    hide Complete;
    if run[n].told && run[n].st.coord.closed == 1 {
      assert IsRun(cfg, run, acts) && run <= run && acts <= acts && Closed(run);
    } else {
      var a, t := SomethingToDo(cfg, run, acts, n);
      RunsAreSound(cfg, run, acts, n);
      EveryActionCounts(cfg, run[n], a, t);
      Continued(cfg, run, acts, a, t);
      RunsAreClosable(cfg, run + [t], acts + [a]);
      var run', acts' :| IsRun(cfg, run', acts') && run + [t] <= run' && acts + [a] <= acts' && Closed(run');
      assert run <= run + [t] && acts <= acts + [a];
    }
  }

  lemma Continued(cfg: Config, run: seq<System>, acts: seq<Action>, a: Action, t: System)
    requires IsRun(cfg, run, acts) && Step(cfg, run[|acts|], a, t)
    ensures IsRun(cfg, run + [t], acts + [a])
  {
    hide Step;
  }

  // ---------- without a validation set ----------

  function Starts(q: seq<Msg>): nat
  {
    if |q| == 0 then 0 else Starts(q[1..]) + if q[0].StartFederatedLearning? then 1 else 0
  }

  ghost predicate NoReports(q: seq<Msg>) {
    forall i | 0 <= i < |q| :: !q[i].MetricsReport?
  }

  lemma {:induction false} StartsAppend(q: seq<Msg>, msg: Msg)
    ensures Starts(q + [msg]) == Starts(q) + if msg.StartFederatedLearning? then 1 else 0
  {
    if |q| > 0 {
      StartsAppend(q[1..], msg);
      assert (q + [msg])[1..] == q[1..] + [msg];
    }
  }

  /** DoneCh is open, no report is on its way, and the one start message has not come in or was the first round's. */
  ghost predicate Mute(s: System) {
    var st := s.st;
    st.coord.closed == 0 && NoReports(st.toCoord) && Starts(st.toCoord) <= (if s.told then 1 else 0) &&
    (!s.told || Starts(st.toCoord) > 0 ==> st.coord.round == 0)
  }

  lemma ToldNothingElse(q: seq<Msg>, msg: Msg)
    requires !msg.MetricsReport? && NoReports(q)
    ensures NoReports(Tell(q, msg)) && Starts(Tell(q, msg)) <= Starts(q) + if msg.StartFederatedLearning? then 1 else 0
    ensures !msg.StartFederatedLearning? ==> Starts(Tell(q, msg)) == Starts(q)
  {
    StartsAppend(q, msg);
  }

  lemma CoordinatorSendsOthers(cfg: Config, c: Coordinator, msg: Msg)
    ensures For(CoordinatorReceive(cfg, c, msg).1, CoordinatorRef) == []
  {
    hide Broadcast, For;
    ForTwo(Envelope(MonitorRef, msg), Envelope(MonitorRef, msg), CoordinatorRef);
    match msg
    case StartFederatedLearning(clients) =>
      BroadcastSkipsCoordinator(cfg, clients, c.round + 1, c.model);
    case AggregationResult(round, model, loss) =>
      ForTwo(Envelope(MonitorRef, SetGlobalModel(model)), Envelope(MonitorRef, RoundComplete(round, loss, |c.clients|)),
        CoordinatorRef);
      ForTwo(Envelope(MonitorRef, RoundComplete(round, loss, |c.clients|)), Envelope(MonitorRef, msg), CoordinatorRef);
    case MetricsReport(round, mse, converged) =>
      BroadcastSkipsCoordinator(cfg, c.clients, c.round + 1, c.model);
    case _ =>
  }

  /** What the coordinator is sent without a validation set: at most an aggregation result. */
  lemma CoordinatorMail(cfg: Config, s: State, r: Ref)
    requires CanDeliver(cfg, s, r) && cfg.validation == []
    ensures var mail := For(Handle(cfg, s, r).1, CoordinatorRef);
            mail == [] || (|mail| == 1 && mail[0].AggregationResult?)
  {
    match r
    case CoordinatorRef => CoordinatorSendsOthers(cfg, s.coord, s.toCoord[0]);
    case AggregatorRef => SingleMail(AggregatorReceive(s.agg, s.toAgg[0], cfg.features).1);
    case MonitorRef => assert Handle(cfg, s, r).1 == [];
    case ClientRef(i) => SingleMail(ClientReceive(cfg, i, s.toClient[i][0]));
  }

  lemma SingleMail(out: seq<Envelope>)
    requires |out| <= 1
    ensures For(out, CoordinatorRef) == if |out| == 1 && out[0].to == CoordinatorRef then [out[0].msg] else []
  {
    if |out| == 1 {
      ForTwo(out[0], out[0], CoordinatorRef);
      assert out == [out[0]];
    }
  }

  lemma {:induction false} BroadcastSkipsCoordinator(cfg: Config, clients: seq<nat>, round: int, m: Params)
    ensures For(Broadcast(cfg, clients, round, m), CoordinatorRef) == []
  {
    if |clients| > 0 {
      var n := |clients| - 1;
      BroadcastSkipsCoordinator(cfg, clients[..n], round, m);
      assert Broadcast(cfg, clients, round, m)[..n] == Broadcast(cfg, clients[..n], round, m);
    }
  }

  lemma OneTold(q: seq<Msg>, msgs: seq<Msg>)
    requires |msgs| <= 1
    ensures TellAll(q, msgs) == if |msgs| == 0 then q else Tell(q, msgs[0])
  {
    if |msgs| == 1 {
      assert msgs[..0] == [];
    }
  }

  lemma StaysMute(cfg: Config, s: System, a: Action, t: System)
    requires cfg.validation == [] && cfg.totalRounds > 0 && Mute(s) && Step(cfg, s, a, t)
    ensures Mute(t)
  {
    hide NoReports;
    match a
    case Boot(r) => ToldNothingElse(s.st.toCoord, Started);
    case Assign(i) =>
    case StartAll => ToldNothingElse(s.st.toCoord, StartFederatedLearning(Everyone(|cfg.parts|)));
    case Take(r) => TakeStaysMute(cfg, s, r, t);
  }

  lemma TakeStaysMute(cfg: Config, s: System, r: Ref, t: System)
    requires cfg.validation == [] && cfg.totalRounds > 0 && Mute(s) && Step(cfg, s, Take(r), t)
    ensures Mute(t)
  {
    var (u, out) := Handle(cfg, s.st, r);
    CoordinatorMail(cfg, s.st, r);
    OneTold(u.toCoord, For(out, CoordinatorRef));
    HandledMute(cfg, s, r);
    hide Handle, CanDeliver, For, NoReports, Starts;
    if |For(out, CoordinatorRef)| == 1 {
      ToldNothingElse(u.toCoord, For(out, CoordinatorRef)[0]);
    }
  }

  /** Handling alone, before anything is sent. */
  lemma HandledMute(cfg: Config, s: System, r: Ref)
    requires cfg.totalRounds > 0 && Mute(s) && CanDeliver(cfg, s.st, r)
    ensures Mute(s.(st := Handle(cfg, s.st, r).0))
  {
    hide AggregatorReceive, MonitorReceive, ClientReceive, AggregatorAccepts, MonitorAccepts, ClientAccepts;
  }

  /** Without a validation set the monitor never answers, and no run ever closes DoneCh. */
  lemma {:induction false} NoValidationStalls(cfg: Config, run: seq<System>, acts: seq<Action>, k: nat)
    requires cfg.validation == [] && cfg.totalRounds > 0 && IsRun(cfg, run, acts) && k <= |acts|
    ensures Mute(run[k]) && run[k].st.coord.closed == 0
  {
    if k > 0 {
      hide Step, Mute;
      NoValidationStalls(cfg, run, acts, k - 1);
      StaysMute(cfg, run[k - 1], acts[k - 1], run[k]);
      assert Mute(run[k]) ==> run[k].st.coord.closed == 0 by { OpenIfMute(run[k]); }
    }
  }

  lemma OpenIfMute(s: System)
    ensures Mute(s) ==> s.st.coord.closed == 0
  {}

  // ---------- with a hundred clients or more ----------

  function ClientMail(q: seq<seq<Msg>>): nat
  {
    if |q| == 0 then 0 else ClientMail(q[..|q| - 1]) + |q[|q| - 1]|
  }

  lemma {:induction false} ClientMailUpdate(q: seq<seq<Msg>>, i: nat, v: seq<Msg>)
    requires i < |q|
    ensures ClientMail(q[i := v]) == ClientMail(q) - |q[i]| + |v|
  {
    var n := |q| - 1;
    if i < n {
      ClientMailUpdate(q[..n], i, v);
      assert q[i := v][..n] == q[..n][i := v];
    } else {
      assert q[i := v][..n] == q[..n];
    }
  }

  /** How many updates of round 1 the aggregator holds, has in its mailbox, or may still be sent. */
  function Chances(s: State): nat {
    (if s.agg.round == 1 then |s.agg.updates| else 0) + |s.toAgg| + ClientMail(s.toClient)
  }

  /** Round 1 is under way with too few updates left to complete it. */
  ghost predicate LostCore(cfg: Config, s: State) {
    s.coord.closed == 0 && s.toCoord == [] && s.toMon == [] && OnlyRound(s.toAgg, 1) &&
    s.agg.numClients == |cfg.parts| && Chances(s) < |cfg.parts| &&
    forall i, j | 0 <= i < |s.toClient| && 0 <= j < |s.toClient[i]| ::
      s.toClient[i][j].StartRound? && s.toClient[i][j].round == 1
  }

  ghost predicate Lost(cfg: Config, s: System) {
    s.told && LostCore(cfg, Core(s.st))
  }

  /** The aggregator takes in one of the updates, which is not the last it needs. */
  lemma LostAggregatorStep(cfg: Config, s: State)
    requires LostCore(cfg, s) && CanDeliver(cfg, s, AggregatorRef)
    ensures Handle(cfg, s, AggregatorRef).1 == [] && LostCore(cfg, Handle(cfg, s, AggregatorRef).0)
  {
    hide FedAvgOf, Averageable;
  }

  /** A client trains, and its update reaches the aggregator's mailbox or is lost. */
  lemma LostClientStep(cfg: Config, s: State, i: nat, q: seq<Msg>)
    requires LostCore(cfg, s) && CanDeliver(cfg, s, ClientRef(i))
    requires var out := Handle(cfg, s, ClientRef(i)).1; q == s.toAgg || (|out| == 1 && q == s.toAgg + [out[0].msg])
    ensures var (u, out) := Handle(cfg, s, ClientRef(i));
            |out| == 1 && out[0].to == AggregatorRef && LostCore(cfg, u.(toAgg := q))
  {
    hide UpdateOf;
    ClientMailUpdate(s.toClient, i, s.toClient[i][1..]);
  }

  lemma CoreOfAggMail(s: State, q: seq<Msg>)
    ensures Core(s.(toAgg := q)) == Core(s).(toAgg := Proper(q))
  {}

  lemma StaysLost(cfg: Config, s: System, a: Action, t: System)
    requires Lost(cfg, s) && Step(cfg, s, a, t)
    ensures Lost(cfg, t)
  {
    hide Core, LostCore, CanDeliver, Handle, SendBounded, Tell, Proper;
    match a
    case Boot(r) =>
      NoiseIsInvisible(Queue(s.st, r), Started);
      SameProper(s.st, r, Tell(Queue(s.st, r), Started));
    case Assign(i) =>
      QueueOfClient(s.st, i);
      NoiseIsInvisible(Queue(s.st, ClientRef(i)), ClusterAssign);
      SameProper(s.st, ClientRef(i), Tell(Queue(s.st, ClientRef(i)), ClusterAssign));
    case StartAll =>
    case Take(r) => TakeStaysLost(cfg, s, r, t);
  }

  lemma TakeStaysLost(cfg: Config, s: System, r: Ref, t: System)
    requires Lost(cfg, s) && Step(cfg, s, Take(r), t)
    ensures Lost(cfg, t)
  {
    HasMail(cfg, s.st, r);
    hide Core, LostCore, CanDeliver, Handle, SendBounded, Tell, Proper;
    if Noise(Queue(s.st, r)[0]) {
      NoiseIsDelivered(cfg, s.st, r);
    } else {
      HandleInCore(cfg, s.st, r);
      match r
      case CoordinatorRef => NobodyThere(cfg, s.st, r);
      case MonitorRef => NobodyThere(cfg, s.st, r);
      case AggregatorRef =>
        LostAggregatorStep(cfg, Core(s.st));
        NothingBounded(Handle(cfg, s.st, r).0);
      case ClientRef(i) => ClientStaysLost(cfg, s, i, t);
    }
  }

  lemma NobodyThere(cfg: Config, s: State, r: Ref)
    requires LostCore(cfg, Core(s)) && CanDeliver(cfg, Core(s), r)
    ensures r != CoordinatorRef && r != MonitorRef
  {}

  lemma ClientStaysLost(cfg: Config, s: System, i: nat, t: System)
    requires Lost(cfg, s) && Step(cfg, s, Take(ClientRef(i)), t) && CanDeliver(cfg, Core(s.st), ClientRef(i))
    requires CanDeliver(cfg, s.st, ClientRef(i))
    requires Handle(cfg, Core(s.st), ClientRef(i)) ==
               (Core(Handle(cfg, s.st, ClientRef(i)).0), Handle(cfg, s.st, ClientRef(i)).1)
    ensures Lost(cfg, t)
  {
    hide LostCore, CanDeliver, Handle, SendBounded, Proper;
    var c := Core(s.st);
    var (u, out) := Handle(cfg, s.st, ClientRef(i));
    LostClientStep(cfg, c, i, c.toAgg);
    SendToAggregator(u, out[0].msg);
    assert out == [Envelope(AggregatorRef, out[0].msg)];
    HandlersAreQuiet(cfg, s.st, ClientRef(i));
    QueueAfterHandle(cfg, s.st, ClientRef(i), AggregatorRef);
    var q := Tell(u.toAgg, out[0].msg);
    ProperOne(u.toAgg, out[0].msg);
    LostClientStep(cfg, c, i, Proper(q));
    CoreOfAggMail(u, q);
    CoreOfAggMail(u, u.toAgg);
  }

  lemma {:induction false} LostForGood(cfg: Config, run: seq<System>, acts: seq<Action>, j: nat, k: nat)
    requires IsRun(cfg, run, acts) && j <= k <= |acts| && Lost(cfg, run[j])
    ensures Lost(cfg, run[k]) && run[k].st.coord.closed == 0
  {
    if j < k {
      hide Step, Lost;
      LostForGood(cfg, run, acts, j, k - 1);
      StaysLost(cfg, run[k - 1], acts[k - 1], run[k]);
      OpenIfLost(cfg, run[k]);
    }
  }

  lemma OpenIfLost(cfg: Config, s: System)
    ensures Lost(cfg, s) ==> s.st.coord.closed == 0
  {}

  // ---------- a run that gets there ----------

  function FirstRound(cfg: Config): Msg {
    StartRound(1, PZero(cfg.features), cfg.lr, cfg.epochs)
  }

  function FirstUpdate(cfg: Config, i: nat): Msg
    requires ConfigOk(cfg) && i < |cfg.parts|
  {
    LocalUpdate(1, UpdateOf(cfg, i, PZero(cfg.features), cfg.lr, cfg.epochs))
  }

  ghost function FirstUpdates(cfg: Config, k: nat): seq<Msg>
    requires ConfigOk(cfg) && k <= |cfg.parts|
  {
    seq(k, i requires 0 <= i < k => FirstUpdate(cfg, i))
  }

  /** The mailboxes of n clients of which the first k have answered. */
  function StillWaiting(cfg: Config, n: nat, k: nat): seq<seq<Msg>> {
    seq(n, i => if i < k then [] else [FirstRound(cfg)])
  }

  /** The first k clients have answered round 1 while the aggregator has not even taken its Started message. */
  ghost function Filled(cfg: Config, k: nat): System
    requires ConfigOk(cfg) && k <= |cfg.parts|
  {
    var n := |cfg.parts|;
    System(State(Coordinator(Everyone(n), 1, PZero(cfg.features), 0), Aggregator(n, [], 0),
                 Monitor(LinearModels.None, []),
                 [], [Started] + FirstUpdates(cfg, k), [], StillWaiting(cfg, n, k), []),
           {AggregatorRef}, {}, true)
  }

  /** What the hundredth client's answer leads to: it does not fit. */
  ghost function Overflown(cfg: Config): System
    requires ConfigOk(cfg) && |cfg.parts| >= 100
  {
    var s := Filled(cfg, 99);
    s.(st := s.st.(toClient := StillWaiting(cfg, |cfg.parts|, 100)))
  }

  lemma ClientAnswers(cfg: Config, k: nat)
    requires ConfigOk(cfg) && k < |cfg.parts|
    ensures CanDeliver(cfg, Filled(cfg, k).st, ClientRef(k))
    ensures var s := Filled(cfg, k).st;
            var (u, out) := Handle(cfg, s, ClientRef(k));
            SendBounded(u, out) == s.(toClient := StillWaiting(cfg, |cfg.parts|, k + 1),
                                      toAgg := Tell(s.toAgg, FirstUpdate(cfg, k)))
  {
    hide UpdateOf, SendBounded, Tell;
    var s := Filled(cfg, k).st;
    assert s.toClient[k] == [FirstRound(cfg)];
    assert s.toClient[k][1..] == [];
    assert s.toClient[k := []] == StillWaiting(cfg, |cfg.parts|, k + 1);
    SendToAggregator(s.(toClient := s.toClient[k := []]), FirstUpdate(cfg, k));
  }

  lemma FillStep(cfg: Config, k: nat)
    requires ConfigOk(cfg) && |cfg.parts| >= 100 && k < 100
    ensures Step(cfg, Filled(cfg, k), Take(ClientRef(k)), if k < 99 then Filled(cfg, k + 1) else Overflown(cfg))
  {
    hide UpdateOf, SendBounded, Handle, CanDeliver;
    ClientAnswers(cfg, k);
    if k < 99 {
      assert FirstUpdates(cfg, k) + [FirstUpdate(cfg, k)] == FirstUpdates(cfg, k + 1);
      assert [Started] + FirstUpdates(cfg, k) + [FirstUpdate(cfg, k)] == [Started] + FirstUpdates(cfg, k + 1);
    }
  }

  lemma RoundOneStarts(cfg: Config, s: State)
    requires ConfigOk(cfg) && cfg.totalRounds > 0
    requires s == Initial(cfg).(toAgg := [Started])
    ensures CanDeliver(cfg, s, CoordinatorRef)
    ensures var (u, out) := Handle(cfg, s, CoordinatorRef); SendBounded(u, out) == Filled(cfg, 0).st
  {
    hide SendBounded, Send, Broadcast, For;
    var n := |cfg.parts|;
    var (u, out) := Handle(cfg, s, CoordinatorRef);
    assert s.toCoord[1..] == [];
    forall r | Exists(u, r) ensures |Queue(u, r)| + |For(out, r)| <= CAPACITY {
      ForBroadcast(cfg, n, 1, PZero(cfg.features), r);
    }
    HandlersAreQuiet(cfg, s, CoordinatorRef);
    SendInCore(u, out);
    AllTold(cfg, u, 1, PZero(cfg.features));
    assert StillWaiting(cfg, n, 0) == seq(n, _ => [FirstRound(cfg)]);
    assert [Started] + FirstUpdates(cfg, 0) == [Started];
  }

  lemma ReachFilledZero(cfg: Config) returns (run: seq<System>, acts: seq<Action>)
    requires ConfigOk(cfg) && cfg.totalRounds > 0
    ensures IsRun(cfg, run, acts) && run[|acts|] == Filled(cfg, 0)
  {
    hide Handle, CanDeliver, SendBounded;
    var a := InitialSystem(cfg);
    var b := a.(st := a.st.(toAgg := [Started]), booted := {AggregatorRef});
    var c := b.(st := b.st.(toCoord := [StartFederatedLearning(Everyone(|cfg.parts|))]), told := true);
    RoundOneStarts(cfg, c.st);
    assert Step(cfg, a, Boot(AggregatorRef), b);
    assert Step(cfg, b, StartAll, c);
    assert Step(cfg, c, Take(CoordinatorRef), Filled(cfg, 0));
    run, acts := [a, b, c, Filled(cfg, 0)], [Boot(AggregatorRef), StartAll, Take(CoordinatorRef)];
  }

  lemma {:induction false} ReachFilled(cfg: Config, k: nat) returns (run: seq<System>, acts: seq<Action>)
    requires ConfigOk(cfg) && cfg.totalRounds > 0 && |cfg.parts| >= 100 && k <= 99
    ensures IsRun(cfg, run, acts) && run[|acts|] == Filled(cfg, k)
  {
    hide Step;
    if k == 0 {
      run, acts := ReachFilledZero(cfg);
    } else {
      run, acts := ReachFilled(cfg, k - 1);
      FillStep(cfg, k - 1);
      Continued(cfg, run, acts, Take(ClientRef(k - 1)), Filled(cfg, k));
      run, acts := run + [Filled(cfg, k)], acts + [Take(ClientRef(k - 1))];
    }
  }

  lemma {:induction false} ProperQuiet(q: seq<Msg>)
    requires forall i | 0 <= i < |q| :: !Noise(q[i])
    ensures Proper(q) == q
  {
    if |q| > 0 {
      ProperQuiet(q[..|q| - 1]);
    }
  }

  lemma {:induction false} WaitingMail(cfg: Config, n: nat, k: nat)
    ensures ClientMail(StillWaiting(cfg, n, k)) == if n <= k then 0 else n - k
  {
    if n > 0 {
      WaitingMail(cfg, n - 1, k);
      assert StillWaiting(cfg, n, k)[..n - 1] == StillWaiting(cfg, n - 1, k);
    }
  }

  lemma WaitingIsProper(cfg: Config, n: nat, k: nat)
    ensures ProperAll(StillWaiting(cfg, n, k)) == StillWaiting(cfg, n, k)
  {
    var q := StillWaiting(cfg, n, k);
    forall i | 0 <= i < n ensures Proper(q[i]) == q[i] {
      assert q[i] == if i < k then [] else [FirstRound(cfg)];
      ProperQuiet(q[i]);
    }
    hide Proper;
    assert ProperAll(q) == q;
  }

  lemma CoreOfOverflown(cfg: Config)
    requires ConfigOk(cfg) && |cfg.parts| >= 100
    ensures Core(Overflown(cfg).st) == Overflown(cfg).st.(toAgg := FirstUpdates(cfg, 99))
  {
    hide UpdateOf, StillWaiting;
    var us := FirstUpdates(cfg, 99);
    WaitingIsProper(cfg, |cfg.parts|, 100);
    ProperQuiet(us);
    ProperQuiet([]);
    ProperHead([Started] + us);
    assert ([Started] + us)[1..] == us;
    hide Proper, FirstUpdates;
  }

  lemma OverflownIsLost(cfg: Config)
    requires ConfigOk(cfg) && |cfg.parts| >= 100
    ensures Lost(cfg, Overflown(cfg))
  {
    hide UpdateOf, Core;
    var us := FirstUpdates(cfg, 99);
    CoreOfOverflown(cfg);
    WaitingMail(cfg, |cfg.parts|, 100);
    assert OnlyRound(us, 1);
    WaitingForRoundOne(cfg, |cfg.parts|, 100);
    hide FirstUpdates, StillWaiting, OnlyRound;
  }

  lemma WaitingForRoundOne(cfg: Config, n: nat, k: nat)
    ensures var q := StillWaiting(cfg, n, k);
            forall i, j | 0 <= i < |q| && 0 <= j < |q[i]| :: q[i][j].StartRound? && q[i][j].round == 1
  {
    var q: seq<seq<Msg>> := StillWaiting(cfg, n, k);
    forall i: nat, j: nat | 0 <= i < |q| && 0 <= j < |q[i]| ensures q[i][j].StartRound? && q[i][j].round == 1 {
      assert q[i] == if i < k then [] else [FirstRound(cfg)];
    }
  }

  /** With a hundred clients or more some run loses an update for good: nothing that follows closes DoneCh. */
  lemma HundredClientsStall(cfg: Config) returns (run: seq<System>, acts: seq<Action>)
    requires ConfigOk(cfg) && cfg.totalRounds > 0 && |cfg.parts| >= 100
    ensures IsRun(cfg, run, acts) && !Closable(cfg, run, acts)
  {
    hide Step, Lost;
    run, acts := ReachFilled(cfg, 99);
    FillStep(cfg, 99);
    OverflownIsLost(cfg);
    Continued(cfg, run, acts, Take(ClientRef(99)), Overflown(cfg));
    run, acts := run + [Overflown(cfg)], acts + [Take(ClientRef(99))];
    assert run[|acts|] == Overflown(cfg);
    if Closable(cfg, run, acts) {
      var run', acts' :| IsRun(cfg, run', acts') && run <= run' && acts <= acts' && Closed(run');
      assert run'[|acts|] == run[|acts|];
      LostForGood(cfg, run', acts', |acts|, |acts'|);
    }
  }

  // ---------- with no round to run ----------

  /** The protocol inside is at most at its start message. */
  ghost predicate IdleCore(s: State, told: bool) {
    s.toAgg == [] && s.toMon == [] && (forall i | 0 <= i < |s.toClient| :: s.toClient[i] == []) && s.coord.round == 0 &&
    if !told then s.coord.closed == 0 && s.toCoord == []
    else (s.coord.closed == 0 && |s.toCoord| == 1 && s.toCoord[0].StartFederatedLearning?) ||
         (s.coord.closed == 1 && s.toCoord == [])
  }

  ghost predicate Idle(s: System) {
    IdleCore(Core(s.st), s.told) &&
    |s.st.toCoord| <= (if CoordinatorRef in s.booted then 1 else 0) + (if s.told then 1 else 0)
  }

  lemma IdleCoreStep(cfg: Config, s: State, r: Ref)
    requires cfg.totalRounds <= 0 && IdleCore(s, true) && CanDeliver(cfg, s, r)
    ensures r == CoordinatorRef && Handle(cfg, s, r).1 == [] && IdleCore(Handle(cfg, s, r).0, true)
  {}

  lemma NothingBeforeStart(cfg: Config, s: State, r: Ref)
    requires IdleCore(s, false)
    ensures !CanDeliver(cfg, s, r)
  {}

  lemma StaysIdle(cfg: Config, s: System, a: Action, t: System)
    requires cfg.totalRounds <= 0 && Idle(s) && Step(cfg, s, a, t)
    ensures Idle(t)
  {
    hide Core, IdleCore, Proper, Handle, SendBounded, CanDeliver;
    match a
    case Boot(r) =>
      NoiseIsInvisible(Queue(s.st, r), Started);
      SameProper(s.st, r, Tell(Queue(s.st, r), Started));
    case Assign(i) =>
      QueueOfClient(s.st, i);
      NoiseIsInvisible(Queue(s.st, ClientRef(i)), ClusterAssign);
      SameProper(s.st, ClientRef(i), Tell(Queue(s.st, ClientRef(i)), ClusterAssign));
    case StartAll => StartsIdle(s.st, StartFederatedLearning(Everyone(|cfg.parts|)));
    case Take(r) => TakeStaysIdle(cfg, s, r, t);
  }

  lemma StartsIdle(s: State, msg: Msg)
    requires IdleCore(Core(s), false) && msg.StartFederatedLearning?
    ensures IdleCore(Core(s.(toCoord := s.toCoord + [msg])), true)
  {
    ProperOne(s.toCoord, msg);
    hide Proper;
  }

  /** A delivery takes one message from one mailbox, and nothing is sent. */
  lemma TakeStaysIdle(cfg: Config, s: System, r: Ref, t: System)
    requires cfg.totalRounds <= 0 && Idle(s) && Step(cfg, s, Take(r), t)
    ensures Idle(t) && t.told == s.told && t.booted == s.booted
    ensures |t.st.toCoord| == |s.st.toCoord| - if r == CoordinatorRef then 1 else 0
  {
    HasMail(cfg, s.st, r);
    QueueAfterHandle(cfg, s.st, r, CoordinatorRef);
    hide Core, IdleCore, CanDeliver, Handle, SendBounded, Proper;
    if Noise(Queue(s.st, r)[0]) {
      NoiseIsDelivered(cfg, s.st, r);
      NoiseIsDropped(cfg, s.st, r);
      NothingBounded(Handle(cfg, s.st, r).0);
    } else {
      HandleInCore(cfg, s.st, r);
      if !s.told {
        NothingBeforeStart(cfg, Core(s.st), r);
      }
      IdleCoreStep(cfg, Core(s.st), r);
      NothingBounded(Handle(cfg, s.st, r).0);
    }
  }

  lemma {:induction false} RunsStayIdle(cfg: Config, run: seq<System>, acts: seq<Action>, k: nat)
    requires cfg.totalRounds <= 0 && IsRun(cfg, run, acts) && k <= |acts|
    ensures Idle(run[k])
  {
    hide Step, Idle;
    if k == 0 {
      InitiallyIdle(cfg);
    } else {
      RunsStayIdle(cfg, run, acts, k - 1);
      StaysIdle(cfg, run[k - 1], acts[k - 1], run[k]);
    }
  }

  lemma InitiallyIdle(cfg: Config)
    ensures Idle(InitialSystem(cfg))
  {}

  function ToStart(s: System): nat {
    if s.told then |s.st.toCoord| else 3
  }

  /** Until DoneCh is closed the start can be told or the coordinator can take a message. */
  lemma IdleStep(cfg: Config, s: System) returns (a: Action, t: System)
    requires cfg.totalRounds <= 0 && Idle(s) && !(s.told && s.st.coord.closed > 0)
    ensures Step(cfg, s, a, t) && Idle(t) && ToStart(t) < ToStart(s)
  {
    if !s.told {
      a := StartAll;
      t := s.(st := s.st.(toCoord := Tell(s.st.toCoord, StartFederatedLearning(Everyone(|cfg.parts|)))), told := true);
      StaysIdle(cfg, s, a, t);
    } else {
      ProperShorter(s.st.toCoord);
      var (u, out) := Handle(cfg, s.st, CoordinatorRef);
      a, t := Take(CoordinatorRef), s.(st := SendBounded(u, out));
      hide Handle, CanDeliver, SendBounded, Idle;
      TakeStaysIdle(cfg, s, CoordinatorRef, t);
    }
  }

  lemma {:induction false} IdleRunsAreClosable(cfg: Config, run: seq<System>, acts: seq<Action>)
    requires cfg.totalRounds <= 0 && IsRun(cfg, run, acts)
    ensures Closable(cfg, run, acts)
    decreases ToStart(run[|acts|])
  {
    hide ToStart, Step, Idle;
    var n := |acts|;
    RunsStayIdle(cfg, run, acts, n);
    if run[n].told && run[n].st.coord.closed > 0 {
      assert IsRun(cfg, run, acts) && run <= run && acts <= acts && Closed(run);
    } else {
      var a, t := IdleStep(cfg, run[n]);
      Continued(cfg, run, acts, a, t);
      IdleRunsAreClosable(cfg, run + [t], acts + [a]);
      var run', acts' :| IsRun(cfg, run', acts') && run + [t] <= run' && acts + [a] <= acts' && Closed(run');
      assert run <= run + [t] && acts <= acts + [a];
    }
  }

  // ---------- the exact condition ----------

  /** Whatever has happened, DoneCh can still come to be closed. */
  ghost predicate AlwaysClosable(cfg: Config) {
    forall run, acts | IsRun(cfg, run, acts) :: Closable(cfg, run, acts)
  }

  /** Given data, exactly when there is no round to run, or a validation set and at most 99 clients. */
  lemma ClosableExactly(cfg: Config)
    requires ConfigOk(cfg) && |Concat(cfg.parts)| > 0
    ensures AlwaysClosable(cfg) <==> cfg.totalRounds <= 0 || (|cfg.validation| > 0 && |cfg.parts| <= 99)
  {
    hide Step, Closable;
    if cfg.totalRounds <= 0 {
      forall run, acts | IsRun(cfg, run, acts) ensures Closable(cfg, run, acts) {
        IdleRunsAreClosable(cfg, run, acts);
      }
    } else if |cfg.validation| > 0 && |cfg.parts| <= 99 {
      forall run, acts | IsRun(cfg, run, acts) ensures Closable(cfg, run, acts) {
        RunsAreClosable(cfg, run, acts);
      }
    } else if |cfg.validation| == 0 {
      MuteFromTheStart(cfg);
    } else {
      var run, acts := HundredClientsStall(cfg);
    }
  }

  lemma MuteFromTheStart(cfg: Config)
    requires cfg.validation == [] && cfg.totalRounds > 0
    ensures IsRun(cfg, [InitialSystem(cfg)], []) && !Closable(cfg, [InitialSystem(cfg)], [])
  {
    hide Step, Mute;
    if run', acts' :| IsRun(cfg, run', acts') && [InitialSystem(cfg)] <= run' && [] <= acts' && Closed(run') {
      NoValidationStalls(cfg, run', acts', |acts'|);
    }
  }
}
