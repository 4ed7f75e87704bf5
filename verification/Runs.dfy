/**
 Whole runs of federated learning in one process: bounded mailboxes, lifecycle messages, any interleaving.

 Actors boot in any order (which puts `Started` into their own mailboxes), the cluster manager may send its
 assignments at any moment, and mailboxes hold at most 100 messages, beyond which `Tell` silently loses the message.
 Only updates to the aggregator and its own Started message can be lost, so whatever the number of clients these
 runs refine the round protocol with lost updates; with at most 99 clients nothing is lost at all.
 */
module FederatedRuns {
  import opened LinearModels
  import opened Averaging
  import opened FederatedActors
  import opened RoundProtocol
  import opened RoundSteps

  const CAPACITY: nat := 100

  // ---------- bounded mailboxes ----------

  /** `Enqueue` on a bounded mailbox, whose error `Tell` ignores. */
  function Tell(q: seq<Msg>, msg: Msg): seq<Msg> {
    if |q| < CAPACITY then q + [msg] else q
  }

  function TellAll(q: seq<Msg>, msgs: seq<Msg>): seq<Msg>
  {
    if |msgs| == 0 then q else Tell(TellAll(q, msgs[..|msgs| - 1]), msgs[|msgs| - 1])
  }

  lemma {:induction false} RoomForAll(q: seq<Msg>, msgs: seq<Msg>)
    requires msgs != [] ==> |q| + |msgs| <= CAPACITY
    ensures TellAll(q, msgs) == q + msgs
  {
    if |msgs| > 0 {
      RoomForAll(q, msgs[..|msgs| - 1]);
    }
  }

  function SendBounded(s: State, out: seq<Envelope>): State {
    s.(toCoord := TellAll(s.toCoord, For(out, CoordinatorRef)),
       toAgg := TellAll(s.toAgg, For(out, AggregatorRef)),
       toMon := TellAll(s.toMon, For(out, MonitorRef)),
       toClient := seq(|s.toClient|, i requires 0 <= i < |s.toClient| =>
         TellAll(s.toClient[i], For(out, ClientRef(i)))))
  }

  // ---------- the system ----------

  /** The actors and mailboxes, who has booted, which clients got their assignment, whether main has said start. */
  datatype System = System(st: State, booted: set<Ref>, placed: set<nat>, told: bool)

  datatype Action = Boot(r: Ref) | Assign(i: nat) | StartAll | Take(r: Ref)

  function InitialSystem(cfg: Config): System {
    System(Initial(cfg).(toCoord := []), {}, {}, false)
  }

  predicate Exists(s: State, r: Ref) {
    r.ClientRef? ==> r.id < |s.toClient|
  }

  function Queue(s: State, r: Ref): seq<Msg>
    requires Exists(s, r)
  {
    match r
    case CoordinatorRef => s.toCoord
    case AggregatorRef => s.toAgg
    case MonitorRef => s.toMon
    case ClientRef(i) => s.toClient[i]
  }

  function WithQueue(s: State, r: Ref, q: seq<Msg>): State
    requires Exists(s, r)
  {
    match r
    case CoordinatorRef => s.(toCoord := q)
    case AggregatorRef => s.(toAgg := q)
    case MonitorRef => s.(toMon := q)
    case ClientRef(i) => s.(toClient := s.toClient[i := q])
  }

  ghost predicate Step(cfg: Config, s: System, a: Action, t: System) {
    match a
    case Boot(r) =>
      r !in s.booted && Exists(s.st, r) &&
      t == s.(st := WithQueue(s.st, r, Tell(Queue(s.st, r), Started)), booted := s.booted + {r})
    case Assign(i) =>
      i !in s.placed && i < |s.st.toClient| &&
      t == s.(st := WithQueue(s.st, ClientRef(i), Tell(s.st.toClient[i], ClusterAssign)), placed := s.placed + {i})
    case StartAll =>
      !s.told &&
      t == s.(st := s.st.(toCoord := Tell(s.st.toCoord, StartFederatedLearning(Everyone(|cfg.parts|)))), told := true)
    case Take(r) =>
      CanDeliver(cfg, s.st, r) &&
      var (u, out) := Handle(cfg, s.st, r);
      t == s.(st := SendBounded(u, out))
  }

  // ---------- the protocol inside ----------

  predicate Noise(msg: Msg) {
    msg.Started? || msg.ClusterAssign?
  }

  /** The protocol messages of a mailbox. */
  function Proper(q: seq<Msg>): seq<Msg>
  {
    if |q| == 0 then []
    else Proper(q[..|q| - 1]) + if Noise(q[|q| - 1]) then [] else [q[|q| - 1]]
  }

  lemma {:induction false} ProperAppend(q: seq<Msg>, p: seq<Msg>)
    ensures Proper(q + p) == Proper(q) + Proper(p)
  {
    if |p| == 0 {
      assert q + p == q;
    } else {
      ProperAppend(q, p[..|p| - 1]);
      assert (q + p)[..|q + p| - 1] == q + p[..|p| - 1];
    }
  }

  lemma ProperHead(q: seq<Msg>)
    requires |q| > 0
    ensures Proper(q) == (if Noise(q[0]) then [] else [q[0]]) + Proper(q[1..])
  {
    ProperAppend([q[0]], q[1..]);
    assert q == [q[0]] + q[1..];
    assert [q[0]][..0] == [];
  }

  lemma {:induction false} ProperShorter(q: seq<Msg>)
    ensures |Proper(q)| <= |q|
  {
    if |q| > 0 {
      ProperShorter(q[..|q| - 1]);
    }
  }

  function ProperAll(q: seq<seq<Msg>>): seq<seq<Msg>> {
    seq(|q|, i requires 0 <= i < |q| => Proper(q[i]))
  }

  /** The state of the round protocol that a system stands for. */
  function Core(s: State): State {
    s.(toCoord := Proper(s.toCoord), toAgg := Proper(s.toAgg), toMon := Proper(s.toMon),
       toClient := ProperAll(s.toClient))
  }

  /** How many lifecycle messages can be in a mailbox. */
  function NoiseAllowance(s: System, r: Ref): nat {
    (if r in s.booted then 1 else 0) + (if r.ClientRef? && r.id in s.placed then 1 else 0)
  }

  ghost predicate LittleNoise(s: System) {
    forall r | Exists(s.st, r) :: |Queue(s.st, r)| <= |Proper(Queue(s.st, r))| + NoiseAllowance(s, r)
  }

  ghost predicate Sound(cfg: Config, s: System)
    requires RunOk(cfg)
  {
    LittleNoise(s) && |s.st.toClient| == |cfg.parts| &&
    if s.told then Inv(cfg, Core(s.st)) else Core(s.st) == Initial(cfg).(toCoord := [])
  }

  /** No mailbox of the protocol ever holds more than one message per client, or two at the monitor. */
  lemma Occupancy(cfg: Config, s: State)
    requires RunOk(cfg) && Inv(cfg, s)
    ensures |s.toCoord| <= 1 && |s.toMon| <= 2 && |s.toAgg| <= |cfg.parts|
    ensures forall i | 0 <= i < |s.toClient| :: |s.toClient[i]| <= 1
  {
    hide GlobalModel, Updates, MSEOf, AverageLoss, HistoryOk, LogOk, Genuine;
    if PhaseOf(s) == Collecting {
      IdsSize(Arrived(s));
      AllMembers(|cfg.parts|);
      assert Ids(Arrived(s)) <= All(|cfg.parts|);
      SubsetSize(Ids(Arrived(s)), All(|cfg.parts|));
    }
  }

  lemma SubsetSize(a: set<nat>, c: set<nat>)
    requires a <= c
    ensures |a| <= |c|
  {
    assert |c - a| + |a| == |c| by { assert (c - a) + a == c; }
  }

  // ---------- every step is a step of the protocol or invisible to it ----------

  lemma SameProper(s: State, r: Ref, q: seq<Msg>)
    requires Exists(s, r) && Proper(q) == Proper(Queue(s, r))
    ensures Core(WithQueue(s, r, q)) == Core(s)
  {
    if r.ClientRef? {
      assert ProperAll(s.toClient[r.id := q]) == ProperAll(s.toClient);
    }
  }

  lemma NoiseIsInvisible(q: seq<Msg>, msg: Msg)
    requires Noise(msg)
    ensures Proper(Tell(q, msg)) == Proper(q)
  {}

  lemma NothingBounded(s: State)
    ensures SendBounded(s, []) == s
  {
    var t := SendBounded(s, []);
    assert forall i | 0 <= i < |s.toClient| :: t.toClient[i] == s.toClient[i];
    assert t.toClient == s.toClient;
  }

  /** Lifecycle messages are ignored by every actor. */
  lemma NoiseIsDropped(cfg: Config, s: State, r: Ref)
    requires CanDeliver(cfg, s, r) && Noise(Queue(s, r)[0])
    ensures Handle(cfg, s, r) == (WithQueue(s, r, Queue(s, r)[1..]), [])
  {}

  lemma {:induction false} ProperMail(out: seq<Envelope>, r: Ref)
    requires forall k | 0 <= k < |out| :: !Noise(out[k].msg)
    ensures Proper(For(out, r)) == For(out, r)
  {
    if |out| > 0 {
      var n := |out| - 1;
      ProperMail(out[..n], r);
      var last := if out[n].to == r then [out[n].msg] else [];
      ProperAppend(For(out[..n], r), last);
      assert out[n].to == r ==> last[..0] == [];
    }
  }

  lemma HandlersAreQuiet(cfg: Config, s: State, r: Ref)
    requires CanDeliver(cfg, s, r)
    ensures forall k | 0 <= k < |Handle(cfg, s, r).1| :: !Noise(Handle(cfg, s, r).1[k].msg)
  {
    hide FedAvgOf, MSEOf, AverageLoss, UpdateOf, Collected, Converged;
  }

  /** Handling a protocol message commutes with forgetting the lifecycle messages. */
  lemma HandleInCore(cfg: Config, s: State, r: Ref)
    requires CanDeliver(cfg, s, r) && !Noise(Queue(s, r)[0])
    ensures CanDeliver(cfg, Core(s), r)
    ensures Handle(cfg, Core(s), r) == (Core(Handle(cfg, s, r).0), Handle(cfg, s, r).1)
  {
    hide CoordinatorReceive, AggregatorReceive, AggregatorAccepts, MonitorReceive, MonitorAccepts, ClientReceive,
         ClientAccepts, Collected;
    var q := Queue(s, r);
    ProperHead(q);
    assert Proper(q)[0] == q[0] && Proper(q)[1..] == Proper(q[1..]);
    if r.ClientRef? {
      assert ProperAll(s.toClient[r.id := q[1..]]) == ProperAll(s.toClient)[r.id := Proper(q[1..])];
    }
  }

  /** If everything fits, sending into the mailboxes is sending in the protocol. */
  lemma SendInCore(s: State, out: seq<Envelope>)
    requires forall k | 0 <= k < |out| :: !Noise(out[k].msg)
    requires forall r | Exists(s, r) :: For(out, r) != [] ==> |Queue(s, r)| + |For(out, r)| <= CAPACITY
    ensures SendBounded(s, out) == Send(s, out)
    ensures Core(Send(s, out)) == Send(Core(s), out)
  {
    hide For, Proper, TellAll;
    forall r | Exists(s, r)
      ensures TellAll(Queue(s, r), For(out, r)) == Queue(s, r) + For(out, r)
      ensures Proper(Queue(s, r) + For(out, r)) == Proper(Queue(s, r)) + For(out, r)
    {
      RoomForAll(Queue(s, r), For(out, r));
      ProperMail(out, r);
      ProperAppend(Queue(s, r), For(out, r));
    }
    forall i | 0 <= i < |s.toClient|
      ensures TellAll(s.toClient[i], For(out, ClientRef(i))) == s.toClient[i] + For(out, ClientRef(i))
      ensures Proper(s.toClient[i] + For(out, ClientRef(i))) == Proper(s.toClient[i]) + For(out, ClientRef(i))
    {
      assert Queue(s, ClientRef(i)) == s.toClient[i];
    }
    assert Queue(s, CoordinatorRef) == s.toCoord && Queue(s, AggregatorRef) == s.toAgg;
    assert Queue(s, MonitorRef) == s.toMon;
    assert SendBounded(s, out).toClient == Send(s, out).toClient;
    assert Core(Send(s, out)).toClient == Send(Core(s), out).toClient;
  }

  lemma QueueOfCore(s: State, r: Ref)
    requires Exists(s, r)
    ensures Exists(Core(s), r) && Queue(Core(s), r) == Proper(Queue(s, r))
  {}

  lemma QueueOfSend(s: State, out: seq<Envelope>, r: Ref)
    requires Exists(s, r)
    ensures Exists(Send(s, out), r) && Queue(Send(s, out), r) == Queue(s, r) + For(out, r)
  {}

  lemma QueueAfterHandle(cfg: Config, s: State, r: Ref, p: Ref)
    requires CanDeliver(cfg, s, r) && Exists(s, p)
    ensures var u := Handle(cfg, s, r).0;
            Exists(u, p) && |u.toClient| == |s.toClient| &&
            Queue(u, p) == if p == r then Queue(s, p)[1..] else Queue(s, p)
  {
    hide CoordinatorReceive, AggregatorReceive, AggregatorAccepts, MonitorReceive, MonitorAccepts, ClientReceive,
         ClientAccepts, Collected;
  }

  /** No mailbox but the aggregator's is ever too full for what a handler sends, nor that with at most 99 clients. */
  lemma EverythingFits(cfg: Config, s: System, r: Ref, p: Ref)
    requires RunOk(cfg) && Sound(cfg, s) && s.told && (|cfg.parts| <= 99 || p != AggregatorRef)
    requires CanDeliver(cfg, s.st, r) && !Noise(Queue(s.st, r)[0]) && Exists(s.st, p)
    ensures var (u, out) := Handle(cfg, s.st, r);
            |Queue(u, p)| + |For(out, p)| <= |Proper(Queue(u, p)) + For(out, p)| + NoiseAllowance(s, p) <= CAPACITY
  {
    hide Handle, Inv, For, Proper, Send;
    var (u, out) := Handle(cfg, s.st, r);
    HandleInCore(cfg, s.st, r);
    DeliveryKeepsInv(cfg, Core(s.st), r);
    QueueAfterHandle(cfg, s.st, r, p);
    QueueOfCore(u, p);
    QueueOfSend(Core(u), out, p);
    ProperHead(Queue(s.st, r));
    BoundedQueue(cfg, Send(Core(u), out), p);
  }

  lemma BoundedQueue(cfg: Config, s: State, p: Ref)
    requires RunOk(cfg) && Inv(cfg, s) && Exists(s, p)
    ensures |Queue(s, p)| <= if p.ClientRef? then 1 else if p == AggregatorRef then |cfg.parts| else 2
  {
    hide Inv;
    Occupancy(cfg, s);
  }

  /** A client's update meets a full mailbox at the aggregator. */
  ghost predicate Lossy(s: System, r: Ref, t: System) {
    r.ClientRef? && Exists(s.st, r) && |Queue(s.st, r)| > 0 && |s.st.toAgg| >= CAPACITY &&
    t.st == WithQueue(s.st, r, Queue(s.st, r)[1..]) && Core(t.st) == Dropped(Core(s.st), r.id)
  }

  /** What a step is to the round protocol: a delivery, a lost update, the start, or nothing at all. */
  ghost predicate Refined(cfg: Config, s: System, a: Action, t: System)
    requires RunOk(cfg)
  {
    match a
    case Boot(r) =>
      Exists(s.st, r) && Core(t.st) == Core(s.st) && t.told == s.told &&
      t.st == WithQueue(s.st, r, Tell(Queue(s.st, r), Started))
    case Assign(i) =>
      i < |s.st.toClient| && Core(t.st) == Core(s.st) && t.told == s.told &&
      t.st == WithQueue(s.st, ClientRef(i), Tell(s.st.toClient[i], ClusterAssign))
    case StartAll =>
      !s.told && t.told && Core(t.st) == Initial(cfg) &&
      t.st == s.st.(toCoord := s.st.toCoord + [StartFederatedLearning(Everyone(|cfg.parts|))])
    case Take(r) =>
      t.told == s.told && CanDeliver(cfg, s.st, r) &&
      if Noise(Queue(s.st, r)[0]) then t.st == Deliver(cfg, s.st, r) && Core(t.st) == Core(s.st)
      else
        s.told && CanDeliver(cfg, Core(s.st), r) &&
        ((t.st == Deliver(cfg, s.st, r) && Core(t.st) == Deliver(cfg, Core(s.st), r)) || Lossy(s, r, t))
  }

  lemma NoiseIsDelivered(cfg: Config, s: State, r: Ref)
    requires CanDeliver(cfg, s, r) && Noise(Queue(s, r)[0])
    ensures Deliver(cfg, s, r) == WithQueue(s, r, Queue(s, r)[1..])
    ensures SendBounded(Handle(cfg, s, r).0, Handle(cfg, s, r).1) == Deliver(cfg, s, r)
    ensures Core(Deliver(cfg, s, r)) == Core(s)
  {
    HasMail(cfg, s, r);
    hide Handle, CanDeliver, Core, Proper;
    NoiseIsDropped(cfg, s, r);
    NothingBounded(WithQueue(s, r, Queue(s, r)[1..]));
    NothingToSend(WithQueue(s, r, Queue(s, r)[1..]));
    ProperHead(Queue(s, r));
    SameProper(s, r, Queue(s, r)[1..]);
  }

  lemma NothingStartedYet(cfg: Config, s: System, p: Ref)
    requires RunOk(cfg) && Sound(cfg, s) && !s.told && Exists(s.st, p)
    ensures Proper(Queue(s.st, p)) == []
  {
    hide Proper;
    QueueOfCore(s.st, p);
  }

  /** Only clients send to the aggregator, one update each. */
  lemma AggregatorMail(cfg: Config, s: State, r: Ref)
    requires CanDeliver(cfg, s, r)
    ensures !r.ClientRef? ==> For(Handle(cfg, s, r).1, AggregatorRef) == []
    ensures r.ClientRef? && !Noise(Queue(s, r)[0]) && s.toClient[r.id][0].StartRound? ==>
              |Handle(cfg, s, r).1| == 1 && Handle(cfg, s, r).1[0].to == AggregatorRef
  {
    hide FedAvgOf, MSEOf, AverageLoss, UpdateOf, Collected, Converged, AggregatorAccepts, MonitorAccepts, For;
    match r
    case CoordinatorRef => CoordinatorSkipsAggregator(cfg, s.coord, s.toCoord[0]);
    case AggregatorRef => SkipsAggregator(AggregatorReceive(s.agg, s.toAgg[0], cfg.features).1);
    case MonitorRef => SkipsAggregator(MonitorReceive(cfg, s.mon, s.toMon[0]).1);
    case ClientRef(i) =>
  }

  lemma {:induction false} SkipsAggregator(out: seq<Envelope>)
    requires forall k | 0 <= k < |out| :: out[k].to != AggregatorRef
    ensures For(out, AggregatorRef) == []
  {
    if |out| > 0 {
      SkipsAggregator(out[..|out| - 1]);
    }
  }

  lemma CoordinatorSkipsAggregator(cfg: Config, c: Coordinator, msg: Msg)
    ensures For(CoordinatorReceive(cfg, c, msg).1, AggregatorRef) == []
  {
    SkipsAggregator(CoordinatorReceive(cfg, c, msg).1);
  }

  lemma ToldNothing(q: seq<Msg>)
    ensures TellAll(q, []) == q
  {}

  lemma ToldOne(q: seq<Msg>, msg: Msg)
    ensures TellAll(q, [msg]) == Tell(q, msg)
  {
    assert [msg][..0] == [] && TellAll(q, []) == q;
  }

  lemma SendToAggregator(s: State, msg: Msg)
    ensures SendBounded(s, [Envelope(AggregatorRef, msg)]) == s.(toAgg := Tell(s.toAgg, msg))
    ensures For([Envelope(AggregatorRef, msg)], AggregatorRef) == [msg]
  {
    var out := [Envelope(AggregatorRef, msg)];
    hide For, TellAll, Tell;
    forall r ensures For(out, r) == if r == AggregatorRef then [msg] else [] {
      ForTwo(out[0], out[0], r);
    }
    ToldOne(s.toAgg, msg);
    ToldNothing(s.toCoord);
    ToldNothing(s.toMon);
    var t := SendBounded(s, out);
    forall i | 0 <= i < |s.toClient| ensures t.toClient[i] == s.toClient[i] {
      ToldNothing(s.toClient[i]);
    }
    assert t.toClient == s.toClient;
  }

  /** A client of the protocol is only ever handed a StartRound. */
  lemma ClientIsHandedRound(cfg: Config, s: State, i: nat)
    requires RunOk(cfg) && Inv(cfg, s) && i < |s.toClient| && s.toClient[i] != []
    ensures s.toClient[i][0].StartRound?
  {
    OnlyInCollection(cfg, s);
    hide GlobalModel, HistoryOk, LogOk, MSEOf, AverageLoss, Genuine, NoRepeats, Waiting, Ids;
  }

  /** A client that is handed a round message sends one update to the aggregator. */
  lemma ClientSends(cfg: Config, s: System, i: nat)
    requires RunOk(cfg) && Sound(cfg, s) && s.told && CanDeliver(cfg, s.st, ClientRef(i))
    requires !Noise(s.st.toClient[i][0])
    ensures CanDeliver(cfg, Core(s.st), ClientRef(i))
    ensures Handle(cfg, Core(s.st), ClientRef(i)).0 == Core(Handle(cfg, s.st, ClientRef(i)).0)
    ensures var out := Handle(cfg, s.st, ClientRef(i)).1;
            |out| == 1 && out == [Envelope(AggregatorRef, out[0].msg)]
  {
    var r := ClientRef(i);
    HandleInCore(cfg, s.st, r);
    HasMail(cfg, Core(s.st), r);
    QueueOfCore(s.st, r);
    ProperHead(s.st.toClient[i]);
    ClientIsHandedRound(cfg, Core(s.st), i);
    AggregatorMail(cfg, s.st, r);
    hide Inv, Proper, Core;
  }

  /** What handling does to a client's own mailbox, with and without the lifecycle messages. */
  lemma ClientHandled(cfg: Config, s: State, i: nat)
    requires CanDeliver(cfg, s, ClientRef(i))
    ensures i < |s.toClient| && |s.toClient[i]| > 0
    ensures Handle(cfg, s, ClientRef(i)).0 == s.(toClient := s.toClient[i := s.toClient[i][1..]])
  {}

  lemma UpdateIsLost(cfg: Config, s: System, i: nat, t: System)
    requires RunOk(cfg) && Sound(cfg, s) && s.told && Step(cfg, s, Take(ClientRef(i)), t)
    requires CanDeliver(cfg, s.st, ClientRef(i)) && !Noise(s.st.toClient[i][0]) && |s.st.toAgg| >= CAPACITY
    ensures Lossy(s, ClientRef(i), t) && CanDeliver(cfg, Core(s.st), ClientRef(i))
  {
    var (u, out) := Handle(cfg, s.st, ClientRef(i));
    ClientSends(cfg, s, i);
    ClientHandled(cfg, s.st, i);
    ClientHandled(cfg, Core(s.st), i);
    DropKeepsInv(cfg, Core(s.st), i);
    SendToAggregator(u, out[0].msg);
    hide Inv, Core, SendBounded, CanDeliver, Handle;
  }

  lemma TakeIsRefined(cfg: Config, s: System, r: Ref, t: System)
    requires RunOk(cfg) && Sound(cfg, s) && Step(cfg, s, Take(r), t)
    ensures Refined(cfg, s, Take(r), t)
  {
    hide Handle, Core, Proper, Inv, CanDeliver, SendBounded, Lossy;
    assert Exists(s.st, r) && |Queue(s.st, r)| > 0 by { HasMail(cfg, s.st, r); }
    if Noise(Queue(s.st, r)[0]) {
      NoiseIsDelivered(cfg, s.st, r);
    } else {
      ProperHead(Queue(s.st, r));
      if !s.told {
        NothingStartedYet(cfg, s, r);
      }
      if r.ClientRef? && |s.st.toAgg| >= CAPACITY {
        UpdateIsLost(cfg, s, r.id, t);
      } else {
        ProperIsDelivered(cfg, s, r);
      }
    }
  }

  lemma ProperIsDelivered(cfg: Config, s: System, r: Ref)
    requires RunOk(cfg) && Sound(cfg, s) && s.told && CanDeliver(cfg, s.st, r)
    requires Exists(s.st, r) && |Queue(s.st, r)| > 0 && !Noise(Queue(s.st, r)[0])
    requires r.ClientRef? ==> |s.st.toAgg| < CAPACITY
    ensures CanDeliver(cfg, Core(s.st), r) && Core(Deliver(cfg, s.st, r)) == Deliver(cfg, Core(s.st), r)
    ensures SendBounded(Handle(cfg, s.st, r).0, Handle(cfg, s.st, r).1) == Deliver(cfg, s.st, r)
  {
    hide Handle, Core, Proper, Inv, CanDeliver, SendBounded, For;
    var (u, out) := Handle(cfg, s.st, r);
    HandleInCore(cfg, s.st, r);
    HandlersAreQuiet(cfg, s.st, r);
    QueueAfterHandle(cfg, s.st, r, r);
    forall p | Exists(u, p) ensures For(out, p) != [] ==> |Queue(u, p)| + |For(out, p)| <= CAPACITY {
      if p == AggregatorRef {
        AggregatorHasRoom(cfg, s, r);
      } else {
        EverythingFits(cfg, s, r, p);
      }
    }
    SendInCore(u, out);
  }

  lemma AggregatorHasRoom(cfg: Config, s: System, r: Ref)
    requires RunOk(cfg) && Sound(cfg, s) && s.told && CanDeliver(cfg, s.st, r)
    requires Exists(s.st, r) && |Queue(s.st, r)| > 0 && !Noise(Queue(s.st, r)[0])
    requires r.ClientRef? ==> |s.st.toAgg| < CAPACITY
    ensures var (u, out) := Handle(cfg, s.st, r);
            For(out, AggregatorRef) != [] ==> |u.toAgg| + |For(out, AggregatorRef)| <= CAPACITY
  {
    hide Inv, Core, SendBounded, Handle;
    if r.ClientRef? {
      ClientSends(cfg, s, r.id);
      SendToAggregator(Handle(cfg, s.st, r).0, Handle(cfg, s.st, r).1[0].msg);
      QueueAfterHandle(cfg, s.st, r, AggregatorRef);
    } else {
      AggregatorMail(cfg, s.st, r);
    }
  }

  lemma HasMail(cfg: Config, s: State, r: Ref)
    requires CanDeliver(cfg, s, r)
    ensures Exists(s, r) && |Queue(s, r)| > 0
  {}

  lemma QueueRoom(cfg: Config, s: System, p: Ref)
    requires RunOk(cfg) && Sound(cfg, s) && Exists(s.st, p) && (|cfg.parts| <= 99 || p != AggregatorRef)
    ensures |Queue(s.st, p)| <= (if p.ClientRef? then 1 else 99) + NoiseAllowance(s, p)
  {
    hide Core, Proper, Inv;
    if s.told {
      QueueOfCore(s.st, p);
      BoundedQueue(cfg, Core(s.st), p);
    } else {
      NothingStartedYet(cfg, s, p);
    }
  }

  lemma NoiseArrives(s: State, r: Ref, msg: Msg)
    requires Exists(s, r) && Noise(msg)
    ensures Core(WithQueue(s, r, Tell(Queue(s, r), msg))) == Core(s)
  {
    hide Core, Proper;
    NoiseIsInvisible(Queue(s, r), msg);
    SameProper(s, r, Tell(Queue(s, r), msg));
  }

  lemma StartArrives(cfg: Config, s: System)
    requires RunOk(cfg) && Sound(cfg, s) && !s.told
    ensures var msg := StartFederatedLearning(Everyone(|cfg.parts|));
            Tell(s.st.toCoord, msg) == s.st.toCoord + [msg] &&
            Core(s.st.(toCoord := s.st.toCoord + [msg])) == Initial(cfg)
  {
    hide Proper, Inv;
    var msg := StartFederatedLearning(Everyone(|cfg.parts|));
    QueueRoom(cfg, s, CoordinatorRef);
    NothingStartedYet(cfg, s, CoordinatorRef);
    ProperOne(s.st.toCoord, msg);
  }

  lemma QueueOfClient(s: State, i: nat)
    requires i < |s.toClient|
    ensures Queue(s, ClientRef(i)) == s.toClient[i]
  {}

  lemma ProperOne(q: seq<Msg>, msg: Msg)
    requires !Noise(msg)
    ensures Proper(q + [msg]) == Proper(q) + [msg]
  {}

  /** With any number of clients: each step is a delivery of the protocol, a lost update, or invisible to it. */
  lemma StepIsRefined(cfg: Config, s: System, a: Action, t: System)
    requires RunOk(cfg) && Sound(cfg, s) && Step(cfg, s, a, t)
    ensures Refined(cfg, s, a, t)
  {
    hide Core, Sound, SendBounded, CanDeliver, Tell;
    match a
    case Boot(r) => NoiseArrives(s.st, r, Started);
    case Assign(i) => NoiseArrives(s.st, ClientRef(i), ClusterAssign);
    case StartAll => StartArrives(cfg, s);
    case Take(r) => TakeIsRefined(cfg, s, r, t);
  }

  /** The step puts every message it sends into its mailbox. */
  ghost predicate Lossless(cfg: Config, s: System, a: Action, t: System) {
    match a
    case Boot(r) => Exists(s.st, r) && t.st == WithQueue(s.st, r, Queue(s.st, r) + [Started])
    case Assign(i) =>
      i < |s.st.toClient| && t.st == WithQueue(s.st, ClientRef(i), s.st.toClient[i] + [ClusterAssign])
    case StartAll => t.st == s.st.(toCoord := s.st.toCoord + [StartFederatedLearning(Everyone(|cfg.parts|))])
    case Take(r) => CanDeliver(cfg, s.st, r) && t.st == Deliver(cfg, s.st, r)
  }

  /** With at most 99 clients an update never meets a full mailbox. */
  lemma UpdateFits(cfg: Config, s: System, i: nat)
    requires RunOk(cfg) && |cfg.parts| <= 99 && Sound(cfg, s) && s.told && CanDeliver(cfg, s.st, ClientRef(i))
    requires i < |s.st.toClient| && |s.st.toClient[i]| > 0 && !Noise(s.st.toClient[i][0])
    ensures |s.st.toAgg| < CAPACITY
  {
    var r := ClientRef(i);
    var (u, out) := Handle(cfg, s.st, r);
    ClientSends(cfg, s, i);
    SendToAggregator(u, out[0].msg);
    QueueAfterHandle(cfg, s.st, r, AggregatorRef);
    hide Inv, Core, SendBounded, Handle;
    EverythingFits(cfg, s, r, AggregatorRef);
  }

  lemma TakeIsLossless(cfg: Config, s: System, r: Ref, t: System)
    requires RunOk(cfg) && |cfg.parts| <= 99 && Sound(cfg, s) && Step(cfg, s, Take(r), t)
    ensures CanDeliver(cfg, s.st, r) && t.st == Deliver(cfg, s.st, r)
    ensures s.told && !Noise(Queue(s.st, r)[0]) ==>
              CanDeliver(cfg, Core(s.st), r) && Core(t.st) == Deliver(cfg, Core(s.st), r)
  {
    TakeIsRefined(cfg, s, r, t);
    hide Core, Sound, SendBounded, CanDeliver, Deliver, Handle, Inv;
    if s.told && !Noise(Queue(s.st, r)[0]) && r.ClientRef? && Lossy(s, r, t) {
      UpdateFits(cfg, s, r.id);
    }
  }

  /** With at most 99 clients no message is ever lost. */
  lemma StepIsLossless(cfg: Config, s: System, a: Action, t: System)
    requires RunOk(cfg) && |cfg.parts| <= 99 && Sound(cfg, s) && Step(cfg, s, a, t)
    ensures Lossless(cfg, s, a, t)
  {
    StepIsRefined(cfg, s, a, t);
    hide Core, Sound, SendBounded, CanDeliver, Deliver, Handle, Queue, WithQueue;
    match a
    case Boot(r) => QueueRoom(cfg, s, r);
    case Assign(i) =>
      QueueRoom(cfg, s, ClientRef(i));
      QueueOfClient(s.st, i);
    case StartAll =>
    case Take(r) => TakeIsLossless(cfg, s, r, t);
  }

  lemma NoiseStaysLittle(cfg: Config, s: System, a: Action, t: System)
    requires RunOk(cfg) && LittleNoise(s) && Step(cfg, s, a, t) && Refined(cfg, s, a, t)
    ensures LittleNoise(t)
  {
    forall p | Exists(t.st, p)
      ensures |Queue(t.st, p)| <= |Proper(Queue(t.st, p))| + NoiseAllowance(t, p)
    {
      NoiseStaysLittleAt(cfg, s, a, t, p);
    }
  }

  lemma NoiseStaysLittleAt(cfg: Config, s: System, a: Action, t: System, p: Ref)
    requires RunOk(cfg) && LittleNoise(s) && Step(cfg, s, a, t) && Refined(cfg, s, a, t) && Exists(t.st, p)
    ensures |Queue(t.st, p)| <= |Proper(Queue(t.st, p))| + NoiseAllowance(t, p)
  {
    hide Core, Inv, Handle, Proper, CanDeliver, Deliver, Tell, LittleNoise, WithQueue, Queue, SendBounded;
    match a
    case Boot(r) => OneMoreNoise(s, r, Started, p);
    case Assign(i) => AssignmentArrives(s, i, p);
    case StartAll => StartIsNoNoise(s, StartFederatedLearning(Everyone(|cfg.parts|)), p);
    case Take(r) =>
      if t.st == Deliver(cfg, s.st, r) {
        DeliveryAddsNoNoise(cfg, s, r, p);
      } else {
        OneLessMessage(s, r, p);
      }
  }

  lemma OneMoreNoise(s: System, r: Ref, msg: Msg, p: Ref)
    requires LittleNoise(s) && Exists(s.st, r) && Noise(msg)
    ensures var u := WithQueue(s.st, r, Tell(Queue(s.st, r), msg));
            Exists(u, p) ==>
              |Queue(u, p)| <= |Proper(Queue(u, p))| + NoiseAllowance(s, p) + if p == r then 1 else 0
  {
    var u := WithQueue(s.st, r, Tell(Queue(s.st, r), msg));
    if Exists(u, p) {
      assert Queue(u, p) == if p == r then Tell(Queue(s.st, r), msg) else Queue(s.st, p);
      NoiseIsInvisible(Queue(s.st, r), msg);
      assert |Queue(s.st, p)| <= |Proper(Queue(s.st, p))| + NoiseAllowance(s, p);
    }
  }

  lemma OneLessMessage(s: System, r: Ref, p: Ref)
    requires LittleNoise(s) && Exists(s.st, r) && |Queue(s.st, r)| > 0
    ensures var u := WithQueue(s.st, r, Queue(s.st, r)[1..]);
            Exists(u, p) ==> |Queue(u, p)| <= |Proper(Queue(u, p))| + NoiseAllowance(s, p)
  {
    var u := WithQueue(s.st, r, Queue(s.st, r)[1..]);
    if Exists(u, p) {
      assert Queue(u, p) == if p == r then Queue(s.st, r)[1..] else Queue(s.st, p);
      ProperHead(Queue(s.st, r));
      assert |Queue(s.st, p)| <= |Proper(Queue(s.st, p))| + NoiseAllowance(s, p);
    }
  }

  lemma AssignmentArrives(s: System, i: nat, p: Ref)
    requires LittleNoise(s) && i < |s.st.toClient| && i !in s.placed
    ensures var u := WithQueue(s.st, ClientRef(i), Tell(s.st.toClient[i], ClusterAssign));
            Exists(u, p) ==>
              |Queue(u, p)| <= |Proper(Queue(u, p))| + NoiseAllowance(s.(placed := s.placed + {i}), p)
  {
    OneMoreNoise(s, ClientRef(i), ClusterAssign, p);
  }

  lemma StartIsNoNoise(s: System, msg: Msg, p: Ref)
    requires LittleNoise(s) && !Noise(msg)
    ensures var u := s.st.(toCoord := s.st.toCoord + [msg]);
            Exists(u, p) ==> |Queue(u, p)| <= |Proper(Queue(u, p))| + NoiseAllowance(s, p)
  {
    ProperOne(s.st.toCoord, msg);
    assert Exists(s.st, p) ==> |Queue(s.st, p)| <= |Proper(Queue(s.st, p))| + NoiseAllowance(s, p);
  }

  lemma DeliveryAddsNoNoise(cfg: Config, s: System, r: Ref, p: Ref)
    requires LittleNoise(s) && CanDeliver(cfg, s.st, r)
    ensures var u := Deliver(cfg, s.st, r);
            Exists(u, p) ==> |Queue(u, p)| <= |Proper(Queue(u, p))| + NoiseAllowance(s, p)
  {
    hide Handle, Proper, CanDeliver, Send, Queue;
    HasMail(cfg, s.st, r);
    QueueAfterHandle(cfg, s.st, r, r);
    if Exists(Deliver(cfg, s.st, r), p) {
      var (u, out) := Handle(cfg, s.st, r);
      SendKeepsClients(u, out);
      QueueAfterHandle(cfg, s.st, r, p);
      QueueOfSend(u, out, p);
      HandlersAreQuiet(cfg, s.st, r);
      ProperMail(out, p);
      ProperAppend(Queue(u, p), For(out, p));
      ProperHead(Queue(s.st, r));
      assert |Queue(s.st, p)| <= |Proper(Queue(s.st, p))| + NoiseAllowance(s, p);
    }
  }

  lemma SendKeepsClients(s: State, out: seq<Envelope>)
    ensures |Send(s, out).toClient| == |s.toClient|
  {}

  /** Every step keeps a sound system sound, with any number of clients. */
  lemma StepKeepsSound(cfg: Config, s: System, a: Action, t: System)
    requires RunOk(cfg) && Sound(cfg, s) && Step(cfg, s, a, t)
    ensures Sound(cfg, t) && Refined(cfg, s, a, t)
  {
    StepIsRefined(cfg, s, a, t);
    NoiseStaysLittle(cfg, s, a, t);
    hide Core, Inv, Handle, LittleNoise, CanDeliver, Deliver;
    CoreClients(s.st);
    CoreClients(t.st);
    match a
    case StartAll => InitialIsInv(cfg);
    case Take(r) =>
      if s.told {
        TakeKeepsInv(cfg, s, r, t);
      }
      InvClients(cfg, t);
    case _ =>
  }

  lemma TakeKeepsInv(cfg: Config, s: System, r: Ref, t: System)
    requires RunOk(cfg) && Sound(cfg, s) && s.told && Refined(cfg, s, Take(r), t)
    ensures Inv(cfg, Core(t.st))
  {
    HasMail(cfg, s.st, r);
    hide Core, Inv, LittleNoise, CanDeliver, Deliver, Queue, WithQueue;
    if !Noise(Queue(s.st, r)[0]) {
      DeliveryKeepsInv(cfg, Core(s.st), r);
      if r.ClientRef? {
        DropKeepsInv(cfg, Core(s.st), r.id);
      }
    }
  }

  /** No update of the current round has been lost. */
  ghost predicate Complete(cfg: Config, s: System) {
    s.told ==> NothingLost(cfg, Core(s.st))
  }

  lemma StepKeepsComplete(cfg: Config, s: System, a: Action, t: System)
    requires RunOk(cfg) && |cfg.parts| <= 99 && Sound(cfg, s) && Complete(cfg, s) && Step(cfg, s, a, t)
    ensures Complete(cfg, t)
  {
    StepIsRefined(cfg, s, a, t);
    hide Core, Inv, Handle, CanDeliver, Deliver, NothingLost, Lossy, LittleNoise, Queue, WithQueue, SendBounded;
    match a
    case StartAll => NothingLostAtStart(cfg);
    case Take(r) =>
      TakeIsLossless(cfg, s, r, t);
      if s.told && CanDeliver(cfg, Core(s.st), r) {
        DeliveryKeepsInv(cfg, Core(s.st), r);
      }
    case _ =>
  }

  lemma NothingLostAtStart(cfg: Config)
    ensures NothingLost(cfg, Initial(cfg))
  {}

  lemma CoreClients(s: State)
    ensures |Core(s).toClient| == |s.toClient|
  {}

  lemma InvClients(cfg: Config, t: System)
    requires RunOk(cfg)
    ensures Inv(cfg, Core(t.st)) ==> |Core(t.st).toClient| == |cfg.parts|
  {
    hide Core;
  }

  // ---------- whole runs ----------

  /** A run: the actions taken and the systems they lead through, from before anything has happened. */
  ghost predicate IsRun(cfg: Config, run: seq<System>, acts: seq<Action>) {
    |run| == |acts| + 1 && run[0] == InitialSystem(cfg) &&
    forall i | 0 <= i < |acts| :: Step(cfg, run[i], acts[i], run[i + 1])
  }

  ghost predicate ProtocolDelivery(s: System, a: Action) {
    a.Take? && Exists(s.st, a.r) && |Queue(s.st, a.r)| > 0 && !Noise(Queue(s.st, a.r)[0])
  }

  /** How many of the first k actions deliver a message of the protocol. */
  ghost function Deliveries(run: seq<System>, acts: seq<Action>, k: nat): nat
    requires k <= |acts| < |run|
  {
    if k == 0 then 0 else Deliveries(run, acts, k - 1) + if ProtocolDelivery(run[k - 1], acts[k - 1]) then 1 else 0
  }

  ghost function Budget(cfg: Config): nat {
    Times(cfg.totalRounds, PerRound(|cfg.parts|)) + 1
  }

  ghost function StillToDo(cfg: Config, s: System): nat {
    if s.told then Remaining(cfg, Core(s.st)) else Budget(cfg)
  }

  lemma InitialIsSound(cfg: Config)
    requires RunOk(cfg)
    ensures Sound(cfg, InitialSystem(cfg))
  {
    var st := InitialSystem(cfg).st;
    assert ProperAll(st.toClient) == st.toClient;
  }

  lemma {:induction false} RunsAreSound(cfg: Config, run: seq<System>, acts: seq<Action>, k: nat)
    requires RunOk(cfg) && IsRun(cfg, run, acts) && k <= |acts|
    ensures Sound(cfg, run[k])
  {
    hide Sound, Step;
    if k == 0 {
      InitialIsSound(cfg);
    } else {
      RunsAreSound(cfg, run, acts, k - 1);
      StepKeepsSound(cfg, run[k - 1], acts[k - 1], run[k]);
    }
  }

  lemma WorkShrinks(cfg: Config, s: System, a: Action, t: System)
    requires RunOk(cfg) && Sound(cfg, s) && Step(cfg, s, a, t)
    ensures StillToDo(cfg, t) + (if ProtocolDelivery(s, a) then 1 else 0) <= StillToDo(cfg, s)
  {
    StepIsRefined(cfg, s, a, t);
    hide Core, Inv, Handle, CanDeliver, Deliver, Remaining, SendBounded, Queue, WithQueue, LittleNoise, Tell, Budget;
    match a
    case Boot(r) =>
    case Assign(i) =>
    case StartAll => StartUsesNothing(cfg);
    case Take(r) => TakeShrinks(cfg, s, r, t);
  }

  lemma TakeShrinks(cfg: Config, s: System, r: Ref, t: System)
    requires RunOk(cfg) && Sound(cfg, s) && Refined(cfg, s, Take(r), t)
    ensures StillToDo(cfg, t) + (if ProtocolDelivery(s, Take(r)) then 1 else 0) <= StillToDo(cfg, s)
  {
    HasMail(cfg, s.st, r);
    hide Core, Inv, Handle, CanDeliver, Deliver, Remaining, Queue, WithQueue, LittleNoise;
    if ProtocolDelivery(s, Take(r)) {
      DeliveryUsesUp(cfg, Core(s.st), r);
      if r.ClientRef? {
        DropKeepsInv(cfg, Core(s.st), r.id);
      }
    }
  }

  lemma StartUsesNothing(cfg: Config)
    requires RunOk(cfg)
    ensures Remaining(cfg, Initial(cfg)) == Budget(cfg)
  {
    InitialIsInv(cfg);
    hide Inv, Remaining;
  }

  lemma DeliveryUsesUp(cfg: Config, s: State, r: Ref)
    requires RunOk(cfg) && Inv(cfg, s) && CanDeliver(cfg, s, r)
    ensures Remaining(cfg, Deliver(cfg, s, r)) < Remaining(cfg, s)
  {
    DeliveryKeepsInv(cfg, s, r);
    hide Inv, Deliver, CanDeliver;
  }

  /** A run delivers at most TotalRounds * (2N + 4) round messages besides the start message, however it goes. */
  lemma {:induction false} DeliveriesAreBounded(cfg: Config, run: seq<System>, acts: seq<Action>, k: nat)
    requires RunOk(cfg) && IsRun(cfg, run, acts) && k <= |acts|
    ensures Deliveries(run, acts, k) + StillToDo(cfg, run[k]) <= Budget(cfg)
  {
    hide Sound, Step, Budget, StillToDo, ProtocolDelivery;
    if k == 0 {
      NothingDoneYet(cfg);
    } else {
      DeliveriesAreBounded(cfg, run, acts, k - 1);
      RunsAreSound(cfg, run, acts, k - 1);
      WorkShrinks(cfg, run[k - 1], acts[k - 1], run[k]);
    }
  }

  lemma NothingDoneYet(cfg: Config)
    ensures StillToDo(cfg, InitialSystem(cfg)) == Budget(cfg)
  {}

  lemma {:induction false} BudgetIsProduct(cfg: Config, rounds: int)
    ensures Times(rounds, PerRound(|cfg.parts|)) == (if rounds <= 0 then 0 else rounds) * (2 * |cfg.parts| + 4)
    decreases rounds
  {
    if rounds > 0 {
      BudgetIsProduct(cfg, rounds - 1);
      var n := 2 * |cfg.parts| + 4;
      assert rounds * n == (rounds - 1) * n + n;
    }
  }

  lemma {:induction false} RunsAreComplete(cfg: Config, run: seq<System>, acts: seq<Action>, k: nat)
    requires RunOk(cfg) && |cfg.parts| <= 99 && IsRun(cfg, run, acts) && k <= |acts|
    ensures Complete(cfg, run[k])
  {
    hide Sound, Step, NothingLost;
    if k > 0 {
      RunsAreComplete(cfg, run, acts, k - 1);
      RunsAreSound(cfg, run, acts, k - 1);
      StepKeepsComplete(cfg, run[k - 1], acts[k - 1], run[k]);
    }
  }

  /**
   DoneCh is closed at most once, and when it is, no round message is left in any mailbox.  As long as it is open
   and no update of the round has been lost, some actor can act.
   */
  lemma RunsDoNotStall(cfg: Config, run: seq<System>, acts: seq<Action>, k: nat)
    requires RunOk(cfg) && IsRun(cfg, run, acts) && k <= |acts| && run[k].told
    ensures run[k].st.coord.closed <= 1
    ensures run[k].st.coord.closed == 1 ==> forall p | Exists(run[k].st, p) :: Proper(Queue(run[k].st, p)) == []
    ensures run[k].st.coord.closed == 0 && Complete(cfg, run[k]) ==> exists r :: CanDeliver(cfg, run[k].st, r)
  {
    var s := run[k].st;
    RunsAreSound(cfg, run, acts, k);
    hide Core, Inv, CanDeliver, Proper, Mail, NothingLost;
    MailUntilDone(cfg, Core(s));
    CoreActors(s);
    if s.coord.closed == 1 {
      forall p | Exists(s, p) ensures Proper(Queue(s, p)) == [] {
        QueueOfCore(s, p);
        NoMailThere(Core(s), p);
      }
    } else if Complete(cfg, run[k]) {
      var r :| Mail(Core(s), r);
      MailIsDeliverable(cfg, Core(s), r);
      AlsoDeliverable(cfg, s, r);
    }
  }

  lemma CoreActors(s: State)
    ensures Core(s).coord == s.coord && Core(s).agg == s.agg && Core(s).mon == s.mon && Core(s).history == s.history
    ensures |Core(s).toClient| == |s.toClient|
  {}

  lemma NoMailThere(s: State, p: Ref)
    requires Exists(s, p)
    ensures Mail(s, p) <==> Queue(s, p) != []
  {}

  /** Where the protocol has mail, the first message of the real mailbox, lifecycle or not, can be handled. */
  lemma AlsoDeliverable(cfg: Config, s: State, r: Ref)
    requires CanDeliver(cfg, Core(s), r) && RunOk(cfg) && Inv(cfg, Core(s)) && |s.toClient| == |cfg.parts|
    ensures CanDeliver(cfg, s, r)
  {
    HasMail(cfg, Core(s), r);
    QueueOfCore(s, r);
    ProperShorter(Queue(s, r));
    ProperHead(Queue(s, r));
    MonitorShape(cfg, Core(s));
    HeadAccepted(cfg, s, r);
  }

  lemma HeadAccepted(cfg: Config, s: State, r: Ref)
    requires CanDeliver(cfg, Core(s), r) && ConfigOk(cfg) && |s.toClient| == |cfg.parts|
    requires Exists(s, r) && |Queue(s, r)| > 0
    requires Noise(Queue(s, r)[0]) || (|Proper(Queue(s, r))| > 0 && Proper(Queue(s, r))[0] == Queue(s, r)[0])
    requires s.mon.model.Some? ==> |s.mon.model.value.w| == cfg.features
    ensures CanDeliver(cfg, s, r)
  {
    hide Proper, Averageable, Collected;
  }

  lemma MonitorShape(cfg: Config, s: State)
    requires RunOk(cfg) && Inv(cfg, s)
    ensures s.mon.model.Some? ==> |s.mon.model.value.w| == cfg.features
  {}

  /** All rounds but the last had a root mean squared error of at least the threshold, an early last one had less. */
  ghost predicate StopsByThreshold(cfg: Config, log: seq<Metric>) {
    (forall k | 0 <= k < |log| - 1 :: RootAtLeast(log[k].mse, cfg.threshold)) &&
    (|log| < cfg.totalRounds ==> |log| > 0 && RootBelow(log[|log| - 1].mse, cfg.threshold))
  }

  lemma RootsDecide(cfg: Config, log: seq<Metric>)
    ensures NotYetConverged(cfg, log, |log|) &&
            (|log| >= cfg.totalRounds || (|log| > 0 && Converged(log[|log| - 1].mse, cfg.threshold))) ==>
              StopsByThreshold(cfg, log)
  {
    hide Converged, RootBelow, RootAtLeast;
    forall k | 0 <= k < |log|
      ensures if Converged(log[k].mse, cfg.threshold) then RootBelow(log[k].mse, cfg.threshold)
              else RootAtLeast(log[k].mse, cfg.threshold)
    {
      ConvergenceIsAboutRoots(log[k].mse, cfg.threshold);
    }
  }

  /** What the rounds of a run have computed, at any moment after the start. */
  lemma RunsComputeTheRounds(cfg: Config, run: seq<System>, acts: seq<Action>, k: nat)
    requires RunOk(cfg) && IsRun(cfg, run, acts) && k <= |acts| && run[k].told
    ensures var s := run[k].st;
            && HistoryOk(cfg, s.history) && LogOk(cfg, s.mon.log, s.history)
            && (s.coord.closed == 1 ==>
                  && |s.history| == |s.mon.log| == s.coord.round
                  && s.coord.model == GlobalModel(cfg, s.coord.round)
                  && NotYetConverged(cfg, s.mon.log, s.coord.round)
                  && (s.coord.round > 0 ==> s.coord.round <= cfg.totalRounds)
                  && (s.coord.round >= cfg.totalRounds ||
                      (s.coord.round > 0 && Converged(s.mon.log[s.coord.round - 1].mse, cfg.threshold)))
                  && StopsByThreshold(cfg, s.mon.log))
  {
    var s := run[k].st;
    RunsAreSound(cfg, run, acts, k);
    CoreActors(s);
    if s.coord.closed == 1 {
      RootsDecide(cfg, s.mon.log);
    }
    hide Core, GlobalModel, Updates, MSEOf, AverageLoss, HistoryOk, LogOk, CollectInv, ClientsIdle;
  }
}
