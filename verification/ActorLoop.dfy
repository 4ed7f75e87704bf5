/**
 The life of one actor: the bounded mailbox, the start / loop / restart / stop machine around it, and the supervisor
 that decides what follows a panic.

 Everybody else may put messages in the mailbox, or ask the actor to stop, between any two steps.  What the actor's
 own code does with a message, returning or panicking, is the environment's choice too.
 */
module ActorLoop {
  import opened Supervision

  const CAPACITY: nat := 100

  datatype Message<P> =
    | Started
    | Restarting(reason: string)
    | Stopping
    | ForceRestart
    | ActorFailed(id: string, reason: string)
    | Other(payload: P)

  datatype Guard = Unsupervised | Supervised(strategy: Strategy)

  datatype Config = Config(id: string, guard: Guard, hasParent: bool)

  /**
   Where `runActor` is.  `Pausing` is the delay before a restart, `Closing` between sending itself Stopping and
   closing the mailbox, `Crashed` a panic nothing recovers, `Returned` an end without a stop request.
   */
  datatype Pc<P> =
    | Starting | Looping | Handling(msg: Message<P>) | Pausing | Closing | Draining | Stopped | Returned | Crashed

  datatype State<P> = State(
    pc: Pc<P>, buffer: seq<Message<P>>, closed: bool, stopRequested: bool, watch: Watch,
    starts: nat, preRestarts: nat, stops: nat,
    accepted: seq<Message<P>>, consumed: seq<Message<P>>, told: seq<Message<P>>)

  /** `listed` says whether the parent's cell is found with this actor among its children. */
  datatype Action<P> =
    | Tell(msg: Message<P>)
    | RequestStop
    | Start
    | Receive
    | Succeed
    | Fail(error: string, now: Time)
    | Wake(listed: bool)
    | StopSignal
    | CloseMailbox
    | DrainNext(ok: bool)

  /** About to start, with whatever record the supervisor has of the actor's id. */
  function Initial<P>(w: Watch): State<P> {
    State(Starting, [], false, false, w, 0, 0, 0, [], [], [])
  }

  /** `Enqueue` as its callers here use it, ignoring the error. */
  function Offer<P>(s: State<P>, m: Message<P>): State<P> {
    if s.closed || |s.buffer| >= CAPACITY then s
    else s.(buffer := s.buffer + [m], accepted := s.accepted + [m])
  }

  function TakeOne<P>(s: State<P>): State<P>
    requires |s.buffer| > 0
  {
    s.(buffer := s.buffer[1..], consumed := s.consumed + [s.buffer[0]])
  }

  predicate Enabled<P>(s: State<P>, a: Action<P>) {
    match a
    case Tell(_) => true
    case RequestStop => true
    case Start => s.pc.Starting?
    case Receive => s.pc.Looping? && (|s.buffer| > 0 || s.closed)
    case Succeed => s.pc.Handling?
    case Fail(_, _) => s.pc.Handling?
    case Wake(_) => s.pc.Pausing?
    case StopSignal => s.pc.Looping? && s.stopRequested
    case CloseMailbox => s.pc.Closing?
    case DrainNext(_) => s.pc.Draining?
  }

  function Next<P(==)>(c: Config, s: State<P>, a: Action<P>): State<P>
    requires Enabled(s, a)
  {
    match a
    case Tell(m) => Offer(s, m)
    case RequestStop => s.(stopRequested := true)
    case Start => Offer(s.(pc := Looping, starts := s.starts + 1), Started)
    case Receive =>
      if |s.buffer| == 0 then s.(pc := Returned)
      else TakeOne(s).(pc := if s.buffer[0] == ForceRestart then Starting else Handling(s.buffer[0]))
    case Succeed => s.(pc := Looping)
    case Fail(error, now) => Failed(c, s, error, now)
    case Wake(listed) =>
      if Siblings(c, listed) then Offer(s.(pc := Starting), ForceRestart) else s.(pc := Starting)
    case StopSignal => Offer(s, Stopping).(pc := Closing)
    case CloseMailbox => s.(closed := true, pc := Draining)
    case DrainNext(ok) =>
      if |s.buffer| == 0 then s.(pc := Stopped, stops := s.stops + 1)
      else TakeOne(s).(pc := if ok then Draining else Crashed)
  }

  /** A one-for-all restart sends forceRestart to all of the parent's children, this actor among them. */
  predicate Siblings(c: Config, listed: bool) {
    c.guard.Supervised? && c.guard.strategy.kind.OneForAll? && c.hasParent && listed
  }

  function Failed<P(==)>(c: Config, s: State<P>, error: string, now: Time): State<P> {
    if c.guard.Unsupervised? then s.(pc := Returned)
    else
      var f := Failure(now, error);
      var t := s.(watch := Watched(c.guard.strategy, s.watch, f));
      match Verdict(c.guard.strategy, s.watch.stamps, f).0
      case Resume => t.(pc := Looping)
      case Restart => Offer(t.(pc := Pausing, preRestarts := s.preRestarts + 1), Restarting(error))
      case Stop => t.(pc := Returned)
      case Escalate => t.(pc := Returned, told := if c.hasParent then s.told + [ActorFailed(c.id, error)] else s.told)
  }

  ghost predicate IsRun<P>(c: Config, run: seq<State<P>>, acts: seq<Action<P>>) {
    |run| == |acts| + 1 && run[0] == Initial(run[0].watch) &&
    forall i | 0 <= i < |acts| :: Enabled(run[i], acts[i]) && run[i + 1] == Next(c, run[i], acts[i])
  }

  // ---------- what every run keeps ----------

  /** The mailbox's channel is a queue of accepted messages, read from the front. */
  ghost predicate Fifo<P>(s: State<P>) {
    s.accepted == s.consumed + s.buffer && |s.buffer| <= CAPACITY
  }

  ghost predicate PhaseOk<P>(c: Config, s: State<P>) {
    (s.closed <==> s.pc.Draining? || s.pc.Stopped? || s.pc.Crashed?) &&
    (s.pc.Stopped? ==> s.buffer == []) && s.stops == (if s.pc.Stopped? then 1 else 0) &&
    (s.closed || s.pc.Closing? ==> s.stopRequested) &&
    (if s.told == [] then true else |s.told| == 1 && s.pc.Returned? && c.hasParent)
  }

  lemma OfferKeepsFifo<P>(s: State<P>, m: Message<P>)
    requires Fifo(s)
    ensures Fifo(Offer(s, m))
  {
    assert s.consumed + (s.buffer + [m]) == (s.consumed + s.buffer) + [m];
  }

  lemma TakeKeepsFifo<P>(s: State<P>)
    requires Fifo(s) && |s.buffer| > 0
    ensures Fifo(TakeOne(s))
  {
    assert (s.consumed + [s.buffer[0]]) + s.buffer[1..] == s.consumed + s.buffer;
  }

  lemma FailedKeepsFifo<P>(c: Config, s: State<P>, error: string, now: Time)
    requires Fifo(s)
    ensures Fifo(Failed(c, s, error, now))
  {
    forall t: State<P>, m | Fifo(t) ensures Fifo(Offer(t, m)) {
      OfferKeepsFifo(t, m);
    }
    hide Offer, Watched, Verdict;
  }

  lemma StepKeepsFifo<P>(c: Config, s: State<P>, a: Action<P>)
    requires Fifo(s) && Enabled(s, a)
    ensures Fifo(Next(c, s, a))
  {
    if |s.buffer| > 0 {
      TakeKeepsFifo(s);
    }
    if a.Fail? {
      FailedKeepsFifo(c, s, a.error, a.now);
    }
    OfferKeepsFifo(s.(pc := Looping, starts := s.starts + 1), Started);
    OfferKeepsFifo(s.(pc := Starting), ForceRestart);
    OfferKeepsFifo(s, Stopping);
    if a.Tell? {
      OfferKeepsFifo(s, a.msg);
    }
    hide Offer, TakeOne, Failed;
  }

  lemma StepKeepsPhase<P>(c: Config, s: State<P>, a: Action<P>)
    requires PhaseOk(c, s) && Enabled(s, a)
    ensures PhaseOk(c, Next(c, s, a))
  {
    hide Watched, Verdict;
  }

  /**
   At every point of every run what was accepted is what was consumed followed by what is buffered, so no resume,
   restart or forced restart skips, repeats or reorders a message; the loop never reads from a closed channel;
   a graceful stop has consumed everything and calls OnStop once, nothing else does; and the parent is told of at
   most one failure, the last thing to happen.
   */
  lemma {:induction false} DeliverySurvivesRestarts<P>(c: Config, run: seq<State<P>>, acts: seq<Action<P>>, k: nat)
    requires IsRun(c, run, acts) && k <= |acts|
    ensures Fifo(run[k]) && PhaseOk(c, run[k])
    ensures run[k].pc.Looping? ==> !run[k].closed
    ensures run[k].pc.Stopped? ==> run[k].consumed == run[k].accepted
    ensures run[k].stops == if run[k].pc.Stopped? then 1 else 0
  {
    if k > 0 {
      DeliverySurvivesRestarts(c, run, acts, k - 1);
      StepKeepsFifo(c, run[k - 1], acts[k - 1]);
      StepKeepsPhase(c, run[k - 1], acts[k - 1]);
      hide Next;
    }
  }

  // ---------- why an actor starts, and how often ----------

  /** This step sends the actor back to its start phase. */
  ghost predicate Restarts<P>(c: Config, s: State<P>, a: Action<P>) {
    RestartVerdict(c, s, a) || (a.Receive? && |s.buffer| > 0 && s.buffer[0] == ForceRestart)
  }

  ghost predicate RestartVerdict<P>(c: Config, s: State<P>, a: Action<P>) {
    a.Fail? && c.guard.Supervised? &&
    Verdict(c.guard.strategy, s.watch.stamps, Failure(a.now, a.error)).0 == Restart
  }

  ghost function RestartCount<P>(c: Config, run: seq<State<P>>, acts: seq<Action<P>>, k: nat): nat
    requires k <= |acts| && k <= |run|
  {
    if k == 0 then 0
    else RestartCount(c, run, acts, k - 1) + if Restarts(c, run[k - 1], acts[k - 1]) then 1 else 0
  }

  ghost function StartsDue<P>(s: State<P>): nat {
    s.starts + if s.pc.Starting? || s.pc.Pausing? then 1 else 0
  }

  lemma StepExplainsStarts<P>(c: Config, s: State<P>, a: Action<P>)
    requires Enabled(s, a)
    ensures StartsDue(Next(c, s, a)) == StartsDue(s) + if Restarts(c, s, a) then 1 else 0
  {
    hide Watched, Verdict;
  }

  /** Every start but the first answers one Restart verdict or one forceRestart message, and none goes unanswered. */
  lemma {:induction false} StartsAreExplained<P>(c: Config, run: seq<State<P>>, acts: seq<Action<P>>, k: nat)
    requires IsRun(c, run, acts) && k <= |acts|
    ensures StartsDue(run[k]) == 1 + RestartCount(c, run, acts, k)
  {
    if k > 0 {
      StartsAreExplained(c, run, acts, k - 1);
      StepExplainsStarts(c, run[k - 1], acts[k - 1]);
      hide Next, Restarts;
    }
  }

  /** When the Restart verdicts fell, over the actor's whole life. */
  ghost function RestartTimes<P>(c: Config, run: seq<State<P>>, acts: seq<Action<P>>, k: nat): seq<Time>
    requires k <= |acts| && k <= |run|
  {
    if k == 0 then []
    else
      RestartTimes(c, run, acts, k - 1) +
      if RestartVerdict(c, run[k - 1], acts[k - 1]) then [acts[k - 1].now] else []
  }

  ghost predicate FailuresBy<P>(acts: seq<Action<P>>, k: nat, now: Time)
    requires k <= |acts|
  {
    forall i | 0 <= i < k && acts[i].Fail? :: acts[i].now <= now
  }

  /** The clock does not run backwards. */
  ghost predicate ClockAdvances<P>(acts: seq<Action<P>>) {
    forall k | 0 <= k < |acts| && acts[k].Fail? :: FailuresBy(acts, k, acts[k].now)
  }

  lemma StepWatches<P>(c: Config, s: State<P>, a: Action<P>)
    requires Enabled(s, a) && c.guard.Supervised?
    ensures Next(c, s, a).watch ==
              if a.Fail? then Watched(c.guard.strategy, s.watch, Failure(a.now, a.error)) else s.watch
  {
    hide Watched, Verdict;
  }

  lemma StepRecordsRestart<P>(c: Config, s: State<P>, a: Action<P>)
    requires Enabled(s, a) && c.guard.Supervised?
    ensures Next(c, s, a).preRestarts == s.preRestarts + if RestartVerdict(c, s, a) then 1 else 0
    ensures !Next(c, s, a).pc.Returned? && !s.pc.Returned? ==>
              Next(c, s, a).watch.restarts == s.watch.restarts + if RestartVerdict(c, s, a) then [a.now] else []
    ensures s.pc.Returned? || Next(c, s, a).pc.Returned? ==> !RestartVerdict(c, s, a)
    ensures s.pc.Returned? ==> Next(c, s, a).pc.Returned?
  {
    hide Stamps, Recorded;
  }

  /** OnPreRestart is called once for every Restart verdict, and the record keeps them until the actor gives up. */
  lemma {:induction false} LifeIsRecorded<P>(c: Config, run: seq<State<P>>, acts: seq<Action<P>>, k: nat)
    requires IsRun(c, run, acts) && k <= |acts| && c.guard.Supervised?
    ensures run[k].preRestarts == |RestartTimes(c, run, acts, k)|
    ensures !run[k].pc.Returned? ==>
              run[k].watch.restarts == run[0].watch.restarts + RestartTimes(c, run, acts, k)
  {
    if k > 0 {
      LifeIsRecorded(c, run, acts, k - 1);
      StepRecordsRestart(c, run[k - 1], acts[k - 1]);
      hide Next, RestartVerdict;
    }
  }

  /** The supervisor's record was in order when the actor started, and no failure came before that. */
  ghost predicate RecordInOrder<P>(c: Config, run: seq<State<P>>, acts: seq<Action<P>>, start: Time)
    requires IsRun(c, run, acts) && c.guard.Supervised?
  {
    WatchOk(c.guard.strategy, run[0].watch, start) &&
    forall i | 0 <= i < |acts| && acts[i].Fail? :: acts[i].now >= start
  }

  lemma {:induction false} WatchAlongRun<P>(c: Config, run: seq<State<P>>, acts: seq<Action<P>>, k: nat,
                                            start: Time, now: Time)
    requires IsRun(c, run, acts) && k <= |acts| && c.guard.Supervised? && RecordInOrder(c, run, acts, start)
    requires ClockAdvances(acts) && FailuresBy(acts, k, now) && start <= now
    ensures WatchOk(c.guard.strategy, run[k].watch, now)
  {
    if k == 0 {
      WatchOkLater(c.guard.strategy, run[0].watch, start, now);
    } else {
      var a := acts[k - 1];
      var before := if a.Fail? then a.now else now;
      WatchAlongRun(c, run, acts, k - 1, start, before);
      StepWatches(c, run[k - 1], a);
      if a.Fail? {
        var f := Failure(a.now, a.error);
        WatchedStaysOk(c.guard.strategy, run[k - 1].watch, f, before);
        WatchOkLater(c.guard.strategy, Watched(c.guard.strategy, run[k - 1].watch, f), before, now);
      }
      hide Next, WatchOk, Watched;
    }
  }

  lemma WatchOkLater(s: Strategy, w: Watch, now: Time, later: Time)
    requires WatchOk(s, w, now) && now <= later
    ensures WatchOk(s, w, later)
  {}

  lemma {:induction false} LastFailure<P>(acts: seq<Action<P>>, k: nat, start: Time) returns (now: Time)
    requires k <= |acts|
    ensures FailuresBy(acts, k, now) && start <= now
  {
    now := start;
    if k > 0 {
      now := LastFailure(acts, k - 1, start);
      if acts[k - 1].Fail? && acts[k - 1].now > now {
        now := acts[k - 1].now;
      }
    }
  }

  /** In its whole life a supervised actor is never restarted by verdict more than MaxRestarts times in one window. */
  lemma {:induction false} RestartBudgetOverLife<P>(c: Config, run: seq<State<P>>, acts: seq<Action<P>>, k: nat,
                                                    start: Time, t: Time)
    requires IsRun(c, run, acts) && k <= |acts| && c.guard.Supervised? && ClockAdvances(acts)
    requires RecordInOrder(c, run, acts, start) && c.guard.strategy.within > 0
    ensures CountIn(RestartTimes(c, run, acts, k), t - c.guard.strategy.within, t) <= Budget(c.guard.strategy)
  {
    hide RestartVerdict, Next;
    if !run[k].pc.Returned? {
      LifeIsRecorded(c, run, acts, k);
      var now := LastFailure(acts, k, start);
      WatchAlongRun(c, run, acts, k, start, now);
      BudgetHoldsEverywhere(c.guard.strategy, run[k].watch.restarts, t);
      CountSplits(run[0].watch.restarts, RestartTimes(c, run, acts, k), t - c.guard.strategy.within, t);
    } else if k > 0 {
      StepRecordsRestart(c, run[k - 1], acts[k - 1]);
      RestartBudgetOverLife(c, run, acts, k - 1, start, t);
      assert RestartTimes(c, run, acts, k) == RestartTimes(c, run, acts, k - 1);
    }
  }

  // ---------- what an actor tells itself ----------

  predicate Lifecycle<P>(m: Message<P>) {
    m.Started? || m.Restarting? || m.Stopping? || m.ForceRestart?
  }

  /** Nobody else sends lifecycle messages, and none of the actor's own meets a full mailbox. */
  ghost predicate OwnLifecycle<P>(run: seq<State<P>>, acts: seq<Action<P>>, k: nat)
    requires k <= |acts| && k <= |run|
  {
    forall i | 0 <= i < k ::
      (acts[i].Tell? ==> !Lifecycle(acts[i].msg)) &&
      (acts[i].Start? || acts[i].Fail? || acts[i].Wake? || acts[i].StopSignal? ==> |run[i].buffer| < CAPACITY)
  }

  /** The reasons of the Restarting messages, in order. */
  ghost function Reasons<P>(msgs: seq<Message<P>>): seq<string>
  {
    if |msgs| == 0 then []
    else
      var last := msgs[|msgs| - 1];
      Reasons(msgs[..|msgs| - 1]) + if last.Restarting? then [last.reason] else []
  }

  /** The errors of the failures that got the Restart verdict, in order. */
  ghost function RestartErrors<P>(c: Config, run: seq<State<P>>, acts: seq<Action<P>>, k: nat): seq<string>
    requires k <= |acts| && k <= |run|
  {
    if k == 0 then []
    else
      RestartErrors(c, run, acts, k - 1) +
      if RestartVerdict(c, run[k - 1], acts[k - 1]) then [acts[k - 1].error] else []
  }

  /** How often a one-for-all restart found the actor among its parent's children. */
  ghost function WakesForAll<P>(c: Config, acts: seq<Action<P>>, k: nat): nat
    requires k <= |acts|
  {
    if k == 0 then 0
    else
      WakesForAll(c, acts, k - 1) +
      if acts[k - 1].Wake? && acts[k - 1].listed && c.hasParent && c.guard.Supervised? &&
         c.guard.strategy.kind.OneForAll? then 1 else 0
  }

  /** Between Stopping and the end of the stop. */
  predicate StopBegun<P>(pc: Pc<P>) {
    pc.Closing? || pc.Draining? || pc.Stopped? || pc.Crashed?
  }

  /** What a mailbox's history holds for so many starts and one-for-all restarts, these errors, and a stop or none. */
  ghost predicate HasSelfTold<P>(msgs: seq<Message<P>>, starts: nat, stop: bool, wakes: nat, errors: seq<string>) {
    multiset(msgs)[Started] == starts && multiset(msgs)[Stopping] == (if stop then 1 else 0) &&
    multiset(msgs)[ForceRestart] == wakes && Reasons(msgs) == errors
  }

  ghost predicate SelfTold<P>(s: State<P>, errors: seq<string>, wakes: nat) {
    HasSelfTold(s.accepted, s.starts, StopBegun(s.pc), wakes, errors)
  }

  lemma OneMoreMessage<P>(msgs: seq<Message<P>>, m: Message<P>)
    ensures multiset(msgs + [m]) == multiset(msgs) + multiset{m}
    ensures Reasons(msgs + [m]) == Reasons(msgs) + if m.Restarting? then [m.reason] else []
  {
    assert (msgs + [m])[..|msgs|] == msgs;
  }

  lemma StepSelfTells<P>(c: Config, s: State<P>, a: Action<P>, errors: seq<string>, wakes: nat)
    requires SelfTold(s, errors, wakes) && PhaseOk(c, s) && Enabled(s, a)
    requires a.Tell? ==> !Lifecycle(a.msg)
    requires a.Start? || a.Fail? || a.Wake? || a.StopSignal? ==> |s.buffer| < CAPACITY
    ensures SelfTold(Next(c, s, a), errors + (if RestartVerdict(c, s, a) then [a.error] else []),
                     wakes + if a.Wake? && a.listed && c.hasParent && c.guard.Supervised? &&
                                c.guard.strategy.kind.OneForAll? then 1 else 0)
  {
    StepAppends(c, s, a);
    StepBegins(c, s, a);
    var t := Next(c, s, a);
    hide Next, RestartVerdict, PhaseOk, HasSelfTold;
    if t.accepted != s.accepted {
      var m := t.accepted[|s.accepted|];
      assert t.accepted == s.accepted + [m];
      OneMoreSelfTold(s.accepted, m, s.starts, StopBegun(s.pc), wakes, errors);
    }
    assert errors + [] == errors;
  }

  lemma OneMoreSelfTold<P>(msgs: seq<Message<P>>, m: Message<P>, starts: nat, stop: bool, wakes: nat,
                           errors: seq<string>)
    requires HasSelfTold(msgs, starts, stop, wakes, errors) && (m == Stopping ==> !stop)
    ensures HasSelfTold(msgs + [m], starts + (if m == Started then 1 else 0), stop || m == Stopping,
                        wakes + (if m == ForceRestart then 1 else 0),
                        errors + if m.Restarting? then [m.reason] else [])
  {
    hide Reasons;
    OneMoreMessage(msgs, m);
  }

  /** What each step adds to the mailbox's history. */
  lemma StepAppends<P>(c: Config, s: State<P>, a: Action<P>)
    requires Enabled(s, a) && PhaseOk(c, s)
    requires a.Start? || a.Fail? || a.Wake? || a.StopSignal? ==> |s.buffer| < CAPACITY
    ensures var now, was := Next(c, s, a).accepted, s.accepted;
            match a
            case Tell(m) => now == was || now == was + [m]
            case Start => now == was + [Started]
            case StopSignal => now == was + [Stopping]
            case Fail(error, _) => now == if RestartVerdict(c, s, a) then was + [Restarting(error)] else was
            case Wake(listed) =>
              now == if listed && c.hasParent && c.guard.Supervised? && c.guard.strategy.kind.OneForAll?
                     then was + [ForceRestart] else was
            case _ => now == was
  {
    hide Watched, Verdict;
  }

  lemma StepBegins<P>(c: Config, s: State<P>, a: Action<P>)
    requires Enabled(s, a)
    ensures Next(c, s, a).starts == s.starts + if a.Start? then 1 else 0
    ensures StopBegun(Next(c, s, a).pc) == (StopBegun(s.pc) || a.StopSignal?) && (a.StopSignal? ==> !StopBegun(s.pc))
  {
    hide Watched, Verdict;
  }

  /**
   The actor is sent Started once for every start, Restarting once for every Restart verdict, with that failure's
   error and in that order, forceRestart once for every one-for-all restart that lists it, and Stopping exactly once,
   when it begins to stop.
   */
  lemma LifecycleMessagesMatch<P>(c: Config, run: seq<State<P>>, acts: seq<Action<P>>, k: nat)
    requires IsRun(c, run, acts) && k <= |acts| && OwnLifecycle(run, acts, k)
    ensures multiset(run[k].accepted)[Started] == run[k].starts
    ensures Reasons(run[k].accepted) == RestartErrors(c, run, acts, k)
    ensures multiset(run[k].accepted)[Stopping] == if StopBegun(run[k].pc) then 1 else 0
    ensures multiset(run[k].accepted)[ForceRestart] == WakesForAll(c, acts, k)
  {
    SelfToldAlong(c, run, acts, k);
  }

  lemma {:induction false} SelfToldAlong<P>(c: Config, run: seq<State<P>>, acts: seq<Action<P>>, k: nat)
    requires IsRun(c, run, acts) && k <= |acts| && OwnLifecycle(run, acts, k)
    ensures SelfTold(run[k], RestartErrors(c, run, acts, k), WakesForAll(c, acts, k))
  {
    if k > 0 {
      SelfToldAlong(c, run, acts, k - 1);
      DeliverySurvivesRestarts(c, run, acts, k - 1);
      StepSelfTells(c, run[k - 1], acts[k - 1], RestartErrors(c, run, acts, k - 1), WakesForAll(c, acts, k - 1));
      hide Next, SelfTold, PhaseOk, Fifo, RestartVerdict;
    }
  }

  /** This failure is escalated: by the decider itself, or because the budget is spent. */
  ghost predicate Escalates<P>(c: Config, s: State<P>, a: Action<P>) {
    a.Fail? && c.guard.Supervised? &&
    Verdict(c.guard.strategy, s.watch.stamps, Failure(a.now, a.error)).0 == Escalate
  }

  /** What the parent is told, if anything, is an escalated failure's own error, and it is told of each of those. */
  lemma {:induction false} ParentHearsTheError<P>(c: Config, run: seq<State<P>>, acts: seq<Action<P>>, k: nat)
    requires IsRun(c, run, acts) && k <= |acts|
    ensures run[k].told != [] ==>
              exists j | 0 <= j < k ::
                Escalates(c, run[j], acts[j]) && run[k].told == [ActorFailed(c.id, acts[j].error)]
    ensures forall j | 0 <= j < k && Escalates(c, run[j], acts[j]) ::
              run[k].told == if c.hasParent then [ActorFailed(c.id, acts[j].error)] else []
  {
    if k > 0 {
      ParentHearsTheError(c, run, acts, k - 1);
      DeliverySurvivesRestarts(c, run, acts, k - 1);
      StepTellsParent(c, run[k - 1], acts[k - 1]);
      forall j | 0 <= j < k - 1 && Escalates(c, run[j], acts[j]) ensures run[k - 1].pc.Returned? {
        EscalationEnds(c, run, acts, j, k - 1);
      }
      hide Next, Escalates, PhaseOk, Fifo;
    }
  }

  lemma StepTellsParent<P>(c: Config, s: State<P>, a: Action<P>)
    requires Enabled(s, a)
    ensures Next(c, s, a).told ==
              s.told + if Escalates(c, s, a) && c.hasParent then [ActorFailed(c.id, a.error)] else []
    ensures Escalates(c, s, a) ==> !s.pc.Returned?
    ensures Escalates(c, s, a) || s.pc.Returned? ==> Next(c, s, a).pc.Returned?
  {
    hide Watched, Verdict;
  }

  lemma {:induction false} EscalationEnds<P>(c: Config, run: seq<State<P>>, acts: seq<Action<P>>, j: nat, k: nat)
    requires IsRun(c, run, acts) && j < k <= |acts| && Escalates(c, run[j], acts[j])
    ensures run[k].pc.Returned?
  {
    StepTellsParent(c, run[k - 1], acts[k - 1]);
    if j < k - 1 {
      EscalationEnds(c, run, acts, j, k - 1);
    }
  }

  // ---------- an actor that always fails ----------

  function Budget(s: Strategy): nat {
    if s.maxRestarts < 0 then 0 else s.maxRestarts
  }

  /** Nobody asks it to stop or to restart, every message makes it panic, and all that happens inside one window. */
  ghost predicate AlwaysFails<P>(c: Config, a: Action<P>, end: Time)
    requires c.guard.Supervised?
  {
    match a
    case Tell(m) => m != ForceRestart
    case Start => true
    case Receive => true
    case Wake(_) => true
    case Fail(_, now) => end - c.guard.strategy.within < now <= end
    case _ => false
  }

  /** The default decider under a strategy that restarts only the child that failed. */
  ghost predicate RestartsOneself(c: Config) {
    c.guard.Supervised? && !c.guard.strategy.kind.OneForAll? &&
    forall e :: c.guard.strategy.decide(e) == DefaultDecider(e)
  }

  ghost predicate AllAfter(stamps: seq<Time>, lo: Time) {
    forall i | 0 <= i < |stamps| :: stamps[i] > lo
  }

  /** One failure per completed start, all still in the record, none of them reported yet. */
  ghost predicate StillTrying<P>(c: Config, s: State<P>, end: Time)
    requires c.guard.Supervised?
  {
    s.told == [] && |s.watch.stamps| <= Budget(c.guard.strategy) &&
    AllAfter(s.watch.stamps, end - c.guard.strategy.within) &&
    s.starts == |s.watch.stamps| + if s.pc.Starting? || s.pc.Pausing? then 0 else 1
  }

  ghost predicate GaveUp<P>(c: Config, s: State<P>)
    requires c.guard.Supervised?
  {
    s.starts == Budget(c.guard.strategy) + 1 &&
    if c.hasParent then exists error :: s.told == [ActorFailed(c.id, error)] else s.told == []
  }

  ghost predicate Failing<P>(c: Config, s: State<P>, end: Time)
    requires c.guard.Supervised?
  {
    !s.closed && !s.stopRequested && (forall i | 0 <= i < |s.buffer| :: s.buffer[i] != ForceRestart) &&
    match s.pc
    case Starting => StillTrying(c, s, end)
    case Looping => StillTrying(c, s, end) && s.buffer != []
    case Handling(_) => StillTrying(c, s, end)
    case Pausing => StillTrying(c, s, end)
    case Returned => GaveUp(c, s)
    case _ => false
  }

  lemma NothingPruned(stamps: seq<Time>, within: Time, now: Time, end: Time)
    requires AllAfter(stamps, end - within) && end - within < now <= end
    ensures Recorded(stamps, within, now) == stamps + [now] && AllAfter(stamps + [now], end - within)
  {}

  lemma FailureSpendsBudget<P>(c: Config, s: State<P>, a: Action<P>, end: Time)
    requires RestartsOneself(c) && Failing(c, s, end) && a.Fail? && Enabled(s, a) && AlwaysFails(c, a, end)
    ensures Failing(c, Next(c, s, a), end)
  {
    var st := c.guard.strategy;
    NothingPruned(s.watch.stamps, st.within, a.now, end);
    var t := Next(c, s, a);
    if |s.watch.stamps| + 1 > st.maxRestarts {
      assert t == s.(watch := t.watch, pc := Returned,
                     told := if c.hasParent then [ActorFailed(c.id, a.error)] else []);
    } else {
      assert t == Offer(s.(watch := t.watch, pc := Pausing, preRestarts := s.preRestarts + 1), Restarting(a.error));
      assert t.watch.stamps == s.watch.stamps + [a.now];
    }
    hide Recorded;
  }

  lemma FailingKeeps<P>(c: Config, s: State<P>, a: Action<P>, end: Time)
    requires RestartsOneself(c) && Failing(c, s, end) && Enabled(s, a) && AlwaysFails(c, a, end)
    ensures Failing(c, Next(c, s, a), end)
  {
    if a.Fail? {
      FailureSpendsBudget(c, s, a, end);
    } else {
      hide StillTrying, Watched, Verdict;
    }
  }

  ghost predicate IsFailingRun<P>(c: Config, run: seq<State<P>>, acts: seq<Action<P>>, end: Time) {
    RestartsOneself(c) && IsRun(c, run, acts) && run[0].watch.stamps == [] &&
    forall i | 0 <= i < |acts| :: AlwaysFails(c, acts[i], end)
  }

  lemma {:induction false} RunKeepsFailing<P>(c: Config, run: seq<State<P>>, acts: seq<Action<P>>, end: Time, k: nat)
    requires IsFailingRun(c, run, acts, end) && k <= |acts|
    ensures Failing(c, run[k], end)
  {
    if k > 0 {
      RunKeepsFailing(c, run, acts, end, k - 1);
      FailingKeeps(c, run[k - 1], acts[k - 1], end);
      hide Failing, Next, Enabled, AlwaysFails;
    }
  }

  /**
   However its steps mix with other senders' messages, an actor that always fails calls OnStart at most
   MaxRestarts + 1 times, and when it ends, exactly that often, with exactly one ActorFailed told to its parent.
   */
  lemma GivesUpAfterBudget<P>(c: Config, run: seq<State<P>>, acts: seq<Action<P>>, end: Time, k: nat)
    requires IsFailingRun(c, run, acts, end) && k <= |acts|
    ensures run[k].starts <= Budget(c.guard.strategy) + 1
    ensures if run[k].pc.Returned? then GaveUp(c, run[k]) else run[k].told == []
  {
    RunKeepsFailing(c, run, acts, end, k);
  }

  /** Until it has given up the actor always has a step to take: each start leaves a message in the mailbox. */
  lemma FailingNeverBlocks<P>(c: Config, run: seq<State<P>>, acts: seq<Action<P>>, end: Time, k: nat)
    requires IsFailingRun(c, run, acts, end) && k <= |acts| && c.guard.strategy.within > 0 && !run[k].pc.Returned?
    ensures exists a :: Own(a) && Enabled(run[k], a) && AlwaysFails(c, a, end)
  {
    RunKeepsFailing(c, run, acts, end, k);
    var a: Action<P> := match run[k].pc
      case Starting => Start
      case Looping => Receive
      case Pausing => Wake(false)
      case _ => Fail("", end);
    assert Own(a) && Enabled(run[k], a) && AlwaysFails(c, a, end);
  }

  predicate Own<P>(a: Action<P>) {
    !a.Tell? && !a.RequestStop?
  }

  function OwnSteps<P>(acts: seq<Action<P>>, k: nat): nat
    requires k <= |acts|
  {
    if k == 0 then 0 else OwnSteps(acts, k - 1) + if Own(acts[k - 1]) then 1 else 0
  }

  /** Steps left in the current cycle of start, receive, fail and wake; the last cycle is left without waking. */
  function LeftInCycle<P>(pc: Pc<P>): nat {
    match pc
    case Looping => 3
    case Handling(_) => 2
    case Pausing => 1
    case Returned => 1
    case _ => 0
  }

  lemma CycleStep<P>(c: Config, s: State<P>, a: Action<P>, end: Time)
    requires RestartsOneself(c) && Failing(c, s, end) && Enabled(s, a) && AlwaysFails(c, a, end)
    ensures var t := Next(c, s, a);
            4 * t.starts - LeftInCycle(t.pc) == 4 * s.starts - LeftInCycle(s.pc) + if Own(a) then 1 else 0
  {
    hide StillTrying, GaveUp, Watched;
  }

  /** It ends: of its own steps there are at most four for each start, and after the last of them it has given up. */
  lemma {:induction false} GivingUpTakesFewSteps<P>(c: Config, run: seq<State<P>>, acts: seq<Action<P>>, end: Time,
                                                    k: nat)
    requires IsFailingRun(c, run, acts, end) && k <= |acts|
    ensures OwnSteps(acts, k) == 4 * run[k].starts - LeftInCycle(run[k].pc)
    ensures OwnSteps(acts, k) <= 4 * Budget(c.guard.strategy) + 3
    ensures run[k].pc.Returned? <==> OwnSteps(acts, k) == 4 * Budget(c.guard.strategy) + 3
  {
    RunKeepsFailing(c, run, acts, end, k);
    if k > 0 {
      GivingUpTakesFewSteps(c, run, acts, end, k - 1);
      RunKeepsFailing(c, run, acts, end, k - 1);
      CycleStep(c, run[k - 1], acts[k - 1], end);
      hide Next, AlwaysFails;
    }
  }

  // ---------- deciders that never restart ----------

  lemma ResumeStep<P>(c: Config, s: State<P>, a: Action<P>)
    requires Enabled(s, a) && c.guard.Supervised? && (forall e :: c.guard.strategy.decide(e) == Resume)
    requires !s.pc.Returned? && s.told == [] && (s.pc.Looping? ==> !s.closed)
    ensures !Next(c, s, a).pc.Returned? && Next(c, s, a).told == []
  {}

  /** Under a decider that always resumes, an actor ends only by a stop, and starts anew only by force. */
  lemma {:induction false} ResumingActorCarriesOn<P>(c: Config, run: seq<State<P>>, acts: seq<Action<P>>, k: nat)
    requires IsRun(c, run, acts) && k <= |acts|
    requires c.guard.Supervised? && (forall e :: c.guard.strategy.decide(e) == Resume)
    requires forall i | 0 <= i < k && acts[i].Receive? :: |run[i].buffer| > 0 ==> run[i].buffer[0] != ForceRestart
    ensures !run[k].pc.Returned? && run[k].told == [] && run[k].starts <= 1
  {
    NoRestarts(c, run, acts, k);
    StartsAreExplained(c, run, acts, k);
    if k > 0 {
      ResumingActorCarriesOn(c, run, acts, k - 1);
      DeliverySurvivesRestarts(c, run, acts, k - 1);
      ResumeStep(c, run[k - 1], acts[k - 1]);
      hide Next, Fifo, PhaseOk;
    }
  }

  lemma {:induction false} NoRestarts<P>(c: Config, run: seq<State<P>>, acts: seq<Action<P>>, k: nat)
    requires IsRun(c, run, acts) && k <= |acts|
    requires c.guard.Supervised? && (forall e :: c.guard.strategy.decide(e) == Resume)
    requires forall i | 0 <= i < k && acts[i].Receive? :: |run[i].buffer| > 0 ==> run[i].buffer[0] != ForceRestart
    ensures RestartCount(c, run, acts, k) == 0
  {
    if k > 0 {
      NoRestarts(c, run, acts, k - 1);
      hide Next;
    }
  }

  /** Without a supervisor, or under one that always stops, the first panic is the end: no more is consumed or told. */
  lemma {:induction false} FirstPanicIsFinal<P>(c: Config, run: seq<State<P>>, acts: seq<Action<P>>, j: nat, k: nat)
    requires IsRun(c, run, acts) && j < k <= |acts| && acts[j].Fail?
    requires c.guard.Unsupervised? || forall e :: c.guard.strategy.decide(e) == Stop
    ensures run[k].pc.Returned? && run[k].told == []
    ensures run[k].starts == run[j].starts && run[k].consumed == run[j].consumed
  {
    if j == k - 1 {
      DeliverySurvivesRestarts(c, run, acts, j);
    } else {
      FirstPanicIsFinal(c, run, acts, j, k - 1);
    }
    var s, a := run[k - 1], acts[k - 1];
    assert run[k] == Next(c, s, a);
  }

  // ---------- the graceful stop ----------

  /** The stop branch after closing: dispatch what is left until a message panics or the channel is empty. */
  function Drained<P(==)>(c: Config, s: State<P>, panics: Message<P> -> bool): State<P>
    requires s.pc.Draining?
    decreases |s.buffer|
  {
    if |s.buffer| == 0 then Next(c, s, DrainNext(true))
    else
      var t := Next(c, s, DrainNext(!panics(s.buffer[0])));
      if t.pc.Draining? then Drained(c, t, panics) else t
  }

  /** The stop ends gracefully exactly when no message left behind panics, and then every one has been consumed. */
  lemma {:induction false} DrainConsumesAll<P>(c: Config, s: State<P>, panics: Message<P> -> bool)
    requires s.pc.Draining?
    ensures var t := Drained(c, s, panics);
            (t.pc.Stopped? <==> forall i | 0 <= i < |s.buffer| :: !panics(s.buffer[i])) &&
            (t.pc.Stopped? ==> t.buffer == [] && t.consumed == s.consumed + s.buffer)
    decreases |s.buffer|
  {
    if |s.buffer| > 0 && !panics(s.buffer[0]) {
      var t := Next(c, s, DrainNext(true));
      DrainConsumesAll(c, t, panics);
      assert t.consumed + t.buffer == s.consumed + s.buffer;
      assert s.buffer == [s.buffer[0]] + t.buffer;
    }
  }

  // ---------- the objects ----------

  datatype EnqueueResult = Accepted | ErrMailboxClosed | ErrMailboxFull

  class BoundedMailbox<P(==)> {
    const capacity: nat
    var ch: seq<Message<P>>
    var closed: bool
    ghost var accepted: seq<Message<P>>
    ghost var consumed: seq<Message<P>>

    constructor (capacity: nat)
      ensures this.capacity == capacity && ch == [] && !closed && accepted == [] && consumed == []
    {
      this.capacity := capacity;
      ch, closed := [], false;
      accepted, consumed := [], [];
    }

    method Enqueue(msg: Message<P>) returns (r: EnqueueResult)
      modifies this`ch, this`accepted
      ensures r == if closed then ErrMailboxClosed else if |old(ch)| >= capacity then ErrMailboxFull else Accepted
      ensures ch == if r == Accepted then old(ch) + [msg] else old(ch)
      ensures accepted == if r == Accepted then old(accepted) + [msg] else old(accepted)
    {
      if closed {
        return ErrMailboxClosed;
      }
      if |ch| >= capacity {
        return ErrMailboxFull;
      }
      ch := ch + [msg];
      accepted := accepted + [msg];
      return Accepted;
    }

    method Close()
      modifies this`closed
      ensures closed
    {
      if closed {
        return;
      }
      closed := true;
    }

    /** Receive from the channel when that does not block; `ok` is false once it is closed and empty. */
    method Take(empty: Message<P>) returns (msg: Message<P>, ok: bool)
      requires |ch| > 0 || closed
      modifies this`ch, this`consumed
      ensures ok == (|old(ch)| > 0)
      ensures if ok then msg == old(ch)[0] && ch == old(ch)[1..] && consumed == old(consumed) + [msg]
              else ch == old(ch) && consumed == old(consumed)
    {
      if |ch| == 0 {
        return empty, false;
      }
      msg, ok := ch[0], true;
      ch := ch[1..];
      consumed := consumed + [msg];
    }
  }

  class ActorCell<P(==)> {
    const id: string
    const hasParent: bool
    const supervisor: Supervisor?
    const mailbox: BoundedMailbox<P>
    var pc: Pc<P>
    var stopRequested: bool
    var told: seq<Message<P>>
    // How often the hooks OnStart, OnPreRestart and OnStop were called.
    var starts: nat
    var preRestarts: nat
    var stops: nat
    ghost var restarts: seq<Time>

    ghost predicate Valid() {
      mailbox.capacity == CAPACITY
    }

    ghost function Settings(): Config {
      Config(id, if supervisor == null then Unsupervised else Supervised(supervisor.strategy), hasParent)
    }

    ghost function Value(): State<P>
      reads this, mailbox, if supervisor == null then {} else {supervisor.tracker}
    {
      State(pc, mailbox.ch, mailbox.closed, stopRequested,
            Watch(if supervisor == null then [] else supervisor.tracker.StampsOf(id), restarts),
            starts, preRestarts, stops, mailbox.accepted, mailbox.consumed, told)
    }

    /** `past` are the restarts the supervisor's record of this id stems from. */
    constructor (id: string, hasParent: bool, supervisor: Supervisor?, ghost past: seq<Time>)
      ensures Valid() && this.id == id && this.hasParent == hasParent && this.supervisor == supervisor
      ensures fresh(mailbox)
      ensures Value() == Initial(Watch(if supervisor == null then [] else supervisor.tracker.StampsOf(id), past))
    {
      this.id, this.hasParent, this.supervisor := id, hasParent, supervisor;
      mailbox := new BoundedMailbox<P>(CAPACITY);
      pc, stopRequested, told := Starting, false, [];
      starts, preRestarts, stops := 0, 0, 0;
      restarts := past;
    }

    method Tell(msg: Message<P>)
      requires Valid()
      modifies mailbox
      ensures Value() == Next(Settings(), old(Value()), Action.Tell(msg))
    {
      var _ := mailbox.Enqueue(msg);
    }

    method RequestStop()
      modifies this`stopRequested
      ensures Value() == Next(Settings(), old(Value()), Action.RequestStop)
    {
      stopRequested := true;
    }

    method StartPhase()
      requires Valid() && pc.Starting?
      modifies this, mailbox
      ensures Value() == Next(Settings(), old(Value()), Start)
      ensures pc.Looping? && starts == old(starts) + 1
      ensures mailbox.ch == old(mailbox.ch) + if !mailbox.closed && |old(mailbox.ch)| < CAPACITY then [Started] else []
    {
      starts := starts + 1;
      var _ := mailbox.Enqueue(Started);
      pc := Looping;
    }

    /** The select statement taking its receive branch. */
    method ReceiveNext()
      requires Valid() && pc.Looping? && (|mailbox.ch| > 0 || mailbox.closed)
      modifies this, mailbox
      ensures Value() == Next(Settings(), old(Value()), Receive)
    {
      var msg, ok := mailbox.Take(Started);
      pc := if !ok then Returned else if msg == ForceRestart then Starting else Handling(msg);
    }

    /** The rest of an iteration once the actor's own code has returned, or panicked with the given error. */
    method AfterInvoke(panicked: bool, error: string, now: Time)
      requires Valid() && pc.Handling?
      modifies this, mailbox, if supervisor == null then {} else {supervisor.tracker}
      ensures Value() == Next(Settings(), old(Value()), if panicked then Fail(error, now) else Succeed)
    {
      if !panicked {
        pc := Looping;
        return;
      }
      if supervisor == null {
        pc := Returned;
        return;
      }
      HandlePanic(error, now);
    }

    method HandlePanic(error: string, now: Time)
      requires Valid() && pc.Handling? && supervisor != null
      modifies this, mailbox, supervisor.tracker
      ensures Value() == Failed(Settings(), old(Value()), error, now)
    {
      hide Verdict, Stamps, RestartTracker.StampsOf;
      ghost var f := Failure(now, error);
      restarts := Watched(supervisor.strategy, Watch(supervisor.tracker.StampsOf(id), restarts), f).restarts;
      var directive, delay := supervisor.Handle(id, error, now);
      match directive {
        case Resume =>
          pc := Looping;
        case Restart =>
          preRestarts := preRestarts + 1;
          var _ := mailbox.Enqueue(Restarting(error));
          pc := Pausing;
        case Stop =>
          pc := Returned;
        case Escalate =>
          if hasParent {
            told := told + [ActorFailed(id, error)];
          }
          pc := Returned;
      }
    }

    /** After the delay, with everybody else running meanwhile. */
    method WakeUp(listed: bool)
      requires Valid() && pc.Pausing?
      modifies this, mailbox
      ensures Value() == Next(Settings(), old(Value()), Wake(listed))
      ensures pc.Starting?
      ensures mailbox.ch == old(mailbox.ch) +
                if supervisor != null && supervisor.strategy.kind.OneForAll? && hasParent && listed
                   && !mailbox.closed && |old(mailbox.ch)| < CAPACITY then [ForceRestart] else []
    {
      if supervisor != null && supervisor.strategy.kind.OneForAll? && hasParent && listed {
        var _ := mailbox.Enqueue(ForceRestart);
      }
      pc := Starting;
    }

    /** The select statement taking its stop branch. */
    method StopPhase()
      requires Valid() && pc.Looping? && stopRequested
      modifies this, mailbox
      ensures Value() == Next(Settings(), old(Value()), StopSignal)
      ensures pc.Closing?
      ensures mailbox.ch == old(mailbox.ch) + if !mailbox.closed && |old(mailbox.ch)| < CAPACITY then [Stopping] else []
    {
      var _ := mailbox.Enqueue(Stopping);
      pc := Closing;
    }

    /** The rest of the stop branch; `panics` says which of the remaining messages panic. */
    method CloseAndDrain(panics: Message<P> -> bool)
      requires pc.Closing?
      modifies this, mailbox
      ensures Value() == Drained(Settings(), Next(Settings(), old(Value()), CloseMailbox), panics)
    {
      hide Drained;
      mailbox.Close();
      pc := Draining;
      assert Value() == Next(Settings(), old(Value()), CloseMailbox);
      Drain(panics);
    }

    method Drain(panics: Message<P> -> bool)
      requires pc.Draining? && mailbox.closed
      modifies this, mailbox
      ensures Value() == Drained(Settings(), old(Value()), panics)
    {
      while |mailbox.ch| > 0
        invariant pc.Draining? && Drained(Settings(), Value(), panics) == Drained(Settings(), old(Value()), panics)
        decreases |mailbox.ch|
      {
        var msg, _ := mailbox.Take(Stopping);
        if panics(msg) {
          pc := Crashed;
          return;
        }
      }
      stops := stops + 1;
      pc := Stopped;
    }
  }
}
