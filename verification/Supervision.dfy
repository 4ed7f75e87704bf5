/**
 Restart supervision: a pruned sliding window of failure times per actor, and the verdict on each failure.

 The pruned window is proved to count exactly what the full history would, for a clock that never runs backwards
 and a constant positive window; hence the restart budget is respected in every window, not just the latest.
 */
module Supervision {

  type Time = int

  datatype Directive = Resume | Restart | Stop | Escalate

  function DefaultDecider(error: string): Directive {
    Restart
  }

  datatype Kind = OneForOne | OneForAll | ExponentialBackoff(delay: nat -> Time)

  /** `decide` is the strategy's decider, applied to the error's text. */
  datatype Strategy = Strategy(kind: Kind, maxRestarts: int, within: Time, decide: string -> Directive)

  // ---------- the window ----------

  /** The suffix from the first time later than the cutoff. */
  function Pruned(ts: seq<Time>, cutoff: Time): seq<Time>
  {
    if |ts| == 0 || ts[0] > cutoff then ts else Pruned(ts[1..], cutoff)
  }

  function Recorded(ts: seq<Time>, window: Time, now: Time): seq<Time> {
    Pruned(ts, now - window) + [now]
  }

  /** The stored window after a whole history of failures. */
  function Window(history: seq<Time>, window: Time): seq<Time>
  {
    if |history| == 0 then []
    else Recorded(Window(history[..|history| - 1], window), window, history[|history| - 1])
  }

  /** How many times of the history lie in (lo, hi]. */
  function CountIn(history: seq<Time>, lo: Time, hi: Time): nat
  {
    if |history| == 0 then 0
    else CountIn(history[..|history| - 1], lo, hi) + if lo < history[|history| - 1] <= hi then 1 else 0
  }

  ghost predicate Chronological(ts: seq<Time>) {
    forall i, j | 0 <= i < j < |ts| :: ts[i] <= ts[j]
  }

  ghost predicate NoneAfter(ts: seq<Time>, cutoff: Time) {
    forall i | 0 <= i < |ts| :: ts[i] <= cutoff
  }

  lemma {:induction false} PruningDrops(ts: seq<Time>, cutoff: Time) returns (dropped: seq<Time>)
    ensures ts == dropped + Pruned(ts, cutoff) && NoneAfter(dropped, cutoff)
    ensures Pruned(ts, cutoff) != [] ==> Pruned(ts, cutoff)[0] > cutoff
  {
    dropped := [];
    if |ts| > 0 && ts[0] <= cutoff {
      var more := PruningDrops(ts[1..], cutoff);
      dropped := [ts[0]] + more;
    }
  }

  /** The window is what is left of the whole history after dropping times at or before the cutoff. */
  lemma {:induction false} WindowDrops(history: seq<Time>, window: Time) returns (dropped: seq<Time>)
    requires |history| > 0 && Chronological(history) && window > 0
    ensures history == dropped + Window(history, window) && NoneAfter(dropped, history[|history| - 1] - window)
    ensures Window(history, window) != [] && Window(history, window)[0] > history[|history| - 1] - window
  {
    hide Pruned, Window, NoneAfter;
    var n := |history| - 1;
    var now := history[n];
    var before := Window(history[..n], window);
    var earlier: seq<Time> := [];
    if n > 0 {
      earlier := WindowDrops(history[..n], window);
      assert history[..n][n - 1] <= now;
    } else {
      NothingYet(window);
    }
    var more := PruningDrops(before, now - window);
    dropped := earlier + more;
    LastRecorded(history, window);
    Regrouped(history, earlier, before, more, Pruned(before, now - window));
    FirstIsLate(Pruned(before, now - window), now, now - window);
    NoneOfBoth(earlier, more, if n > 0 then history[n - 1] - window else now - window, now - window);
  }

  lemma NothingYet(window: Time)
    ensures Window([], window) == []
    ensures forall cutoff :: NoneAfter([], cutoff)
  {}

  lemma LastRecorded(history: seq<Time>, window: Time)
    requires |history| > 0
    ensures var n := |history| - 1;
            Window(history, window) == Pruned(Window(history[..n], window), history[n] - window) + [history[n]]
  {}

  lemma NoneOfBoth(a: seq<Time>, c: seq<Time>, cutoff: Time, later: Time)
    requires NoneAfter(a, cutoff) && NoneAfter(c, later) && cutoff <= later
    ensures NoneAfter(a + c, later)
  {}

  lemma Regrouped(history: seq<Time>, earlier: seq<Time>, before: seq<Time>, more: seq<Time>, kept: seq<Time>)
    requires |history| > 0 && history[..|history| - 1] == earlier + before && before == more + kept
    ensures history == (earlier + more) + (kept + [history[|history| - 1]])
  {
    assert history == history[..|history| - 1] + [history[|history| - 1]];
  }

  lemma FirstIsLate(kept: seq<Time>, now: Time, cutoff: Time)
    requires (kept != [] ==> kept[0] > cutoff) && now > cutoff
    ensures (kept + [now])[0] > cutoff
  {}

  lemma {:induction false} CountSplits(a: seq<Time>, c: seq<Time>, lo: Time, hi: Time)
    ensures CountIn(a + c, lo, hi) == CountIn(a, lo, hi) + CountIn(c, lo, hi)
  {
    if |c| == 0 {
      assert a + c == a;
    } else {
      CountSplits(a, c[..|c| - 1], lo, hi);
      assert (a + c)[..|a + c| - 1] == a + c[..|c| - 1];
    }
  }

  lemma {:induction false} CountNone(ts: seq<Time>, lo: Time, hi: Time)
    requires forall i | 0 <= i < |ts| :: ts[i] <= lo
    ensures CountIn(ts, lo, hi) == 0
  {
    if |ts| > 0 {
      CountNone(ts[..|ts| - 1], lo, hi);
    }
  }

  lemma {:induction false} CountAll(ts: seq<Time>, lo: Time, hi: Time)
    requires forall i | 0 <= i < |ts| :: lo < ts[i] <= hi
    ensures CountIn(ts, lo, hi) == |ts|
  {
    if |ts| > 0 {
      CountAll(ts[..|ts| - 1], lo, hi);
    }
  }

  /** What `Record` returns is the number of failures in (now - window, now] over the full history. */
  lemma WindowCountsExactly(history: seq<Time>, window: Time)
    requires |history| > 0 && Chronological(history) && window > 0
    ensures var now := history[|history| - 1];
            |Window(history, window)| == CountIn(history, now - window, now)
  {
    var now := history[|history| - 1];
    var ts := Window(history, window);
    var dropped := WindowDrops(history, window);
    CountSplits(dropped, ts, now - window, now);
    CountNone(dropped, now - window, now);
    SuffixIsLater(history, dropped, ts);
    CountAll(ts, now - window, now);
  }

  lemma SuffixIsLater(history: seq<Time>, dropped: seq<Time>, ts: seq<Time>)
    requires Chronological(history) && history == dropped + ts && |ts| > 0
    ensures forall i | 0 <= i < |ts| :: ts[0] <= ts[i] <= history[|history| - 1]
  {
    forall i | 0 <= i < |ts| ensures ts[0] <= ts[i] <= history[|history| - 1] {
      assert ts[i] == history[|dropped| + i] && ts[0] == history[|dropped|];
    }
  }

  // ---------- verdicts ----------

  datatype Failure = Failure(time: Time, error: string)

  /** One actor's record and, for the argument, the times of its Restart verdicts since the last escalation. */
  datatype Watch = Watch(stamps: seq<Time>, restarts: seq<Time>)

  function Verdict(s: Strategy, stamps: seq<Time>, f: Failure): (Directive, Time) {
    var d := s.decide(f.error);
    if d != Restart then (d, 0)
    else
      var n := |Recorded(stamps, s.within, f.time)|;
      if n > s.maxRestarts then (Escalate, 0)
      else (Restart, if s.kind.ExponentialBackoff? then s.kind.delay(n) else 0)
  }

  /** The record afterwards: untouched, reset, or with the failure in it. */
  function Stamps(s: Strategy, stamps: seq<Time>, f: Failure): seq<Time> {
    if s.decide(f.error) != Restart then stamps
    else if Verdict(s, stamps, f).0 == Escalate then []
    else Recorded(stamps, s.within, f.time)
  }

  function Watched(s: Strategy, w: Watch, f: Failure): Watch {
    Watch(Stamps(s, w.stamps, f),
          if s.decide(f.error) != Restart then w.restarts
          else if Verdict(s, w.stamps, f).0 == Escalate then []
          else w.restarts + [f.time])
  }

  function WatchAll(s: Strategy, fs: seq<Failure>): Watch
  {
    if |fs| == 0 then Watch([], [])
    else Watched(s, WatchAll(s, fs[..|fs| - 1]), fs[|fs| - 1])
  }

  /** At each of these restarts the count was within the budget. */
  ghost predicate WithinBudget(s: Strategy, restarts: seq<Time>) {
    forall k | 0 < k <= |restarts| :: |Window(restarts[..k], s.within)| <= s.maxRestarts
  }

  ghost predicate WatchOk(s: Strategy, w: Watch, now: Time) {
    w.stamps == Window(w.restarts, s.within) && Chronological(w.restarts) && WithinBudget(s, w.restarts) &&
    NoneAfter(w.restarts, now)
  }

  lemma WatchedStaysOk(s: Strategy, w: Watch, f: Failure, now: Time)
    requires WatchOk(s, w, now) && now <= f.time
    ensures WatchOk(s, Watched(s, w, f), f.time)
  {
    hide WithinBudget, Window, Recorded;
    NothingRestarted(s);
    if s.decide(f.error) == Restart && Verdict(s, w.stamps, f).0 == Restart {
      WindowAppends(w.restarts, s.within, f.time);
      BudgetExtends(s, w.restarts, f.time);
    }
  }

  lemma NothingRestarted(s: Strategy)
    ensures WithinBudget(s, []) && Window([], s.within) == []
  {}

  lemma WindowAppends(restarts: seq<Time>, window: Time, now: Time)
    ensures Window(restarts + [now], window) == Recorded(Window(restarts, window), window, now)
  {
    assert (restarts + [now])[..|restarts|] == restarts;
  }

  lemma BudgetExtends(s: Strategy, restarts: seq<Time>, now: Time)
    requires WithinBudget(s, restarts) && |Window(restarts + [now], s.within)| <= s.maxRestarts
    ensures WithinBudget(s, restarts + [now])
  {
    hide Window;
    var r := restarts + [now];
    forall k | 0 < k <= |r| ensures |Window(r[..k], s.within)| <= s.maxRestarts {
      assert r[..k] == if k <= |restarts| then restarts[..k] else r;
    }
  }

  lemma {:induction false} WatchInvariant(s: Strategy, fs: seq<Failure>)
    requires |fs| > 0 && forall i, j | 0 <= i < j < |fs| :: fs[i].time <= fs[j].time
    ensures WatchOk(s, WatchAll(s, fs), fs[|fs| - 1].time)
  {
    hide WatchOk, Watched;
    var n := |fs| - 1;
    if n > 0 {
      WatchInvariant(s, fs[..n]);
      WatchedStaysOk(s, WatchAll(s, fs[..n]), fs[n], fs[n - 1].time);
    } else {
      NothingWatched(s, fs[0].time);
      WatchedStaysOk(s, Watch([], []), fs[0], fs[0].time);
    }
  }

  lemma NothingWatched(s: Strategy, now: Time)
    ensures WatchOk(s, Watch([], []), now)
  {}

  /** In no window of the given length, wherever it lies, does an actor get more than MaxRestarts restarts. */
  lemma {:induction false} BudgetHoldsEverywhere(s: Strategy, restarts: seq<Time>, t: Time)
    requires Chronological(restarts) && WithinBudget(s, restarts) && s.within > 0
    ensures CountIn(restarts, t - s.within, t) <= if s.maxRestarts < 0 then 0 else s.maxRestarts
  {
    if |restarts| > 0 {
      var n := |restarts| - 1;
      var last := restarts[n];
      assert restarts[..n + 1] == restarts;
      if last <= t {
        WindowCountsExactly(restarts, s.within);
        CountWider(restarts, t - s.within, t, last - s.within, last);
      } else {
        assert WithinBudget(s, restarts[..n]) by {
          forall k | 0 < k <= n ensures |Window(restarts[..n][..k], s.within)| <= s.maxRestarts {
            assert restarts[..n][..k] == restarts[..k];
          }
        }
        BudgetHoldsEverywhere(s, restarts[..n], t);
      }
    }
  }

  lemma {:induction false} CountWider(ts: seq<Time>, lo: Time, hi: Time, lo': Time, hi': Time)
    requires lo' <= lo && forall i | 0 <= i < |ts| :: ts[i] <= hi'
    ensures CountIn(ts, lo, hi) <= CountIn(ts, lo', hi')
  {
    if |ts| > 0 {
      CountWider(ts[..|ts| - 1], lo, hi, lo', hi');
    }
  }

  /** For every sequence of failures: between escalations no window holds more than MaxRestarts Restart verdicts. */
  lemma RestartsStayWithinBudget(s: Strategy, fs: seq<Failure>, t: Time)
    requires s.within > 0 && forall i, j | 0 <= i < j < |fs| :: fs[i].time <= fs[j].time
    ensures CountIn(WatchAll(s, fs).restarts, t - s.within, t) <= if s.maxRestarts < 0 then 0 else s.maxRestarts
  {
    if |fs| > 0 {
      WatchInvariant(s, fs);
    }
    BudgetHoldsEverywhere(s, WatchAll(s, fs).restarts, t);
  }

  // ---------- the objects ----------

  class RestartTracker {
    var records: map<string, seq<Time>>

    constructor ()
      ensures records == map[]
    {
      records := map[];
    }

    ghost function StampsOf(actorID: string): seq<Time>
      reads this
    {
      if actorID in records then records[actorID] else []
    }

    method Record(actorID: string, window: Time, now: Time) returns (count: nat)
      modifies this
      ensures records == old(records)[actorID := Recorded(old(StampsOf(actorID)), window, now)]
      ensures count == |records[actorID]|
    {
      var cutoff := now - window;
      if actorID in records {
        var timestamps := records[actorID];
        var cutoffIndex := |timestamps|;
        for i := 0 to |timestamps|
          invariant cutoffIndex == |timestamps|
          invariant Pruned(timestamps, cutoff) == Pruned(timestamps[i..], cutoff)
        {
          if timestamps[i] > cutoff {
            cutoffIndex := i;
            break;
          }
          assert timestamps[i..][1..] == timestamps[i + 1..];
        }
        timestamps := timestamps[cutoffIndex..];
        records := records[actorID := timestamps + [now]];
        return |records[actorID]|;
      } else {
        assert Recorded([], window, now) == [now];
        records := records[actorID := [now]];
        return 1;
      }
    }

    method Reset(actorID: string)
      modifies this
      ensures records == old(records) - {actorID}
    {
      records := records - {actorID};
    }
  }

  class Supervisor {
    const strategy: Strategy
    const tracker: RestartTracker

    constructor (strategy: Strategy)
      ensures this.strategy == strategy && fresh(tracker) && tracker.records == map[]
    {
      this.strategy := strategy;
      tracker := new RestartTracker();
    }

    /** What the decider says is final unless it says Restart, which the budget may turn into Escalate. */
    method Handle(actorID: string, error: string, now: Time) returns (directive: Directive, delay: Time)
      modifies tracker
      ensures (directive, delay) == Verdict(strategy, old(tracker.StampsOf(actorID)), Failure(now, error))
      ensures tracker.StampsOf(actorID) == Stamps(strategy, old(tracker.StampsOf(actorID)), Failure(now, error))
      ensures forall id | id != actorID :: tracker.StampsOf(id) == old(tracker.StampsOf(id))
      ensures strategy.decide(error) != Restart ==>
                directive == strategy.decide(error) && delay == 0 && tracker.records == old(tracker.records)
      ensures strategy.decide(error) == Restart && directive == Restart ==>
                |tracker.StampsOf(actorID)| <= strategy.maxRestarts &&
                delay ==
                  if strategy.kind.ExponentialBackoff? then strategy.kind.delay(|tracker.StampsOf(actorID)|) else 0
      ensures strategy.decide(error) == Restart && directive != Restart ==>
                directive == Escalate && delay == 0 && actorID !in tracker.records &&
                |Recorded(old(tracker.StampsOf(actorID)), strategy.within, now)| > strategy.maxRestarts
    {
      directive := strategy.decide(error);
      if directive != Restart {
        return directive, 0;
      }
      var count := tracker.Record(actorID, strategy.within, now);
      if count > strategy.maxRestarts {
        tracker.Reset(actorID);
        return Escalate, 0;
      }
      return Restart, if strategy.kind.ExponentialBackoff? then strategy.kind.delay(count) else 0;
    }
  }
}
