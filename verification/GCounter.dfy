/**
 The grow-only counter: one 64-bit count per node, merged by taking the larger of each, and runs of many replicas
 exchanging snapshots in any order and any number of times.
 */
module GCounters {
  type NodeID = string

  const WORD: nat := 0x1_0000_0000_0000_0000

  type uint64 = x: int | 0 <= x < WORD

  type Counts = map<NodeID, uint64>

  function Wrapped(x: nat): uint64 {
    x % WORD
  }

  lemma WrappedOnce(x: nat, y: nat)
    ensures Wrapped(Wrapped(x) + y) == Wrapped(x + y)
  {}

  lemma FitsUnwrapped(x: nat)
    requires x < WORD
    ensures Wrapped(x) == x
  {}

  /** Reading a missing key of the map yields zero. */
  function At(c: Counts, id: NodeID): uint64 {
    if id in c then c[id] else 0
  }

  function Raised(c: Counts, id: NodeID, amount: uint64): Counts {
    c[id := Wrapped(At(c, id) + amount)]
  }

  function Larger(a: uint64, c: uint64): uint64 {
    if c > a then c else a
  }

  /** A zero count is never taken over for an id that is not there. */
  function Merged(a: Counts, c: Counts): Counts {
    map id | id in a.Keys + c.Keys && (id in a || c[id] > 0) :: Larger(At(a, id), At(c, id))
  }

  ghost function Sum(c: Counts): nat
  {
    if c == map[] then 0
    else var id :| id in c; c[id] + Sum(c - {id})
  }

  /** What `Value` returns. */
  ghost function Report(c: Counts): uint64 {
    Wrapped(Sum(c))
  }

  lemma NothingToSum()
    ensures Sum(map[]) == 0
  {}

  lemma {:induction false} SumWithout(c: Counts, id: NodeID)
    requires id in c
    ensures Sum(c) == c[id] + Sum(c - {id})
  {
    var first :| id in c && first in c && Sum(c) == c[first] + Sum(c - {first});
    if first != id {
      SumWithout(c - {first}, id);
      SumWithout(c - {id}, first);
      assert c - {first} - {id} == c - {id} - {first};
    }
  }

  lemma MergedNothing(c: Counts)
    ensures Merged(c, map[]) == c
  {}

  /** One more id of a record whose `rest` is still to come. */
  lemma MergedOneMore(c: Counts, incoming: Counts, rest: set<NodeID>, id: NodeID)
    requires rest <= incoming.Keys && id in rest
    ensures var before := Merged(c, incoming - rest);
            Merged(c, incoming - (rest - {id})) ==
              if incoming[id] > At(before, id) then before[id := incoming[id]] else before
  {}

  // ---------- the object ----------

  class GCounter {
    var counts: Counts
    const localID: NodeID

    constructor (nodeID: NodeID)
      ensures counts == map[] && localID == nodeID
    {
      counts, localID := map[], nodeID;
    }

    method Increment()
      modifies this
      ensures counts == Raised(old(counts), localID, 1)
    {
      counts := counts[localID := Wrapped(At(counts, localID) + 1)];
    }

    method IncrementBy(n: uint64)
      modifies this
      ensures counts == Raised(old(counts), localID, n)
    {
      counts := counts[localID := Wrapped(At(counts, localID) + n)];
    }

    method Value() returns (globalSum: uint64)
      ensures globalSum == Report(counts)
    {
      hide Wrapped, Sum;
      globalSum := 0;
      var rest := counts;
      NothingToSum();
      FitsUnwrapped(0);
      while rest != map[]
        invariant Wrapped(globalSum + Sum(rest)) == Wrapped(Sum(counts))
        decreases |rest.Keys|
      {
        var id :| id in rest;
        SumWithout(rest, id);
        WrappedOnce(globalSum + rest[id], Sum(rest - {id}));
        globalSum := Wrapped(globalSum + rest[id]);
        assert (rest - {id}).Keys < rest.Keys;
        rest := rest - {id};
      }
      FitsUnwrapped(globalSum);
    }

    method LocalValue() returns (value: uint64)
      ensures value == At(counts, localID)
    {
      value := At(counts, localID);
    }

    method Merge(other: GCounter)
      modifies this
      ensures counts == Merged(old(counts), old(other.counts))
    {
      var temp := other.counts;
      Absorb(temp);
    }

    method Marshal() returns (record: Counts)
      ensures record == counts
    {
      record := counts;
    }

    method UnmarshalAndMerge(record: Counts)
      modifies this
      ensures counts == Merged(old(counts), record)
    {
      Absorb(record);
    }

    /** The loop both merges end with. */
    method Absorb(incoming: Counts)
      modifies this
      ensures counts == Merged(old(counts), incoming)
    {
      assert incoming - incoming.Keys == map[];
      MergedNothing(counts);
      hide Merged;
      var ids := incoming.Keys;
      while ids != {}
        invariant ids <= incoming.Keys
        invariant counts == Merged(old(counts), incoming - ids)
      {
        var id :| id in ids;
        MergedOneMore(old(counts), incoming, ids, id);
        if incoming[id] > At(counts, id) {
          counts := counts[id := incoming[id]];
        }
        ids := ids - {id};
      }
      assert incoming - {} == incoming;
    }
  }

  // ---------- runs ----------

  /** `own` counts the increments made at each replica; `sent` holds every snapshot ever taken. */
  datatype System = System(ids: seq<NodeID>, replicas: seq<Counts>, own: seq<nat>, sent: seq<Counts>)

  datatype Action = IncrementBy(n: nat, amount: uint64) | Snapshot(n: nat) | MergeIn(n: nat, i: nat)

  predicate Enabled(s: System, a: Action) {
    a.n < |s.replicas| == |s.own| == |s.ids| && (a.MergeIn? ==> a.i < |s.sent|)
  }

  function Next(s: System, a: Action): System
    requires Enabled(s, a)
  {
    match a
    case IncrementBy(n, amount) =>
      s.(replicas := s.replicas[n := Raised(s.replicas[n], s.ids[n], amount)], own := s.own[n := s.own[n] + amount])
    case Snapshot(n) => s.(sent := s.sent + [s.replicas[n]])
    case MergeIn(n, i) => s.(replicas := s.replicas[n := Merged(s.replicas[n], s.sent[i])])
  }

  function Total(own: seq<nat>): nat
  {
    if |own| == 0 then 0 else Total(own[..|own| - 1]) + own[|own| - 1]
  }

  ghost predicate Distinct(ids: seq<NodeID>) {
    forall i, j | 0 <= i < j < |ids| :: ids[i] != ids[j]
  }

  ghost predicate IsRun(run: seq<System>, acts: seq<Action>) {
    |run| == |acts| + 1 && Distinct(run[0].ids) &&
    |run[0].replicas| == |run[0].own| == |run[0].ids| && run[0].sent == [] &&
    (forall n | 0 <= n < |run[0].ids| :: run[0].replicas[n] == map[] && run[0].own[n] == 0) &&
    forall i | 0 <= i < |acts| :: Enabled(run[i], acts[i]) && run[i + 1] == Next(run[i], acts[i])
  }

  /** Only owners' ids, none with more than its owner has counted. */
  ghost predicate Bounded(c: Counts, ids: seq<NodeID>, own: seq<nat>) {
    |ids| == |own| &&
    (forall id | id in c :: id in ids) &&
    forall i | 0 <= i < |ids| :: At(c, ids[i]) <= own[i]
  }

  /** The state of replica n: bounded, and up to date with its own increments. */
  ghost predicate OwnCount(c: Counts, ids: seq<NodeID>, own: seq<nat>, n: nat) {
    Bounded(c, ids, own) && n < |ids| && At(c, ids[n]) == own[n]
  }

  ghost predicate Inv(s: System) {
    |s.replicas| == |s.own| == |s.ids| && Distinct(s.ids) &&
    (forall n | 0 <= n < |s.replicas| :: OwnCount(s.replicas[n], s.ids, s.own, n)) &&
    (forall i | 0 <= i < |s.sent| :: Bounded(s.sent[i], s.ids, s.own))
  }

  lemma MergedAt(a: Counts, c: Counts, id: NodeID)
    ensures At(Merged(a, c), id) == Larger(At(a, id), At(c, id))
  {}

  lemma {:induction false} TotalUpdate(own: seq<nat>, n: nat, v: nat)
    requires n < |own|
    ensures Total(own[n := v]) == Total(own) - own[n] + v
  {
    var m := |own| - 1;
    if n < m {
      TotalUpdate(own[..m], n, v);
      assert own[n := v][..m] == own[..m][n := v];
    } else {
      assert own[n := v][..m] == own[..m];
    }
  }

  lemma {:induction false} TotalAbove(own: seq<nat>, n: nat)
    requires n < |own|
    ensures own[n] <= Total(own)
  {
    if n < |own| - 1 {
      TotalAbove(own[..|own| - 1], n);
    }
  }

  lemma StepKeepsTotal(s: System, a: Action)
    requires Enabled(s, a)
    ensures Total(Next(s, a).own) == Total(s.own) + if a.IncrementBy? then a.amount else 0
  {
    if a.IncrementBy? {
      TotalUpdate(s.own, a.n, s.own[a.n] + a.amount);
    }
  }

  lemma RaisedIsBounded(c: Counts, ids: seq<NodeID>, own: seq<nat>, n: nat, amount: uint64)
    requires OwnCount(c, ids, own, n) && Distinct(ids) && own[n] + amount < WORD
    ensures OwnCount(Raised(c, ids[n], amount), ids, own[n := own[n] + amount], n)
  {}

  lemma MergedIsBounded(a: Counts, c: Counts, ids: seq<NodeID>, own: seq<nat>)
    requires Bounded(a, ids, own) && Bounded(c, ids, own)
    ensures Bounded(Merged(a, c), ids, own)
  {
    forall i | 0 <= i < |ids| ensures At(Merged(a, c), ids[i]) <= own[i] {
      MergedAt(a, c, ids[i]);
    }
  }

  lemma StaysBounded(c: Counts, ids: seq<NodeID>, own: seq<nat>, n: nat, more: nat)
    requires Bounded(c, ids, own) && n < |own|
    ensures Bounded(c, ids, own[n := own[n] + more])
  {}

  lemma StepKeepsInv(s: System, a: Action)
    requires Inv(s) && Enabled(s, a) && Total(Next(s, a).own) < WORD
    ensures Inv(Next(s, a))
  {
    if a.IncrementBy? {
      TotalAbove(Next(s, a).own, a.n);
      IncrementKeepsInv(s, a.n, a.amount);
    } else if a.MergeIn? {
      MergedIsBounded(s.replicas[a.n], s.sent[a.i], s.ids, s.own);
      MergedAt(s.replicas[a.n], s.sent[a.i], s.ids[a.n]);
      assert At(s.sent[a.i], s.ids[a.n]) <= s.own[a.n];
      hide Bounded, Total, Merged;
    }
  }

  lemma IncrementKeepsInv(s: System, n: nat, amount: uint64)
    requires Inv(s) && n < |s.ids| && s.own[n] + amount < WORD
    ensures Inv(Next(s, IncrementBy(n, amount)))
  {
    var t := Next(s, IncrementBy(n, amount));
    RaisedIsBounded(s.replicas[n], s.ids, s.own, n, amount);
    hide Bounded, Raised, At, Distinct;
    forall m | 0 <= m < |t.replicas| ensures OwnCount(t.replicas[m], t.ids, t.own, m) {
      if m != n {
        StaysBounded(s.replicas[m], s.ids, s.own, n, amount);
      }
    }
    forall i | 0 <= i < |t.sent| ensures Bounded(t.sent[i], t.ids, t.own) {
      StaysBounded(s.sent[i], s.ids, s.own, n, amount);
    }
  }

  lemma {:induction false} TotalNeverFalls(run: seq<System>, acts: seq<Action>, j: nat, k: nat)
    requires IsRun(run, acts) && j <= k <= |acts|
    ensures Total(run[j].own) <= Total(run[k].own)
  {
    if j < k {
      TotalNeverFalls(run, acts, j, k - 1);
      StepKeepsTotal(run[k - 1], acts[k - 1]);
      hide Next, Total;
    }
  }

  /** While fewer than 2^64 increments have been made, no replica or snapshot exceeds an owner's own count. */
  lemma {:induction false} NoCountExceedsItsOwner(run: seq<System>, acts: seq<Action>, k: nat)
    requires IsRun(run, acts) && k <= |acts| && Total(run[k].own) < WORD
    ensures Inv(run[k])
  {
    if k > 0 {
      TotalNeverFalls(run, acts, k - 1, k);
      NoCountExceedsItsOwner(run, acts, k - 1);
      StepKeepsInv(run[k - 1], acts[k - 1]);
      hide Inv, Next, Total;
    }
  }

  // ---------- the value ----------

  /** The counts read off at the given ids, one after the other. */
  function Readings(c: Counts, ids: seq<NodeID>): seq<nat> {
    seq(|ids|, i requires 0 <= i < |ids| => At(c, ids[i]))
  }

  lemma {:induction false} SumIsTotal(c: Counts, ids: seq<NodeID>)
    requires Distinct(ids) && forall id | id in c :: id in ids
    ensures Sum(c) == Total(Readings(c, ids))
  {
    if |ids| == 0 {
      assert c == map[];
    } else {
      var n := |ids| - 1;
      var last := ids[n];
      SumIsTotal(c - {last}, ids[..n]);
      assert Readings(c, ids)[..n] == Readings(c - {last}, ids[..n]);
      if last in c {
        SumWithout(c, last);
      } else {
        assert c - {last} == c;
      }
    }
  }

  lemma {:induction false} TotalMonotone(a: seq<nat>, c: seq<nat>)
    requires |a| == |c| && forall i | 0 <= i < |a| :: a[i] <= c[i]
    ensures Total(a) <= Total(c)
  {
    if |a| > 0 {
      TotalMonotone(a[..|a| - 1], c[..|c| - 1]);
    }
  }

  lemma ReportOf(s: System, n: nat)
    requires Inv(s) && Total(s.own) < WORD && n < |s.replicas|
    ensures Report(s.replicas[n]) == Sum(s.replicas[n]) <= Total(s.own)
  {
    hide Wrapped, Sum;
    BoundedSum(s.replicas[n], s.ids, s.own);
    FitsUnwrapped(Sum(s.replicas[n]));
  }

  /** No replica ever reports more than has been counted, and the addition in `Value` does not wrap. */
  lemma ValueNeverExceedsTotal(run: seq<System>, acts: seq<Action>, k: nat, n: nat)
    requires IsRun(run, acts) && k <= |acts| && Total(run[k].own) < WORD && n < |run[k].replicas|
    ensures Report(run[k].replicas[n]) == Sum(run[k].replicas[n]) <= Total(run[k].own)
  {
    NoCountExceedsItsOwner(run, acts, k);
    ReportOf(run[k], n);
    hide Wrapped, Sum, Inv;
  }

  lemma BoundedSum(c: Counts, ids: seq<NodeID>, own: seq<nat>)
    requires Bounded(c, ids, own) && Distinct(ids)
    ensures Sum(c) <= Total(own)
  {
    SumIsTotal(c, ids);
    TotalMonotone(Readings(c, ids), own);
  }

  lemma {:induction false} SumGrows(a: Counts, c: Counts)
    requires forall id :: At(a, id) <= At(c, id)
    ensures Sum(a) <= Sum(c)
  {
    if a != map[] {
      var id :| id in a;
      SumWithout(a, id);
      forall other ensures At(a - {id}, other) <= At(c - {id}, other) {
        assert At(a, other) <= At(c, other);
      }
      SumGrows(a - {id}, c - {id});
      if id in c {
        SumWithout(c, id);
        assert At(a, id) <= At(c, id);
      } else {
        assert c - {id} == c && At(a, id) <= At(c, id);
      }
    }
  }

  lemma StepGrows(s: System, a: Action, n: nat, id: NodeID)
    requires Inv(s) && Enabled(s, a) && Total(Next(s, a).own) < WORD && n < |s.replicas|
    ensures At(s.replicas[n], id) <= At(Next(s, a).replicas[n], id)
  {
    if a.MergeIn? {
      MergedAt(s.replicas[n], s.sent[a.i], id);
    } else if a.IncrementBy? {
      TotalAbove(Next(s, a).own, a.n);
    }
  }

  lemma ReportGrows(s: System, a: Action, n: nat)
    requires Inv(s) && Enabled(s, a) && Total(Next(s, a).own) < WORD && n < |s.replicas|
    ensures n < |Next(s, a).replicas| && Report(s.replicas[n]) <= Report(Next(s, a).replicas[n])
  {
    hide Wrapped, Sum;
    StepKeepsInv(s, a);
    StepKeepsTotal(s, a);
    hide Total;
    forall id ensures At(s.replicas[n], id) <= At(Next(s, a).replicas[n], id) {
      StepGrows(s, a, n, id);
    }
    SumGrows(s.replicas[n], Next(s, a).replicas[n]);
    ReportOf(s, n);
    ReportOf(Next(s, a), n);
  }

  /** What a replica reports never falls. */
  lemma {:induction false} ValueNeverFalls(run: seq<System>, acts: seq<Action>, j: nat, k: nat, n: nat)
    requires IsRun(run, acts) && j <= k <= |acts| && Total(run[k].own) < WORD && n < |run[j].replicas|
    ensures n < |run[k].replicas|
    ensures Report(run[j].replicas[n]) <= Report(run[k].replicas[n])
  {
    if j < k {
      TotalNeverFalls(run, acts, k - 1, k);
      ValueNeverFalls(run, acts, j, k - 1, n);
      NoCountExceedsItsOwner(run, acts, k - 1);
      ReportGrows(run[k - 1], acts[k - 1], n);
      hide Report, Total, Inv, Next, Enabled;
    }
  }

  function MergeAll(c: Counts, snapshots: seq<Counts>): Counts
  {
    if |snapshots| == 0 then c
    else Merged(MergeAll(c, snapshots[..|snapshots| - 1]), snapshots[|snapshots| - 1])
  }

  lemma {:induction false} MergeAllReaches(c: Counts, snapshots: seq<Counts>, ids: seq<NodeID>, own: seq<nat>)
    requires Bounded(c, ids, own) && forall i | 0 <= i < |snapshots| :: Bounded(snapshots[i], ids, own)
    ensures Bounded(MergeAll(c, snapshots), ids, own)
    ensures forall id :: At(c, id) <= At(MergeAll(c, snapshots), id)
    ensures forall i, id | 0 <= i < |snapshots| :: At(snapshots[i], id) <= At(MergeAll(c, snapshots), id)
  {
    if |snapshots| > 0 {
      var n := |snapshots| - 1;
      var before := MergeAll(c, snapshots[..n]);
      MergeAllReaches(c, snapshots[..n], ids, own);
      MergedIsBounded(before, snapshots[n], ids, own);
      forall id ensures At(c, id) <= At(MergeAll(c, snapshots), id) {
        MergedAt(before, snapshots[n], id);
      }
      forall i, id | 0 <= i < |snapshots| ensures At(snapshots[i], id) <= At(MergeAll(c, snapshots), id) {
        MergedAt(before, snapshots[n], id);
        if i < n {
          assert snapshots[..n][i] == snapshots[i];
        }
      }
    }
  }

  /** Merging, in any order and with repetitions, snapshots among which every owner's state occurs reaches the total. */
  lemma LatestStatesReachTotal(s: System, n: nat, snapshots: seq<Counts>)
    requires Inv(s) && n < |s.replicas| && forall i | 0 <= i < |snapshots| :: snapshots[i] in s.sent
    requires forall m | 0 <= m < |s.replicas| && m != n :: s.replicas[m] in snapshots
    ensures Sum(MergeAll(s.replicas[n], snapshots)) == Total(s.own)
  {
    hide Sum, Total, MergeAll;
    var r := MergeAll(s.replicas[n], snapshots);
    forall i | 0 <= i < |snapshots| ensures Bounded(snapshots[i], s.ids, s.own) {
      var j := IndexOf(s.sent, snapshots[i]);
    }
    MergeAllReaches(s.replicas[n], snapshots, s.ids, s.own);
    forall m | 0 <= m < |s.ids| ensures At(r, s.ids[m]) == s.own[m] {
      if m != n {
        var i := IndexOf(snapshots, s.replicas[m]);
      }
    }
    assert Readings(r, s.ids) == s.own;
    SumIsTotal(r, s.ids);
  }

  lemma IndexOf(cs: seq<Counts>, c: Counts) returns (i: nat)
    requires c in cs
    ensures i < |cs| && cs[i] == c
  {
    i :| i < |cs| && cs[i] == c;
  }

  lemma {:induction false} IdsStay(run: seq<System>, acts: seq<Action>, j: nat, k: nat)
    requires IsRun(run, acts) && j <= k <= |acts|
    ensures run[j].ids == run[k].ids && |run[j].replicas| == |run[k].replicas|
  {
    if j < k {
      IdsStay(run, acts, j, k - 1);
    }
  }

  /** What a replica has counted for an id never falls. */
  lemma {:induction false} CountNeverFalls(run: seq<System>, acts: seq<Action>, j: nat, k: nat, n: nat, id: NodeID)
    requires IsRun(run, acts) && j <= k <= |acts| && Total(run[k].own) < WORD && n < |run[j].replicas|
    ensures n < |run[k].replicas| && At(run[j].replicas[n], id) <= At(run[k].replicas[n], id)
  {
    if j < k {
      TotalNeverFalls(run, acts, k - 1, k);
      CountNeverFalls(run, acts, j, k - 1, n, id);
      NoCountExceedsItsOwner(run, acts, k - 1);
      IdsStay(run, acts, k - 1, k);
      StepGrows(run[k - 1], acts[k - 1], n, id);
      hide Total, Inv, Next, At;
    }
  }

  /** Some merge at n before moment k took in all that owner m has counted by moment k. */
  ghost predicate TookIn(run: seq<System>, acts: seq<Action>, k: nat, n: nat, m: nat)
    requires IsRun(run, acts) && k <= |acts| && m < |run[k].own| == |run[k].ids|
  {
    exists j :: 0 <= j < k && acts[j].MergeIn? && acts[j].n == n && LatestOf(run[j], acts[j].i, run[k], m)
  }

  /** The i-th snapshot of the past has m's count as it is now. */
  ghost predicate LatestOf(past: System, i: nat, now: System, m: nat)
    requires m < |now.own| == |now.ids|
  {
    i < |past.sent| && At(past.sent[i], now.ids[m]) == now.own[m]
  }

  lemma TakenInStays(run: seq<System>, acts: seq<Action>, k: nat, n: nat, m: nat)
    requires IsRun(run, acts) && k <= |acts| && Total(run[k].own) < WORD && n < |run[k].replicas|
    requires m < |run[k].own| == |run[k].ids| && TookIn(run, acts, k, n, m)
    ensures At(run[k].replicas[n], run[k].ids[m]) >= run[k].own[m]
  {
    var j :| 0 <= j < k && acts[j].MergeIn? && acts[j].n == n && LatestOf(run[j], acts[j].i, run[k], m);
    IdsStay(run, acts, j + 1, k);
    MergedAt(run[j].replicas[n], run[j].sent[acts[j].i], run[k].ids[m]);
    assert run[j + 1].replicas[n] == Merged(run[j].replicas[n], run[j].sent[acts[j].i]);
    CountNeverFalls(run, acts, j + 1, k, n, run[k].ids[m]);
  }

  lemma CompleteReport(s: System, n: nat)
    requires Inv(s) && n < |s.replicas|
    requires forall m | 0 <= m < |s.ids| && m != n :: At(s.replicas[n], s.ids[m]) >= s.own[m]
    ensures Sum(s.replicas[n]) == Total(s.own)
  {
    var r := s.replicas[n];
    assert OwnCount(r, s.ids, s.own, n);
    assert Readings(r, s.ids) == s.own;
    SumIsTotal(r, s.ids);
  }

  /**
   Once a replica has, in whatever order and with whatever else in between, merged what every other owner has
   counted, it reports the total of all increments exactly as long as that is below 2^64.
   */
  lemma ConvergesToTotal(run: seq<System>, acts: seq<Action>, k: nat, n: nat)
    requires IsRun(run, acts) && k <= |acts| && n < |run[k].replicas| == |run[k].own| == |run[k].ids|
    requires forall m | 0 <= m < |run[k].replicas| && m != n :: TookIn(run, acts, k, n, m)
    ensures Report(run[k].replicas[n]) == Total(run[k].own) <==> Total(run[k].own) < WORD
  {
    hide Sum, Total, Inv, Wrapped, At, TookIn;
    if Total(run[k].own) < WORD {
      NoCountExceedsItsOwner(run, acts, k);
      forall m | 0 <= m < |run[k].ids| && m != n ensures At(run[k].replicas[n], run[k].ids[m]) >= run[k].own[m] {
        TakenInStays(run, acts, k, n, m);
      }
      CompleteReport(run[k], n);
      FitsUnwrapped(Total(run[k].own));
    }
  }

  // ---------- without the bound on the total ----------

  /** An increment raises the owner's count exactly when it does not pass 2^64 - 1. */
  lemma IncrementRaisesExactly(c: Counts, id: NodeID, amount: uint64)
    requires amount > 0
    ensures At(Raised(c, id, amount), id) > At(c, id) <==> At(c, id) + amount < WORD
  {}

  /** Whatever the counts, an increment adds to what is reported modulo 2^64. */
  lemma ReportAfterIncrement(c: Counts, id: NodeID, amount: uint64)
    ensures Report(Raised(c, id, amount)) == Wrapped(Report(c) + amount)
  {
    hide Wrapped, Sum;
    var r := Raised(c, id, amount);
    var rest := Sum(c - {id});
    assert r - {id} == c - {id};
    SumWithout(r, id);
    if id in c {
      SumWithout(c, id);
    } else {
      assert c - {id} == c;
    }
    WrappedOnce(At(c, id) + amount, rest);
    WrappedOnce(rest + At(c, id), amount);
  }

  lemma WrapFalls(r: uint64, gain: uint64)
    ensures Wrapped(r + gain) >= r <==> r + gain < WORD
  {}

  /** `Value` falls after an increment exactly when the value itself passes 2^64 - 1, even if no count does. */
  lemma ValueFallsExactly(c: Counts, id: NodeID, amount: uint64)
    ensures Report(Raised(c, id, amount)) >= Report(c) <==> Report(c) + amount < WORD
  {
    hide Wrapped, Sum, Report, Raised;
    ReportAfterIncrement(c, id, amount);
    WrapFalls(Report(c), amount);
  }

  /** What each id is ahead by in the other map. */
  function Gained(c: Counts, other: Counts): Counts {
    map id | id in other && other[id] > At(c, id) :: other[id] - At(c, id)
  }

  lemma SumWithoutAny(c: Counts, id: NodeID)
    ensures Sum(c) == At(c, id) + Sum(c - {id})
  {
    if id in c {
      SumWithout(c, id);
    } else {
      assert c - {id} == c;
    }
  }

  /** The counts of r are those of a and c added up. */
  ghost predicate AddsUp(a: Counts, c: Counts, r: Counts) {
    forall id :: At(r, id) == At(a, id) + At(c, id)
  }

  lemma AddsUpWithout(a: Counts, c: Counts, r: Counts, id: NodeID)
    requires AddsUp(a, c, r)
    ensures AddsUp(a - {id}, c - {id}, r - {id}) && At(r, id) == At(a, id) + At(c, id)
  {
    forall other ensures At(r - {id}, other) == At(a - {id}, other) + At(c - {id}, other) {
      assert At(r, other) == At(a, other) + At(c, other);
    }
  }

  lemma {:induction false} SumAdds(ids: set<NodeID>, a: Counts, c: Counts, r: Counts)
    requires a.Keys <= ids && c.Keys <= ids && r.Keys <= ids && AddsUp(a, c, r)
    ensures Sum(r) == Sum(a) + Sum(c)
  {
    hide Sum, At, AddsUp;
    if ids == {} {
      assert a == map[] && c == map[] && r == map[];
      NothingToSum();
    } else {
      var id :| id in ids;
      SumWithoutAny(a, id);
      SumWithoutAny(c, id);
      SumWithoutAny(r, id);
      AddsUpWithout(a, c, r, id);
      SumAdds(ids - {id}, a - {id}, c - {id}, r - {id});
    }
  }

  /** A merge adds up exactly what the other side is ahead by. */
  lemma MergeGains(c: Counts, other: Counts)
    ensures Sum(Merged(c, other)) == Sum(c) + Sum(Gained(c, other))
  {
    forall id ensures At(Merged(c, other), id) == At(c, id) + At(Gained(c, other), id) {
      MergedAt(c, other, id);
    }
    SumAdds(c.Keys + other.Keys, c, Gained(c, other), Merged(c, other));
  }

  /** `Value` falls after a merge exactly when it passes 2^64 - 1 together with the value of what is gained. */
  lemma ValueFallsAtMergeExactly(c: Counts, other: Counts)
    ensures Report(Merged(c, other)) >= Report(c) <==> Report(c) + Report(Gained(c, other)) < WORD
  {
    hide Wrapped, Sum, Merged, Gained;
    MergeGains(c, other);
    var gain := Sum(Gained(c, other));
    WrappedOnce(Sum(c), gain);
    WrappedOnce(gain, Wrapped(Sum(c)));
    WrapFalls(Report(c), Wrapped(gain));
  }
}
