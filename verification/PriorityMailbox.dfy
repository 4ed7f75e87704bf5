/**
 The heap behind the priority mailbox: `msgHeap` with the sift loops of `container/heap`.

 Whatever the priority function is, no message is lost or duplicated; if it is a strict weak order, `Pop` returns
 a message no other one in the heap comes before.
 */
module MsgHeaps {

  ghost predicate StrictWeakOrder<T(!new)>(less: (T, T) -> bool) {
    (forall a, c :: less(a, c) ==> !less(c, a)) &&
    (forall a, c, e :: !less(a, c) && !less(c, e) ==> !less(a, e))
  }

  function Parent(i: nat): nat
    requires i > 0
  {
    (i - 1) / 2
  }

  ghost predicate OrderedExcept<T>(s: seq<T>, n: nat, less: (T, T) -> bool, hole: int)
    requires n <= |s|
  {
    forall i | 0 < i < n && i != hole :: !less(s[i], s[Parent(i)])
  }

  ghost predicate IsHeap<T>(s: seq<T>, n: nat, less: (T, T) -> bool)
    requires n <= |s|
  {
    OrderedExcept(s, n, less, -1)
  }

  lemma {:induction false} RootIsLeast<T(!new)>(s: seq<T>, n: nat, less: (T, T) -> bool, i: nat)
    requires StrictWeakOrder(less) && n <= |s| && IsHeap(s, n, less) && i < n
    ensures !less(s[i], s[0])
  {
    if i > 0 {
      RootIsLeast(s, n, less, Parent(i));
    }
  }

  function Swapped<T>(s: seq<T>, i: nat, j: nat): (r: seq<T>)
    requires i < |s| && j < |s|
    ensures |r| == |s|
  {
    s[i := s[j]][j := s[i]]
  }

  lemma SwapKeepsAll<T>(s: seq<T>, i: nat, j: nat)
    requires i < |s| && j < |s|
    ensures multiset(Swapped(s, i, j)) == multiset(s)
  {}

  class MsgHeap<T(!new)> {
    const priority: (T, T) -> bool
    var items: seq<T>

    ghost predicate Valid()
      reads this
    {
      IsHeap(items, |items|, priority)
    }

    constructor (priority: (T, T) -> bool)
      ensures this.priority == priority && items == [] && Valid()
    {
      this.priority := priority;
      items := [];
    }

    /** `heap.Push`: append, then sift up. */
    method Push(x: T)
      modifies this
      ensures multiset(items) == old(multiset(items)) + multiset{x}
      ensures old(Valid()) && StrictWeakOrder(priority) ==> Valid()
    {
      items := items + [x];
      Up(|items| - 1);
    }

    method Up(j0: nat)
      requires j0 == |items| - 1
      modifies this
      ensures multiset(items) == old(multiset(items))
      ensures old(OrderedExcept(items, |items|, priority, j0)) && StrictWeakOrder(priority) ==> Valid()
    {
      var j: nat := j0;
      ghost var good := OrderedExcept(items, |items|, priority, j0) && StrictWeakOrder(priority);
      while j > 0 && priority(items[j], items[Parent(j)])
        invariant j < |items| && multiset(items) == old(multiset(items))
        invariant good ==> OrderedExcept(items, |items|, priority, j)
        invariant good ==> GrandchildrenFine(items, |items|, priority, j)
      {
        var i := Parent(j);
        SwapKeepsAll(items, i, j);
        ghost var was := items;
        items := Swapped(items, i, j);
        if good {
          UpStep(was, priority, j);
        }
        j := i;
      }
    }

    /** `heap.Pop`: move the last element to the root, sift it down, drop the old root. */
    method Pop() returns (x: T)
      requires |items| > 0
      modifies this
      ensures old(multiset(items)) == multiset(items) + multiset{x}
      ensures old(Valid()) && StrictWeakOrder(priority) ==>
                Valid() && forall y | y in old(items) :: !priority(y, x)
    {
      var n := |items| - 1;
      ghost var before := items;
      ghost var good := Valid() && StrictWeakOrder(priority);
      SwapKeepsAll(items, 0, n);
      items := Swapped(items, 0, n);
      Down(n);
      x := items[n];
      assert items == items[..n] + [items[n]];
      items := items[..n];
      if good {
        forall y | y in before ensures !priority(y, x) {
          var i :| 0 <= i < |before| && before[i] == y;
          RootIsLeast(before, |before|, priority, i);
        }
      }
    }

    /** Sift the root down within the first n elements. */
    method Down(n: nat)
      requires n < |items|
      modifies this
      ensures multiset(items) == old(multiset(items)) && |items| == old(|items|) && items[n..] == old(items[n..])
      ensures (StrictWeakOrder(priority) && old(BelowFine(items, n, priority, 0))) ==> IsHeap(items, n, priority)
    {
      hide BelowFine, IsHeap, StrictWeakOrder;
      var i := 0;
      ghost var good := StrictWeakOrder(priority) && BelowFine(items, n, priority, 0);
      while 2 * i + 1 < n
        invariant |items| == old(|items|) && items[n..] == old(items[n..])
        invariant multiset(items) == old(multiset(items))
        invariant good ==> BelowFine(items, n, priority, i)
        decreases n - i
      {
        var j := 2 * i + 1;
        if j + 1 < n && priority(items[j + 1], items[j]) {
          j := j + 1;
        }
        if !priority(items[j], items[i]) {
          if good {
            Settled(items, n, priority, i, j);
          }
          return;
        }
        SwapKeepsAll(items, i, j);
        SwapKeepsTail(items, n, i, j);
        if good {
          DownStep(items, n, priority, i, j);
        }
        items := Swapped(items, i, j);
        i := j;
      }
      if good {
        NoChildren(items, n, priority, i);
      }
    }
  }

  lemma SwapKeepsTail<T>(s: seq<T>, n: nat, i: nat, j: nat)
    requires i < n && j < n <= |s|
    ensures Swapped(s, i, j)[n..] == s[n..]
  {}

  lemma NoChildren<T>(s: seq<T>, n: nat, less: (T, T) -> bool, i: nat)
    requires n <= |s| && BelowFine(s, n, less, i) && 2 * i + 1 >= n
    ensures IsHeap(s, n, less)
  {
    forall k | 0 < k < n ensures !less(s[k], s[Parent(k)]) {
      Children(i, k);
    }
  }

  /** The children of a hole are already in order with the hole's parent. */
  ghost predicate GrandchildrenFine<T>(s: seq<T>, n: nat, less: (T, T) -> bool, hole: nat)
    requires n <= |s|
  {
    hole > 0 ==> forall i | 0 < i < n && Parent(i) == hole :: !less(s[i], s[Parent(hole)])
  }

  /** Everything is in order except between the hole and its children. */
  ghost predicate BelowFine<T>(s: seq<T>, n: nat, less: (T, T) -> bool, hole: nat)
    requires n <= |s|
  {
    (forall i | 0 < i < n && Parent(i) != hole :: !less(s[i], s[Parent(i)])) &&
    GrandchildrenFine(s, n, less, hole)
  }

  lemma UpStep<T(!new)>(s: seq<T>, less: (T, T) -> bool, j: nat)
    requires StrictWeakOrder(less) && 0 < j < |s| && less(s[j], s[Parent(j)])
    requires OrderedExcept(s, |s|, less, j) && GrandchildrenFine(s, |s|, less, j)
    ensures var r := Swapped(s, Parent(j), j);
            OrderedExcept(r, |r|, less, Parent(j)) && GrandchildrenFine(r, |r|, less, Parent(j))
  {
    var p := Parent(j);
    var r := Swapped(s, p, j);
    forall i | 0 < i < |r| && i != p ensures !less(r[i], r[Parent(i)]) {
      if i != j && Parent(i) == p {
        assert !less(s[i], s[p]);
      }
    }
    if p > 0 {
      forall i | 0 < i < |r| && Parent(i) == p ensures !less(r[i], r[Parent(p)]) {
        assert !less(s[p], s[Parent(p)]);
        if i != j {
          assert !less(s[i], s[p]);
        }
      }
    }
  }

  lemma Children(i: nat, k: nat)
    requires k > 0
    ensures Parent(k) == i <==> k == 2 * i + 1 || k == 2 * i + 2
  {}

  lemma Settled<T(!new)>(s: seq<T>, n: nat, less: (T, T) -> bool, i: nat, j: nat)
    requires StrictWeakOrder(less) && n <= |s| && BelowFine(s, n, less, i)
    requires 2 * i + 1 < n && (j == 2 * i + 1 || (j == 2 * i + 2 && j < n)) && !less(s[j], s[i])
    requires j == 2 * i + 1 ==> 2 * i + 2 < n ==> !less(s[2 * i + 2], s[j])
    requires j == 2 * i + 2 ==> less(s[j], s[2 * i + 1])
    ensures IsHeap(s, n, less)
  {
    forall k | 0 < k < n ensures !less(s[k], s[Parent(k)]) {
      Children(i, k);
    }
  }

  lemma DownStep<T(!new)>(s: seq<T>, n: nat, less: (T, T) -> bool, i: nat, j: nat)
    requires StrictWeakOrder(less) && n <= |s| && BelowFine(s, n, less, i)
    requires 2 * i + 1 < n && (j == 2 * i + 1 || (j == 2 * i + 2 && j < n)) && less(s[j], s[i])
    requires j == 2 * i + 1 ==> 2 * i + 2 < n ==> !less(s[2 * i + 2], s[j])
    requires j == 2 * i + 2 ==> less(s[j], s[2 * i + 1])
    ensures BelowFine(Swapped(s, i, j), n, less, j)
  {
    var r := Swapped(s, i, j);
    Children(i, j);
    forall k | 0 < k < n && Parent(k) != j ensures !less(r[k], r[Parent(k)]) {
      Children(i, k);
    }
    forall k | 0 < k < n && Parent(k) == j ensures !less(r[k], r[i]) {
      assert k != i && k != j && Parent(k) != i;
      assert !less(s[k], s[j]);
    }
  }
}

/**
 The wake-up protocol of the priority mailbox: senders, a closer and the `process` thread.

 Sections under the lock are atomic; between them anything may happen.  The one-slot signal channel never loses a
 wake-up, closing never strands a message, and what comes out is exactly what was accepted.
 */
module PriorityMailboxes {
  import opened MsgHeaps

  /** Where `process` is: at the select, past a receive with its `ok` flag, holding a popped message, or returned. */
  datatype Pc<T> = Selecting | Draining(ok: bool) | Sending(msg: T, ok: bool) | Returned

  datatype State<T> = State(
    pq: multiset<T>, signal: bool, closed: bool, pc: Pc<T>,
    out: seq<T>, consumed: seq<T>, accepted: seq<T>, popped: seq<T>)

  datatype Action<T> = Enqueue(msg: T) | Close | Receive | Inspect | Send | Consume

  const OUT_CAPACITY: nat := 16

  ghost predicate Init<T>(s: State<T>) {
    s == State(multiset{}, false, false, Selecting, [], [], [], [])
  }

  /** A message that no other one in the heap comes before. */
  ghost predicate Foremost<T(!new)>(pq: multiset<T>, less: (T, T) -> bool, msg: T) {
    msg in pq && (StrictWeakOrder(less) ==> forall m | m in pq :: !less(m, msg))
  }

  /** The message is taken off the heap and in hand. */
  function Popped<T>(s: State<T>, msg: T): State<T>
    requires s.pc.Draining?
  {
    s.(pq := s.pq - multiset{msg}, pc := Sending(msg, s.pc.ok), popped := s.popped + [msg])
  }

  /** A closed signal channel still yields its buffered token first; only then is `ok` false. */
  ghost predicate Step<T(!new)>(s: State<T>, a: Action<T>, t: State<T>, less: (T, T) -> bool) {
    match a
    case Enqueue(msg) =>
      t == if s.closed then s
           else s.(pq := s.pq + multiset{msg}, signal := true, accepted := s.accepted + [msg])
    case Close => t == s.(closed := true)
    case Receive =>
      s.pc == Selecting && (s.signal || s.closed) && t == s.(signal := false, pc := Draining(s.signal))
    case Inspect =>
      s.pc.Draining? &&
      if s.pq == multiset{} then t == s.(pc := if s.pc.ok then Selecting else Returned)
      else exists msg :: Foremost(s.pq, less, msg) && t == Popped(s, msg)
    case Send =>
      s.pc.Sending? && |s.out| < OUT_CAPACITY && t == s.(out := s.out + [s.pc.msg], pc := Draining(s.pc.ok))
    case Consume => |s.out| > 0 && t == s.(out := s.out[1..], consumed := s.consumed + [s.out[0]])
  }

  function InHand<T>(pc: Pc<T>): multiset<T> {
    if pc.Sending? then multiset{pc.msg} else multiset{}
  }

  /** Nothing accepted is lost, repeated or invented. */
  ghost predicate Conserved<T>(s: State<T>) {
    multiset(s.accepted) == s.pq + InHand(s.pc) + multiset(s.consumed + s.out)
  }

  /** A non-empty heap always has someone coming for it. */
  ghost predicate Awake<T>(s: State<T>) {
    (s.pq != multiset{} ==> s.signal || s.closed || s.pc.Draining? || s.pc.Sending?) &&
    ((s.pc.Draining? || s.pc.Sending?) && !s.pc.ok ==> s.closed) &&
    (s.pc.Returned? ==> s.closed && s.pq == multiset{})
  }

  /** Messages come out in the order in which they were popped. */
  ghost predicate InOrder<T>(s: State<T>) {
    s.popped == s.consumed + s.out + if s.pc.Sending? then [s.pc.msg] else []
  }

  ghost predicate Inv<T>(s: State<T>) {
    Conserved(s) && Awake(s) && InOrder(s)
  }

  lemma StepKeepsInv<T(!new)>(s: State<T>, a: Action<T>, t: State<T>, less: (T, T) -> bool)
    requires Inv(s) && Step(s, a, t, less)
    ensures Inv(t)
  {
    StepConserves(s, a, t, less);
    StepKeepsAwake(s, a, t, less);
    StepKeepsOrder(s, a, t, less);
    hide Conserved, Awake, InOrder, Step;
  }

  lemma StepKeepsOrder<T(!new)>(s: State<T>, a: Action<T>, t: State<T>, less: (T, T) -> bool)
    requires InOrder(s) && Step(s, a, t, less)
    ensures InOrder(t)
  {
    hide Foremost, InOrder;
    match a
    case Enqueue(_) => OrderUntouched(s, t);
    case Close => OrderUntouched(s, t);
    case Receive => OrderUntouched(s, t);
    case Inspect =>
      if s.pq == multiset{} {
        OrderUntouched(s, t);
      } else {
        var msg :| Foremost(s.pq, less, msg) && t == Popped(s, msg);
        PopKeepsOrder(s, msg);
      }
    case Send => SendKeepsOrder(s);
    case Consume => ConsumeKeepsOrder(s);
  }

  lemma OrderUntouched<T>(s: State<T>, t: State<T>)
    requires InOrder(s) && t.out == s.out && t.consumed == s.consumed && t.popped == s.popped
    requires t.pc == s.pc || (!t.pc.Sending? && !s.pc.Sending?)
    ensures InOrder(t)
  {}

  lemma PopKeepsOrder<T>(s: State<T>, msg: T)
    requires InOrder(s) && s.pc.Draining?
    ensures InOrder(Popped(s, msg))
  {
    assert s.popped == s.consumed + s.out;
  }

  lemma SendKeepsOrder<T>(s: State<T>)
    requires InOrder(s) && s.pc.Sending?
    ensures InOrder(s.(out := s.out + [s.pc.msg], pc := Draining(s.pc.ok)))
  {
    assert s.consumed + (s.out + [s.pc.msg]) == s.consumed + s.out + [s.pc.msg];
  }

  lemma ConsumeKeepsOrder<T>(s: State<T>)
    requires InOrder(s) && |s.out| > 0
    ensures InOrder(s.(out := s.out[1..], consumed := s.consumed + [s.out[0]]))
  {
    assert (s.consumed + [s.out[0]]) + s.out[1..] == s.consumed + s.out;
  }

  lemma StepKeepsAwake<T(!new)>(s: State<T>, a: Action<T>, t: State<T>, less: (T, T) -> bool)
    requires Awake(s) && Step(s, a, t, less)
    ensures Awake(t)
  {
    hide Foremost;
    match a
    case Enqueue(_) =>
    case Close =>
    case Receive =>
    case Inspect =>
      if s.pq != multiset{} {
        var msg :| Foremost(s.pq, less, msg) && t == Popped(s, msg);
      }
    case Send =>
    case Consume =>
  }

  lemma StepConserves<T(!new)>(s: State<T>, a: Action<T>, t: State<T>, less: (T, T) -> bool)
    requires Conserved(s) && Step(s, a, t, less)
    ensures Conserved(t)
  {
    hide Conserved, Foremost;
    match a
    case Enqueue(msg) => AcceptConserves(s, msg);
    case Close => SameContents(s, t);
    case Receive => SameContents(s, t);
    case Send => SendConserves(s);
    case Consume => ConsumeConserves(s);
    case Inspect =>
      if s.pq == multiset{} {
        SameContents(s, t);
      } else {
        var msg :| Foremost(s.pq, less, msg) && t == Popped(s, msg);
        PopConserves(s, msg, less);
      }
  }

  lemma SameContents<T>(s: State<T>, t: State<T>)
    requires Conserved(s) && t.pq == s.pq && t.out == s.out && t.consumed == s.consumed && t.accepted == s.accepted
    requires InHand(t.pc) == InHand(s.pc)
    ensures Conserved(t)
  {}

  lemma AcceptConserves<T>(s: State<T>, msg: T)
    requires Conserved(s)
    ensures Conserved(s.(pq := s.pq + multiset{msg}, signal := true, accepted := s.accepted + [msg]))
  {
    assert multiset(s.accepted + [msg]) == multiset(s.accepted) + multiset{msg};
  }

  lemma SendConserves<T>(s: State<T>)
    requires Conserved(s) && s.pc.Sending?
    ensures Conserved(s.(out := s.out + [s.pc.msg], pc := Draining(s.pc.ok)))
  {
    assert s.consumed + (s.out + [s.pc.msg]) == (s.consumed + s.out) + [s.pc.msg];
  }

  lemma ConsumeConserves<T>(s: State<T>)
    requires Conserved(s) && |s.out| > 0
    ensures Conserved(s.(out := s.out[1..], consumed := s.consumed + [s.out[0]]))
  {
    assert (s.consumed + [s.out[0]]) + s.out[1..] == s.consumed + s.out;
  }

  lemma PopConserves<T(!new)>(s: State<T>, msg: T, less: (T, T) -> bool)
    requires Conserved(s) && Foremost(s.pq, less, msg) && s.pc.Draining?
    ensures Conserved(Popped(s, msg))
  {
    assert (s.pq - multiset{msg}) + multiset{msg} == s.pq;
  }

  ghost predicate IsRun<T(!new)>(run: seq<State<T>>, acts: seq<Action<T>>, less: (T, T) -> bool) {
    |run| == |acts| + 1 && Init(run[0]) && forall i | 0 <= i < |acts| :: Step(run[i], acts[i], run[i + 1], less)
  }

  lemma {:induction false} NoWakeUpIsLost<T(!new)>(run: seq<State<T>>, acts: seq<Action<T>>, less: (T, T) -> bool,
                                                   k: nat)
    requires IsRun(run, acts, less) && k <= |acts|
    ensures Inv(run[k])
  {
    hide Inv, Step;
    if k == 0 {
      InitIsInv(run[0]);
    } else {
      NoWakeUpIsLost(run, acts, less, k - 1);
      StepKeepsInv(run[k - 1], acts[k - 1], run[k], less);
    }
  }

  lemma InitIsInv<T>(s: State<T>)
    requires Init(s)
    ensures Inv(s)
  {}

  /** `process` is blocked: it has no step of its own, with room for its output. */
  ghost predicate Blocked<T(!new)>(s: State<T>, less: (T, T) -> bool) {
    |s.out| < OUT_CAPACITY && forall a, t | a == Receive || a == Inspect || a == Send :: !Step(s, a, t, less)
  }

  lemma {:induction false} SomeoneIsForemost<T(!new)>(pq: multiset<T>, less: (T, T) -> bool)
    requires pq != multiset{}
    ensures exists msg :: Foremost(pq, less, msg)
    decreases |pq|
  {
    var m :| m in pq;
    var rest := pq - multiset{m};
    if StrictWeakOrder(less) {
      if rest == multiset{} {
        assert pq == multiset{m};
        assert Foremost(pq, less, m);
      } else {
        SomeoneIsForemost(rest, less);
        var f :| Foremost(rest, less, f);
        assert forall x | x in pq :: x in rest || x == m;
        assert Foremost(pq, less, if less(m, f) then m else f);
      }
    } else {
      assert Foremost(pq, less, m);
    }
  }

  /** When `process` has nothing to do, every accepted message has come out; once closed it has returned. */
  lemma BlockedMeansDelivered<T(!new)>(s: State<T>, less: (T, T) -> bool)
    requires Inv(s) && Blocked(s, less)
    ensures s.pq == multiset{} && multiset(s.accepted) == multiset(s.consumed + s.out)
    ensures s.closed ==> s.pc == Returned
  {
    hide Step;
    if s.pc != Returned && (s.pc == Selecting ==> s.signal || s.closed) {
      ProcessHasStep(s, less);
    }
  }

  lemma ProcessHasStep<T(!new)>(s: State<T>, less: (T, T) -> bool)
    requires |s.out| < OUT_CAPACITY && s.pc != Returned && (s.pc == Selecting ==> s.signal || s.closed)
    ensures exists a, t | a == Receive || a == Inspect || a == Send :: Step(s, a, t, less)
  {
    match s.pc
    case Selecting =>
      assert Step(s, Receive, s.(signal := false, pc := Draining(s.signal)), less);
    case Draining(ok) =>
      if s.pq == multiset{} {
        assert Step(s, Inspect, s.(pc := if ok then Selecting else Returned), less);
      } else {
        SomeoneIsForemost(s.pq, less);
        var msg :| Foremost(s.pq, less, msg);
        assert Step(s, Inspect, Popped(s, msg), less);
      }
    case Sending(msg, ok) =>
      assert Step(s, Send, s.(out := s.out + [msg], pc := Draining(ok)), less);
  }

  /** Steps `process` can still take without new messages. */
  function Work<T>(s: State<T>): nat {
    3 * |s.pq| + (match s.pc case Selecting => (if s.signal then 2 else 0) + (if s.closed then 2 else 0)
                  case Draining(ok) => 1 + (if s.signal then 2 else 0) + (if s.closed && ok then 2 else 0)
                  case Sending(_, ok) => 2 + (if s.signal then 2 else 0) + (if s.closed && ok then 2 else 0)
                  case Returned => 0)
  }

  /** Left alone, `process` finishes what it has: each of its steps uses up work. */
  lemma ProcessMakesProgress<T(!new)>(s: State<T>, a: Action<T>, t: State<T>, less: (T, T) -> bool)
    requires Inv(s) && Step(s, a, t, less) && (a == Receive || a == Inspect || a == Send)
    ensures Work(t) < Work(s)
  {
    if a == Inspect && s.pq != multiset{} {
      var msg :| Foremost(s.pq, less, msg) && t == Popped(s, msg);
      assert |s.pq - multiset{msg}| == |s.pq| - 1;
    }
  }

  // ---------- the mailbox object ----------

  lemma ForemostPopped<T(!new)>(before: seq<T>, after: seq<T>, msg: T, less: (T, T) -> bool)
    requires multiset(before) == multiset(after) + multiset{msg}
    requires StrictWeakOrder(less) ==> forall y | y in before :: !less(y, msg)
    ensures Foremost(multiset(before), less, msg) && multiset(after) == multiset(before) - multiset{msg}
  {
    assert forall m | m in multiset(before) :: m in before;
  }

  /** The mailbox as the code keeps it; `Enqueue`, `Close` and `TakeNext` are its sections under the lock. */
  class PriorityMailbox<T(!new)> {
    const pq: MsgHeap<T>
    var signal: bool
    var closed: bool
    var pc: Pc<T>
    var out: seq<T>
    ghost var consumed: seq<T>
    ghost var accepted: seq<T>
    ghost var popped: seq<T>

    ghost function Value(): State<T>
      reads this, pq
    {
      State(multiset(pq.items), signal, closed, pc, out, consumed, accepted, popped)
    }

    ghost predicate HeapOk()
      reads this, pq
    {
      StrictWeakOrder(pq.priority) ==> pq.Valid()
    }

    constructor (less: (T, T) -> bool)
      ensures fresh(pq) && pq.priority == less && Init(Value()) && HeapOk()
    {
      pq := new MsgHeap<T>(less);
      signal, closed, pc, out := false, false, Selecting, [];
      consumed, accepted, popped := [], [], [];
    }

    /** False is the error of a closed mailbox. */
    method Enqueue(msg: T) returns (ok: bool)
      requires HeapOk()
      modifies this, pq
      ensures HeapOk() && ok == !old(closed)
      ensures Step(old(Value()), Action.Enqueue(msg), Value(), pq.priority)
    {
      if closed {
        return false;
      }
      pq.Push(msg);
      signal := true;
      accepted := accepted + [msg];
      return true;
    }

    method Close()
      modifies this
      ensures Step(old(Value()), Action.Close, Value(), pq.priority)
    {
      if closed {
        return;
      }
      closed := true;
    }

    /** The receive of the select statement, when it does not block. */
    method ReceiveSignal()
      requires pc == Selecting && (signal || closed)
      modifies this
      ensures Step(old(Value()), Receive, Value(), pq.priority)
    {
      pc := Draining(signal);
      signal := false;
    }

    /** From taking the lock to releasing it: pop the next message, or leave the drain loop. */
    method TakeNext()
      requires HeapOk() && pc.Draining?
      modifies this, pq
      ensures HeapOk()
      ensures Step(old(Value()), Inspect, Value(), pq.priority)
    {
      hide Foremost, StrictWeakOrder;
      if |pq.items| > 0 {
        ghost var before := pq.items;
        var msg := pq.Pop();
        ForemostPopped(before, pq.items, msg, pq.priority);
        pc := Sending(msg, pc.ok);
        popped := popped + [msg];
      } else {
        pc := if pc.ok then Selecting else Returned;
      }
    }

    method Emit()
      requires pc.Sending? && |out| < OUT_CAPACITY
      modifies this
      ensures Step(old(Value()), Send, Value(), pq.priority)
    {
      out := out + [pc.msg];
      pc := Draining(pc.ok);
    }
  }
}
