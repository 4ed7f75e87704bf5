/**
 The observed-remove set: a replica's state, its merge, the record it is shipped as, and runs of many replicas
 exchanging snapshots in any order and any number of times.

 Tags stand for the UUIDs `Add` draws; that they are globally fresh is the only hypothesis.
 */
module ORSets {
  type Tag = nat

  datatype State<T> = State(added: map<T, set<Tag>>, removed: set<Tag>)

  function Empty<T>(): State<T> {
    State(map[], {})
  }

  function TagsOf<T>(added: map<T, set<Tag>>, el: T): set<Tag> {
    if el in added then added[el] else {}
  }

  predicate Has<T>(s: State<T>, el: T) {
    exists tag | tag in TagsOf(s.added, el) :: tag !in s.removed
  }

  ghost function Elements<T>(s: State<T>): set<T> {
    set el | el in s.added && Has(s, el)
  }

  function Plus<T>(s: State<T>, el: T, tag: Tag): State<T> {
    s.(added := s.added[el := TagsOf(s.added, el) + {tag}])
  }

  function Minus<T>(s: State<T>, el: T): State<T> {
    s.(removed := s.removed + TagsOf(s.added, el))
  }

  function Union<T>(a: map<T, set<Tag>>, c: map<T, set<Tag>>): map<T, set<Tag>> {
    map el | el in a.Keys + c.Keys :: TagsOf(a, el) + TagsOf(c, el)
  }

  function Merged<T>(a: State<T>, c: State<T>): State<T> {
    State(Union(a.added, c.added), a.removed + c.removed)
  }

  lemma SameMap<T>(a: map<T, set<Tag>>, c: map<T, set<Tag>>)
    requires a.Keys == c.Keys && forall el | el in a.Keys :: TagsOf(a, el) == TagsOf(c, el)
    ensures a == c
  {
    assert forall el | el in a.Keys :: a[el] == TagsOf(a, el) && c[el] == TagsOf(c, el);
  }

  lemma UnionEmpty<T>(a: map<T, set<Tag>>)
    ensures Union(a, map[]) == a && Union(map[], a) == a
  {
    SameMap(Union(a, map[]), a);
    SameMap(Union(map[], a), a);
  }

  lemma UnionAssociates<T>(a: map<T, set<Tag>>, c: map<T, set<Tag>>, e: map<T, set<Tag>>)
    ensures Union(Union(a, c), e) == Union(a, Union(c, e))
  {
    SameMap(Union(Union(a, c), e), Union(a, Union(c, e)));
  }

  /** One more key of a map whose `rest` is still to come. */
  lemma UnionOneMore<T>(m: map<T, set<Tag>>, rest: set<T>, el: T)
    requires rest <= m.Keys && el in rest
    ensures Union(m - rest, map[el := m[el]]) == m - (rest - {el})
  {
    SameMap(Union(m - rest, map[el := m[el]]), m - (rest - {el}));
  }

  // ---------- the object ----------

  datatype TaggedElem<T> = TaggedElem(elem: T, tags: seq<Tag>)

  /** What is marshalled: the maps flattened to lists, in whatever order iteration takes. */
  datatype Record<T> = Record(added: seq<TaggedElem<T>>, removed: seq<Tag>)

  ghost function Listed<T>(s: seq<T>): set<T> {
    set x | x in s
  }

  ghost function RecordedTags<T>(entries: seq<TaggedElem<T>>): map<T, set<Tag>>
  {
    if |entries| == 0 then map[]
    else
      var last := entries[|entries| - 1];
      Union(RecordedTags(entries[..|entries| - 1]), map[last.elem := Listed(last.tags)])
  }

  ghost function Recorded<T>(r: Record<T>): State<T> {
    State(RecordedTags(r.added), Listed(r.removed))
  }

  class ORSet<T(==)> {
    var added: map<T, set<Tag>>
    var removed: set<Tag>

    ghost function Value(): State<T>
      reads this
    {
      State(added, removed)
    }

    constructor ()
      ensures Value() == Empty()
    {
      added, removed := map[], {};
    }

    method Add(el: T, tag: Tag)
      modifies this
      ensures Value() == Plus(old(Value()), el, tag)
    {
      if el !in added {
        added := added[el := {}];
      }
      added := added[el := added[el] + {tag}];
    }

    method Remove(elem: T)
      modifies this
      ensures Value() == Minus(old(Value()), elem)
    {
      if elem in added {
        var tags := added[elem];
        while tags != {}
          invariant added == old(added) && tags <= added[elem]
          invariant removed + tags == old(removed) + added[elem]
        {
          var tag :| tag in tags;
          removed := removed + {tag};
          tags := tags - {tag};
        }
      }
    }

    method Contains(el: T) returns (present: bool)
      ensures present == Has(Value(), el)
    {
      if el !in added {
        return false;
      }
      var ids := added[el];
      while ids != {}
        invariant ids <= added[el]
        invariant forall tag | tag in added[el] && tag !in ids :: tag in removed
      {
        var key :| key in ids;
        if key !in removed {
          return true;
        }
        ids := ids - {key};
      }
      return false;
    }

    method Size() returns (size: nat)
      ensures size == |Elements(Value())|
    {
      size := 0;
      var elements := added.Keys;
      ghost var found: set<T> := {};
      while elements != {}
        invariant elements <= added.Keys && size == |found|
        invariant found == set el | el in added && el !in elements && Has(Value(), el)
      {
        var element :| element in elements;
        elements := elements - {element};
        var present := Contains(element);
        if present {
          size := size + 1;
          found := found + {element};
        }
      }
      assert found == Elements(Value());
    }

    /** Put tags under an element, as both merges do. */
    method Absorb(elem: T, tags: set<Tag>)
      modifies this
      ensures added == Union(old(added), map[elem := tags]) && removed == old(removed)
    {
      if elem !in added {
        added := added[elem := {}];
      }
      var rest := tags;
      while rest != {}
        invariant rest <= tags && elem in added && removed == old(removed)
        invariant added == old(added)[elem := added[elem]]
        invariant added[elem] + rest == TagsOf(old(added), elem) + tags
      {
        var tag :| tag in rest;
        added := added[elem := added[elem] + {tag}];
        rest := rest - {tag};
      }
      SameMap(added, Union(old(added), map[elem := tags]));
    }

    method Merge(other: ORSet<T>)
      modifies this
      ensures Value() == Merged(old(Value()), old(other.Value()))
    {
      var snapAdded, snapRemoved := other.added, other.removed;
      var elems := snapAdded.Keys;
      assert snapAdded - elems == map[];
      UnionEmpty(added);
      while elems != {}
        invariant elems <= snapAdded.Keys && removed == old(removed)
        invariant added == Union(old(added), snapAdded - elems)
      {
        var elem :| elem in elems;
        Absorb(elem, snapAdded[elem]);
        UnionAssociates(old(added), snapAdded - elems, map[elem := snapAdded[elem]]);
        UnionOneMore(snapAdded, elems, elem);
        elems := elems - {elem};
      }
      assert snapAdded - {} == snapAdded;
      var tags := snapRemoved;
      while tags != {}
        invariant tags <= snapRemoved && removed + tags == old(removed) + snapRemoved
        invariant added == Union(old(added), snapAdded)
      {
        var tag :| tag in tags;
        removed := removed + {tag};
        tags := tags - {tag};
      }
    }

    /** The lists say exactly what the maps say. */
    method Marshal() returns (r: Record<T>)
      ensures Recorded(r) == Value()
    {
      var entries: seq<TaggedElem<T>> := [];
      var keys := added.Keys;
      assert added - keys == map[];
      while keys != {}
        invariant keys <= added.Keys && RecordedTags(entries) == added - keys
      {
        var key :| key in keys;
        var tags := Flatten(added[key]);
        ghost var before := entries;
        entries := entries + [TaggedElem(key, tags)];
        assert entries[..|before|] == before;
        UnionOneMore(added, keys, key);
        keys := keys - {key};
      }
      var gone := Flatten(removed);
      return Record(entries, gone);
    }

    method UnmarshalAndMerge(r: Record<T>)
      modifies this
      ensures Value() == Merged(old(Value()), Recorded(r))
    {
      UnionEmpty(added);
      for i := 0 to |r.added|
        invariant removed == old(removed) && added == Union(old(added), RecordedTags(r.added[..i]))
      {
        var te := r.added[i];
        assert r.added[..i + 1][..i] == r.added[..i];
        var tags: set<Tag> := set tag | tag in te.tags;
        Absorb(te.elem, tags);
        UnionAssociates(old(added), RecordedTags(r.added[..i]), map[te.elem := tags]);
      }
      assert r.added[..|r.added|] == r.added;
      for i := 0 to |r.removed|
        invariant added == Union(old(added), RecordedTags(r.added))
        invariant removed == old(removed) + Listed(r.removed[..i])
      {
        removed := removed + {r.removed[i]};
        assert Listed(r.removed[..i + 1]) == Listed(r.removed[..i]) + {r.removed[i]};
      }
      assert r.removed[..|r.removed|] == r.removed;
    }
  }

  method Flatten(tags: set<Tag>) returns (s: seq<Tag>)
    ensures Listed(s) == tags
  {
    s := [];
    var rest := tags;
    while rest != {}
      invariant rest <= tags && Listed(s) == tags - rest
    {
      var tag :| tag in rest;
      assert Listed(s + [tag]) == Listed(s) + {tag};
      s := s + [tag];
      rest := rest - {tag};
    }
  }

  // ---------- a state is the effect of the operations it reflects ----------

  datatype Op<T> = Added(el: T, tag: Tag) | Removed(el: T, observed: set<Tag>)

  ghost function AddedElements<T>(ops: set<Op<T>>): set<T> {
    set op | op in ops && op.Added? :: op.el
  }

  ghost function AddedTags<T>(ops: set<Op<T>>, el: T): set<Tag> {
    set op | op in ops && op.Added? && op.el == el :: op.tag
  }

  ghost function RemovedTags<T>(ops: set<Op<T>>): set<Tag> {
    set op, tag | op in ops && op.Removed? && tag in op.observed :: tag
  }

  ghost function KnownTags<T>(ops: set<Op<T>>): set<Tag> {
    set op | op in ops && op.Added? :: op.tag
  }

  ghost function Effect<T>(ops: set<Op<T>>): State<T> {
    State(map el | el in AddedElements(ops) :: AddedTags(ops, el), RemovedTags(ops))
  }

  lemma EffectTags<T>(ops: set<Op<T>>, el: T)
    ensures TagsOf(Effect(ops).added, el) == AddedTags(ops, el)
  {}

  lemma EffectOfUnion<T>(a: set<Op<T>>, c: set<Op<T>>)
    ensures AddedElements(a + c) == AddedElements(a) + AddedElements(c)
    ensures forall el :: AddedTags(a + c, el) == AddedTags(a, el) + AddedTags(c, el)
    ensures RemovedTags(a + c) == RemovedTags(a) + RemovedTags(c)
    ensures KnownTags(a + c) == KnownTags(a) + KnownTags(c)
  {}

  /** Merging two states is putting their histories together. */
  lemma MergeIsUnionOfHistories<T>(a: set<Op<T>>, c: set<Op<T>>)
    ensures Merged(Effect(a), Effect(c)) == Effect(a + c)
  {
    EffectOfUnion(a, c);
    forall ops, el: T ensures TagsOf(Effect(ops).added, el) == AddedTags(ops, el) {
      EffectTags(ops, el);
    }
    hide AddedElements, AddedTags, RemovedTags;
    SameMap(Merged(Effect(a), Effect(c)).added, Effect(a + c).added);
  }

  lemma PlusTags<T>(s: State<T>, el: T, tag: Tag, e: T)
    ensures TagsOf(Plus(s, el, tag).added, e) == TagsOf(s.added, e) + if e == el then {tag} else {}
  {}

  lemma AddExtendsHistory<T>(ops: set<Op<T>>, el: T, tag: Tag)
    ensures Plus(Effect(ops), el, tag) == Effect(ops + {Added(el, tag)})
  {
    var op := {Added(el, tag)};
    assert AddedElements(op) == {el} && RemovedTags(op) == {};
    assert forall e :: AddedTags(op, e) == if e == el then {tag} else {};
    EffectOfUnion(ops, op);
    forall e ensures TagsOf(Plus(Effect(ops), el, tag).added, e) == TagsOf(Effect(ops + op).added, e) {
      EffectTags(ops, e);
      EffectTags(ops + op, e);
      PlusTags(Effect(ops), el, tag, e);
    }
    hide AddedElements, AddedTags, RemovedTags, TagsOf;
    SameMap(Plus(Effect(ops), el, tag).added, Effect(ops + op).added);
  }

  lemma RemoveExtendsHistory<T>(ops: set<Op<T>>, el: T)
    ensures Minus(Effect(ops), el) == Effect(ops + {Removed(el, AddedTags(ops, el))})
  {
    var op := {Removed(el, AddedTags(ops, el))};
    assert AddedElements(op) == {} && RemovedTags(op) == AddedTags(ops, el);
    assert forall e :: AddedTags(op, e) == {};
    EffectOfUnion(ops, op);
    EffectTags(ops, el);
    forall e ensures TagsOf(Effect(ops).added, e) == TagsOf(Effect(ops + op).added, e) {
      EffectTags(ops, e);
      EffectTags(ops + op, e);
    }
    hide AddedElements, AddedTags, RemovedTags;
    SameMap(Effect(ops).added, Effect(ops + op).added);
  }

  /** An element is there exactly when some addition of it was observed by none of the removals. */
  lemma HasMeansUnobservedAdd<T>(ops: set<Op<T>>, el: T)
    ensures Has(Effect(ops), el) <==> exists add | add in ops :: add.Added? && add.el == el && Unseen(ops, add.tag)
  {
    EffectTags(ops, el);
    forall tag ensures Unseen(ops, tag) <==> tag !in RemovedTags(ops) {}
    if Has(Effect(ops), el) {
      var tag :| tag in AddedTags(ops, el) && tag !in RemovedTags(ops);
      var add :| add in ops && add.Added? && add.el == el && add.tag == tag;
    }
  }

  ghost predicate Unseen<T>(ops: set<Op<T>>, tag: Tag) {
    forall rem | rem in ops && rem.Removed? :: tag !in rem.observed
  }

  // ---------- runs ----------

  datatype Replica<T> = Replica(state: State<T>, ops: set<Op<T>>)

  /** `sent` holds every snapshot ever taken: any may be merged anywhere, at any time, any number of times. */
  datatype System<T> = System(replicas: seq<Replica<T>>, sent: seq<Replica<T>>, used: set<Tag>)

  datatype Action<T> =
    | Add(n: nat, el: T, tag: Tag)
    | Remove(n: nat, el: T)
    | Snapshot(n: nat)
    | MergeIn(n: nat, i: nat)

  predicate Enabled<T>(s: System<T>, a: Action<T>) {
    a.n < |s.replicas| &&
    match a
    case Add(_, _, tag) => tag !in s.used
    case MergeIn(_, i) => i < |s.sent|
    case _ => true
  }

  ghost function After<T>(s: System<T>, a: Action<T>): Replica<T>
    requires Enabled(s, a)
  {
    var r := s.replicas[a.n];
    match a
    case Add(_, el, tag) => Replica(Plus(r.state, el, tag), r.ops + {Added(el, tag)})
    case Remove(_, el) => Replica(Minus(r.state, el), r.ops + {Removed(el, TagsOf(r.state.added, el))})
    case Snapshot(_) => r
    case MergeIn(_, i) => Replica(Merged(r.state, s.sent[i].state), r.ops + s.sent[i].ops)
  }

  ghost function Next<T>(s: System<T>, a: Action<T>): System<T>
    requires Enabled(s, a)
  {
    System(s.replicas[a.n := After(s, a)],
           if a.Snapshot? then s.sent + [s.replicas[a.n]] else s.sent,
           if a.Add? then s.used + {a.tag} else s.used)
  }

  ghost predicate IsRun<T>(run: seq<System<T>>, acts: seq<Action<T>>) {
    |run| == |acts| + 1 &&
    (forall n | 0 <= n < |run[0].replicas| :: run[0].replicas[n] == Replica(Empty(), {})) &&
    run[0].sent == [] && run[0].used == {} &&
    forall i | 0 <= i < |acts| :: Enabled(run[i], acts[i]) && run[i + 1] == Next(run[i], acts[i])
  }

  /** The state is the effect of the history, no removal observed a tag the history does not add, all tags are used. */
  ghost predicate Faithful<T>(r: Replica<T>, used: set<Tag>) {
    r.state == Effect(r.ops) && RemovedTags(r.ops) <= KnownTags(r.ops) <= used
  }

  ghost predicate Inv<T>(s: System<T>) {
    (forall n | 0 <= n < |s.replicas| :: Faithful(s.replicas[n], s.used)) &&
    (forall i | 0 <= i < |s.sent| :: Faithful(s.sent[i], s.used))
  }

  lemma AddIsFaithful<T>(r: Replica<T>, used: set<Tag>, el: T, tag: Tag)
    requires Faithful(r, used)
    ensures Faithful(Replica(Plus(r.state, el, tag), r.ops + {Added(el, tag)}), used + {tag})
  {
    AddExtendsHistory(r.ops, el, tag);
    EffectOfUnion(r.ops, {Added(el, tag)});
    assert KnownTags({Added(el, tag)}) == {tag};
    assert RemovedTags({Added(el, tag)}) == {};
    hide Effect, Plus;
  }

  lemma RemoveIsFaithful<T>(r: Replica<T>, used: set<Tag>, el: T)
    requires Faithful(r, used)
    ensures Faithful(Replica(Minus(r.state, el), r.ops + {Removed(el, TagsOf(r.state.added, el))}), used)
  {
    var tags := AddedTags(r.ops, el);
    RemoveExtendsHistory(r.ops, el);
    EffectTags(r.ops, el);
    EffectOfUnion(r.ops, {Removed(el, tags)});
    assert tags <= KnownTags(r.ops);
    assert KnownTags({Removed(el, tags)}) == {};
    assert RemovedTags({Removed(el, tags)}) == tags;
    hide Effect, Minus, TagsOf;
  }

  lemma MergeIsFaithful<T>(r: Replica<T>, other: Replica<T>, used: set<Tag>)
    requires Faithful(r, used) && Faithful(other, used)
    ensures Faithful(Replica(Merged(r.state, other.state), r.ops + other.ops), used)
  {
    MergeIsUnionOfHistories(r.ops, other.ops);
    EffectOfUnion(r.ops, other.ops);
    hide Effect, Merged;
  }

  lemma AfterIsFaithful<T>(s: System<T>, a: Action<T>)
    requires Inv(s) && Enabled(s, a)
    ensures Faithful(After(s, a), Next(s, a).used)
  {
    var r := s.replicas[a.n];
    assert Faithful(r, s.used);
    match a
    case Add(_, el, tag) => AddIsFaithful(r, s.used, el, tag);
    case Remove(_, el) => RemoveIsFaithful(r, s.used, el);
    case Snapshot(_) =>
    case MergeIn(_, i) => MergeIsFaithful(r, s.sent[i], s.used);
    hide Faithful;
  }

  lemma StepKeepsInv<T>(s: System<T>, a: Action<T>)
    requires Inv(s) && Enabled(s, a)
    ensures Inv(Next(s, a))
  {
    AfterIsFaithful(s, a);
    forall r: Replica<T> | Faithful(r, s.used) ensures Faithful(r, Next(s, a).used) {}
    hide After, Faithful;
  }

  lemma {:induction false} RunsAreFaithful<T>(run: seq<System<T>>, acts: seq<Action<T>>, k: nat)
    requires IsRun(run, acts) && k <= |acts|
    ensures Inv(run[k])
  {
    if k > 0 {
      RunsAreFaithful(run, acts, k - 1);
      StepKeepsInv(run[k - 1], acts[k - 1]);
      hide Inv, Next;
    }
  }

  /** Replicas that reflect the same operations are in the same state, however it reached them. */
  lemma SameHistorySameAnswers<T>(run: seq<System<T>>, acts: seq<Action<T>>, k: nat, m: nat, n: nat, el: T)
    requires IsRun(run, acts) && k <= |acts| && m < |run[k].replicas| && n < |run[k].replicas|
    requires run[k].replicas[m].ops == run[k].replicas[n].ops
    ensures Has(run[k].replicas[m].state, el) == Has(run[k].replicas[n].state, el)
    ensures |Elements(run[k].replicas[m].state)| == |Elements(run[k].replicas[n].state)|
  {
    RunsAreFaithful(run, acts, k);
    assert Faithful(run[k].replicas[m], run[k].used) && Faithful(run[k].replicas[n], run[k].used);
  }

  ghost function StateTags<T>(s: State<T>): set<Tag> {
    set el, tag | el in s.added && tag in s.added[el] :: tag
  }

  /** A replica has tombstones only for tags it also knows as added. */
  lemma TombstonesAreKnown<T>(run: seq<System<T>>, acts: seq<Action<T>>, k: nat, n: nat)
    requires IsRun(run, acts) && k <= |acts| && n < |run[k].replicas|
    ensures run[k].replicas[n].state.removed <= StateTags(run[k].replicas[n].state)
  {
    RunsAreFaithful(run, acts, k);
    var r := run[k].replicas[n];
    assert Faithful(r, run[k].used);
    forall tag | tag in r.state.removed ensures tag in StateTags(r.state) {
      var op :| op in r.ops && op.Added? && op.tag == tag;
      EffectTags(r.ops, op.el);
      assert op.el in r.state.added && tag in r.state.added[op.el];
    }
  }

  /** Adding makes an element present, even where it had been removed before; removing makes it absent. */
  lemma OwnOperationIsSeen<T>(run: seq<System<T>>, acts: seq<Action<T>>, k: nat)
    requires IsRun(run, acts) && k < |acts|
    ensures acts[k].Add? ==> Has(run[k + 1].replicas[acts[k].n].state, acts[k].el)
    ensures acts[k].Remove? ==> !Has(run[k + 1].replicas[acts[k].n].state, acts[k].el)
  {
    RunsAreFaithful(run, acts, k);
    var r := run[k].replicas[acts[k].n];
    assert Faithful(r, run[k].used);
    if acts[k].Add? {
      assert acts[k].tag in TagsOf(Plus(r.state, acts[k].el, acts[k].tag).added, acts[k].el);
    }
  }

  /** The step runs Remove where the tag is among those of the element it removes. */
  ghost predicate Observes<T>(s: System<T>, a: Action<T>, tag: Tag)
    requires Enabled(s, a)
  {
    a.Remove? && tag in TagsOf(s.replicas[a.n].state.added, a.el)
  }

  /** No one running Remove up to step k had the tag among those of the element it removed. */
  ghost predicate Unobserved<T>(run: seq<System<T>>, acts: seq<Action<T>>, k: nat, tag: Tag)
    requires IsRun(run, acts) && k <= |acts|
  {
    forall i | 0 <= i < k :: !Observes(run[i], acts[i], tag)
  }

  ghost predicate Untouched<T>(s: System<T>, tag: Tag) {
    (forall n | 0 <= n < |s.replicas| :: tag !in s.replicas[n].state.removed) &&
    (forall i | 0 <= i < |s.sent| :: tag !in s.sent[i].state.removed)
  }

  lemma StepKeepsUntouched<T>(s: System<T>, a: Action<T>, tag: Tag)
    requires Enabled(s, a) && Untouched(s, tag) && !Observes(s, a, tag)
    ensures Untouched(Next(s, a), tag)
  {}

  /** A tombstone is laid by a Remove that observed the tag, and is there to stay. */
  lemma StepLaysTombstone<T>(s: System<T>, a: Action<T>, tag: Tag)
    requires Enabled(s, a) && (!Untouched(s, tag) || Observes(s, a, tag))
    ensures !Untouched(Next(s, a), tag)
  {
    if Observes(s, a, tag) {
      assert tag in Next(s, a).replicas[a.n].state.removed;
    } else if n :| 0 <= n < |s.replicas| && tag in s.replicas[n].state.removed {
      assert tag in Next(s, a).replicas[n].state.removed;
    } else {
      var i :| 0 <= i < |s.sent| && tag in s.sent[i].state.removed;
      assert tag in Next(s, a).sent[i].state.removed;
    }
  }

  /** A tag is tombstoned somewhere exactly when some Remove of its element has observed it. */
  lemma {:induction false} TombstonedMeansObserved<T>(run: seq<System<T>>, acts: seq<Action<T>>, k: nat, tag: Tag)
    requires IsRun(run, acts) && k <= |acts|
    ensures Untouched(run[k], tag) <==> Unobserved(run, acts, k, tag)
  {
    if k > 0 {
      TombstonedMeansObserved(run, acts, k - 1, tag);
      if !Untouched(run[k - 1], tag) || Observes(run[k - 1], acts[k - 1], tag) {
        StepLaysTombstone(run[k - 1], acts[k - 1], tag);
      } else {
        StepKeepsUntouched(run[k - 1], acts[k - 1], tag);
      }
      hide Next, Untouched, Observes;
    }
  }

  /** Add wins: wherever a tag is known that no remover had seen, its element is present. */
  lemma AddWins<T>(run: seq<System<T>>, acts: seq<Action<T>>, k: nat, n: nat, el: T, tag: Tag)
    requires IsRun(run, acts) && k <= |acts| && n < |run[k].replicas|
    requires Unobserved(run, acts, k, tag) && tag in TagsOf(run[k].replicas[n].state.added, el)
    ensures Has(run[k].replicas[n].state, el)
  {
    TombstonedMeansObserved(run, acts, k, tag);
  }
}
