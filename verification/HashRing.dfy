/**
 Consistent hashing: a sorted slice of virtual points plus a map from point to owner.

 The hash is an arbitrary function `Key -> Hash`.  The ring is proved to be a representation of a plain set of
 nodes exactly as long as no two nodes share a point; then the owner of a key depends on that set alone, and
 adding or removing a node moves only the keys it must.  Otherwise the map and the slice still agree on their
 points, but no ring represents the set.
 */
module Ring {

  type NodeID = string
  type Hash = h: nat | h < 0x1_0000_0000

  // ---------- virtual keys ----------

  function Digit(d: nat): char
    requires d < 10
  {
    "0123456789"[d]
  }

  /** Decimal notation, as `%d` prints it. */
  function Decimal(n: nat): string
  {
    if n < 10 then [Digit(n)] else Decimal(n / 10) + [Digit(n % 10)]
  }

  /** The key "node#i" of the i-th replica. */
  function VirtualKey(node: NodeID, i: nat): string {
    node + "#" + Decimal(i)
  }

  lemma {:induction false} DecimalShape(n: nat)
    ensures |Decimal(n)| > 0 && '#' !in Decimal(n)
  {
    if n >= 10 {
      DecimalShape(n / 10);
    }
  }

  lemma DigitInjective(a: nat, c: nat)
    requires a < 10 && c < 10 && Digit(a) == Digit(c)
    ensures a == c
  {}

  lemma {:induction false} DecimalInjective(a: nat, c: nat)
    requires Decimal(a) == Decimal(c)
    ensures a == c
  {
    var s, t := Decimal(a), Decimal(c);
    DecimalShape(a / 10);
    DecimalShape(c / 10);
    assert s[|s| - 1] == Digit(a % 10) && t[|t| - 1] == Digit(c % 10);
    DigitInjective(a % 10, c % 10);
    if a >= 10 && c >= 10 {
      assert s[..|s| - 1] == Decimal(a / 10) && t[..|t| - 1] == Decimal(c / 10);
      DecimalInjective(a / 10, c / 10);
    }
  }

  /** A virtual key determines its node and its replica number, even when node names contain '#'. */
  lemma VirtualKeyInjective(node: NodeID, i: nat, other: NodeID, j: nat)
    requires VirtualKey(node, i) == VirtualKey(other, j)
    ensures node == other && i == j
  {
    if |node| < |other| {
      HashMarkInDecimal(node, Decimal(i), |other|);
      DecimalShape(i);
    } else if |other| < |node| {
      HashMarkInDecimal(other, Decimal(j), |node|);
      DecimalShape(j);
    } else {
      var k := VirtualKey(node, i);
      assert k[..|node|] == node && k[..|other|] == other;
      assert k[|node| + 1..] == Decimal(i) && k[|other| + 1..] == Decimal(j);
      DecimalInjective(i, j);
    }
  }

  /** Past the separator, every character of a virtual key belongs to the number. */
  lemma HashMarkInDecimal(node: NodeID, number: string, p: nat)
    requires |node| < p < |node| + 1 + |number|
    ensures (node + "#" + number)[p] in number
  {
    assert (node + "#" + number)[p] == number[p - |node| - 1];
  }

  lemma VirtualKeyFormat()
    ensures VirtualKey("node1", 0) == "node1#0" && VirtualKey("node1", 10) == "node1#10"
    ensures VirtualKey("a#b", 209) == "a#b#209"
  {
    assert Decimal(10) == Decimal(1) + [Digit(0)];
    assert Decimal(209) == Decimal(20) + [Digit(9)] && Decimal(20) == Decimal(2) + [Digit(0)];
  }

  // ---------- the set of nodes a ring stands for ----------

  type Hasher = string -> Hash

  ghost predicate IsPoint(hash: Hasher, replicas: int, node: NodeID, h: Hash) {
    exists i: nat :: i < replicas && h == hash(VirtualKey(node, i))
  }

  /** No two of these nodes share a point; replicas of one node may. */
  ghost predicate NoCollisions(hash: Hasher, replicas: int, nodes: set<NodeID>) {
    forall n, m, i: nat, j: nat | n in nodes && m in nodes && i < replicas && j < replicas
      && hash(VirtualKey(n, i)) == hash(VirtualKey(m, j)) :: n == m
  }

  /** The hash tells the virtual keys of these nodes apart. */
  ghost predicate TellsApart(hash: Hasher, replicas: int, nodes: set<NodeID>) {
    forall n, m, i: nat, j: nat | n in nodes && m in nodes && i < replicas && j < replicas
      && hash(VirtualKey(n, i)) == hash(VirtualKey(m, j)) :: VirtualKey(n, i) == VirtualKey(m, j)
  }

  /** A hash injective on the virtual keys in use gives every node its own points, all of them different. */
  lemma DistinctKeysDoNotCollide(hash: Hasher, replicas: int, nodes: set<NodeID>)
    requires TellsApart(hash, replicas, nodes)
    ensures NoCollisions(hash, replicas, nodes)
    ensures forall n, i: nat, j: nat | n in nodes && i < replicas && j < replicas
              && hash(VirtualKey(n, i)) == hash(VirtualKey(n, j)) :: i == j
  {
    forall n, m, i: nat, j: nat | n in nodes && m in nodes && i < replicas && j < replicas
      && hash(VirtualKey(n, i)) == hash(VirtualKey(m, j)) ensures n == m && i == j
    {
      VirtualKeyInjective(n, i, m, j);
    }
  }

  /** The map holds exactly the points of these nodes, each under its owner. */
  ghost predicate Represents(hash: Hasher, replicas: int, ring: map<Hash, NodeID>, nodes: set<NodeID>) {
    (forall h | h in ring :: ring[h] in nodes && IsPoint(hash, replicas, ring[h], h)) &&
    (forall n, i: nat | n in nodes && i < replicas ::
       hash(VirtualKey(n, i)) in ring && ring[hash(VirtualKey(n, i))] == n)
  }

  /** Without collisions a set of nodes has one ring and no other. */
  lemma RingIsUnique(hash: Hasher, replicas: int, ring: map<Hash, NodeID>, other: map<Hash, NodeID>, nodes: set<NodeID>)
    requires Represents(hash, replicas, ring, nodes) && Represents(hash, replicas, other, nodes)
    ensures ring == other
  {
    SubRing(hash, replicas, ring, other, nodes);
    SubRing(hash, replicas, other, ring, nodes);
  }

  lemma SubRing(hash: Hasher, replicas: int, ring: map<Hash, NodeID>, other: map<Hash, NodeID>, nodes: set<NodeID>)
    requires Represents(hash, replicas, ring, nodes) && Represents(hash, replicas, other, nodes)
    ensures forall h | h in ring :: h in other && other[h] == ring[h]
  {
    forall h | h in ring ensures h in other && other[h] == ring[h] {
      var i: nat :| i < replicas && h == hash(VirtualKey(ring[h], i));
    }
  }

  // ---------- clockwise lookup ----------

  /** p is the first point met clockwise from h, wrapping past the top of the ring. */
  ghost predicate IsSuccessor(points: set<Hash>, h: Hash, p: Hash) {
    p in points &&
    if exists q :: q in points && q >= h
    then p >= h && forall q | q in points && q >= h :: p <= q
    else forall q | q in points :: p <= q
  }

  ghost predicate Owns(ring: map<Hash, NodeID>, h: Hash, owner: NodeID) {
    if ring == map[] then owner == ""
    else exists p :: IsSuccessor(ring.Keys, h, p) && ring[p] == owner
  }

  lemma SuccessorIsUnique(points: set<Hash>, h: Hash, p: Hash, q: Hash)
    requires IsSuccessor(points, h, p) && IsSuccessor(points, h, q)
    ensures p == q
  {}

  lemma OwnerIsUnique(ring: map<Hash, NodeID>, h: Hash, a: NodeID, c: NodeID)
    requires Owns(ring, h, a) && Owns(ring, h, c)
    ensures a == c
  {
    if ring != map[] {
      var p :| IsSuccessor(ring.Keys, h, p) && ring[p] == a;
      var q :| IsSuccessor(ring.Keys, h, q) && ring[q] == c;
      SuccessorIsUnique(ring.Keys, h, p, q);
    }
  }

  /** Which node owns a key depends on the set of nodes alone: two rings for one set answer alike. */
  lemma OwnerDependsOnNodesOnly(hash: Hasher, replicas: int, ring: map<Hash, NodeID>, other: map<Hash, NodeID>,
                                nodes: set<NodeID>, h: Hash, a: NodeID, c: NodeID)
    requires Represents(hash, replicas, ring, nodes) && Represents(hash, replicas, other, nodes)
    requires Owns(ring, h, a) && Owns(other, h, c)
    ensures a == c
    ensures nodes != {} && replicas > 0 ==> a in nodes
    ensures nodes == {} || replicas <= 0 ==> a == ""
  {
    RingIsUnique(hash, replicas, ring, other, nodes);
    OwnerIsUnique(ring, h, a, c);
    if n :| n in nodes && replicas > 0 {
      assert hash(VirtualKey(n, 0)) in ring;
    } else if p :| p in ring {
      assert IsPoint(hash, replicas, ring[p], p);
    } else {
      assert ring == map[];
    }
  }

  /** A virtual key itself is owned by its node. */
  lemma OwnPointIsOwn(hash: Hasher, replicas: int, ring: map<Hash, NodeID>, nodes: set<NodeID>, node: NodeID, i: nat)
    requires Represents(hash, replicas, ring, nodes) && node in nodes && i < replicas
    ensures Owns(ring, hash(VirtualKey(node, i)), node)
  {
    var h := hash(VirtualKey(node, i));
    assert IsSuccessor(ring.Keys, h, h);
  }

  // ---------- effect on the map of adding and removing a node ----------

  /** The loop of `Add`: replicas 0..n-1 of the node are written over whatever was there. */
  function WithPoints(hash: Hasher, ring: map<Hash, NodeID>, node: NodeID, n: int): map<Hash, NodeID>
    decreases n
  {
    if n <= 0 then ring else WithPoints(hash, ring, node, n - 1)[hash(VirtualKey(node, n - 1)) := node]
  }

  /** The loop of `Remove`. */
  function WithoutPoints(hash: Hasher, ring: map<Hash, NodeID>, node: NodeID, n: int): map<Hash, NodeID>
    decreases n
  {
    if n <= 0 then ring else WithoutPoints(hash, ring, node, n - 1) - {hash(VirtualKey(node, n - 1))}
  }

  lemma {:induction false} PointsAdded(hash: Hasher, ring: map<Hash, NodeID>, node: NodeID, n: int)
    ensures var r := WithPoints(hash, ring, node, n);
            (forall h :: h in r <==> h in ring || IsPoint(hash, n, node, h)) &&
            (forall h | h in r :: r[h] == if IsPoint(hash, n, node, h) then node else ring[h])
    decreases n
  {
    if n > 0 {
      PointsAdded(hash, ring, node, n - 1);
      OnePointMore(hash, node, n);
    } else {
      assert forall h :: !IsPoint(hash, n, node, h);
    }
  }

  lemma {:induction false} PointsRemoved(hash: Hasher, ring: map<Hash, NodeID>, node: NodeID, n: int)
    ensures var r := WithoutPoints(hash, ring, node, n);
            (forall h :: h in r <==> h in ring && !IsPoint(hash, n, node, h)) &&
            (forall h | h in r :: r[h] == ring[h])
    decreases n
  {
    if n > 0 {
      PointsRemoved(hash, ring, node, n - 1);
      OnePointMore(hash, node, n);
    } else {
      assert forall h :: !IsPoint(hash, n, node, h);
    }
  }

  lemma OnePointMore(hash: Hasher, node: NodeID, n: int)
    requires n > 0
    ensures forall h ::
              IsPoint(hash, n, node, h) <==> IsPoint(hash, n - 1, node, h) || h == hash(VirtualKey(node, n - 1))
  {
    forall h
      ensures IsPoint(hash, n, node, h) <==> IsPoint(hash, n - 1, node, h) || h == hash(VirtualKey(node, n - 1))
    {
      if IsPoint(hash, n, node, h) {
        var i: nat :| i < n && h == hash(VirtualKey(node, i));
        assert i < n - 1 || i == n - 1;
      }
      if IsPoint(hash, n - 1, node, h) {
        var i: nat :| i < n - 1 && h == hash(VirtualKey(node, i));
        assert i < n;
      }
    }
  }

  /** `Add` guards itself by the node's point 0. */
  function Added(hash: Hasher, replicas: int, ring: map<Hash, NodeID>, node: NodeID): map<Hash, NodeID> {
    if hash(VirtualKey(node, 0)) in ring then ring else WithPoints(hash, ring, node, replicas)
  }

  function Removed(hash: Hasher, replicas: int, ring: map<Hash, NodeID>, node: NodeID): map<Hash, NodeID> {
    WithoutPoints(hash, ring, node, replicas)
  }

  /** A represented set has no collisions. */
  lemma RepresentedDoesNotCollide(hash: Hasher, replicas: int, ring: map<Hash, NodeID>, nodes: set<NodeID>)
    requires Represents(hash, replicas, ring, nodes)
    ensures NoCollisions(hash, replicas, nodes)
  {}

  /** `Add` is insertion into the set of nodes exactly when the new set has no collisions. */
  lemma AddRefines(hash: Hasher, replicas: int, ring: map<Hash, NodeID>, nodes: set<NodeID>, node: NodeID)
    requires Represents(hash, replicas, ring, nodes)
    ensures Represents(hash, replicas, Added(hash, replicas, ring, node), nodes + {node})
       <==> NoCollisions(hash, replicas, nodes + {node})
  {
    if NoCollisions(hash, replicas, nodes + {node}) {
      AddInserts(hash, replicas, ring, nodes, node);
    }
  }

  lemma AddInserts(hash: Hasher, replicas: int, ring: map<Hash, NodeID>, nodes: set<NodeID>, node: NodeID)
    requires NoCollisions(hash, replicas, nodes + {node}) && Represents(hash, replicas, ring, nodes)
    ensures Represents(hash, replicas, Added(hash, replicas, ring, node), nodes + {node})
  {
    var h0 := hash(VirtualKey(node, 0));
    if h0 in ring {
      var i: nat :| i < replicas && h0 == hash(VirtualKey(ring[h0], i));
      assert ring[h0] == node;
      assert nodes + {node} == nodes;
    } else {
      var r := WithPoints(hash, ring, node, replicas);
      PointsAdded(hash, ring, node, replicas);
      forall n, i: nat | n in nodes + {node} && i < replicas
        ensures hash(VirtualKey(n, i)) in r && r[hash(VirtualKey(n, i))] == n
      {
        if n == node {
          assert IsPoint(hash, replicas, node, hash(VirtualKey(n, i)));
        } else {
          NotAPoint(hash, replicas, nodes + {node}, node, n, i);
        }
      }
    }
  }

  /** `Remove` is removal from the set of nodes exactly when the removed node collides with none of them. */
  lemma RemoveRefines(hash: Hasher, replicas: int, ring: map<Hash, NodeID>, nodes: set<NodeID>, node: NodeID)
    requires Represents(hash, replicas, ring, nodes)
    ensures Represents(hash, replicas, Removed(hash, replicas, ring, node), nodes - {node})
       <==> NoCollisions(hash, replicas, nodes + {node})
  {
    if NoCollisions(hash, replicas, nodes + {node}) {
      RemoveDeletes(hash, replicas, ring, nodes, node);
    } else {
      StrangerCollides(hash, replicas, ring, nodes, node);
    }
  }

  /** Removing a node that shares a point with one of the set takes that point away. */
  lemma StrangerCollides(hash: Hasher, replicas: int, ring: map<Hash, NodeID>, nodes: set<NodeID>, node: NodeID)
    requires Represents(hash, replicas, ring, nodes) && !NoCollisions(hash, replicas, nodes + {node})
    ensures !Represents(hash, replicas, Removed(hash, replicas, ring, node), nodes - {node})
  {
    PointsRemoved(hash, ring, node, replicas);
    RepresentedDoesNotCollide(hash, replicas, ring, nodes);
    var n, m, i: nat, j: nat :| n in nodes + {node} && m in nodes + {node} && i < replicas && j < replicas
      && hash(VirtualKey(n, i)) == hash(VirtualKey(m, j)) && n != m;
    var other, k := if n == node then m else n, if n == node then j else i;
    assert IsPoint(hash, replicas, node, hash(VirtualKey(n, i)));
    assert hash(VirtualKey(other, k)) !in Removed(hash, replicas, ring, node);
  }

  lemma RemoveDeletes(hash: Hasher, replicas: int, ring: map<Hash, NodeID>, nodes: set<NodeID>, node: NodeID)
    requires NoCollisions(hash, replicas, nodes + {node}) && Represents(hash, replicas, ring, nodes)
    ensures Represents(hash, replicas, Removed(hash, replicas, ring, node), nodes - {node})
  {
    var r := Removed(hash, replicas, ring, node);
    PointsRemoved(hash, ring, node, replicas);
    forall h | h in r ensures r[h] in nodes - {node} {
      assert IsPoint(hash, replicas, ring[h], h);
    }
    forall n, i: nat | n in nodes - {node} && i < replicas
      ensures hash(VirtualKey(n, i)) in r && r[hash(VirtualKey(n, i))] == n
    {
      NotAPoint(hash, replicas, nodes + {node}, node, n, i);
    }
  }

  lemma NotAPoint(hash: Hasher, replicas: int, nodes: set<NodeID>, node: NodeID, n: NodeID, i: nat)
    requires NoCollisions(hash, replicas, nodes) && node in nodes && n in nodes && n != node && i < replicas
    ensures !IsPoint(hash, replicas, node, hash(VirtualKey(n, i)))
  {
    assert forall j: nat | j < replicas :: hash(VirtualKey(n, i)) != hash(VirtualKey(node, j));
  }

  // ---------- keys move only when they must ----------

  /** Adding a node can only move a key to that node. */
  lemma AddMovesOnlyToNewNode(hash: Hasher, replicas: int, ring: map<Hash, NodeID>, node: NodeID,
                              h: Hash, before: NodeID, after: NodeID)
    requires Owns(ring, h, before) && Owns(Added(hash, replicas, ring, node), h, after)
    ensures after == before || after == node
  {
    var r := Added(hash, replicas, ring, node);
    PointsAdded(hash, ring, node, replicas);
    if after != node && r != ring && r != map[] {
      var p :| IsSuccessor(r.Keys, h, p) && r[p] == after;
      assert p in ring && ring[p] == after;
      if q: Hash :| q in ring && q >= h {
        assert q in r;
      }
      assert IsSuccessor(ring.Keys, h, p);
      OwnerIsUnique(ring, h, before, after);
    }
  }

  /** Removing a node leaves every key alone that the node did not own. */
  lemma RemoveMovesOnlyOwnKeys(hash: Hasher, replicas: int, ring: map<Hash, NodeID>, nodes: set<NodeID>,
                               node: NodeID, h: Hash, before: NodeID, after: NodeID)
    requires NoCollisions(hash, replicas, nodes + {node}) && Represents(hash, replicas, ring, nodes)
    requires Owns(ring, h, before) && Owns(Removed(hash, replicas, ring, node), h, after)
    ensures before != node ==> after == before
  {
    var r := Removed(hash, replicas, ring, node);
    PointsRemoved(hash, ring, node, replicas);
    if before != node && ring != map[] {
      var p :| IsSuccessor(ring.Keys, h, p) && ring[p] == before;
      var i: nat :| i < replicas && p == hash(VirtualKey(before, i));
      NotAPoint(hash, replicas, nodes + {node}, node, before, i);
      assert p in r;
      if q: Hash :| q in r && q >= h {
        assert q in ring;
      }
      assert IsSuccessor(r.Keys, h, p);
      OwnerIsUnique(r, h, before, after);
    }
  }

  /** Adding a fresh node and removing it again gives back the very same ring. */
  lemma AddRemoveRestores(hash: Hasher, replicas: int, ring: map<Hash, NodeID>, nodes: set<NodeID>, node: NodeID)
    requires NoCollisions(hash, replicas, nodes + {node}) && Represents(hash, replicas, ring, nodes)
    requires node !in nodes
    ensures Removed(hash, replicas, Added(hash, replicas, ring, node), node) == ring
  {
    var r := Added(hash, replicas, ring, node);
    AddRefines(hash, replicas, ring, nodes, node);
    assert (nodes + {node}) + {node} == nodes + {node};
    RemoveRefines(hash, replicas, r, nodes + {node}, node);
    assert (nodes + {node}) - {node} == nodes;
    RingIsUnique(hash, replicas, Removed(hash, replicas, r, node), ring, nodes);
  }

  // ---------- any sequence of additions and removals ----------

  datatype Change = AddNode(node: NodeID) | RemoveNode(node: NodeID)

  /** The ring that a sequence of changes makes of an empty one. */
  function RingAfter(hash: Hasher, replicas: int, changes: seq<Change>): map<Hash, NodeID>
  {
    if |changes| == 0 then map[]
    else
      var ring := RingAfter(hash, replicas, changes[..|changes| - 1]);
      match changes[|changes| - 1]
      case AddNode(node) => Added(hash, replicas, ring, node)
      case RemoveNode(node) => Removed(hash, replicas, ring, node)
  }

  /** The set of nodes they are meant to leave. */
  function NodesAfter(changes: seq<Change>): set<NodeID>
  {
    if |changes| == 0 then {}
    else
      var nodes := NodesAfter(changes[..|changes| - 1]);
      match changes[|changes| - 1]
      case AddNode(node) => nodes + {node}
      case RemoveNode(node) => nodes - {node}
  }

  function Mentioned(changes: seq<Change>): set<NodeID> {
    set change | change in changes :: change.node
  }

  lemma FewerNodes(hash: Hasher, replicas: int, ids: set<NodeID>, some: set<NodeID>)
    requires NoCollisions(hash, replicas, ids) && some <= ids
    ensures NoCollisions(hash, replicas, some)
  {}

  /** If no two nodes mentioned collide, the ring represents the current set after any sequence of changes. */
  lemma {:induction false} RingRepresentsCurrentSet(hash: Hasher, replicas: int, changes: seq<Change>)
    requires NoCollisions(hash, replicas, Mentioned(changes))
    ensures Represents(hash, replicas, RingAfter(hash, replicas, changes), NodesAfter(changes))
    ensures NodesAfter(changes) <= Mentioned(changes)
  {
    if |changes| > 0 {
      hide Represents, NoCollisions, Added, Removed;
      var before, last := changes[..|changes| - 1], changes[|changes| - 1];
      FewerMentioned(changes);
      FewerNodes(hash, replicas, Mentioned(changes), Mentioned(before));
      RingRepresentsCurrentSet(hash, replicas, before);
      FewerNodes(hash, replicas, Mentioned(changes), NodesAfter(before) + {last.node});
      var ring := RingAfter(hash, replicas, before);
      AddRefines(hash, replicas, ring, NodesAfter(before), last.node);
      RemoveRefines(hash, replicas, ring, NodesAfter(before), last.node);
    } else {
      NoNodes(hash, replicas);
    }
  }

  lemma FewerMentioned(changes: seq<Change>)
    requires |changes| > 0
    ensures Mentioned(changes) == Mentioned(changes[..|changes| - 1]) + {changes[|changes| - 1].node}
  {
    assert changes == changes[..|changes| - 1] + [changes[|changes| - 1]];
  }

  lemma NoNodes(hash: Hasher, replicas: int)
    ensures Represents(hash, replicas, map[], {})
  {}

  /** So two histories with the same outcome have the same ring, and every key the same owner. */
  lemma HistoryIsForgotten(hash: Hasher, replicas: int, changes: seq<Change>, others: seq<Change>)
    requires NoCollisions(hash, replicas, Mentioned(changes)) && NoCollisions(hash, replicas, Mentioned(others))
    requires NodesAfter(changes) == NodesAfter(others)
    ensures RingAfter(hash, replicas, changes) == RingAfter(hash, replicas, others)
  {
    RingRepresentsCurrentSet(hash, replicas, changes);
    RingRepresentsCurrentSet(hash, replicas, others);
    RingIsUnique(hash, replicas, RingAfter(hash, replicas, changes), RingAfter(hash, replicas, others),
      NodesAfter(changes));
  }

  // ---------- what collisions do ----------

  ghost predicate Representable(hash: Hasher, replicas: int, nodes: set<NodeID>) {
    exists ring :: Represents(hash, replicas, ring, nodes)
  }

  /** A set of nodes has a ring exactly when its nodes do not collide. */
  lemma {:induction false} RepresentableExactly(hash: Hasher, replicas: int, nodes: set<NodeID>)
    ensures Representable(hash, replicas, nodes) <==> NoCollisions(hash, replicas, nodes)
  {
    if ring :| Represents(hash, replicas, ring, nodes) {
      RepresentedDoesNotCollide(hash, replicas, ring, nodes);
    } else if NoCollisions(hash, replicas, nodes) {
      if nodes == {} {
        assert Represents(hash, replicas, map[], nodes);
      } else {
        var node :| node in nodes;
        RepresentableExactly(hash, replicas, nodes - {node});
        var ring :| Represents(hash, replicas, ring, nodes - {node});
        assert nodes - {node} + {node} == nodes;
        AddRefines(hash, replicas, ring, nodes - {node}, node);
        assert false;
      }
    }
  }

  /** The ring after adding these nodes, the first one first, to an empty ring. */
  function AddedInOrder(hash: Hasher, replicas: int, order: seq<NodeID>): map<Hash, NodeID>
  {
    if |order| == 0 then map[]
    else Added(hash, replicas, AddedInOrder(hash, replicas, order[..|order| - 1]), order[|order| - 1])
  }

  /** All points of c are points of a, and the point that guards a is none of c's: then c never gets onto the ring. */
  ghost predicate Swallows(hash: Hasher, replicas: int, a: NodeID, c: NodeID) {
    (forall h | IsPoint(hash, replicas, c, h) :: IsPoint(hash, replicas, a, h)) &&
    !IsPoint(hash, replicas, c, hash(VirtualKey(a, 0)))
  }

  /** The points of a pair of nodes added to an empty ring, the second after the first. */
  lemma PairRing(hash: Hasher, replicas: int, a: NodeID, c: NodeID)
    ensures var r := AddedInOrder(hash, replicas, [a, c]);
            if IsPoint(hash, replicas, a, hash(VirtualKey(c, 0)))
            then (forall h :: h in r <==> IsPoint(hash, replicas, a, h)) && forall h | h in r :: r[h] == a
            else (forall h :: h in r <==> IsPoint(hash, replicas, a, h) || IsPoint(hash, replicas, c, h)) &&
                 forall h | h in r :: r[h] == if IsPoint(hash, replicas, c, h) then c else a
  {
    assert [a, c][..1] == [a] && [a][..0] == [];
    assert AddedInOrder(hash, replicas, [a]) == Added(hash, replicas, map[], a);
    PointsAdded(hash, map[], a, replicas);
    PointsAdded(hash, AddedInOrder(hash, replicas, [a]), c, replicas);
  }

  /** Which of two nodes was added first is of no matter exactly when they do not collide, or one swallows the other. */
  lemma CollisionsMakeHistoryMatter(hash: Hasher, replicas: int, a: NodeID, c: NodeID)
    ensures AddedInOrder(hash, replicas, [a, c]) == AddedInOrder(hash, replicas, [c, a])
       <==> NoCollisions(hash, replicas, {a, c}) || Swallows(hash, replicas, a, c) || Swallows(hash, replicas, c, a)
  {
    PairRing(hash, replicas, a, c);
    PairRing(hash, replicas, c, a);
    var r, t := AddedInOrder(hash, replicas, [a, c]), AddedInOrder(hash, replicas, [c, a]);
    if replicas > 0 {
      assert IsPoint(hash, replicas, a, hash(VirtualKey(a, 0))) && IsPoint(hash, replicas, c, hash(VirtualKey(c, 0)));
    }
    if NoCollisions(hash, replicas, {a, c}) {
      if a != c {
        PointsApart(hash, replicas, a, c);
      }
      assert r == t;
    } else if r == t {
      SharedPoint(hash, replicas, a, c);
    }
  }

  lemma PointsApart(hash: Hasher, replicas: int, a: NodeID, c: NodeID)
    requires a != c && NoCollisions(hash, replicas, {a, c})
    ensures forall h :: !(IsPoint(hash, replicas, a, h) && IsPoint(hash, replicas, c, h))
  {}

  lemma SharedPoint(hash: Hasher, replicas: int, a: NodeID, c: NodeID)
    requires !NoCollisions(hash, replicas, {a, c})
    ensures a != c && exists h :: IsPoint(hash, replicas, a, h) && IsPoint(hash, replicas, c, h)
  {
    var n, m, i: nat, j: nat :| n in {a, c} && m in {a, c} && i < replicas && j < replicas
      && hash(VirtualKey(n, i)) == hash(VirtualKey(m, j)) && n != m;
    var p := hash(VirtualKey(n, i));
    assert IsPoint(hash, replicas, n, p) && IsPoint(hash, replicas, m, p);
  }

  // ---------- the ring object ----------

  ghost predicate Sorted(s: seq<Hash>) {
    forall i, j | 0 <= i < j < |s| :: s[i] <= s[j]
  }

  ghost function Elements(s: seq<Hash>): set<Hash> {
    set h | h in s
  }

  /** Sorted insertion, the specification `sort.Slice` is used for. */
  function Insert(s: seq<Hash>, h: Hash): seq<Hash>
  {
    if |s| == 0 || s[|s| - 1] <= h then s + [h]
    else Insert(s[..|s| - 1], h) + [s[|s| - 1]]
  }

  function Sort(s: seq<Hash>): seq<Hash>
  {
    if |s| == 0 then [] else Insert(Sort(s[..|s| - 1]), s[|s| - 1])
  }

  lemma AppendSorted(s: seq<Hash>, h: Hash)
    requires Sorted(s) && forall x | x in s :: x <= h
    ensures Sorted(s + [h])
  {
    assert forall i | 0 <= i < |s| :: s[i] in s;
  }

  lemma InitAndLast(s: seq<Hash>)
    requires |s| > 0
    ensures forall x :: x in s <==> x in s[..|s| - 1] || x == s[|s| - 1]
    ensures Sorted(s) ==> forall x | x in s :: x <= s[|s| - 1]
  {
    assert s == s[..|s| - 1] + [s[|s| - 1]];
  }

  lemma {:induction false} InsertSorts(s: seq<Hash>, h: Hash)
    requires Sorted(s)
    ensures Sorted(Insert(s, h)) && |Insert(s, h)| == |s| + 1
    ensures forall x :: x in Insert(s, h) <==> x in s || x == h
  {
    if !(|s| == 0 || s[|s| - 1] <= h) {
      var n := |s| - 1;
      InsertSorts(s[..n], h);
      InitAndLast(s);
      AppendSorted(Insert(s[..n], h), s[n]);
    } else if |s| > 0 {
      InitAndLast(s);
      AppendSorted(s, h);
    }
  }

  lemma {:induction false} SortSorts(s: seq<Hash>)
    ensures Sorted(Sort(s)) && |Sort(s)| == |s|
    ensures Elements(Sort(s)) == Elements(s)
  {
    if |s| > 0 {
      var n := |s| - 1;
      SortSorts(s[..n]);
      InsertSorts(Sort(s[..n]), s[n]);
      forall x ensures x in Sort(s) <==> x in s {
        assert x in s <==> x in s[..n] || x == s[n];
        assert x in Sort(s[..n]) <==> x in Elements(Sort(s[..n]));
        assert x in s[..n] <==> x in Elements(s[..n]);
      }
    }
  }

  function Kept(s: seq<Hash>, ring: map<Hash, NodeID>): seq<Hash>
  {
    if |s| == 0 then []
    else Kept(s[..|s| - 1], ring) + if s[|s| - 1] in ring then [s[|s| - 1]] else []
  }

  lemma {:induction false} KeptSorted(s: seq<Hash>, ring: map<Hash, NodeID>)
    requires Sorted(s)
    ensures Sorted(Kept(s, ring))
    ensures forall x :: x in Kept(s, ring) <==> x in s && x in ring
  {
    if |s| > 0 {
      var n := |s| - 1;
      var k := Kept(s[..n], ring);
      KeptSorted(s[..n], ring);
      InitAndLast(s);
      if s[n] in ring {
        AppendSorted(k, s[n]);
        InitAndLast(k + [s[n]]);
      } else {
        assert Kept(s, ring) == k;
      }
    }
  }

  lemma FilteredKeys(before: seq<Hash>, after: seq<Hash>, ring0: map<Hash, NodeID>, ring: map<Hash, NodeID>)
    requires Elements(before) == ring0.Keys && forall h | h in ring :: h in ring0
    requires forall x :: x in after <==> x in before && x in ring
    ensures Elements(after) == ring.Keys
  {
    forall x ensures x in Elements(after) <==> x in ring {
      assert x in before <==> x in Elements(before);
    }
  }

  class HashRing {
    const hash: Hasher
    const replicas: int
    var ring: map<Hash, NodeID>
    // The slice: `len` elements in a backing array that may be larger.
    var backing: array<Hash>
    var len: nat

    /** What holds whatever the hash does. */
    ghost predicate Valid()
      reads this, backing
    {
      len <= backing.Length && Sorted(backing[..len]) && Elements(backing[..len]) == ring.Keys
    }

    ghost predicate Holds(nodes: set<NodeID>)
      reads this
    {
      Represents(hash, replicas, ring, nodes)
    }

    constructor (hash: Hasher, replicas: int)
      ensures Valid() && fresh(backing) && this.hash == hash && this.replicas == replicas
      ensures ring == map[] && Holds({})
    {
      this.hash := hash;
      this.replicas := replicas;
      ring := map[];
      backing := new Hash[0];
      len := 0;
      new;
      assert backing[..len] == [];
    }

    /** `append`: in place while there is room, otherwise into a larger copy. */
    method Append(h: Hash)
      requires len <= backing.Length
      modifies this`backing, this`len, backing
      ensures backing == old(backing) || fresh(backing)
      ensures len == old(len) + 1 <= backing.Length
      ensures backing[..len] == old(backing[..len]) + [h]
    {
      if len == backing.Length {
        var bigger := new Hash[2 * len + 1](_ => 0);
        for i := 0 to len
          invariant backing == old(backing) && len == old(len) && backing[..] == old(backing[..])
          invariant bigger[..i] == backing[..i]
        {
          bigger[i] := backing[i];
        }
        backing := bigger;
      }
      backing[len] := h;
      len := len + 1;
    }

    method Add(node: NodeID)
      requires Valid()
      modifies this`ring, this`backing, this`len, backing
      ensures Valid() && (backing == old(backing) || fresh(backing))
      ensures ring == Added(hash, replicas, old(ring), node)
      ensures forall nodes | old(Holds(nodes)) ::
                Holds(nodes + {node}) <==> NoCollisions(hash, replicas, nodes + {node})
    {
      hide Represents, NoCollisions, Sorted;
      if hash(VirtualKey(node, 0)) !in ring {
        AppendPoints(node);
        SortSlice();
      }
      forall nodes | old(Holds(nodes))
        ensures Holds(nodes + {node}) <==> NoCollisions(hash, replicas, nodes + {node})
      {
        AddRefines(hash, replicas, old(ring), nodes, node);
      }
    }

    /** The loop over the replicas. */
    method AppendPoints(node: NodeID)
      requires len <= backing.Length && Elements(backing[..len]) == ring.Keys
      modifies this`ring, this`backing, this`len, backing
      ensures len <= backing.Length && (backing == old(backing) || fresh(backing))
      ensures ring == WithPoints(hash, old(ring), node, replicas) && Elements(backing[..len]) == ring.Keys
    {
      var i := 0;
      while i < replicas
        invariant 0 <= i && (i <= replicas || i == 0)
        invariant len <= backing.Length && (backing == old(backing) || fresh(backing))
        invariant ring == WithPoints(hash, old(ring), node, i)
        invariant Elements(backing[..len]) == ring.Keys
      {
        var hashKey := hash(VirtualKey(node, i));
        ring := ring[hashKey := node];
        Append(hashKey);
        i := i + 1;
      }
    }

    /** Deletion filters the slice through an alias of its own backing array. */
    method Remove(node: NodeID)
      requires Valid()
      modifies this`ring, this`len, backing
      ensures Valid()
      ensures ring == Removed(hash, replicas, old(ring), node)
      ensures forall nodes | old(Holds(nodes)) ::
                Holds(nodes - {node}) <==> NoCollisions(hash, replicas, nodes + {node})
    {
      hide Represents, NoCollisions, Sorted;
      DeletePoints(node);
      PointsRemoved(hash, old(ring), node, replicas);
      ghost var before := backing[..len];
      assert before == old(backing[..len]);
      Filter();
      FilteredKeys(before, backing[..len], old(ring), ring);
      forall nodes | old(Holds(nodes))
        ensures Holds(nodes - {node}) <==> NoCollisions(hash, replicas, nodes + {node})
      {
        RemoveRefines(hash, replicas, old(ring), nodes, node);
      }
    }

    /** The loop over the replicas. */
    method DeletePoints(node: NodeID)
      modifies this`ring
      ensures ring == Removed(hash, replicas, old(ring), node)
    {
      var i := 0;
      while i < replicas
        invariant 0 <= i && (i <= replicas || i == 0)
        invariant ring == WithoutPoints(hash, old(ring), node, i)
      {
        ring := ring - {hash(VirtualKey(node, i))};
        i := i + 1;
      }
    }

    /** `sort.Slice` on the elements in use. */
    method SortSlice()
      requires len <= backing.Length
      modifies backing
      ensures Sorted(backing[..len]) && Elements(backing[..len]) == old(Elements(backing[..len]))
    {
      var sorted := Sort(backing[..len]);
      SortSorts(backing[..len]);
      for k := 0 to len
        invariant backing[..k] == sorted[..k]
      {
        backing[k] := sorted[k];
      }
      assert backing[..len] == sorted;
    }

    /** Keep the elements still in the map, reading and writing the same array. */
    method Filter()
      requires len <= backing.Length && Sorted(backing[..len])
      modifies this`len, backing
      ensures len <= old(len)
      ensures Sorted(backing[..len])
      ensures forall x :: x in backing[..len] <==> x in old(backing[..len]) && x in ring
    {
      ghost var before := backing[..len];
      var kept := 0;
      for k := 0 to len
        invariant unchanged(`len) && kept <= k
        invariant backing[k..len] == before[k..]
        invariant backing[..kept] == Kept(before[..k], ring)
      {
        var hashKey := backing[k];
        assert hashKey == before[k];
        assert before[..k + 1][..k] == before[..k];
        assert backing[k + 1..len] == backing[k..len][1..] == before[k + 1..];
        if hashKey in ring {
          backing[kept] := hashKey;
          kept := kept + 1;
          assert backing[..kept] == backing[..kept - 1] + [hashKey];
        }
      }
      assert before[..len] == before;
      KeptSorted(before, ring);
      len := kept;
    }

    /** Binary search: the first point at or after the key's hash decides; past the last point, the first of all. */
    method Get(key: string) returns (owner: NodeID)
      requires Valid()
      ensures Owns(ring, hash(key), owner)
      ensures ring == map[] ==> owner == ""
      ensures forall p | p in ring && hash(key) <= p && (forall q | q in ring && hash(key) <= q :: p <= q) ::
                owner == ring[p]
      ensures forall p | p in ring && (forall q | q in ring :: p <= q < hash(key)) :: owner == ring[p]
    {
      if len == 0 {
        assert ring.Keys == {};
        return "";
      }
      var hashKey := hash(key);
      var idx, hi := 0, len;
      while idx < hi
        invariant idx <= hi <= len
        invariant forall k | 0 <= k < idx :: backing[k] < hashKey
        invariant forall k | hi <= k < len :: backing[k] >= hashKey
      {
        var mid := (idx + hi) / 2;
        if backing[mid] < hashKey {
          idx := mid + 1;
        } else {
          hi := mid;
        }
      }
      var p := backing[if idx == len then 0 else idx];
      assert p in Elements(backing[..len]);
      assert IsSuccessor(ring.Keys, hashKey, p) by {
        SliceSuccessor(backing[..len], hashKey, idx);
      }
      owner := ring[p];
      SuccessorOwns(ring, hashKey, p);
    }
  }

  lemma SuccessorOwns(ring: map<Hash, NodeID>, h: Hash, p: Hash)
    requires p in ring && IsSuccessor(ring.Keys, h, p)
    ensures Owns(ring, h, ring[p])
    ensures forall q | q in ring && h <= q && (forall o | o in ring && h <= o :: q <= o) :: ring[p] == ring[q]
    ensures forall q | q in ring && (forall o | o in ring :: q <= o < h) :: ring[p] == ring[q]
  {}

  lemma SliceSuccessor(s: seq<Hash>, h: Hash, idx: nat)
    requires Sorted(s) && |s| > 0 && idx <= |s|
    requires forall k | 0 <= k < idx :: s[k] < h
    requires forall k | idx <= k < |s| :: s[k] >= h
    ensures IsSuccessor(Elements(s), h, s[if idx == |s| then 0 else idx])
  {
    var points := Elements(s);
    forall q | q in points ensures exists k :: 0 <= k < |s| && s[k] == q {}
    if idx < |s| {
      assert s[idx] in points && s[idx] >= h;
    }
  }
}
