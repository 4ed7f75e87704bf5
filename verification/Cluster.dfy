/**
 A cluster node: the member list, the ring kept in step with it through callbacks, and the lookups on it.

 Ring and member list agree after every handler: ring nodes are known members, every live member is on the
 ring and no dead one is.  Suspected members may be on either side.
 */
module Clusters {
  import opened Ring
  import opened Membership

  // ---------- what the callback makes of the set of ring nodes ----------

  function OnChange(nodes: set<NodeID>, info: NodeInfo): set<NodeID> {
    if info.status == Alive then nodes + {info.id}
    else if info.status == Dead then nodes - {info.id}
    else nodes
  }

  function OnChanges(nodes: set<NodeID>, infos: seq<NodeInfo>): set<NodeID>
  {
    if |infos| == 0 then nodes else OnChange(OnChanges(nodes, infos[..|infos| - 1]), infos[|infos| - 1])
  }

  ghost predicate Agree(m: Members, nodes: set<NodeID>) {
    Keyed(m) && nodes <= m.Keys &&
    forall id | id in m :: (m[id].status == Alive ==> id in nodes) && (m[id].status == Dead ==> id !in nodes)
  }

  /** One merge followed by its callbacks, however often the message mentions an id. */
  lemma {:induction false} MergeKeepsAgreement(m: Members, nodes: set<NodeID>, incoming: seq<NodeInfo>)
    requires Agree(m, nodes)
    ensures Agree(MergeInto(m, incoming), OnChanges(nodes, Changed(m, incoming)))
  {
    if |incoming| > 0 {
      var n := |incoming| - 1;
      var r, c := MergeInto(m, incoming[..n]), Changed(m, incoming[..n]);
      MergeKeepsAgreement(m, nodes, incoming[..n]);
      if Newer(r, incoming[n]) {
        assert (c + [incoming[n]])[..|c|] == c;
        StoreAndNotify(r, OnChanges(nodes, c), incoming[n]);
      } else {
        assert c + [] == c;
      }
    }
  }

  /** Storing a record that was newer, or a verdict on a stored one, and running its callback. */
  lemma StoreAndNotify(m: Members, nodes: set<NodeID>, info: NodeInfo)
    requires Agree(m, nodes)
    ensures Agree(m[info.id := info], OnChange(nodes, info))
  {}

  function Survivors(m: Members, nodes: set<NodeID>): set<NodeID> {
    set id | id in nodes && !(id in m && m[id].status == Dead)
  }

  lemma DetectionKeepsAgreement(m: Members, nodes: set<NodeID>, local: NodeID, lastSeen: map<NodeID, int>,
                                first: Clock, second: Clock)
    requires Agree(m, nodes)
    ensures var r := JudgedAll(m, local, lastSeen, first, second); Agree(r, Survivors(r, nodes))
  {
    var r := JudgedAll(m, local, lastSeen, first, second);
    forall id | id in r
      ensures r[id].id == id && (r[id].status == Alive ==> id in Survivors(r, nodes))
      ensures r[id].status == Dead ==> id !in Survivors(r, nodes)
    {
      assert r[id] == Judged(m[id], local, lastSeen, first(id), second(id));
    }
  }

  /** A record with a new status is one version up. */
  function Marked(info: NodeInfo, status: NodeStatus): NodeInfo {
    info.(status := status, version := info.version + 1)
  }

  /** What a pass makes of each record and of its place on the ring, by how long the member has been silent. */
  lemma DetectionMeans(m: Members, nodes: set<NodeID>, local: NodeID, lastSeen: map<NodeID, int>,
                       first: Clock, second: Clock)
    requires Agree(m, nodes)
    ensures var r := JudgedAll(m, local, lastSeen, first, second);
            var left := Survivors(r, nodes);
            r.Keys == m.Keys &&
            (forall id | id in m && id != local && id in lastSeen && first(id) - lastSeen[id] >= 12 * SECOND ::
               r[id] == Marked(m[id], Dead) && id !in left) &&
            (forall id | id in m && id != local && id in lastSeen && first(id) - lastSeen[id] < 12 * SECOND
               && second(id) - lastSeen[id] >= 6 * SECOND ::
               r[id] == Marked(m[id], Suspected) && (id in left <==> id in nodes)) &&
            (forall id | id in m && (id == local || id !in lastSeen ||
               (first(id) - lastSeen[id] < 12 * SECOND && second(id) - lastSeen[id] < 6 * SECOND)) ::
               r[id] == m[id] && (id in left <==> id in nodes))
  {
    var r := JudgedAll(m, local, lastSeen, first, second);
    forall id | id in m
      ensures r[id] == Judged(m[id], local, lastSeen, first(id), second(id)) && m[id].id == id
      ensures m[id].status == Dead ==> id !in nodes
    {}
  }

  /** The member list part-way through a pass: the members in `todo` are still to be examined. */
  function JudgedBut(m: Members, todo: set<NodeID>, local: NodeID, lastSeen: map<NodeID, int>,
                     first: Clock, second: Clock): Members
  {
    map id | id in m :: if id in todo then m[id] else Judged(m[id], local, lastSeen, first(id), second(id))
  }

  lemma NothingJudgedYet(m: Members, nodes: set<NodeID>, local: NodeID, lastSeen: map<NodeID, int>,
                         first: Clock, second: Clock)
    requires Agree(m, nodes)
    ensures JudgedBut(m, m.Keys, local, lastSeen, first, second) == m
    ensures nodes == Survivors(m, nodes)
  {}

  lemma AllJudged(m: Members, local: NodeID, lastSeen: map<NodeID, int>, first: Clock, second: Clock)
    ensures JudgedBut(m, {}, local, lastSeen, first, second) == JudgedAll(m, local, lastSeen, first, second)
  {}

  lemma JudgeOne(m: Members, nodes: set<NodeID>, todo: set<NodeID>, id: NodeID, local: NodeID,
                 lastSeen: map<NodeID, int>, first: Clock, second: Clock)
    requires Agree(m, nodes) && id in todo && todo <= m.Keys
    ensures var now := JudgedBut(m, todo, local, lastSeen, first, second);
            var info := Judged(m[id], local, lastSeen, first(id), second(id));
            && id in now && now[id] == m[id] && m[id].id == id
            && (m[id].status == Dead ==> id !in Survivors(now, nodes))
            && Survivors(now, nodes) + {id} <= m.Keys
            && JudgedBut(m, todo - {id}, local, lastSeen, first, second) == now[id := info]
            && Survivors(now[id := info], nodes)
               == if info.status == Dead then Survivors(now, nodes) - {id} else Survivors(now, nodes)
  {
    hide Judged;
    var now := JudgedBut(m, todo, local, lastSeen, first, second);
    var info := Judged(m[id], local, lastSeen, first(id), second(id));
    assert JudgedBut(m, todo - {id}, local, lastSeen, first, second) == now[id := info];
  }

  /** Seeding keeps the agreement exactly when it does not declare dead a node that is on the ring. */
  lemma SeedAgreementExactly(m: Members, nodes: set<NodeID>, info: NodeInfo)
    requires Agree(m, nodes)
    ensures Agree(m[info.id := info], if info.status == Alive then nodes + {info.id} else nodes)
        <==> (info.status == Dead ==> info.id !in nodes)
  {
    var r := m[info.id := info];
    if info.status == Dead && info.id in nodes {
      assert r[info.id].status == Dead;
    }
  }

  // ---------- runs of handlers at one node ----------

  /** The member list, the nodes on the ring, and what the failure detector last read. */
  datatype View = View(members: Members, nodes: set<NodeID>, read: Members)

  datatype Handler =
    | Gossip(incoming: seq<NodeInfo>)
    | ReadAll
    | Verdict(about: NodeID, heard: map<NodeID, int>, first: int, second: int)
    | SeedWith(info: NodeInfo)

  /** A detection pass is one `ReadAll` and any number of verdicts, with other handlers between them. */
  ghost predicate CanHandle(v: View, h: Handler, local: NodeID) {
    match h
    case Verdict(about, heard, first, second) => about in v.read && Overdue(about, local, heard, first, second)
    case SeedWith(info) => info.status == Dead ==> info.id !in v.nodes
    case _ => true
  }

  function Handled(v: View, h: Handler, local: NodeID): View {
    match h
    case Gossip(incoming) =>
      v.(members := MergeInto(v.members, incoming), nodes := OnChanges(v.nodes, Changed(v.members, incoming)))
    case ReadAll => v.(read := v.members)
    case Verdict(about, heard, first, second) =>
      if about !in v.read then v
      else
        var info := Judged(v.read[about], local, heard, first, second);
        v.(members := v.members[info.id := info], nodes := OnChange(v.nodes, info))
    case SeedWith(info) =>
      v.(members := v.members[info.id := info],
         nodes := if info.status == Alive then v.nodes + {info.id} else v.nodes)
  }

  function HandledAll(v: View, hs: seq<Handler>, local: NodeID): View
  {
    if |hs| == 0 then v else Handled(HandledAll(v, hs[..|hs| - 1], local), hs[|hs| - 1], local)
  }

  /** However gossip and the verdicts of a detection pass mix, ring and member list agree after every handler. */
  lemma {:induction false} InterruptedPassesKeepAgreement(v: View, hs: seq<Handler>, local: NodeID)
    requires Agree(v.members, v.nodes)
    requires forall i | 0 <= i < |hs| :: CanHandle(HandledAll(v, hs[..i], local), hs[i], local)
    ensures var r := HandledAll(v, hs, local); Agree(r.members, r.nodes)
  {
    if |hs| > 0 {
      var n := |hs| - 1;
      var r := HandledAll(v, hs[..n], local);
      forall i | 0 <= i < n ensures CanHandle(HandledAll(v, hs[..n][..i], local), hs[..n][i], local) {
        assert hs[..n][..i] == hs[..i];
      }
      InterruptedPassesKeepAgreement(v, hs[..n], local);
      hide Agree;
      match hs[n]
      case Gossip(incoming) => MergeKeepsAgreement(r.members, r.nodes, incoming);
      case ReadAll =>
      case Verdict(about, heard, first, second) =>
        if about in r.read {
          StoreAndNotify(r.members, r.nodes, Judged(r.read[about], local, heard, first, second));
        }
      case SeedWith(info) => SeedAgreementExactly(r.members, r.nodes, info);
    }
  }

  // ---------- the cluster object ----------

  class Cluster {
    const localID: NodeID
    const list: MemberList
    const ring: HashRing
    var lastSeen: map<NodeID, int>
    // The nodes the ring stands for, and the records handed to the listeners so far.
    ghost var nodes: set<NodeID>
    ghost var notified: seq<NodeInfo>

    /** The ring is the ring of `nodes`. */
    ghost predicate RingSound()
      reads this, ring, ring.backing
    {
      ring.Valid() && ring.replicas > 0 && ring.Holds(nodes)
    }

    ghost predicate Valid()
      reads this, list, ring, ring.backing
    {
      RingSound() && Agree(list.members, nodes)
    }

    /** No two of these nodes share a point of the ring. */
    ghost predicate Distinct(ids: set<NodeID>)
    {
      NoCollisions(ring.hash, ring.replicas, ids)
    }

    /** A replica count that is not positive is refused by a panic. */
    constructor (hash: Hasher, replicas: int, localID: NodeID, localAddress: string)
      requires replicas > 0
      ensures Valid() && fresh(list) && fresh(ring) && fresh(ring.backing)
      ensures this.localID == localID && ring.hash == hash && ring.replicas == replicas
      ensures list.members == map[localID := NodeInfo(localID, localAddress, Alive, 0)] && nodes == {localID}
      ensures lastSeen == map[] && notified == []
    {
      var members := new MemberList();
      members.Upsert(NodeInfo(localID, localAddress, Alive, 0));
      var points := new HashRing(hash, replicas);
      assert {} + {localID} == {localID};
      points.Add(localID);
      this.localID := localID;
      list := members;
      ring := points;
      lastSeen := map[];
      nodes := {} + {localID};
      notified := [];
    }

    /** The change callback: keep the ring in step, then tell the listeners. */
    method Notify(info: NodeInfo)
      requires RingSound() && Distinct(nodes + {info.id})
      modifies this`nodes, this`notified, ring, ring.backing
      ensures RingSound() && (ring.backing == old(ring.backing) || fresh(ring.backing))
      ensures nodes == OnChange(old(nodes), info) && notified == old(notified) + [info]
    {
      if info.status == Alive {
        ring.Add(info.id);
      } else if info.status == Dead {
        ring.Remove(info.id);
      }
      nodes := OnChange(nodes, info);
      notified := notified + [info];
    }

    method HandleGossip(msg: GossipMessage, now: int)
      requires Valid() && Distinct(list.members.Keys + (set r | r in msg.members :: r.id))
      modifies this, list, ring, ring.backing
      ensures Valid() && (ring.backing == old(ring.backing) || fresh(ring.backing))
      ensures list.members == MergeInto(old(list.members), msg.members)
      ensures nodes == OnChanges(old(nodes), Changed(old(list.members), msg.members))
      ensures notified == old(notified) + Changed(old(list.members), msg.members)
      ensures lastSeen == old(lastSeen)[msg.sender := now]
    {
      lastSeen := lastSeen[msg.sender := now];
      ghost var before, ns := list.members, nodes;
      MergeKeepsAgreement(before, ns, msg.members);
      ChangedIds(before, msg.members);
      hide Agree, NoCollisions, RingSound;
      var changed := list.Merge(msg.members);
      ghost var ids := before.Keys + (set r | r in msg.members :: r.id);
      NotifyAll(changed, ids);
    }

    method NotifyAll(changed: seq<NodeInfo>, ghost ids: set<NodeID>)
      requires RingSound() && nodes <= ids && Distinct(ids) && forall r | r in changed :: r.id in ids
      modifies this`nodes, this`notified, ring, ring.backing
      ensures RingSound() && (ring.backing == old(ring.backing) || fresh(ring.backing))
      ensures nodes == OnChanges(old(nodes), changed) && notified == old(notified) + changed
    {
      hide RingSound, NoCollisions;
      for i := 0 to |changed|
        invariant RingSound() && nodes <= ids
        invariant ring.backing == old(ring.backing) || fresh(ring.backing)
        invariant nodes == OnChanges(old(nodes), changed[..i]) && notified == old(notified) + changed[..i]
      {
        assert changed[i] in changed;
        FewerNodes(ring.hash, ring.replicas, ids, nodes + {changed[i].id});
        Notify(changed[i]);
        assert changed[..i + 1][..i] == changed[..i];
      }
      assert changed[..|changed|] == changed;
    }

    /**
     One pass of the failure detector over the member list, in whatever order the map yields it. Silent for twelve
     seconds means dead, and off the ring; otherwise silent for six means suspected, and on the ring as before.
     */
    method DetectFailures(first: Clock, second: Clock)
      requires Valid() && Distinct(list.members.Keys)
      modifies this, list, ring, ring.backing
      ensures Valid() && (ring.backing == old(ring.backing) || fresh(ring.backing))
      ensures list.members == JudgedAll(old(list.members), localID, lastSeen, first, second)
      ensures nodes == Survivors(list.members, old(nodes))
      ensures lastSeen == old(lastSeen) && list.members.Keys == old(list.members).Keys
      ensures forall id | id in old(list.members) && id != localID && id in lastSeen
                && first(id) - lastSeen[id] >= 12 * SECOND ::
                list.members[id] == Marked(old(list.members[id]), Dead) && id !in nodes
      ensures forall id | id in old(list.members) && id != localID && id in lastSeen
                && first(id) - lastSeen[id] < 12 * SECOND && second(id) - lastSeen[id] >= 6 * SECOND ::
                list.members[id] == Marked(old(list.members[id]), Suspected) && (id in nodes <==> id in old(nodes))
      ensures forall id | id in old(list.members) && (id == localID || id !in lastSeen ||
                (first(id) - lastSeen[id] < 12 * SECOND && second(id) - lastSeen[id] < 6 * SECOND)) ::
                list.members[id] == old(list.members[id]) && (id in nodes <==> id in old(nodes))
    {
      ghost var before, ns := list.members, nodes;
      DetectionMeans(before, ns, localID, lastSeen, first, second);
      DetectionKeepsAgreement(before, ns, localID, lastSeen, first, second);
      NothingJudgedYet(before, ns, localID, lastSeen, first, second);
      hide RingSound, Agree, NoCollisions, Judged, Survivors, JudgedBut;
      var todo := list.members.Keys;
      while todo != {}
        invariant RingSound() && todo <= before.Keys
        invariant ring.backing == old(ring.backing) || fresh(ring.backing)
        invariant lastSeen == old(lastSeen)
        invariant list.members == JudgedBut(before, todo, localID, lastSeen, first, second)
        invariant nodes == Survivors(list.members, ns)
      {
        var id :| id in todo;
        JudgeOne(before, ns, todo, id, localID, lastSeen, first, second);
        FewerNodes(ring.hash, ring.replicas, before.Keys, nodes + {id});
        Examine(id, first(id), second(id));
        todo := todo - {id};
      }
      AllJudged(before, localID, lastSeen, first, second);
    }

    /** The detector's verdict on one member. */
    method Examine(id: NodeID, first: int, second: int)
      requires id in list.members && list.members[id].id == id && RingSound() && Distinct(nodes + {id})
      requires list.members[id].status == Dead ==> id !in nodes
      modifies list, this`nodes, this`notified, ring, ring.backing
      ensures RingSound() && (ring.backing == old(ring.backing) || fresh(ring.backing))
      ensures list.members == old(list.members)[id := Judged(old(list.members[id]), localID, lastSeen, first, second)]
      ensures nodes == if list.members[id].status == Dead then old(nodes) - {id} else old(nodes)
    {
      ExamineRead(list.members[id], first, second);
    }

    /** The same for a record read some time ago, with any other handlers in between: agreement is kept all the same. */
    method ExamineRead(member: NodeInfo, first: int, second: int)
      requires RingSound() && Distinct(nodes + {member.id})
      modifies list, this`nodes, this`notified, ring, ring.backing
      ensures RingSound() && (ring.backing == old(ring.backing) || fresh(ring.backing))
      ensures old(Valid()) ==> Valid()
      ensures var verdict := Judged(member, localID, lastSeen, first, second);
              if Overdue(member.id, localID, lastSeen, first, second)
              then list.members == old(list.members)[member.id := verdict] && nodes == OnChange(old(nodes), verdict)
              else list.members == old(list.members) && nodes == old(nodes)
      ensures member.id != localID && member.id in lastSeen && first - lastSeen[member.id] >= 12 * SECOND ==>
                list.members == old(list.members)[member.id := Marked(member, Dead)] &&
                nodes == old(nodes) - {member.id}
      ensures member.id != localID && member.id in lastSeen && first - lastSeen[member.id] < 12 * SECOND &&
              second - lastSeen[member.id] >= 6 * SECOND ==>
                list.members == old(list.members)[member.id := Marked(member, Suspected)] && nodes == old(nodes)
      ensures notified == old(notified) +
                if Overdue(member.id, localID, lastSeen, first, second) then [list.members[member.id]] else []
    {
      ghost var verdict := Judged(member, localID, lastSeen, first, second);
      if Agree(list.members, nodes) {
        StoreAndNotify(list.members, nodes, verdict);
      }
      hide Agree, NoCollisions, RingSound;
      if member.id != localID && member.id in lastSeen {
        if first - lastSeen[member.id] >= DEAD_AFTER {
          Report(member.(status := Dead, version := member.version + 1));
        } else if second - lastSeen[member.id] >= SUSPECT_AFTER {
          Report(member.(status := Suspected, version := member.version + 1));
        }
      }
    }

    /** Store a verdict and run the callback on it. */
    method Report(info: NodeInfo)
      requires RingSound() && Distinct(nodes + {info.id})
      modifies list, this`nodes, this`notified, ring, ring.backing
      ensures RingSound() && (ring.backing == old(ring.backing) || fresh(ring.backing))
      ensures list.members == old(list.members)[info.id := info]
      ensures nodes == OnChange(old(nodes), info) && notified == old(notified) + [info]
    {
      list.Upsert(info);
      Notify(info);
    }

    /** `ring.Add`, with the set of nodes the ring stands for. */
    method Join(id: NodeID)
      requires RingSound() && Distinct(nodes + {id})
      modifies this`nodes, ring, ring.backing
      ensures RingSound() && (ring.backing == old(ring.backing) || fresh(ring.backing))
      ensures nodes == old(nodes) + {id}
    {
      ring.Add(id);
      nodes := nodes + {id};
    }

    /** `Seed` overwrites the record unconditionally, and never takes a node off the ring. */
    method Seed(info: NodeInfo)
      requires Valid() && Distinct(list.members.Keys + {info.id})
      modifies this, list, ring, ring.backing
      ensures RingSound() && (ring.backing == old(ring.backing) || fresh(ring.backing))
      ensures Valid() <==> (info.status == Dead ==> info.id !in old(nodes))
      ensures list.members == old(list.members)[info.id := info]
      ensures nodes == if info.status == Alive then old(nodes) + {info.id} else old(nodes)
      ensures lastSeen == old(lastSeen) && notified == old(notified)
    {
      SeedAgreementExactly(list.members, nodes, info);
      FewerNodes(ring.hash, ring.replicas, list.members.Keys + {info.id}, nodes + {info.id});
      hide Agree, NoCollisions, RingSound;
      list.Upsert(info);
      if info.status == Alive {
        Join(info.id);
      }
    }

    /** `Alive`, without the local node, in whatever order the map yields. */
    method LivePeers() returns (peers: seq<NodeInfo>)
      ensures forall p :: p in peers <==> p in list.members.Values && p.status == Alive && p.id != localID
    {
      peers := [];
      var todo := list.members.Keys;
      while todo != {}
        invariant todo <= list.members.Keys
        invariant forall p :: p in peers <==>
          (exists id | id in list.members && id !in todo :: list.members[id] == p) &&
          p.status == Alive && p.id != localID
      {
        var id :| id in todo;
        if list.members[id].status == Alive && list.members[id].id != localID {
          peers := peers + [list.members[id]];
        }
        todo := todo - {id};
      }
    }

    /** `All`, in whatever order the map yields. */
    method AllMembers() returns (all: seq<NodeInfo>)
      ensures Records(all) == list.members.Values
    {
      all := [];
      var todo := list.members.Keys;
      while todo != {}
        invariant todo <= list.members.Keys
        invariant forall p :: p in all <==> exists id | id in list.members && id !in todo :: list.members[id] == p
      {
        var id :| id in todo;
        all := all + [list.members[id]];
        todo := todo - {id};
      }
    }

    /** One round of gossip: the whole list goes to one live peer, chosen by the random number, if there is one. */
    method GossipOnce(random: nat) returns (sent: bool, address: string, g: GossipMessage)
      ensures sent <==> exists p :: p in list.members.Values && p.status == Alive && p.id != localID
      ensures sent ==> g.sender == localID && Records(g.members) == list.members.Values
      ensures sent ==>
                exists p :: p in list.members.Values && p.status == Alive && p.id != localID && p.address == address
    {
      var peers := LivePeers();
      g := GossipMessage(localID, []);
      if |peers| == 0 {
        return false, "", g;
      }
      var target := peers[random % |peers|];
      assert target in peers;
      var all := AllMembers();
      return true, target.address, GossipMessage(localID, all);
    }

    /** The node in charge is a known member that is not dead; there is none only if the ring is empty. */
    method ResponsibleNode(actorID: string) returns (owner: NodeID)
      requires Valid()
      ensures Owns(ring.ring, ring.hash(actorID), owner)
      ensures nodes == {} ==> owner == ""
      ensures nodes != {} ==> owner in nodes && owner in list.members && list.members[owner].status != Dead
    {
      owner := ring.Get(actorID);
      OwnerDependsOnNodesOnly(ring.hash, ring.replicas, ring.ring, ring.ring, nodes, ring.hash(actorID), owner, owner);
    }

    method IsLocal(actorID: string) returns (local: bool)
      requires Valid()
      ensures local <==> Owns(ring.ring, ring.hash(actorID), localID)
    {
      var owner := ring.Get(actorID);
      if Owns(ring.ring, ring.hash(actorID), localID) {
        OwnerIsUnique(ring.ring, ring.hash(actorID), owner, localID);
      }
      return owner == localID;
    }
  }

  lemma {:induction false} ChangedIds(m: Members, incoming: seq<NodeInfo>)
    ensures forall r | r in Changed(m, incoming) :: r in incoming
  {
    if |incoming| > 0 {
      ChangedIds(m, incoming[..|incoming| - 1]);
    }
  }

  /** Two nodes whose rings stand for the same members name the same owner for every key. */
  lemma EqualRingsAgree(a: Cluster, c: Cluster, key: string, x: NodeID, y: NodeID)
    requires a.Valid() && c.Valid() && a.nodes == c.nodes
    requires a.ring.hash == c.ring.hash && a.ring.replicas == c.ring.replicas
    requires Owns(a.ring.ring, a.ring.hash(key), x) && Owns(c.ring.ring, c.ring.hash(key), y)
    ensures x == y
  {
    OwnerDependsOnNodesOnly(a.ring.hash, a.ring.replicas, a.ring.ring, c.ring.ring, a.nodes, a.ring.hash(key), x, y);
  }
}
