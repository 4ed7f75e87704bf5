/**
 The cluster manager: registers clients and, once enough are there, groups them and tells each one its group.
 */
module ClusterManagement {
  import opened Vectors
  import opened KMeansClustering

  datatype ClientEntry = ClientEntry(id: string, featureMean: Vec)

  datatype ClusterAssign = ClusterAssign(clusterID: nat, members: seq<string>, coordinator: string)

  function Points(clients: seq<ClientEntry>): (points: seq<Vec>)
    ensures |points| == |clients|
  {
    seq(|clients|, i requires 0 <= i < |clients| => clients[i].featureMean)
  }

  /** The clients of group j, in registration order. */
  function MembersOf(clients: seq<ClientEntry>, a: seq<nat>, j: nat): seq<string>
    requires |a| == |clients|
  {
    if |a| == 0 then []
    else var n := |a| - 1; MembersOf(clients[..n], a[..n], j) + if a[n] == j then [clients[n].id] else []
  }

  lemma {:induction false} MembersAreThoseAssigned(clients: seq<ClientEntry>, a: seq<nat>, j: nat, id: string)
    requires |a| == |clients|
    ensures id in MembersOf(clients, a, j) <==> exists i :: 0 <= i < |a| && a[i] == j && clients[i].id == id
  {
    if |a| > 0 {
      var n := |a| - 1;
      MembersAreThoseAssigned(clients[..n], a[..n], j, id);
      if exists i :: 0 <= i < |a| && a[i] == j && clients[i].id == id {
        var i :| 0 <= i < |a| && a[i] == j && clients[i].id == id;
        assert i < n ==> a[..n][i] == j && clients[..n][i].id == id;
      }
    }
  }

  /** A client's place in its group's list is the number of members registered before it. */
  lemma {:induction false} MembersInOrder(clients: seq<ClientEntry>, a: seq<nat>, i: nat)
    requires |a| == |clients| && i < |a|
    ensures |MembersOf(clients, a, a[i])| == ClusterCount(a, a[i])
    ensures ClusterCount(a[..i], a[i]) < ClusterCount(a, a[i])
    ensures MembersOf(clients, a, a[i])[ClusterCount(a[..i], a[i])] == clients[i].id
  {
    var n := |a| - 1;
    MembersCounted(clients[..n], a[..n], a[i]);
    if i < n {
      MembersInOrder(clients[..n], a[..n], i);
      assert a[..n][..i] == a[..i];
    }
  }

  lemma {:induction false} MembersCounted(clients: seq<ClientEntry>, a: seq<nat>, j: nat)
    requires |a| == |clients|
    ensures |MembersOf(clients, a, j)| == ClusterCount(a, j)
  {
    if |a| > 0 {
      MembersCounted(clients[..|a| - 1], a[..|a| - 1], j);
    }
  }

  /** The coordinator of a group is its member that registered first. */
  lemma FirstRegisteredCoordinates(clients: seq<ClientEntry>, a: seq<nat>, i: nat)
    requires |a| == |clients| && i < |a| && forall k | 0 <= k < i :: a[k] != a[i]
    ensures MembersOf(clients, a, a[i]) != [] && MembersOf(clients, a, a[i])[0] == clients[i].id
  {
    MembersInOrder(clients, a, i);
    NobodyThere(a[..i], a[i]);
  }

  /** Sizes of the first k groups, added up. */
  function Placed(clients: seq<ClientEntry>, a: seq<nat>, k: nat): nat
    requires |a| == |clients|
  {
    if k == 0 then 0 else Placed(clients, a, k - 1) + |MembersOf(clients, a, k - 1)|
  }

  /** Every client is in exactly one group. */
  lemma {:induction false} GroupsPartitionClients(clients: seq<ClientEntry>, a: seq<nat>, k: nat)
    requires |a| == |clients| && forall i | 0 <= i < |a| :: a[i] < k
    ensures Placed(clients, a, k) == |clients|
  {
    if |a| == 0 {
      NobodyPlaced(clients, a, k);
    } else {
      var n := |a| - 1;
      GroupsPartitionClients(clients[..n], a[..n], k);
      OneMorePlaced(clients, a, k);
    }
  }

  lemma {:induction false} NobodyPlaced(clients: seq<ClientEntry>, a: seq<nat>, k: nat)
    requires |a| == |clients| == 0
    ensures Placed(clients, a, k) == 0
  {
    if k > 0 {
      NobodyPlaced(clients, a, k - 1);
    }
  }

  lemma {:induction false} OneMorePlaced(clients: seq<ClientEntry>, a: seq<nat>, k: nat)
    requires |a| == |clients| > 0
    ensures var n := |a| - 1;
            Placed(clients, a, k) == Placed(clients[..n], a[..n], k) + if a[n] < k then 1 else 0
  {
    if k > 0 {
      OneMorePlaced(clients, a, k - 1);
    }
  }

  /** What client i is told: its group's number, everyone in the group, and the first of them as coordinator. */
  ghost predicate Told(clients: seq<ClientEntry>, a: seq<nat>, i: nat, msg: ClusterAssign)
    requires |a| == |clients| && i < |a|
  {
    var members := MembersOf(clients, a, a[i]);
    clients[i].id in members && msg == ClusterAssign(a[i], members, members[0])
  }

  ghost function Assignments(clients: seq<ClientEntry>, numClusters: nat, d: nat): (a: seq<nat>)
    requires SameDims(Points(clients), d)
    ensures |a| == |clients|
  {
    var k := if numClusters > |clients| then |clients| else numClusters;
    Run(Points(clients), Initial(Points(clients), k), d, ROUNDS).assign
  }

  class ClusterManagerActor {
    const numClusters: nat
    var clients: seq<ClientEntry>

    constructor (numClusters: nat)
      ensures this.numClusters == numClusters && clients == []
    {
      this.numClusters := numClusters;
      clients := [];
    }

    /** RegisterClient: the groups are formed anew at every registration from the expected one on. */
    method Receive(entry: ClientEntry, expectedTotal: int, d: nat) returns (sent: seq<ClusterAssign>)
      requires SameDims(Points(clients + [entry]), d)
      modifies this
      ensures clients == old(clients) + [entry]
      ensures |clients| < expectedTotal ==> sent == []
      ensures |clients| >= expectedTotal ==>
                |sent| == |clients| &&
                forall i | 0 <= i < |sent| :: Told(clients, Assignments(clients, numClusters, d), i, sent[i])
    {
      clients := clients + [entry];
      sent := [];
      if |clients| >= expectedTotal {
        sent := ClusterAndAssign(d);
      }
    }

    method ClusterAndAssign(d: nat) returns (sent: seq<ClusterAssign>)
      requires SameDims(Points(clients), d)
      ensures |sent| == |clients|
      ensures forall i | 0 <= i < |sent| :: Told(clients, Assignments(clients, numClusters, d), i, sent[i])
    {
      hide Run, MembersOf, Initial;
      var found := KMeans(Points(clients), numClusters, d);
      var assignments := found[..];
      assert assignments == Assignments(clients, numClusters, d);
      var clusterMembers := Group(assignments);
      sent := [];
      for i := 0 to |clients|
        invariant |sent| == i && forall m | 0 <= m < i :: Told(clients, assignments, m, sent[m])
      {
        var cid := assignments[i];
        MembersAreThoseAssigned(clients, assignments, cid, clients[i].id);
        var members := clusterMembers[cid];
        sent := sent + [ClusterAssign(cid, members, members[0])];
      }
    }

    /** The first loop: append every client's id under its group's number. */
    method Group(assignments: seq<nat>) returns (clusterMembers: map<nat, seq<string>>)
      requires |assignments| == |clients|
      ensures Grouped(clusterMembers, clients, assignments)
    {
      hide Grouped;
      clusterMembers := map[];
      NoGroups();
      assert clients[..0] == [] && assignments[..0] == [];
      for i := 0 to |clients|
        invariant Grouped(clusterMembers, clients[..i], assignments[..i])
      {
        var cid := assignments[i];
        assert clients[..i + 1][..i] == clients[..i] && assignments[..i + 1][..i] == assignments[..i];
        GroupOneMore(clusterMembers, clients[..i + 1], assignments[..i + 1]);
        var members := if cid in clusterMembers then clusterMembers[cid] else [];
        clusterMembers := clusterMembers[cid := members + [clients[i].id]];
      }
      assert clients[..|clients|] == clients && assignments[..|clients|] == assignments;
    }
  }

  ghost predicate Grouped(groups: map<nat, seq<string>>, clients: seq<ClientEntry>, a: seq<nat>)
    requires |a| == |clients|
  {
    (forall j | j in groups :: groups[j] == MembersOf(clients, a, j)) &&
    forall i | 0 <= i < |a| :: a[i] in groups
  }

  lemma {:induction false} UnusedGroup(clients: seq<ClientEntry>, a: seq<nat>, j: nat)
    requires |a| == |clients| && forall i | 0 <= i < |a| :: a[i] != j
    ensures MembersOf(clients, a, j) == []
  {
    if |a| > 0 {
      UnusedGroup(clients[..|a| - 1], a[..|a| - 1], j);
    }
  }

  lemma NoGroups()
    ensures Grouped(map[], [], [])
  {}

  lemma GroupOneMore(groups: map<nat, seq<string>>, clients: seq<ClientEntry>, a: seq<nat>)
    requires |a| == |clients| > 0
    requires var n := |a| - 1; Grouped(groups, clients[..n], a[..n])
    ensures var n := |a| - 1;
            var members := if a[n] in groups then groups[a[n]] else [];
            Grouped(groups[a[n] := members + [clients[n].id]], clients, a)
  {
    var n := |a| - 1;
    if a[n] !in groups {
      UnusedGroup(clients[..n], a[..n], a[n]);
    }
    assert forall i | 0 <= i < n :: a[i] == a[..n][i];
  }
}
