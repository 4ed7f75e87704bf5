/**
 Versioned membership: the member list, its merge rule, failure detection, and runs of a gossiping system.

 Each handler is one atomic step.
 */
module Membership {
  import opened Ring

  datatype NodeStatus = Alive | Suspected | Dead

  datatype NodeInfo = NodeInfo(id: NodeID, address: string, status: NodeStatus, version: int)

  datatype GossipMessage = GossipMessage(sender: NodeID, members: seq<NodeInfo>)

  type Members = map<NodeID, NodeInfo>

  ghost predicate Keyed(m: Members) {
    forall id | id in m :: m[id].id == id
  }

  /** A record replaces the stored one only if the id is unknown or the version is higher. */
  predicate Newer(m: Members, info: NodeInfo) {
    info.id !in m || info.version > m[info.id].version
  }

  function MergeInto(m: Members, incoming: seq<NodeInfo>): Members
  {
    if |incoming| == 0 then m
    else var n := |incoming| - 1;
         var r := MergeInto(m, incoming[..n]);
         if Newer(r, incoming[n]) then r[incoming[n].id := incoming[n]] else r
  }

  /** The records that were taken over, in the order they were taken. */
  function Changed(m: Members, incoming: seq<NodeInfo>): seq<NodeInfo>
  {
    if |incoming| == 0 then []
    else var n := |incoming| - 1;
         Changed(m, incoming[..n]) + if Newer(MergeInto(m, incoming[..n]), incoming[n]) then [incoming[n]] else []
  }

  /**
   What the callbacks are told in one merge: only records that came in and were newer than the stored ones, an id's
   records with rising versions, so none of them twice, up to the one that ends up stored.
   */
  lemma {:induction false} ChangesAreNewer(m: Members, incoming: seq<NodeInfo>)
    ensures var ch, r := Changed(m, incoming), MergeInto(m, incoming);
            (forall i | 0 <= i < |ch| :: ch[i] in incoming && Newer(m, ch[i])) &&
            (forall i | 0 <= i < |ch| :: ch[i].id in r && ch[i].version <= r[ch[i].id].version) &&
            (forall i, j | 0 <= i < j < |ch| && ch[i].id == ch[j].id :: ch[i].version < ch[j].version) &&
            (forall id | id in r && !(id in m && r[id] == m[id]) :: r[id] in ch) &&
            (forall id | id in m :: id in r && m[id].version <= r[id].version)
  {
    if |incoming| > 0 {
      var n := |incoming| - 1;
      ChangesAreNewer(m, incoming[..n]);
      assert incoming == incoming[..n] + [incoming[n]];
    }
  }

  class MemberList {
    var members: Members

    constructor ()
      ensures members == map[]
    {
      members := map[];
    }

    method Upsert(info: NodeInfo)
      modifies this
      ensures members == old(members)[info.id := info]
    {
      members := members[info.id := info];
    }

    method Merge(incoming: seq<NodeInfo>) returns (changed: seq<NodeInfo>)
      modifies this
      ensures members == MergeInto(old(members), incoming)
      ensures changed == Changed(old(members), incoming)
    {
      changed := [];
      for i := 0 to |incoming|
        invariant members == MergeInto(old(members), incoming[..i])
        invariant changed == Changed(old(members), incoming[..i])
      {
        var info := incoming[i];
        if info.id !in members || info.version > members[info.id].version {
          members := members[info.id := info];
          changed := changed + [info];
        }
        assert incoming[..i + 1][..i] == incoming[..i];
      }
      assert incoming[..|incoming|] == incoming;
    }
  }

  // ---------- failure detection ----------

  const SECOND: int := 1_000_000_000
  const SUSPECT_AFTER: int := 6 * SECOND
  const DEAD_AFTER: int := 12 * SECOND

  /** What one pass makes of a record, given when its node was last heard and two readings of the clock. */
  function Judged(info: NodeInfo, local: NodeID, lastSeen: map<NodeID, int>, first: int, second: int): NodeInfo {
    if info.id == local || info.id !in lastSeen then info
    else if first - lastSeen[info.id] >= DEAD_AFTER then info.(status := Dead, version := info.version + 1)
    else if second - lastSeen[info.id] >= SUSPECT_AFTER then info.(status := Suspected, version := info.version + 1)
    else info
  }

  type Clock = NodeID -> int

  function JudgedAll(m: Members, local: NodeID, lastSeen: map<NodeID, int>, first: Clock, second: Clock): Members {
    map id | id in m :: Judged(m[id], local, lastSeen, first(id), second(id))
  }

  // ---------- the merge as a least upper bound ----------

  function Records(s: seq<NodeInfo>): set<NodeInfo> {
    set r | r in s
  }

  /** Every id of either side is there, at the highest version any of its records has. */
  ghost predicate IsJoin(m: Members, recs: set<NodeInfo>, r: Members) {
    (forall id | id in m :: id in r && r[id].version >= m[id].version) &&
    (forall i | i in recs :: i.id in r && r[i.id].version >= i.version) &&
    (forall id | id in r :: (id in m && r[id] == m[id]) || (r[id] in recs && r[id].id == id))
  }

  lemma {:induction false} MergeIsJoin(m: Members, incoming: seq<NodeInfo>)
    ensures IsJoin(m, Records(incoming), MergeInto(m, incoming))
  {
    if |incoming| > 0 {
      var n := |incoming| - 1;
      MergeIsJoin(m, incoming[..n]);
      assert incoming == incoming[..n] + [incoming[n]];
      assert Records(incoming) == Records(incoming[..n]) + {incoming[n]};
    }
  }

  /** The detector has heard of this member, and long enough ago for a verdict. */
  predicate Overdue(id: NodeID, local: NodeID, lastSeen: map<NodeID, int>, first: int, second: int) {
    id != local && id in lastSeen &&
    (first - lastSeen[id] >= DEAD_AFTER || second - lastSeen[id] >= SUSPECT_AFTER)
  }

  /**
   A verdict on a record read before a merge is written over what the merge brought: that lowers the version
   exactly when some incoming record of the member was more than one version ahead.
   */
  lemma StaleVerdictLowersVersion(m: Members, incoming: seq<NodeInfo>, id: NodeID, local: NodeID,
                                  lastSeen: map<NodeID, int>, first: int, second: int)
    requires Keyed(m) && id in m && Overdue(id, local, lastSeen, first, second)
    ensures var stale := Judged(m[id], local, lastSeen, first, second);
            var merged := MergeInto(m, incoming);
            id in merged &&
            (merged[id := stale][id].version < merged[id].version <==>
             exists r | r in incoming :: r.id == id && r.version > m[id].version + 1)
  {
    MergeIsJoin(m, incoming);
    var merged := MergeInto(m, incoming);
    forall r | r in incoming ensures r.id in merged && merged[r.id].version >= r.version {
      assert r in Records(incoming);
    }
    if merged[id].version > m[id].version + 1 {
      assert merged[id] in Records(incoming) && merged[id].id == id;
    }
  }

  ghost predicate SameVersions(a: Members, c: Members) {
    a.Keys == c.Keys && forall id | id in a :: a[id].version == c[id].version
  }

  lemma JoinVersionsUnique(m: Members, recs: set<NodeInfo>, a: Members, c: Members)
    requires IsJoin(m, recs, a) && IsJoin(m, recs, c)
    ensures SameVersions(a, c)
  {
    assert forall id :: id in a <==> id in c;
  }

  function MergeAll(m: Members, msgs: seq<GossipMessage>): Members
  {
    if |msgs| == 0 then m else MergeInto(MergeAll(m, msgs[..|msgs| - 1]), msgs[|msgs| - 1].members)
  }

  function AllRecords(msgs: seq<GossipMessage>): set<NodeInfo> {
    set g, r | g in msgs && r in g.members :: r
  }

  lemma {:induction false} MergeAllIsJoin(m: Members, msgs: seq<GossipMessage>)
    ensures IsJoin(m, AllRecords(msgs), MergeAll(m, msgs))
  {
    if |msgs| > 0 {
      var n := |msgs| - 1;
      MergeAllIsJoin(m, msgs[..n]);
      MergeIsJoin(MergeAll(m, msgs[..n]), msgs[n].members);
      assert forall r :: r in AllRecords(msgs) <==> r in AllRecords(msgs[..n]) || r in msgs[n].members by {
        assert msgs == msgs[..n] + [msgs[n]];
      }
    }
  }

  // ---------- liveness is decided by the version ----------

  /** No record is ever alive with a positive version, nor anything else with version 0. */
  predicate Fresh(i: NodeInfo) {
    i.version >= 0 && (i.status == Alive <==> i.version == 0)
  }

  ghost predicate AllFresh(m: Members) {
    Keyed(m) && forall id | id in m :: Fresh(m[id])
  }

  ghost function AliveIds(m: Members): set<NodeID> {
    set id | id in m && m[id].status == Alive
  }

  /** The same messages in any order, with any repetition, give the same versions and the same live members. */
  lemma DeliveryOrderIrrelevant(m: Members, msgs: seq<GossipMessage>, again: seq<GossipMessage>)
    requires forall g :: g in msgs <==> g in again
    requires AllFresh(m) && forall g, r | g in msgs && r in g.members :: Fresh(r)
    ensures SameVersions(MergeAll(m, msgs), MergeAll(m, again))
    ensures AliveIds(MergeAll(m, msgs)) == AliveIds(MergeAll(m, again))
  {
    MergeAllIsJoin(m, msgs);
    MergeAllIsJoin(m, again);
    assert AllRecords(msgs) == AllRecords(again);
    var a, c := MergeAll(m, msgs), MergeAll(m, again);
    JoinVersionsUnique(m, AllRecords(msgs), a, c);
    forall id ensures id in AliveIds(a) <==> id in AliveIds(c) {
      if id in a {
        assert Fresh(a[id]) && Fresh(c[id]);
      }
    }
  }

  /** Of two records of one id and version the first to arrive stays, so the order decides whatever else they say. */
  lemma TiesMayDisagree(m: Members, a: NodeInfo, c: NodeInfo, from: NodeID, to: NodeID)
    requires a.id == c.id && a.version == c.version && Newer(m, a)
    ensures var g, h := GossipMessage(from, [a]), GossipMessage(to, [c]);
            MergeAll(m, [g, h]) == m[a.id := a] && MergeAll(m, [h, g]) == m[a.id := c]
  {
    var g, h := GossipMessage(from, [a]), GossipMessage(to, [c]);
    TwoMessages(m, g, h);
    TwoMessages(m, h, g);
    FirstStays(m, a, c);
    FirstStays(m, c, a);
  }

  lemma TwoMessages(m: Members, a: GossipMessage, c: GossipMessage)
    ensures MergeAll(m, [a, c]) == MergeInto(MergeInto(m, a.members), c.members)
  {
    assert [a, c][..1] == [a] && [a][..0] == [];
    assert MergeAll(m, [a]) == MergeInto(MergeAll(m, []), a.members);
  }

  lemma FirstStays(m: Members, a: NodeInfo, c: NodeInfo)
    requires a.id == c.id && a.version == c.version && Newer(m, a)
    ensures MergeInto(MergeInto(m, [a]), [c]) == m[a.id := a]
  {
    assert MergeInto(m, [a]) == MergeInto(m, [])[a.id := a];
    assert [a][..0] == [] && [c][..0] == [];
  }

  // ---------- when whole records agree ----------

  /** The same messages, in any order and with any repetition. */
  ghost predicate SameMessages(msgs: seq<GossipMessage>, again: seq<GossipMessage>) {
    forall g :: g in msgs <==> g in again
  }

  ghost predicate OrderIrrelevant(m: Members, msgs: seq<GossipMessage>) {
    forall again | SameMessages(msgs, again) :: MergeAll(m, again) == MergeAll(m, msgs)
  }

  /** What message g alone would make of the record of id, if that has the version all the messages lead to. */
  ghost predicate Wins(m: Members, msgs: seq<GossipMessage>, g: GossipMessage, id: NodeID) {
    g in msgs && id in MergeInto(m, g.members) && id in MergeAll(m, msgs) &&
    MergeInto(m, g.members)[id].version == MergeAll(m, msgs)[id].version
  }

  /** Any two messages that bring an id to its final version bring the same record. */
  ghost predicate WinnersAgree(m: Members, msgs: seq<GossipMessage>) {
    forall g, h, id | Wins(m, msgs, g, id) && Wins(m, msgs, h, id) ::
      MergeInto(m, g.members)[id] == MergeInto(m, h.members)[id]
  }

  /** A merge that leaves an id's version alone leaves its record alone. */
  lemma {:induction false} SameVersionSameRecord(m: Members, incoming: seq<NodeInfo>, id: NodeID)
    requires id in m
    ensures id in MergeInto(m, incoming) && MergeInto(m, incoming)[id].version >= m[id].version
    ensures MergeInto(m, incoming)[id].version == m[id].version ==> MergeInto(m, incoming)[id] == m[id]
  {
    if |incoming| > 0 {
      SameVersionSameRecord(m, incoming[..|incoming| - 1], id);
    }
  }

  lemma {:induction false} SameVersionSameRecordAll(m: Members, msgs: seq<GossipMessage>, id: NodeID)
    requires id in m
    ensures id in MergeAll(m, msgs) && MergeAll(m, msgs)[id].version >= m[id].version
    ensures MergeAll(m, msgs)[id].version == m[id].version ==> MergeAll(m, msgs)[id] == m[id]
  {
    if |msgs| > 0 {
      var n := |msgs| - 1;
      SameVersionSameRecordAll(m, msgs[..n], id);
      SameVersionSameRecord(MergeAll(m, msgs[..n]), msgs[n].members, id);
    }
  }

  /** A record taken over from a message by a list that is further on is the one an earlier list would take. */
  lemma {:induction false} TakenAlike(m: Members, r: Members, incoming: seq<NodeInfo>, id: NodeID)
    requires id in m ==> id in r && m[id].version <= r[id].version
    ensures var a, c := MergeInto(m, incoming), MergeInto(r, incoming);
            if id in c then (id in a && a[id] == c[id]) ||
                            (id in r && c[id] == r[id] && (id in a ==> a[id].version <= r[id].version))
            else id !in a
  {
    if |incoming| > 0 {
      TakenAlike(m, r, incoming[..|incoming| - 1], id);
    }
  }

  /** The final record of an id is the one it had, or the one that some message alone would have brought. */
  lemma {:induction false} WinnerExists(m: Members, msgs: seq<GossipMessage>, id: NodeID)
    requires id in MergeAll(m, msgs)
    ensures (id in m && MergeAll(m, msgs)[id] == m[id]) ||
            exists g | g in msgs ::
              id in MergeInto(m, g.members) && MergeInto(m, g.members)[id] == MergeAll(m, msgs)[id]
  {
    if |msgs| > 0 {
      var n := |msgs| - 1;
      var r := MergeAll(m, msgs[..n]);
      if id in m {
        SameVersionSameRecordAll(m, msgs[..n], id);
      }
      TakenAlike(m, r, msgs[n].members, id);
      if id in r && MergeAll(m, msgs)[id] == r[id] {
        WinnerExists(m, msgs[..n], id);
      } else {
        assert msgs[n] in msgs;
      }
    }
  }

  lemma {:induction false} FirstMessageFirst(m: Members, g: GossipMessage, msgs: seq<GossipMessage>)
    ensures MergeAll(m, [g] + msgs) == MergeAll(MergeInto(m, g.members), msgs)
  {
    if |msgs| == 0 {
      assert [g] + msgs == [g] && [g][..0] == [];
      assert MergeAll(m, [g]) == MergeInto(MergeAll(m, []), g.members);
    } else {
      var n := |msgs| - 1;
      FirstMessageFirst(m, g, msgs[..n]);
      assert ([g] + msgs)[..n + 1] == [g] + msgs[..n];
    }
  }

  lemma SameMessagesSameVersions(m: Members, msgs: seq<GossipMessage>, again: seq<GossipMessage>)
    requires SameMessages(msgs, again)
    ensures SameVersions(MergeAll(m, msgs), MergeAll(m, again))
  {
    MergeAllIsJoin(m, msgs);
    MergeAllIsJoin(m, again);
    assert AllRecords(msgs) == AllRecords(again);
    JoinVersionsUnique(m, AllRecords(msgs), MergeAll(m, msgs), MergeAll(m, again));
  }

  lemma AgreeingWinnersDecide(m: Members, msgs: seq<GossipMessage>, again: seq<GossipMessage>, id: NodeID)
    requires WinnersAgree(m, msgs) && SameMessages(msgs, again) && id in MergeAll(m, msgs)
    ensures id in MergeAll(m, again) && MergeAll(m, again)[id] == MergeAll(m, msgs)[id]
  {
    var a, c := MergeAll(m, msgs), MergeAll(m, again);
    SameMessagesSameVersions(m, msgs, again);
    WinnerExists(m, msgs, id);
    WinnerExists(m, again, id);
    if id in m {
      SameVersionSameRecordAll(m, msgs, id);
      SameVersionSameRecordAll(m, again, id);
    }
    if !(id in m && a[id].version == m[id].version) {
      var g :| g in msgs && id in MergeInto(m, g.members) && MergeInto(m, g.members)[id] == a[id];
      var h :| h in again && id in MergeInto(m, h.members) && MergeInto(m, h.members)[id] == c[id];
      assert Wins(m, msgs, g, id) && Wins(m, msgs, h, id);
    }
  }

  /** A winner delivered first stays. */
  lemma FirstWinnerStays(m: Members, msgs: seq<GossipMessage>, g: GossipMessage, id: NodeID)
    requires Wins(m, msgs, g, id)
    ensures SameMessages(msgs, [g] + msgs)
    ensures id in MergeAll(m, [g] + msgs) && MergeAll(m, [g] + msgs)[id] == MergeInto(m, g.members)[id]
  {
    FirstMessageFirst(m, g, msgs);
    SameMessagesSameVersions(m, msgs, [g] + msgs);
    SameVersionSameRecordAll(MergeInto(m, g.members), msgs, id);
  }

  /** Whole records, statuses included, are independent of the order of delivery exactly when the winners agree. */
  lemma OrderIrrelevantExactly(m: Members, msgs: seq<GossipMessage>)
    ensures OrderIrrelevant(m, msgs) <==> WinnersAgree(m, msgs)
  {
    if WinnersAgree(m, msgs) {
      forall again | SameMessages(msgs, again) ensures MergeAll(m, again) == MergeAll(m, msgs) {
        SameMessagesSameVersions(m, msgs, again);
        forall id | id in MergeAll(m, msgs)
          ensures id in MergeAll(m, again) && MergeAll(m, again)[id] == MergeAll(m, msgs)[id]
        {
          AgreeingWinnersDecide(m, msgs, again, id);
        }
      }
    }
    if OrderIrrelevant(m, msgs) {
      forall g, h, id | Wins(m, msgs, g, id) && Wins(m, msgs, h, id)
        ensures MergeInto(m, g.members)[id] == MergeInto(m, h.members)[id]
      {
        FirstWinnerStays(m, msgs, g, id);
        FirstWinnerStays(m, msgs, h, id);
      }
    }
  }

  // The same on the records themselves.

  /** The i-th record of a message is the first of its id and version there. */
  ghost predicate IsFirst(records: seq<NodeInfo>, i: nat) {
    i < |records| &&
    forall j | 0 <= j < i :: !(records[j].id == records[i].id && records[j].version == records[i].version)
  }

  /** It would be taken over, and no message has a newer record of its id. */
  ghost predicate Leads(m: Members, msgs: seq<GossipMessage>, g: GossipMessage, i: nat) {
    g in msgs && IsFirst(g.members, i) && Newer(m, g.members[i]) &&
    forall h, k | h in msgs && 0 <= k < |h.members| && h.members[k].id == g.members[i].id ::
      h.members[k].version <= g.members[i].version
  }

  ghost predicate LeadersAgree(m: Members, msgs: seq<GossipMessage>) {
    forall g, i: nat, h, j: nat | Leads(m, msgs, g, i) && Leads(m, msgs, h, j) && g.members[i].id == h.members[j].id ::
      g.members[i] == h.members[j]
  }

  lemma {:induction false} MergeAppend(m: Members, a: seq<NodeInfo>, c: seq<NodeInfo>)
    ensures MergeInto(m, a + c) == MergeInto(MergeInto(m, a), c)
  {
    if |c| == 0 {
      assert a + c == a;
    } else {
      MergeAppend(m, a, c[..|c| - 1]);
      assert (a + c)[..|a + c| - 1] == a + c[..|c| - 1];
    }
  }

  /** The first of the newest records of an id in a message is the one it leaves stored. */
  lemma LeaderIsStored(m: Members, records: seq<NodeInfo>, i: nat)
    requires IsFirst(records, i) && Newer(m, records[i])
    requires forall k | 0 <= k < |records| && records[k].id == records[i].id :: records[k].version <= records[i].version
    ensures var r := records[i]; r.id in MergeInto(m, records) && MergeInto(m, records)[r.id] == r
  {
    var r := records[i];
    NewerThanBefore(m, records, i);
    assert records[..i + 1][..i] == records[..i];
    var now := MergeInto(m, records[..i + 1]);
    assert now == MergeInto(m, records[..i])[r.id := r];
    assert records == records[..i + 1] + records[i + 1..];
    MergeAppend(m, records[..i + 1], records[i + 1..]);
    hide MergeInto;
    NothingOverwrites(now, records[i + 1..], r);
  }

  lemma NewerThanBefore(m: Members, records: seq<NodeInfo>, i: nat)
    requires IsFirst(records, i) && Newer(m, records[i])
    requires forall k | 0 <= k < |records| && records[k].id == records[i].id :: records[k].version <= records[i].version
    ensures Newer(MergeInto(m, records[..i]), records[i])
  {
    MergeIsJoin(m, records[..i]);
    hide MergeInto;
  }

  lemma NothingOverwrites(m: Members, records: seq<NodeInfo>, r: NodeInfo)
    requires r.id in m && m[r.id] == r
    requires forall k | 0 <= k < |records| && records[k].id == r.id :: records[k].version <= r.version
    ensures r.id in MergeInto(m, records) && MergeInto(m, records)[r.id] == r
  {
    MergeIsJoin(m, records);
    SameVersionSameRecord(m, records, r.id);
    hide MergeInto;
  }

  lemma {:induction false} FirstOfKind(records: seq<NodeInfo>, k: nat) returns (i: nat)
    requires k < |records|
    ensures IsFirst(records, i) && records[i].id == records[k].id && records[i].version == records[k].version
  {
    i := k;
    if !IsFirst(records, k) {
      var j: nat :| j < k && records[j].id == records[k].id && records[j].version == records[k].version;
      i := FirstOfKind(records, j);
    }
  }

  lemma RecordIsKnown(msgs: seq<GossipMessage>, g: GossipMessage, i: nat)
    requires g in msgs && i < |g.members|
    ensures g.members[i] in AllRecords(msgs)
  {
    var r := g.members[i];
    assert g in msgs && r in g.members;
  }

  lemma SameVersionAtTop(m: Members, msgs: seq<GossipMessage>, r: NodeInfo)
    requires Newer(m, r) && r in AllRecords(msgs)
    requires forall h, k | h in msgs && 0 <= k < |h.members| && h.members[k].id == r.id ::
               h.members[k].version <= r.version
    ensures r.id in MergeAll(m, msgs) && MergeAll(m, msgs)[r.id].version == r.version
  {
    MergeAllIsJoin(m, msgs);
    var final := MergeAll(m, msgs)[r.id];
    if final in AllRecords(msgs) && final.id == r.id {
      var h :| h in msgs && final in h.members;
      var k :| 0 <= k < |h.members| && h.members[k] == final;
    }
  }

  lemma LeaderWins(m: Members, msgs: seq<GossipMessage>, g: GossipMessage, i: nat)
    requires Leads(m, msgs, g, i)
    ensures var r := g.members[i]; Wins(m, msgs, g, r.id) && MergeInto(m, g.members)[r.id] == r
  {
    var r := g.members[i];
    LeaderIsStored(m, g.members, i);
    MergeAllIsJoin(m, msgs);
    RecordIsKnown(msgs, g, i);
    SameVersionAtTop(m, msgs, r);
  }

  /** A winner is a leader of its message, unless it is the stored record itself. */
  lemma WinnerLeads(m: Members, msgs: seq<GossipMessage>, g: GossipMessage, id: NodeID) returns (i: nat)
    requires Wins(m, msgs, g, id) && !(id in m && MergeInto(m, g.members)[id] == m[id])
    ensures Leads(m, msgs, g, i) && g.members[i] == MergeInto(m, g.members)[id] && g.members[i].id == id
  {
    var r := MergeInto(m, g.members)[id];
    MergeIsJoin(m, g.members);
    var k :| 0 <= k < |g.members| && g.members[k] == r;
    i := FirstOfKind(g.members, k);
    if id in m {
      SameVersionSameRecord(m, g.members, id);
    }
    NothingNewer(m, msgs, id);
    LeaderIsStored(m, g.members, i);
  }

  lemma NothingNewer(m: Members, msgs: seq<GossipMessage>, id: NodeID)
    requires id in MergeAll(m, msgs)
    ensures forall h, k | h in msgs && 0 <= k < |h.members| && h.members[k].id == id ::
              h.members[k].version <= MergeAll(m, msgs)[id].version
  {
    MergeAllIsJoin(m, msgs);
    forall h, k | h in msgs && 0 <= k < |h.members| && h.members[k].id == id
      ensures h.members[k].version <= MergeAll(m, msgs)[id].version
    {
      RecordIsKnown(msgs, h, k);
    }
  }

  /**
   Whole records are independent of the order of delivery exactly when the messages agree on the newest records:
   those that are newer than the stored one, than which there is none newer, and that come first in their message.
   */
  lemma LeadersDecideExactly(m: Members, msgs: seq<GossipMessage>)
    ensures OrderIrrelevant(m, msgs) <==> LeadersAgree(m, msgs)
  {
    OrderIrrelevantExactly(m, msgs);
    hide OrderIrrelevant, MergeAll;
    if WinnersAgree(m, msgs) {
      forall g, i: nat, h, j: nat
        | Leads(m, msgs, g, i) && Leads(m, msgs, h, j) && g.members[i].id == h.members[j].id
        ensures g.members[i] == h.members[j]
      {
        LeaderWins(m, msgs, g, i);
        LeaderWins(m, msgs, h, j);
      }
    }
    if LeadersAgree(m, msgs) {
      forall g, h, id | Wins(m, msgs, g, id) && Wins(m, msgs, h, id)
        ensures MergeInto(m, g.members)[id] == MergeInto(m, h.members)[id]
      {
        AgreeingLeadersWin(m, msgs, g, h, id);
      }
    }
  }

  lemma AgreeingLeadersWin(m: Members, msgs: seq<GossipMessage>, g: GossipMessage, h: GossipMessage, id: NodeID)
    requires LeadersAgree(m, msgs) && Wins(m, msgs, g, id) && Wins(m, msgs, h, id)
    ensures MergeInto(m, g.members)[id] == MergeInto(m, h.members)[id]
  {
    if id in m {
      SameVersionSameRecord(m, g.members, id);
      SameVersionSameRecord(m, h.members, id);
    }
    if !(id in m && MergeInto(m, g.members)[id] == m[id]) && !(id in m && MergeInto(m, h.members)[id] == m[id]) {
      var i := WinnerLeads(m, msgs, g, id);
      var j := WinnerLeads(m, msgs, h, id);
    }
  }

  /** Version ties apart, records of one id and version that differ nowhere, everything converges. */
  ghost predicate NoTies(recs: set<NodeInfo>) {
    forall r, t | r in recs && t in recs && r.id == t.id && r.version == t.version :: r == t
  }

  lemma NoTiesConverge(m: Members, msgs: seq<GossipMessage>)
    requires Keyed(m) && NoTies(m.Values + AllRecords(msgs))
    ensures OrderIrrelevant(m, msgs)
  {
    forall g, h, id | Wins(m, msgs, g, id) && Wins(m, msgs, h, id)
      ensures MergeInto(m, g.members)[id] == MergeInto(m, h.members)[id]
    {
      MergedRecordIsKnown(m, msgs, g, id);
      MergedRecordIsKnown(m, msgs, h, id);
    }
    OrderIrrelevantExactly(m, msgs);
  }

  lemma MergedRecordIsKnown(m: Members, msgs: seq<GossipMessage>, g: GossipMessage, id: NodeID)
    requires Keyed(m) && g in msgs && id in MergeInto(m, g.members)
    ensures MergeInto(m, g.members)[id] in m.Values + AllRecords(msgs) && MergeInto(m, g.members)[id].id == id
  {
    MergeIsJoin(m, g.members);
  }

  // ---------- runs of a gossiping system ----------

  /**
   The member list of every node, what its failure detector last read of it, and every message ever sent: any of
   them may arrive at any time, any number of times.
   */
  datatype System = System(views: map<NodeID, Members>, read: map<NodeID, Members>, sent: set<GossipMessage>)

  ghost predicate Init(s: System) {
    s.sent == {} && (forall n | n in s.read :: s.read[n] == map[]) && s.read.Keys == s.views.Keys &&
    forall n | n in s.views :: exists address :: s.views[n] == map[n := NodeInfo(n, address, Alive, 0)]
  }

  /** `Detect` is a whole pass of the detector; `Read` and `LateVerdict` are its parts, with others' steps between. */
  datatype Action =
    | Send(g: GossipMessage)
    | Deliver(g: GossipMessage)
    | Detect(lastSeen: map<NodeID, int>, first: Clock, second: Clock)
    | Read
    | LateVerdict(about: NodeID, heard: map<NodeID, int>, now: int, later: int)
    | Seed(id: NodeID, address: string)

  /** What an action of node n makes of its member list. */
  ghost predicate ViewStep(n: NodeID, m: Members, read: Members, sent: set<GossipMessage>, a: Action, r: Members) {
    match a
    case Send(g) => g.sender == n && Records(g.members) == m.Values && r == m
    case Deliver(g) => g in sent && r == MergeInto(m, g.members)
    case Detect(lastSeen, first, second) => r == JudgedAll(m, n, lastSeen, first, second)
    case Read => r == m
    case LateVerdict(about, heard, now, later) =>
      about in read && Overdue(about, n, heard, now, later) &&
      r == m[about := Judged(read[about], n, heard, now, later)]
    case Seed(id, address) => r == m[id := NodeInfo(id, address, Alive, 0)]
  }

  ghost predicate Step(s: System, t: System, n: NodeID, a: Action) {
    n in s.views && n in t.views && n in s.read &&
    ViewStep(n, s.views[n], s.read[n], s.sent, a, t.views[n]) &&
    t.views == s.views[n := t.views[n]] &&
    t.read == (if a.Read? then s.read[n := s.views[n]] else s.read) &&
    t.sent == if a.Send? then s.sent + {a.g} else s.sent
  }

  /** Seeding over a record that already has a positive version. */
  predicate Reseeds(m: Members, a: Action) {
    a.Seed? && a.id in m && m[a.id].version > 0
  }

  /** What a run keeps to: `atomic` is that no detection pass is interrupted, `careful` that nothing is reseeded. */
  datatype Conduct = Conduct(atomic: bool, careful: bool)

  ghost predicate Allowed(s: System, n: NodeID, a: Action, c: Conduct) {
    !(c.atomic && a.LateVerdict?) && !(c.careful && n in s.views && Reseeds(s.views[n], a))
  }

  ghost predicate Next(s: System, t: System, c: Conduct) {
    exists n, a :: Step(s, t, n, a) && Allowed(s, n, a, c)
  }

  ghost predicate FreshMessages(sent: set<GossipMessage>) {
    forall g, r | g in sent && r in g.members :: Fresh(r)
  }

  ghost predicate SystemFresh(s: System) {
    (forall n | n in s.views :: AllFresh(s.views[n])) && (forall n | n in s.read :: AllFresh(s.read[n])) &&
    FreshMessages(s.sent)
  }

  /** A member list that forgets no id and brings none back to life. */
  ghost predicate Lasting(m: Members, r: Members) {
    forall id | id in m :: id in r && (m[id].status != Alive ==> r[id].status != Alive)
  }

  /** A member list that moreover takes no version back. */
  ghost predicate Grows(m: Members, r: Members) {
    forall id | id in m :: id in r && r[id].version >= m[id].version
  }

  /** No node forgets an id; without reseeding none comes back to life, and with atomic passes too no version falls. */
  ghost predicate Forward(s: System, t: System, c: Conduct) {
    s.views.Keys == t.views.Keys &&
    forall n | n in s.views ::
      s.views[n].Keys <= t.views[n].Keys && (c.careful ==> Lasting(s.views[n], t.views[n])) &&
      (c.careful && c.atomic ==> Grows(s.views[n], t.views[n]))
  }

  /** A seeded record brings a member back to life, and lowers its version, exactly when it is reseeded. */
  lemma ReseedingExactly(m: Members, id: NodeID, address: string)
    requires AllFresh(m)
    ensures var r := m[id := NodeInfo(id, address, Alive, 0)];
            AllFresh(r) && (Lasting(m, r) <==> !Reseeds(m, Seed(id, address))) &&
            (Grows(m, r) <==> !Reseeds(m, Seed(id, address)))
  {
    if id in m {
      assert Fresh(m[id]);
    }
  }

  lemma ViewStaysFresh(n: NodeID, m: Members, read: Members, sent: set<GossipMessage>, a: Action, r: Members)
    requires AllFresh(m) && AllFresh(read) && FreshMessages(sent) && ViewStep(n, m, read, sent, a, r)
    ensures AllFresh(r) && m.Keys <= r.Keys
    ensures !Reseeds(m, a) ==> Lasting(m, r) && (!a.LateVerdict? ==> Grows(m, r))
  {
    if a.Deliver? {
      MergeIsJoin(m, a.g.members);
    } else if a.Seed? {
      ReseedingExactly(m, a.id, a.address);
    }
  }

  lemma StepKeepsFresh(s: System, t: System, c: Conduct)
    requires SystemFresh(s) && Next(s, t, c)
    ensures SystemFresh(t) && Forward(s, t, c)
  {
    var n, a :| Step(s, t, n, a) && Allowed(s, n, a, c);
    ViewStaysFresh(n, s.views[n], s.read[n], s.sent, a, t.views[n]);
    if a.Send? {
      SentIsFresh(s.views[n], a.g);
    }
  }

  lemma SentIsFresh(m: Members, g: GossipMessage)
    requires AllFresh(m) && Records(g.members) == m.Values
    ensures forall r | r in g.members :: Fresh(r)
  {
    forall r | r in g.members ensures Fresh(r) {
      assert r in Records(g.members);
    }
  }

  ghost predicate IsRun(run: seq<System>, c: Conduct) {
    |run| > 0 && Init(run[0]) && forall i | 0 <= i < |run| - 1 :: Next(run[i], run[i + 1], c)
  }

  /** In every run, whatever its conduct, every stored or travelling record is alive exactly at version 0. */
  lemma {:induction false} RunsStayFresh(run: seq<System>, c: Conduct, k: nat)
    requires IsRun(run, c) && k < |run|
    ensures SystemFresh(run[k])
    ensures k > 0 ==> Forward(run[k - 1], run[k], c)
  {
    if k > 0 {
      hide SystemFresh, Forward, Next, Init;
      RunsStayFresh(run, c, k - 1);
      StepKeepsFresh(run[k - 1], run[k], c);
    }
  }

  /** In every run without reseeding a member once suspected or dead at a node is never alive there again. */
  lemma {:induction false} NoneComesBack(run: seq<System>, atomic: bool, j: nat, k: nat, n: NodeID, id: NodeID)
    requires IsRun(run, Conduct(atomic, true)) && j <= k < |run|
    requires n in run[j].views && id in run[j].views[n]
    ensures n in run[k].views && id in run[k].views[n]
    ensures run[j].views[n][id].status != Alive ==> run[k].views[n][id].status != Alive
  {
    hide IsRun;
    RunsStayFresh(run, Conduct(atomic, true), k);
    if j < k {
      NoneComesBack(run, atomic, j, k - 1, n, id);
      assert Lasting(run[k - 1].views[n], run[k].views[n]);
    }
  }

  /** In every run with atomic passes and without reseeding versions at a node never fall. */
  lemma {:induction false} VersionsNeverFall(run: seq<System>, j: nat, k: nat, n: NodeID, id: NodeID)
    requires IsRun(run, Conduct(true, true)) && j <= k < |run|
    requires n in run[j].views && id in run[j].views[n]
    ensures n in run[k].views && id in run[k].views[n]
    ensures run[k].views[n][id].version >= run[j].views[n][id].version
  {
    hide IsRun;
    RunsStayFresh(run, Conduct(true, true), k);
    if j < k {
      VersionsNeverFall(run, j, k - 1, n, id);
      assert Grows(run[k - 1].views[n], run[k].views[n]);
    }
  }
}
