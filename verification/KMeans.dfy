/**
 Grouping clients by Lloyd's k-means over their feature means.

 The cost is the sum of squared distances from each client to the centre of its group.  Neither half of an
 iteration can raise it, and a run that ends because nothing changed ends with everyone at a nearest centre.
 Distances are compared squared, which orders them as the square roots do.
 */
module KMeansClustering {
  import opened Vectors

  ghost predicate SameDims(points: seq<Vec>, d: nat) {
    forall i | 0 <= i < |points| :: |points[i]| == d
  }

  // ---------- the assignment step ----------

  /** The first of the first n centres at least distance, found by the left-to-right scan. */
  function Closest(p: Vec, centers: seq<Vec>, n: nat): (best: nat)
    requires n <= |centers| && SameDims(centers, |p|)
    ensures n > 0 ==> best < n
    ensures n == 0 ==> best == 0
  {
    if n <= 1 then 0
    else var b := Closest(p, centers, n - 1);
         if Dist2(p, centers[n - 1]) < Dist2(p, centers[b]) then n - 1 else b
  }

  lemma {:induction false} ClosestIsFirstNearest(p: Vec, centers: seq<Vec>, n: nat)
    requires 0 < n <= |centers| && SameDims(centers, |p|)
    ensures forall j | 0 <= j < n :: Dist2(p, centers[Closest(p, centers, n)]) <= Dist2(p, centers[j])
    ensures forall j | 0 <= j < Closest(p, centers, n) ::
              Dist2(p, centers[Closest(p, centers, n)]) < Dist2(p, centers[j])
  {
    hide Dist2;
    if n > 1 {
      ClosestIsFirstNearest(p, centers, n - 1);
    }
  }

  function AssignAll(points: seq<Vec>, centers: seq<Vec>, d: nat): (a: seq<nat>)
    requires SameDims(points, d) && SameDims(centers, d)
    ensures |a| == |points|
    ensures |centers| > 0 ==> forall i | 0 <= i < |a| :: a[i] < |centers|
  {
    seq(|points|, i requires 0 <= i < |points| => Closest(points[i], centers, |centers|))
  }

  function Cost(points: seq<Vec>, centers: seq<Vec>, a: seq<nat>, d: nat): real
    requires SameDims(points, d) && SameDims(centers, d)
    requires |a| == |points| && forall i | 0 <= i < |a| :: a[i] < |centers|
  {
    if |points| == 0 then 0.0
    else var n := |points| - 1; Cost(points[..n], centers, a[..n], d) + Dist2(points[n], centers[a[n]])
  }

  /** Moving every client to a nearest centre cannot raise the cost, whatever the assignment was. */
  lemma {:induction false} ReassigningNeverRaisesCost(points: seq<Vec>, centers: seq<Vec>, a: seq<nat>, d: nat)
    requires SameDims(points, d) && SameDims(centers, d) && |centers| > 0
    requires |a| == |points| && forall i | 0 <= i < |a| :: a[i] < |centers|
    ensures Cost(points, centers, AssignAll(points, centers, d), d) <= Cost(points, centers, a, d)
  {
    hide Dist2;
    if |points| > 0 {
      var n := |points| - 1;
      ReassigningNeverRaisesCost(points[..n], centers, a[..n], d);
      assert AssignAll(points, centers, d)[..n] == AssignAll(points[..n], centers, d);
      ClosestIsFirstNearest(points[n], centers, |centers|);
    }
  }

  // ---------- the centre update ----------

  function ClusterCount(a: seq<nat>, j: nat): nat
  {
    if |a| == 0 then 0
    else ClusterCount(a[..|a| - 1], j) + if a[|a| - 1] == j then 1 else 0
  }

  function ClusterSum(points: seq<Vec>, a: seq<nat>, j: nat, d: nat): (s: Vec)
    requires SameDims(points, d) && |a| == |points|
    ensures |s| == d
  {
    if |points| == 0 then VZero(d)
    else var n := |points| - 1;
         var s := ClusterSum(points[..n], a[..n], j, d);
         if a[n] == j then VAdd(s, points[n]) else s
  }

  /** The mean of a cluster; an empty cluster keeps its sum, the zero vector. */
  function Centroid(points: seq<Vec>, a: seq<nat>, j: nat, d: nat): (m: Vec)
    requires SameDims(points, d) && |a| == |points|
    ensures |m| == d
  {
    var c := ClusterCount(a, j);
    if c > 0 then VScale(1.0 / (c as real), ClusterSum(points, a, j, d)) else ClusterSum(points, a, j, d)
  }

  function Means(points: seq<Vec>, a: seq<nat>, k: nat, d: nat): (m: seq<Vec>)
    requires SameDims(points, d) && |a| == |points|
    ensures |m| == k && SameDims(m, d)
  {
    seq(k, j requires 0 <= j < k => Centroid(points, a, j, d))
  }

  /** The part of the cost that cluster j contributes when its centre is c. */
  function ClusterCost(points: seq<Vec>, a: seq<nat>, j: nat, c: Vec): real
    requires SameDims(points, |c|) && |a| == |points|
  {
    if |points| == 0 then 0.0
    else var n := |points| - 1;
         ClusterCost(points[..n], a[..n], j, c) + if a[n] == j then Dist2(points[n], c) else 0.0
  }

  lemma Dist2Expand(p: Vec, m: Vec, c: Vec)
    requires |p| == |m| == |c|
    ensures var e := VAdd(m, VScale(-1.0, c));
            Dist2(p, c) == Dist2(p, m) + Dist2(m, c) + 2.0 * Dot(e, p) - 2.0 * Dot(e, m)
  {
    var e := VAdd(m, VScale(-1.0, c));
    var q := VAdd(p, VScale(-1.0, m));
    assert VAdd(p, VScale(-1.0, c)) == VAdd(q, e);
    hide Dot, VAdd, VScale;
    DotAdd(VAdd(q, e), q, e);
    DotSym(VAdd(q, e), q);
    DotSym(VAdd(q, e), e);
    DotAdd(q, q, e);
    DotAdd(e, q, e);
    DotSym(q, e);
    DotAdd(e, p, VScale(-1.0, m));
    DotScale(e, -1.0, m);
  }

  /** Huygens: moving a cluster's centre from m to c, exactly. */
  lemma {:induction false} ShiftCentre(points: seq<Vec>, a: seq<nat>, j: nat, m: Vec, c: Vec)
    requires |m| == |c| && SameDims(points, |c|) && |a| == |points|
    ensures var e := VAdd(m, VScale(-1.0, c));
            var n := ClusterCount(a, j) as real;
            ClusterCost(points, a, j, c)
            == ClusterCost(points, a, j, m) + n * (Dist2(m, c) - 2.0 * Dot(e, m))
               + 2.0 * Dot(e, ClusterSum(points, a, j, |c|))
  {
    hide Dist2, Dot, VScale, VAdd;
    var e := VAdd(m, VScale(-1.0, c));
    if |points| == 0 {
      DotZero(e);
    } else {
      var n := |points| - 1;
      ShiftCentre(points[..n], a[..n], j, m, c);
      if a[n] == j {
        Dist2Expand(points[n], m, c);
        DotAdd(e, ClusterSum(points[..n], a[..n], j, |c|), points[n]);
        OneMore(ClusterCount(a[..n], j), Dist2(m, c) - 2.0 * Dot(e, m));
      }
    }
  }

  lemma OneMore(n: nat, v: real)
    ensures (n + 1) as real * v == n as real * v + v
  {}

  /** The centroid is the best centre a cluster can have, also when the cluster is empty. */
  lemma CentroidIsBest(points: seq<Vec>, a: seq<nat>, j: nat, c: Vec)
    requires SameDims(points, |c|) && |a| == |points|
    ensures ClusterCost(points, a, j, Centroid(points, a, j, |c|)) <= ClusterCost(points, a, j, c)
  {
    hide Dot, VScale, VAdd, ClusterCost, ClusterSum, ClusterCount, Dist2;
    var m := Centroid(points, a, j, |c|);
    var e := VAdd(m, VScale(-1.0, c));
    var k := ClusterCount(a, j);
    ShiftCentre(points, a, j, m, c);
    Dist2NonNeg(m, c);
    if k > 0 {
      DotScale(e, 1.0 / (k as real), ClusterSum(points, a, j, |c|));
      MeanCancels(k, Dot(e, ClusterSum(points, a, j, |c|)), Dot(e, m), Dist2(m, c));
    } else {
      EmptySum(points, a, j, |c|);
      DotZero(e);
    }
  }

  lemma Dist2NonNeg(m: Vec, c: Vec)
    requires |m| == |c|
    ensures Dist2(m, c) >= 0.0
  {
    DotNonNeg(VAdd(m, VScale(-1.0, c)));
  }

  lemma MeanCancels(k: nat, s: real, v: real, q: real)
    requires k > 0 && v == (1.0 / (k as real)) * s && q >= 0.0
    ensures k as real * (q - 2.0 * v) + 2.0 * s >= 0.0
  {
    assert k as real * v == s;
    assert k as real * (q - 2.0 * v) == k as real * q - 2.0 * (k as real * v);
  }

  lemma {:induction false} EmptySum(points: seq<Vec>, a: seq<nat>, j: nat, d: nat)
    requires SameDims(points, d) && |a| == |points| && ClusterCount(a, j) == 0
    ensures ClusterSum(points, a, j, d) == VZero(d)
  {
    if |points| > 0 {
      EmptySum(points[..|points| - 1], a[..|a| - 1], j, d);
    }
  }

  /** The cost of the first k clusters. */
  function CostByCluster(points: seq<Vec>, a: seq<nat>, centers: seq<Vec>, k: nat, d: nat): real
    requires SameDims(points, d) && SameDims(centers, d) && |a| == |points| && k <= |centers|
  {
    if k == 0 then 0.0
    else CostByCluster(points, a, centers, k - 1, d) + ClusterCost(points, a, k - 1, centers[k - 1])
  }

  lemma {:induction false} LastPoint(points: seq<Vec>, a: seq<nat>, centers: seq<Vec>, k: nat, d: nat)
    requires SameDims(points, d) && SameDims(centers, d) && |a| == |points| > 0 && k <= |centers|
    ensures var n := |points| - 1;
            CostByCluster(points, a, centers, k, d)
            == CostByCluster(points[..n], a[..n], centers, k, d)
               + if a[n] < k then Dist2(points[n], centers[a[n]]) else 0.0
  {
    hide Dist2;
    if k > 0 {
      LastPoint(points, a, centers, k - 1, d);
    }
  }

  lemma {:induction false} CostSplits(points: seq<Vec>, a: seq<nat>, centers: seq<Vec>, d: nat)
    requires SameDims(points, d) && SameDims(centers, d)
    requires |a| == |points| && forall i | 0 <= i < |a| :: a[i] < |centers|
    ensures Cost(points, centers, a, d) == CostByCluster(points, a, centers, |centers|, d)
  {
    hide Dist2;
    if |points| == 0 {
      NoCost(points, a, centers, |centers|, d);
    } else {
      var n := |points| - 1;
      CostSplits(points[..n], a[..n], centers, d);
      LastPoint(points, a, centers, |centers|, d);
    }
  }

  lemma {:induction false} NoCost(points: seq<Vec>, a: seq<nat>, centers: seq<Vec>, k: nat, d: nat)
    requires SameDims(centers, d) && |a| == |points| == 0 && k <= |centers|
    ensures CostByCluster(points, a, centers, k, d) == 0.0
  {
    if k > 0 {
      NoCost(points, a, centers, k - 1, d);
    }
  }

  lemma {:induction false} MeansBestByCluster(points: seq<Vec>, a: seq<nat>, centers: seq<Vec>, k: nat, d: nat)
    requires SameDims(points, d) && SameDims(centers, d) && |a| == |points| && k <= |centers|
    ensures CostByCluster(points, a, Means(points, a, |centers|, d), k, d) <= CostByCluster(points, a, centers, k, d)
  {
    hide ClusterCost, Centroid;
    if k > 0 {
      MeansBestByCluster(points, a, centers, k - 1, d);
      CentroidIsBest(points, a, k - 1, centers[k - 1]);
    }
  }

  /** Moving the centres to the means cannot raise the cost, even when empty clusters jump to zero. */
  lemma UpdatingNeverRaisesCost(points: seq<Vec>, centers: seq<Vec>, a: seq<nat>, d: nat)
    requires SameDims(points, d) && SameDims(centers, d)
    requires |a| == |points| && forall i | 0 <= i < |a| :: a[i] < |centers|
    ensures Cost(points, Means(points, a, |centers|, d), a, d) <= Cost(points, centers, a, d)
  {
    hide Cost, CostByCluster, Means;
    CostSplits(points, a, centers, d);
    CostSplits(points, a, Means(points, a, |centers|, d), d);
    MeansBestByCluster(points, a, centers, |centers|, d);
  }

  // ---------- the iteration ----------

  datatype State = State(centers: seq<Vec>, assign: seq<nat>)

  ghost predicate Shape(points: seq<Vec>, s: State, d: nat) {
    SameDims(points, d) && SameDims(s.centers, d) && |s.assign| == |points| &&
    (forall i | 0 <= i < |points| :: s.assign[i] < |s.centers| || s.assign[i] == 0 == |s.centers|)
  }

  predicate Settled(points: seq<Vec>, s: State, d: nat)
    requires Shape(points, s, d)
  {
    AssignAll(points, s.centers, d) == s.assign
  }

  function Round(points: seq<Vec>, s: State, d: nat): (r: State)
    requires Shape(points, s, d)
    ensures Shape(points, r, d) && |r.centers| == |s.centers|
  {
    var a := AssignAll(points, s.centers, d);
    State(Means(points, a, |s.centers|, d), a)
  }

  /** At most n rounds, stopping early once an assignment pass changes nothing. */
  function Run(points: seq<Vec>, s: State, d: nat, n: nat): (r: State)
    requires Shape(points, s, d)
    ensures Shape(points, r, d) && |r.centers| == |s.centers|
    decreases n
  {
    if n == 0 || Settled(points, s, d) then s else Run(points, Round(points, s, d), d, n - 1)
  }

  lemma RoundNeverRaisesCost(points: seq<Vec>, s: State, d: nat)
    requires Shape(points, s, d) && |s.centers| > 0
    ensures Cost(points, Round(points, s, d).centers, Round(points, s, d).assign, d)
         <= Cost(points, s.centers, s.assign, d)
  {
    hide Cost, Means;
    ReassigningNeverRaisesCost(points, s.centers, s.assign, d);
    UpdatingNeverRaisesCost(points, s.centers, AssignAll(points, s.centers, d), d);
  }

  /** However many rounds run, the cost at the end is at most the cost at the start. */
  lemma {:induction false} CostNeverRises(points: seq<Vec>, s: State, d: nat, n: nat)
    requires Shape(points, s, d) && |s.centers| > 0
    ensures Cost(points, Run(points, s, d, n).centers, Run(points, s, d, n).assign, d)
         <= Cost(points, s.centers, s.assign, d)
    decreases n
  {
    hide Cost, Settled, Round;
    if n > 0 && !Settled(points, s, d) {
      RoundNeverRaisesCost(points, s, d);
      CostNeverRises(points, Round(points, s, d), d, n - 1);
    }
  }

  /** Allowing one more round changes nothing exactly when the run has settled; then everyone is at a nearest centre. */
  lemma {:induction false} EarlyStopIsSettled(points: seq<Vec>, s: State, d: nat, n: nat)
    requires Shape(points, s, d)
    ensures Run(points, s, d, n) == Run(points, s, d, n + 1) <==> Settled(points, Run(points, s, d, n), d)
    decreases n
  {
    hide Means, AssignAll;
    if n > 0 && !Settled(points, s, d) {
      EarlyStopIsSettled(points, Round(points, s, d), d, n - 1);
    } else if !Settled(points, s, d) {
      UnsettledMoves(points, s, d);
    }
  }

  lemma UnsettledMoves(points: seq<Vec>, s: State, d: nat)
    requires Shape(points, s, d) && !Settled(points, s, d)
    ensures Run(points, s, d, 1).assign != s.assign
  {
    hide Means, AssignAll;
    assert Run(points, s, d, 1) == Run(points, Round(points, s, d), d, 0);
  }

  lemma SettledIsNearest(points: seq<Vec>, s: State, d: nat, i: nat, j: nat)
    requires Shape(points, s, d) && Settled(points, s, d) && |s.centers| > 0
    requires i < |points| && j < |s.centers|
    ensures Dist2(points[i], s.centers[s.assign[i]]) <= Dist2(points[i], s.centers[j])
  {
    ClosestIsFirstNearest(points[i], s.centers, |s.centers|);
  }

  const ROUNDS := 100

  /** The first k clients serve as the initial centres; everyone starts in group 0. */
  function Initial(points: seq<Vec>, k: nat): State
    requires k <= |points|
  {
    State(points[..k], seq(|points|, _ => 0))
  }

  /** The first k means are pairwise different, and there are no others. */
  ghost predicate Representative(points: seq<Vec>, k: nat) {
    k <= |points| && (forall i, j | 0 <= i < j < k :: points[i] != points[j]) &&
    forall i | 0 <= i < |points| :: exists j :: 0 <= j < k && points[j] == points[i]
  }

  /** The first pass puts every client with the first nearest of clients 0 to k - 1. */
  lemma FirstPassSeeksFirstClients(points: seq<Vec>, k: nat, d: nat, i: nat)
    requires SameDims(points, d) && 0 < k <= |points| && i < |points|
    ensures Shape(points, Initial(points, k), d)
    ensures var g := Round(points, Initial(points, k), d).assign[i];
            g < k &&
            (forall j | 0 <= j < k :: Dist2(points[i], points[g]) <= Dist2(points[i], points[j])) &&
            (forall j | 0 <= j < g :: Dist2(points[i], points[g]) < Dist2(points[i], points[j]))
  {
    hide Dist2;
    var centers := points[..k];
    ClosestIsFirstNearest(points[i], centers, k);
  }

  /** A cluster of equal points has that point for its mean. */
  lemma {:induction false} SumOfEqual(points: seq<Vec>, a: seq<nat>, j: nat, d: nat, p: Vec)
    requires SameDims(points, d) && |a| == |points| && |p| == d
    requires forall i | 0 <= i < |a| && a[i] == j :: points[i] == p
    ensures ClusterSum(points, a, j, d) == VScale(ClusterCount(a, j) as real, p)
  {
    if |points| == 0 {
      assert VScale(0.0, p) == VZero(d);
    } else {
      var n := |points| - 1;
      SumOfEqual(points[..n], a[..n], j, d, p);
      if a[n] == j {
        OneMoreOf(ClusterCount(a[..n], j), p);
      }
    }
  }

  lemma OneMoreOf(n: nat, p: Vec)
    ensures VAdd(VScale(n as real, p), p) == VScale((n + 1) as real, p)
  {
    var l, r := VAdd(VScale(n as real, p), p), VScale((n + 1) as real, p);
    forall i | 0 <= i < |p| ensures l[i] == r[i] {
      OneMore(n, p[i]);
    }
  }

  lemma {:induction false} CountedIfThere(a: seq<nat>, i: nat)
    requires i < |a|
    ensures ClusterCount(a, a[i]) > 0
  {
    if i < |a| - 1 {
      CountedIfThere(a[..|a| - 1], i);
    }
  }

  lemma ScaledBack(n: nat, p: Vec)
    requires n > 0
    ensures VScale(1.0 / (n as real), VScale(n as real, p)) == p
  {
    var l := VScale(1.0 / (n as real), VScale(n as real, p));
    forall i | 0 <= i < |p| ensures l[i] == p[i] {
      BackAndForth(n, p[i]);
    }
  }

  lemma BackAndForth(n: nat, v: real)
    requires n > 0
    ensures (1.0 / (n as real)) * (n as real * v) == v
  {}

  lemma MeanOfEqual(points: seq<Vec>, a: seq<nat>, j: nat, d: nat)
    requires SameDims(points, d) && |a| == |points| && j < |points| && a[j] == j
    requires forall i | 0 <= i < |a| && a[i] == j :: points[i] == points[j]
    ensures Centroid(points, a, j, d) == points[j]
  {
    hide ClusterSum, ClusterCount, VScale;
    SumOfEqual(points, a, j, d, points[j]);
    CountedIfThere(a, j);
    ScaledBack(ClusterCount(a, j), points[j]);
  }

  lemma JoinsItsOwn(points: seq<Vec>, k: nat, d: nat, i: nat)
    requires SameDims(points, d) && Representative(points, k) && i < |points|
    ensures var a := AssignAll(points, points[..k], d); a[i] < k && points[a[i]] == points[i]
  {
    hide AssignAll, Dist2, Closest;
    var j := RepresentativeOf(points, k, i);
    hide Representative;
    var centers := points[..k];
    AssignedTo(points, centers, d, i);
    FirstOfSame(points[i], centers, j);
  }

  lemma AssignedTo(points: seq<Vec>, centers: seq<Vec>, d: nat, i: nat)
    requires SameDims(points, d) && SameDims(centers, d) && i < |points|
    ensures AssignAll(points, centers, d)[i] == Closest(points[i], centers, |centers|)
  {}

  lemma RepresentativeOf(points: seq<Vec>, k: nat, i: nat) returns (j: nat)
    requires Representative(points, k) && i < |points|
    ensures j < k && points[j] == points[i]
  {
    var p := points[i];
    j :| 0 <= j < k && points[j] == p;
  }

  lemma FirstOfSame(p: Vec, centers: seq<Vec>, j: nat)
    requires SameDims(centers, |p|) && j < |centers| && centers[j] == p
    ensures centers[Closest(p, centers, |centers|)] == p
  {
    hide Dist2, Closest;
    ClosestIsFirstNearest(p, centers, |centers|);
    NoDistance(p, centers[j]);
    NoDistance(p, centers[Closest(p, centers, |centers|)]);
  }

  /** The first pass decides: the first k clients' means stay the centres, so nothing changes after it. */
  lemma RepresentedJoinTheirOwn(points: seq<Vec>, k: nat, d: nat)
    requires SameDims(points, d) && Representative(points, k)
    ensures var s := Initial(points, k);
            Shape(points, s, d) &&
            forall i | 0 <= i < |points| ::
              Run(points, s, d, ROUNDS).assign[i] < k && points[Run(points, s, d, ROUNDS).assign[i]] == points[i]
  {
    var a := AssignAll(points, points[..k], d);
    forall i | 0 <= i < |points| ensures a[i] < k && points[a[i]] == points[i] {
      JoinsItsOwn(points, k, d, i);
    }
    MeansStay(points, a, k, d);
    FirstPassIsFinal(points, a, k, d);
  }

  lemma MeansStay(points: seq<Vec>, a: seq<nat>, k: nat, d: nat)
    requires SameDims(points, d) && Representative(points, k) && |a| == |points|
    requires forall i | 0 <= i < |points| :: a[i] < k && points[a[i]] == points[i]
    ensures Means(points, a, k, d) == points[..k]
  {
    hide Centroid;
    forall j | 0 <= j < k ensures Centroid(points, a, j, d) == points[j] {
      OwnRepresentative(points, a, k, j);
      MeanOfEqual(points, a, j, d);
    }
    assert |points[..k]| == k;
    assert forall j | 0 <= j < k :: Means(points, a, k, d)[j] == points[..k][j];
  }

  lemma OwnRepresentative(points: seq<Vec>, a: seq<nat>, k: nat, j: nat)
    requires Representative(points, k) && |a| == |points| && j < k
    requires forall i | 0 <= i < |points| :: a[i] < k && points[a[i]] == points[i]
    ensures a[j] == j && forall i | 0 <= i < |a| && a[i] == j :: points[i] == points[j]
  {}

  lemma FirstPassIsFinal(points: seq<Vec>, a: seq<nat>, k: nat, d: nat)
    requires SameDims(points, d) && k <= |points| && |a| == |points| && forall i | 0 <= i < |a| :: a[i] < k
    requires a == AssignAll(points, points[..k], d) && Means(points, a, k, d) == points[..k]
    ensures Shape(points, Initial(points, k), d) && Run(points, Initial(points, k), d, ROUNDS).assign == a
  {
    hide AssignAll, Means;
    var s, r := Initial(points, k), State(points[..k], a);
    assert Round(points, s, d) == r && Settled(points, r, d);
    StaysSettled(points, r, d, ROUNDS - 1);
  }

  lemma StaysSettled(points: seq<Vec>, s: State, d: nat, n: nat)
    requires Shape(points, s, d) && Settled(points, s, d)
    ensures Run(points, s, d, n) == s
  {}

  /** Where the clients have no other means than the first k, all different, each joins the one it equals. */
  method KMeans(points: seq<Vec>, clusters: nat, d: nat) returns (assignments: array<nat>)
    requires SameDims(points, d)
    ensures fresh(assignments) && assignments.Length == |points|
    ensures var k := if clusters > |points| then |points| else clusters;
            Shape(points, Initial(points, k), d) &&
            assignments[..] == Run(points, Initial(points, k), d, 100).assign
    ensures var k := if clusters > |points| then |points| else clusters;
            Representative(points, k) ==>
              forall i | 0 <= i < |points| :: assignments[i] < k && points[assignments[i]] == points[i]
  {
    hide Run, Representative, Initial, Shape;
    var k := clusters;
    if k > |points| {
      k := |points|;
    }
    assignments := Iterate(points, k, d);
    if Representative(points, k) {
      RepresentedJoinTheirOwn(points, k, d);
      forall i | 0 <= i < |points| ensures assignments[i] < k && points[assignments[i]] == points[i] {
        assert assignments[i] == assignments[..][i];
      }
    }
  }

  /** The loop: reassign and update until nothing changes, at most a hundred times. */
  method Iterate(points: seq<Vec>, k: nat, d: nat) returns (assignments: array<nat>)
    requires SameDims(points, d) && k <= |points|
    ensures fresh(assignments) && assignments.Length == |points|
    ensures Shape(points, Initial(points, k), d) && assignments[..] == Run(points, Initial(points, k), d, 100).assign
  {
    hide AssignAll, Means;
    var centers := points[..k];
    assignments := new nat[|points|](_ => 0);
    ghost var start := Initial(points, k);
    assert assignments[..] == start.assign;
    var t := 0;
    while t < ROUNDS
      invariant t <= ROUNDS && fresh(assignments) && |centers| == k
      invariant Shape(points, start, d) && Shape(points, State(centers, assignments[..]), d)
      invariant Run(points, start, d, ROUNDS) == Run(points, State(centers, assignments[..]), d, ROUNDS - t)
    {
      ghost var s := State(centers, assignments[..]);
      var changed := Reassign(points, centers, assignments, d);
      if !changed {
        break;
      }
      centers := UpdateCentres(points, assignments[..], k, d);
      assert State(centers, assignments[..]) == Round(points, s, d);
      t := t + 1;
    }
  }

  /** The assignment pass; it reports whether any client moved. */
  method Reassign(points: seq<Vec>, centers: seq<Vec>, assignments: array<nat>, d: nat) returns (changed: bool)
    requires SameDims(points, d) && SameDims(centers, d) && assignments.Length == |points|
    modifies assignments
    ensures assignments[..] == AssignAll(points, centers, d)
    ensures changed == (assignments[..] != old(assignments[..]))
  {
    changed := false;
    for i := 0 to |points|
      invariant forall q | 0 <= q < i :: assignments[q] == Closest(points[q], centers, |centers|)
      invariant forall q | i <= q < |points| :: assignments[q] == old(assignments[q])
      invariant changed <==> exists q :: 0 <= q < i && assignments[q] != old(assignments[q])
    {
      var best := 0;
      for j := 0 to |centers|
        invariant best == Closest(points[i], centers, j)
      {
        if j == 0 || Dist2(points[i], centers[j]) < Dist2(points[i], centers[best]) {
          best := j;
        }
      }
      if assignments[i] != best {
        assignments[i] := best;
        changed := true;
      }
    }
    assert assignments[..] == AssignAll(points, centers, d);
    if changed {
      ghost var q :| 0 <= q < |points| && assignments[q] != old(assignments[q]);
      assert assignments[..][q] != old(assignments[..])[q];
    } else {
      assert assignments[..] == old(assignments[..]);
    }
  }

  /** The accumulation and division loops that compute the next centres, zero for an empty cluster. */
  method UpdateCentres(points: seq<Vec>, a: seq<nat>, k: nat, d: nat) returns (centers: seq<Vec>)
    requires SameDims(points, d) && |a| == |points| && forall i | 0 <= i < |a| :: a[i] < k
    ensures centers == Means(points, a, k, d)
    ensures forall j, l | 0 <= j < k && j !in a && 0 <= l < d :: centers[j][l] == 0.0
  {
    EmptyMeans(points, a, k, d);
    hide Centroid, ClusterSum, ClusterCount;
    var next, counts := SumAndCount(points, a, k, d);
    centers := [];
    for j := 0 to k
      invariant centers == Means(points, a, k, d)[..j]
      invariant forall q | 0 <= q < k :: counts[q] == ClusterCount(a, q)
      invariant forall q, l | 0 <= q < k && 0 <= l < d :: next[q, l] == ClusterSum(points, a, q, d)[l]
    {
      var row := Row(next, j, counts[j]);
      RowIsCentroid(row, points, a, j, d);
      centers := centers + [row];
    }
  }

  lemma EmptyMeans(points: seq<Vec>, a: seq<nat>, k: nat, d: nat)
    requires SameDims(points, d) && |a| == |points|
    ensures forall j, l | 0 <= j < k && j !in a && 0 <= l < d :: Means(points, a, k, d)[j][l] == 0.0
  {
    forall j, l | 0 <= j < k && j !in a && 0 <= l < d ensures Centroid(points, a, j, d)[l] == 0.0 {
      NobodyThere(a, j);
      EmptySum(points, a, j, d);
    }
  }

  lemma {:induction false} NobodyThere(a: seq<nat>, j: nat)
    requires j !in a
    ensures ClusterCount(a, j) == 0
  {
    if |a| > 0 {
      NobodyThere(a[..|a| - 1], j);
    }
  }

  method SumAndCount(points: seq<Vec>, a: seq<nat>, k: nat, d: nat) returns (next: array2<real>, counts: array<nat>)
    requires SameDims(points, d) && |a| == |points| && forall i | 0 <= i < |a| :: a[i] < k
    ensures next.Length0 == counts.Length == k && next.Length1 == d
    ensures forall j | 0 <= j < k :: counts[j] == ClusterCount(a, j)
    ensures forall j, l | 0 <= j < k && 0 <= l < d :: next[j, l] == ClusterSum(points, a, j, d)[l]
  {
    next := new real[k, d]((_, _) => 0.0);
    counts := new nat[k](_ => 0);
    for i := 0 to |points|
      invariant fresh(next) && fresh(counts)
      invariant forall j | 0 <= j < k :: counts[j] == ClusterCount(a[..i], j)
      invariant forall j, l | 0 <= j < k && 0 <= l < d :: next[j, l] == ClusterSum(points[..i], a[..i], j, d)[l]
    {
      var c := a[i];
      counts[c] := counts[c] + 1;
      AddToRow(next, c, points[i]);
      assert points[..i + 1][..i] == points[..i] && a[..i + 1][..i] == a[..i];
    }
    assert points[..|points|] == points && a[..|a|] == a;
  }

  method AddToRow(next: array2<real>, c: nat, p: Vec)
    requires c < next.Length0 && |p| == next.Length1
    modifies next
    ensures forall j, l | 0 <= j < next.Length0 && 0 <= l < next.Length1 ::
              next[j, l] == old(next[j, l]) + if j == c then p[l] else 0.0
  {
    for l := 0 to |p|
      invariant forall m | 0 <= m < l :: next[c, m] == old(next[c, m]) + p[m]
      invariant forall m | l <= m < |p| :: next[c, m] == old(next[c, m])
      invariant forall j, m | 0 <= j < next.Length0 && j != c && 0 <= m < |p| :: next[j, m] == old(next[j, m])
    {
      next[c, l] := next[c, l] + p[l];
    }
  }

  lemma RowIsCentroid(row: Vec, points: seq<Vec>, a: seq<nat>, j: nat, d: nat)
    requires SameDims(points, d) && |a| == |points| && |row| == d
    requires forall l | 0 <= l < d :: row[l] == Quotient(ClusterSum(points, a, j, d)[l], ClusterCount(a, j))
    ensures row == Centroid(points, a, j, d)
  {
    hide ClusterSum, ClusterCount;
    var c := Centroid(points, a, j, d);
    assert forall l | 0 <= l < d :: row[l] == c[l];
  }

  function Quotient(sum: real, count: nat): real {
    if count > 0 then (1.0 / (count as real)) * sum else sum
  }

  /** Division of one row by its count; an empty cluster keeps its zeros. */
  method Row(next: array2<real>, j: nat, count: nat) returns (row: Vec)
    requires j < next.Length0
    ensures |row| == next.Length1
    ensures forall l | 0 <= l < |row| :: row[l] == Quotient(next[j, l], count)
  {
    row := [];
    for l := 0 to next.Length1
      invariant |row| == l
      invariant forall m | 0 <= m < l ::
        row[m] == Quotient(next[j, m], count)
    {
      row := row + [if count > 0 then next[j, l] / (count as real) else next[j, l]];
    }
  }
}
