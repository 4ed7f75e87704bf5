/**
 Preparing the data: splitting it among the clients and scaling it into [0,1].

 Splitting conserves the samples; scaling is what makes a fixed learning rate safe for every client.
 */
module DataPreparation {
  import opened Vectors
  import opened LinearModels
  import opened Averaging

  // ---------- splitting ----------

  /** Where part i begins. */
  function Start(total: nat, n: nat, i: nat): nat
    requires n > 0
  {
    i * (total / n)
  }

  /** Size of part i when `total` samples go to n clients: equal shares, the last one takes the remainder. */
  function PartSize(total: nat, n: nat, i: nat): nat
    requires i < n
  {
    StartFits(total, n, i);
    if i == n - 1 then total - Start(total, n, i) else total / n
  }

  lemma StartFits(total: nat, n: nat, i: nat)
    requires i < n
    ensures Start(total, n, 0) == 0
    ensures Start(total, n, i + 1) == Start(total, n, i) + total / n <= total
  {
    MulMono(i + 1, n, total / n);
    assert n * (total / n) <= total;
  }

  lemma MulMono(a: nat, c: nat, k: nat)
    requires a <= c
    ensures a * k <= c * k
  {}

  lemma PartLength(total: nat, n: nat, i: nat)
    requires i < n
    ensures PartSize(total, n, i) == if i == n - 1 then total - Start(total, n, i) else total / n
  {}

  lemma LastTakesRemainder(total: nat, n: nat)
    requires n > 0
    ensures forall i | 0 <= i < n - 1 :: PartSize(total, n, i) == total / n
    ensures PartSize(total, n, n - 1) == total / n + total % n
  {
    assert n * (total / n) == (n - 1) * (total / n) + total / n;
    assert n * (total / n) + total % n == total;
  }

  /** `order` is the copy after `rand.Shuffle` or `sort.Slice`: any rearrangement of the samples. */
  method Partition(samples: seq<Sample>, order: seq<Sample>, n: nat) returns (parts: seq<seq<Sample>>)
    requires n > 0
    requires multiset(order) == multiset(samples)
    ensures |parts| == n
    ensures Concat(parts) == order && multiset(Concat(parts)) == multiset(samples)
    ensures forall i | 0 <= i < n :: |parts[i]| == PartSize(|samples|, n, i)
    ensures forall i | 0 <= i < n - 1 :: |parts[i]| == |samples| / n
    ensures |parts[n - 1]| == |samples| / n + |samples| % n
  {
    hide Start, PartSize;
    assert |order| == |multiset(order)| == |multiset(samples)| == |samples|;
    parts := [];
    var size := |order| / n;
    StartFits(|order|, n, 0);
    for i := 0 to n
      invariant |parts| == i
      invariant Start(|order|, n, i) <= |order|
      invariant Concat(parts) == if i < n then order[..Start(|order|, n, i)] else order
      invariant forall k | 0 <= k < i :: |parts[k]| == PartSize(|samples|, n, k)
    {
      StartFits(|order|, n, i);
      PartLength(|order|, n, i);
      var start := Start(|order|, n, i);
      var end := start + size;
      if i == n - 1 {
        end := |order|;
      }
      ghost var before := parts;
      parts := parts + [order[start..end]];
      assert parts[..i] == before;
      assert order[..start] + order[start..end] == order[..end];
      assert i == n - 1 ==> order[..end] == order;
    }
    LastTakesRemainder(|samples|, n);
  }

  /** Every client gets at least one sample exactly when there are at least as many samples as clients. */
  lemma NoClientIsEmptyHanded(total: nat, n: nat)
    requires n > 0
    ensures (forall i | 0 <= i < n :: PartSize(total, n, i) > 0) <==> total >= n
  {
    if total >= n {
      QuotientPositive(total, n);
      forall i | 0 <= i < n ensures PartSize(total, n, i) > 0 {
        StartFits(total, n, i);
      }
    } else {
      StartFits(total, n, 0);
      assert total / n == 0;
      assert PartSize(total, n, 0) == if n == 1 then total else 0;
    }
  }

  lemma QuotientPositive(total: nat, n: nat)
    requires total >= n > 0
    ensures total / n >= 1
  {
    assert n * (total / n) + total % n == total;
  }

  // ---------- scaling ----------

  function Rescaled(v: real, lo: real, hi: real): real {
    if hi - lo > 0.0 then (v - lo) / (hi - lo) else v
  }

  function RescaledFeatures(x: Vec, mins: Vec, maxs: Vec): (r: Vec)
    requires |x| <= |mins| == |maxs|
    ensures |r| == |x|
  {
    seq(|x|, j requires 0 <= j < |x| => Rescaled(x[j], mins[j], maxs[j]))
  }

  /** No sample has more features than this; some may have fewer. */
  ghost predicate AtMost(S: seq<Sample>, d: nat) {
    forall i | 0 <= i < |S| :: |S[i].features| <= d
  }

  /** `lo` and `hi` are the least and the greatest value of feature j among the samples that have it, both reached. */
  ghost predicate ColumnRange(S: seq<Sample>, j: nat, lo: real, hi: real) {
    (forall i | 0 <= i < |S| && j < |S[i].features| :: lo <= S[i].features[j] <= hi) &&
    (exists i | 0 <= i < |S| && j < |S[i].features| :: S[i].features[j] == lo) &&
    (exists i | 0 <= i < |S| && j < |S[i].features| :: S[i].features[j] == hi)
  }

  /** Scaled by a range that is not empty, a value can be got back; otherwise it was left alone. */
  ghost predicate Invertible(now: real, was: real, lo: real, hi: real) {
    if lo < hi then now * (hi - lo) + lo == was else now == was
  }

  /** So the ends of the range go to 0 and 1, nothing else does, and order is kept. */
  lemma InvertibleScalesToUnit(now: real, was: real, other: real, wasOther: real, lo: real, hi: real)
    requires lo < hi && Invertible(now, was, lo, hi) && Invertible(other, wasOther, lo, hi)
    ensures now == 0.0 <==> was == lo
    ensures now == 1.0 <==> was == hi
    ensures now < other <==> was < wasOther
  {
    var r := hi - lo;
    assert (other - now) * r == wasOther - was;
    SignOfProduct(other - now, r);
    SignOfProduct(now, r);
    SignOfProduct(now - 1.0, r);
    assert (now - 1.0) * r == now * r - r;
  }

  lemma SignOfProduct(a: real, r: real)
    requires r > 0.0
    ensures (a > 0.0 <==> a * r > 0.0) && (a == 0.0 <==> a * r == 0.0)
  {}

  lemma RescaledIsInvertible(v: real, lo: real, hi: real)
    ensures Invertible(Rescaled(v, lo, hi), v, lo, hi)
  {
    if lo < hi {
      assert (v - lo) / (hi - lo) * (hi - lo) == v - lo;
    }
  }

  /** Everything about one sample before and after scaling, read off the bounds. */
  ghost predicate ScaledFrom(now: Sample, was: Sample, mins: Vec, maxs: Vec, lo: real, hi: real)
    requires |was.features| <= |mins| == |maxs|
  {
    |now.features| == |was.features| && Invertible(now.target, was.target, lo, hi) &&
    forall j | 0 <= j < |was.features| :: Invertible(now.features[j], was.features[j], mins[j], maxs[j])
  }

  lemma RescaledIsScaledFrom(was: Sample, mins: Vec, maxs: Vec, lo: real, hi: real)
    requires |was.features| <= |mins| == |maxs|
    ensures ScaledFrom(Sample(RescaledFeatures(was.features, mins, maxs), Rescaled(was.target, lo, hi)),
                       was, mins, maxs, lo, hi)
  {
    RescaledIsInvertible(was.target, lo, hi);
    forall j | 0 <= j < |was.features|
      ensures Invertible(RescaledFeatures(was.features, mins, maxs)[j], was.features[j], mins[j], maxs[j])
    {
      RescaledIsInvertible(was.features[j], mins[j], maxs[j]);
    }
  }

  ghost predicate TargetRange(S: seq<Sample>, lo: real, hi: real) {
    (forall i | 0 <= i < |S| :: lo <= S[i].target <= hi) &&
    (exists i | 0 <= i < |S| :: S[i].target == lo) &&
    (exists i | 0 <= i < |S| :: S[i].target == hi)
  }

  method Normalize(samples: array<Sample>)
    returns (mins: Vec, maxs: Vec, minTarget: real, maxTarget: real)
    requires samples.Length > 0 ==> AtMost(samples[..], |samples[0].features|)
    modifies samples
    ensures samples.Length == 0 ==> mins == [] && maxs == []
    ensures samples.Length > 0 ==> |mins| == |maxs| == |old(samples[0]).features|
    ensures samples.Length > 0 ==>
              forall j | 0 <= j < |mins| :: ColumnRange(old(samples[..]), j, mins[j], maxs[j])
    ensures samples.Length > 0 ==> TargetRange(old(samples[..]), minTarget, maxTarget)
    ensures AtMost(old(samples[..]), |mins|)
    ensures forall i | 0 <= i < samples.Length ::
              samples[i] == Sample(RescaledFeatures(old(samples[i]).features, mins, maxs),
                                   Rescaled(old(samples[i]).target, minTarget, maxTarget))
    ensures forall i | 0 <= i < samples.Length ::
              ScaledFrom(samples[i], old(samples[i]), mins, maxs, minTarget, maxTarget)
  {
    if samples.Length == 0 {
      return [], [], 0.0, 0.0;
    }
    var d := |samples[0].features|;
    mins, maxs := FeatureBounds(samples[..], d);
    RescaleFeatures(samples, mins, maxs);
    minTarget, maxTarget := TargetBounds(samples[..]);
    assert forall k | 0 <= k < samples.Length :: samples[..][k].target == old(samples[..])[k].target;
    SameTargets(samples[..], old(samples[..]), minTarget, maxTarget);
    RescaleTargets(samples, minTarget, maxTarget);
    forall i | 0 <= i < samples.Length
      ensures ScaledFrom(samples[i], old(samples[i]), mins, maxs, minTarget, maxTarget)
    {
      RescaledIsScaledFrom(old(samples[i]), mins, maxs, minTarget, maxTarget);
    }
  }

  lemma SameTargets(S: seq<Sample>, R: seq<Sample>, lo: real, hi: real)
    requires |S| == |R| && forall k | 0 <= k < |S| :: S[k].target == R[k].target
    requires TargetRange(S, lo, hi)
    ensures TargetRange(R, lo, hi)
  {}

  /** The scan for the smallest and largest value of every feature. */
  method FeatureBounds(S: seq<Sample>, d: nat) returns (mins: Vec, maxs: Vec)
    requires |S| > 0 && |S[0].features| == d && AtMost(S, d)
    ensures |mins| == |maxs| == d
    ensures forall j | 0 <= j < d :: ColumnRange(S, j, mins[j], maxs[j])
  {
    mins, maxs := S[0].features, S[0].features;
    for i := 1 to |S|
      invariant |mins| == |maxs| == d
      invariant forall j | 0 <= j < d :: ColumnRange(S[..i], j, mins[j], maxs[j])
    {
      ghost var mins0, maxs0 := mins, maxs;
      mins, maxs := WidenBounds(mins, maxs, S[i].features);
      forall j | 0 <= j < d ensures ColumnRange(S[..i + 1], j, mins[j], maxs[j]) {
        if j < |S[i].features| {
          WidenColumn(S, i, j, mins0[j], maxs0[j]);
        } else {
          SameColumn(S, i, j, mins0[j], maxs0[j]);
        }
      }
    }
    assert S[..|S|] == S;
  }

  /** The inner loop of the scan, over one sample's features. */
  method WidenBounds(mins0: Vec, maxs0: Vec, x: Vec) returns (mins: Vec, maxs: Vec)
    requires |x| <= |mins0| == |maxs0|
    ensures |mins| == |maxs| == |mins0|
    ensures forall l | 0 <= l < |mins0| ::
              mins[l] == (if l < |x| then Least(mins0[l], x[l]) else mins0[l]) &&
              maxs[l] == (if l < |x| then Greatest(maxs0[l], x[l]) else maxs0[l])
  {
    mins, maxs := mins0, maxs0;
    for j := 0 to |x|
      invariant |mins| == |maxs| == |mins0|
      invariant forall l | j <= l < |mins0| :: mins[l] == mins0[l] && maxs[l] == maxs0[l]
      invariant forall l | 0 <= l < j :: mins[l] == Least(mins0[l], x[l]) && maxs[l] == Greatest(maxs0[l], x[l])
    {
      var f := x[j];
      if f < mins[j] {
        mins := mins[j := f];
      }
      if f > maxs[j] {
        maxs := maxs[j := f];
      }
    }
  }

  function Least(a: real, c: real): real { if c < a then c else a }

  function Greatest(a: real, c: real): real { if c > a then c else a }

  lemma WidenColumn(S: seq<Sample>, i: nat, j: nat, lo: real, hi: real)
    requires i < |S| && j < |S[i].features| && ColumnRange(S[..i], j, lo, hi)
    ensures ColumnRange(S[..i + 1], j, Least(lo, S[i].features[j]), Greatest(hi, S[i].features[j]))
  {
    var R, T := S[..i], S[..i + 1];
    var k :| 0 <= k < i && j < |R[k].features| && R[k].features[j] == lo;
    var l :| 0 <= l < i && j < |R[l].features| && R[l].features[j] == hi;
    assert T[k] == R[k] && T[l] == R[l] && T[i] == S[i];
    forall q | 0 <= q < |T| && j < |T[q].features|
      ensures Least(lo, S[i].features[j]) <= T[q].features[j] <= Greatest(hi, S[i].features[j])
    {
      if q < i {
        assert T[q] == R[q];
      }
    }
  }

  /** A sample without feature j leaves its bounds alone. */
  lemma SameColumn(S: seq<Sample>, i: nat, j: nat, lo: real, hi: real)
    requires i < |S| && j >= |S[i].features| && ColumnRange(S[..i], j, lo, hi)
    ensures ColumnRange(S[..i + 1], j, lo, hi)
  {
    var R, T := S[..i], S[..i + 1];
    var k :| 0 <= k < i && j < |R[k].features| && R[k].features[j] == lo;
    var l :| 0 <= l < i && j < |R[l].features| && R[l].features[j] == hi;
    assert T[k] == R[k] && T[l] == R[l] && T[i] == S[i];
    forall q | 0 <= q < |T| && j < |T[q].features| ensures lo <= T[q].features[j] <= hi {
      if q < i {
        assert T[q] == R[q];
      }
    }
  }

  method TargetBounds(S: seq<Sample>) returns (lo: real, hi: real)
    requires |S| > 0
    ensures TargetRange(S, lo, hi)
  {
    lo, hi := S[0].target, S[0].target;
    ghost var k, l := 0, 0;
    for i := 1 to |S|
      invariant 0 <= k < i && S[k].target == lo && 0 <= l < i && S[l].target == hi
      invariant forall q | 0 <= q < i :: lo <= S[q].target <= hi
    {
      if S[i].target < lo {
        lo, k := S[i].target, i;
      }
      if S[i].target > hi {
        hi, l := S[i].target, i;
      }
    }
  }

  method RescaleFeatures(samples: array<Sample>, mins: Vec, maxs: Vec)
    requires |mins| == |maxs| && AtMost(samples[..], |mins|)
    modifies samples
    ensures forall i | 0 <= i < samples.Length ::
              samples[i] == old(samples[i]).(features := RescaledFeatures(old(samples[i]).features, mins, maxs))
  {
    for i := 0 to samples.Length
      invariant forall k | 0 <= k < i ::
        samples[k] == old(samples[k]).(features := RescaledFeatures(old(samples[k]).features, mins, maxs))
      invariant forall k | i <= k < samples.Length :: samples[k] == old(samples[k])
    {
      RescaleRow(samples, i, mins, maxs);
    }
  }

  method RescaleRow(samples: array<Sample>, i: nat, mins: Vec, maxs: Vec)
    requires i < samples.Length && |samples[i].features| <= |mins| == |maxs|
    modifies samples
    ensures samples[..]
         == old(samples[..])[i := old(samples[i]).(features := RescaledFeatures(old(samples[i]).features, mins, maxs))]
  {
    ghost var was := samples[i];
    var n := |samples[i].features|;
    for j := 0 to n
      invariant |samples[i].features| == n && samples[i].target == was.target
      invariant forall l | 0 <= l < j :: samples[i].features[l] == Rescaled(was.features[l], mins[l], maxs[l])
      invariant forall l | j <= l < n :: samples[i].features[l] == was.features[l]
      invariant forall k | 0 <= k < samples.Length && k != i :: samples[k] == old(samples[k])
    {
      var r := maxs[j] - mins[j];
      if r > 0.0 {
        var f := samples[i].features;
        samples[i] := samples[i].(features := f[j := (f[j] - mins[j]) / r]);
      }
    }
    assert samples[i].features == RescaledFeatures(was.features, mins, maxs);
  }

  method RescaleTargets(samples: array<Sample>, lo: real, hi: real)
    modifies samples
    ensures forall i | 0 <= i < samples.Length ::
              samples[i] == old(samples[i]).(target := Rescaled(old(samples[i]).target, lo, hi))
  {
    var r := hi - lo;
    for i := 0 to samples.Length
      invariant forall k | 0 <= k < i ::
        samples[k] == old(samples[k]).(target := Rescaled(old(samples[k]).target, lo, hi))
      invariant forall k | i <= k < samples.Length :: samples[k] == old(samples[k])
    {
      if r > 0.0 {
        samples[i] := samples[i].(target := (samples[i].target - lo) / r);
      }
    }
  }

  /** The scaled column lies in [0,1] exactly when it was not constant, or was a constant already in [0,1]. */
  lemma ScaledColumn(S: seq<Sample>, j: nat, lo: real, hi: real)
    requires ColumnRange(S, j, lo, hi)
    ensures (forall i | 0 <= i < |S| && j < |S[i].features| :: 0.0 <= Rescaled(S[i].features[j], lo, hi) <= 1.0)
        <==> (lo < hi || 0.0 <= lo <= 1.0)
  {
    if lo < hi {
      forall i | 0 <= i < |S| && j < |S[i].features| ensures 0.0 <= Rescaled(S[i].features[j], lo, hi) <= 1.0 {
        UnitQuotient(S[i].features[j] - lo, hi - lo);
      }
    } else {
      var i :| 0 <= i < |S| && j < |S[i].features| && S[i].features[j] == lo;
      assert Rescaled(S[i].features[j], lo, hi) == lo;
    }
  }

  lemma UnitQuotient(a: real, r: real)
    requires 0.0 <= a <= r && r > 0.0
    ensures 0.0 <= a / r <= 1.0
  {}

  function Normalized(S: seq<Sample>, mins: Vec, maxs: Vec, lo: real, hi: real): (R: seq<Sample>)
    requires |mins| == |maxs| && Shaped(S, |mins|)
    ensures |R| == |S|
  {
    seq(|S|, i requires 0 <= i < |S| =>
      Sample(RescaledFeatures(S[i].features, mins, maxs), Rescaled(S[i].target, lo, hi)))
  }

  /** After scaling, any data set drawn from the samples, in particular any client's part, trains safely. */
  lemma NormalizedDataTrainsSafely(S: seq<Sample>, mins: Vec, maxs: Vec, lo: real, hi: real, D: seq<Sample>, lr: real)
    requires |S| > 0 && |mins| == |maxs| && Shaped(S, |mins|)
    requires forall j | 0 <= j < |mins| ::
               ColumnRange(S, j, mins[j], maxs[j]) && (mins[j] < maxs[j] || 0.0 <= mins[j] <= 1.0)
    requires |D| > 0 && forall k | 0 <= k < |D| :: D[k] in Normalized(S, mins, maxs, lo, hi)
    requires 0.0 <= lr <= 1.0 / (|mins| as real + 1.0)
    ensures SafeRate(D, lr)
  {
    var R := Normalized(S, mins, maxs, lo, hi);
    forall k, j | 0 <= k < |D| && 0 <= j < |D[k].features|
      ensures |D[k].features| == |mins| && 0.0 <= D[k].features[j] <= 1.0
    {
      var i :| 0 <= i < |R| && R[i] == D[k];
      ScaledColumn(S, j, mins[j], maxs[j]);
      assert 0.0 <= Rescaled(S[i].features[j], mins[j], maxs[j]) <= 1.0;
    }
    UnitBoxRateIsSafe(D, |mins|, lr);
  }
}
