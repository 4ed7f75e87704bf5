/**
 Real vectors and the space of linear-model parameters (weights plus bias).

 A parameter pair `Params(w, b)` is treated as one vector with inner product `Inner`, so that a prediction
 is `Inner(p, Point(x))` for the sample extended with a constant 1.  Everything proved about training,
 averaging and clustering rests on the bilinearity of this inner product.
 */
module Vectors {

  type Vec = seq<real>

  datatype Params = Params(w: Vec, b: real)

  function Dot(a: Vec, c: Vec): real
    requires |a| == |c|
  {
    if |a| == 0 then 0.0
    else var n := |a| - 1; Dot(a[..n], c[..n]) + a[n] * c[n]
  }

  function VAdd(a: Vec, c: Vec): (r: Vec)
    requires |a| == |c|
    ensures |r| == |a|
  {
    seq(|a|, i requires 0 <= i < |a| => a[i] + c[i])
  }

  function VScale(t: real, a: Vec): (r: Vec)
    ensures |r| == |a|
  {
    seq(|a|, i requires 0 <= i < |a| => t * a[i])
  }

  function VZero(d: nat): (r: Vec)
    ensures |r| == d
  {
    seq(d, _ => 0.0)
  }

  /** The vector with zeros up to length d. */
  function Pad(a: Vec, d: nat): (r: Vec)
    requires |a| <= d
    ensures |r| == d
  {
    a + VZero(d - |a|)
  }

  /** Squared Euclidean distance. */
  function Dist2(a: Vec, c: Vec): real
    requires |a| == |c|
  {
    var d := VAdd(a, VScale(-1.0, c)); Dot(d, d)
  }

  lemma {:induction false} DotAdd(g: Vec, a: Vec, c: Vec)
    requires |g| == |a| == |c|
    ensures Dot(g, VAdd(a, c)) == Dot(g, a) + Dot(g, c)
  {
    if |g| != 0 {
      var n := |g| - 1;
      DotAdd(g[..n], a[..n], c[..n]);
      assert VAdd(a, c)[..n] == VAdd(a[..n], c[..n]);
    }
  }

  lemma {:induction false} DotScale(g: Vec, t: real, a: Vec)
    requires |g| == |a|
    ensures Dot(g, VScale(t, a)) == t * Dot(g, a)
  {
    if |g| != 0 {
      var n := |g| - 1;
      DotScale(g[..n], t, a[..n]);
      var l, r := VScale(t, a)[..n], VScale(t, a[..n]);
      assert forall i | 0 <= i < n :: l[i] == r[i];
      assert l == r;
    }
  }

  lemma {:induction false} DotSym(a: Vec, c: Vec)
    requires |a| == |c|
    ensures Dot(a, c) == Dot(c, a)
  {
    if |a| != 0 {
      DotSym(a[..|a| - 1], c[..|a| - 1]);
    }
  }

  lemma {:induction false} DotNonNeg(a: Vec)
    ensures Dot(a, a) >= 0.0
  {
    if |a| != 0 {
      DotNonNeg(a[..|a| - 1]);
    }
  }

  lemma {:induction false} DotZero(g: Vec)
    ensures Dot(g, VZero(|g|)) == 0.0
  {
    if |g| != 0 {
      DotZero(g[..|g| - 1]);
      assert VZero(|g|)[..|g| - 1] == VZero(|g| - 1);
    }
  }

  // ---------- the parameter space ----------

  function PAdd(p: Params, q: Params): (r: Params)
    requires |p.w| == |q.w|
    ensures |r.w| == |p.w|
  {
    Params(VAdd(p.w, q.w), p.b + q.b)
  }

  function PScale(t: real, p: Params): (r: Params)
    ensures |r.w| == |p.w|
  {
    Params(VScale(t, p.w), t * p.b)
  }

  function PZero(d: nat): (r: Params)
    ensures |r.w| == d
  {
    Params(VZero(d), 0.0)
  }

  /** A sample's features extended with the constant 1 that the bias multiplies. */
  function Point(x: Vec): Params {
    Params(x, 1.0)
  }

  function Inner(p: Params, q: Params): real
    requires |p.w| == |q.w|
  {
    Dot(p.w, q.w) + p.b * q.b
  }

  lemma InnerAdd(g: Params, p: Params, q: Params)
    requires |g.w| == |p.w| == |q.w|
    ensures Inner(g, PAdd(p, q)) == Inner(g, p) + Inner(g, q)
  {
    DotAdd(g.w, p.w, q.w);
  }

  lemma InnerScale(g: Params, t: real, p: Params)
    requires |g.w| == |p.w|
    ensures Inner(g, PScale(t, p)) == t * Inner(g, p)
  {
    DotScale(g.w, t, p.w);
  }

  lemma InnerSym(p: Params, q: Params)
    requires |p.w| == |q.w|
    ensures Inner(p, q) == Inner(q, p)
  {
    DotSym(p.w, q.w);
  }

  lemma InnerNonNeg(p: Params)
    ensures Inner(p, p) >= 0.0
  {
    DotNonNeg(p.w);
  }

  lemma InnerZero(g: Params)
    ensures Inner(g, PZero(|g.w|)) == 0.0
  {
    DotZero(g.w);
  }

  /** Expansion of a square: |p + t q|^2 against a third vector, the step every quadratic bound uses. */
  lemma InnerComb(p: Params, t: real, q: Params, z: Params)
    requires |p.w| == |q.w| == |z.w|
    ensures Inner(PAdd(p, PScale(t, q)), z) == Inner(p, z) + t * Inner(q, z)
  {
    InnerSym(PAdd(p, PScale(t, q)), z);
    InnerAdd(z, p, PScale(t, q));
    InnerScale(z, t, q);
    InnerSym(z, p);
    InnerSym(z, q);
  }

  /** Cauchy-Schwarz, for a second argument that is not null. */
  lemma CauchySchwarz(p: Params, q: Params)
    requires |p.w| == |q.w|
    requires Inner(q, q) > 0.0
    ensures Inner(p, q) * Inner(p, q) <= Inner(p, p) * Inner(q, q)
  {
    var t := -(Inner(p, q) / Inner(q, q));
    var r := PAdd(p, PScale(t, q));
    InnerComb(p, t, q, r);
    InnerSym(p, r);
    InnerSym(q, r);
    InnerComb(p, t, q, p);
    InnerComb(p, t, q, q);
    InnerSym(p, q);
    InnerNonNeg(r);
    Discriminant(Inner(p, p), Inner(p, q), Inner(q, q), t);
  }

  lemma Discriminant(a: real, c: real, q: real, t: real)
    requires q > 0.0 && t == -(c / q)
    requires a + t * c + t * (c + t * q) >= 0.0
    ensures c * c <= a * q
  {
    assert t * q == -c;
    assert a + t * c >= 0.0;
    assert (a + t * c) * q == a * q - c * c by {
      assert t * c * q == t * q * c;
    }
    assert (a + t * c) * q >= 0.0;
  }

  // ---------- pointwise laws of parameter arithmetic ----------

  lemma PAddCommutes(p: Params, q: Params)
    requires |p.w| == |q.w|
    ensures PAdd(p, q) == PAdd(q, p)
  {}

  lemma PAddAssoc(p: Params, q: Params, r: Params)
    requires |p.w| == |q.w| == |r.w|
    ensures PAdd(PAdd(p, q), r) == PAdd(p, PAdd(q, r))
  {}

  lemma PAddZero(p: Params)
    ensures PAdd(p, PZero(|p.w|)) == p == PAdd(PZero(|p.w|), p)
  {
    assert PAdd(p, PZero(|p.w|)).w == p.w;
    assert PAdd(PZero(|p.w|), p).w == p.w;
  }

  lemma PScaleAdd(t: real, p: Params, q: Params)
    requires |p.w| == |q.w|
    ensures PScale(t, PAdd(p, q)) == PAdd(PScale(t, p), PScale(t, q))
  {
    var l, r := PScale(t, PAdd(p, q)), PAdd(PScale(t, p), PScale(t, q));
    forall i | 0 <= i < |p.w| ensures l.w[i] == r.w[i] {
      assert t * (p.w[i] + q.w[i]) == t * p.w[i] + t * q.w[i];
    }
    assert l.w == r.w;
  }

  lemma PScaleScale(s: real, t: real, st: real, p: Params)
    requires st == s * t
    ensures PScale(s, PScale(t, p)) == PScale(st, p)
  {
    var l, r := PScale(s, PScale(t, p)), PScale(st, p);
    forall i | 0 <= i < |p.w| ensures l.w[i] == r.w[i] {
      assert s * (t * p.w[i]) == (s * t) * p.w[i];
    }
    assert s * (t * p.b) == (s * t) * p.b;
    assert l.w == r.w;
  }

  lemma PScaleSum(s: real, t: real, p: Params)
    ensures PScale(s + t, p) == PAdd(PScale(s, p), PScale(t, p))
  {
    var l, r := PScale(s + t, p), PAdd(PScale(s, p), PScale(t, p));
    forall i | 0 <= i < |p.w| ensures l.w[i] == r.w[i] {
      assert (s + t) * p.w[i] == s * p.w[i] + t * p.w[i];
    }
    assert l.w == r.w;
  }

  lemma PScaleOne(p: Params)
    ensures PScale(1.0, p) == p
  {
    assert PScale(1.0, p).w == p.w;
  }

  lemma PScaleNull(t: real, d: nat)
    ensures PScale(t, PZero(d)) == PZero(d)
  {
    assert PScale(t, PZero(d)).w == VZero(d);
  }

  lemma PScaleZero(p: Params)
    ensures PScale(0.0, p) == PZero(|p.w|)
  {
    assert PScale(0.0, p).w == VZero(|p.w|);
  }

  // ---------- lengths ----------

  function Square(v: real): real {
    v * v
  }

  lemma SquareSign(v: real)
    ensures Square(v) >= 0.0 && (v != 0.0 ==> Square(v) > 0.0)
  {
    SameSign(v, v, Square(v));
  }

  lemma SameSign(v: real, w: real, q: real)
    requires q == v * w
    ensures (v > 0.0 && w > 0.0) || (v < 0.0 && w < 0.0) ==> q > 0.0
    ensures v == 0.0 ==> q == 0.0
  {}

  lemma LastSquare(x: Vec)
    requires |x| > 0
    ensures Dot(x, x) == Dot(x[..|x| - 1], x[..|x| - 1]) + Square(x[|x| - 1])
  {}

  lemma {:induction false} NullSquare(x: Vec)
    requires Dot(x, x) <= 0.0
    ensures forall l | 0 <= l < |x| :: x[l] == 0.0
  {
    hide Square;
    if |x| > 0 {
      var n := |x| - 1;
      DotNonNeg(x[..n]);
      LastSquare(x);
      SquareSign(x[n]);
      hide Dot;
      NullSquare(x[..n]);
      assert forall l | 0 <= l < n :: x[l] == x[..n][l];
    }
  }

  /** Only a point itself is at no distance. */
  lemma NoDistance(p: Vec, q: Vec)
    requires |p| == |q|
    ensures Dist2(p, q) <= 0.0 <==> p == q
  {
    var x := VAdd(p, VScale(-1.0, q));
    assert forall l | 0 <= l < |p| :: x[l] == p[l] - q[l];
    if Dist2(p, q) <= 0.0 {
      NullSquare(x);
      assert forall l | 0 <= l < |p| :: p[l] == q[l];
    }
    if p == q {
      assert x == VZero(|p|);
      DotZero(x);
    }
  }

  lemma EqualIfNoDistance(p: Params, q: Params)
    requires |p.w| == |q.w|
    requires var d := PAdd(p, PScale(-1.0, q)); Inner(d, d) == 0.0
    ensures p == q
  {
    var d := PAdd(p, PScale(-1.0, q));
    DotNonNeg(d.w);
    SquareSign(d.b);
    assert Square(d.b) == d.b * d.b;
    NullSquare(d.w);
    assert forall i | 0 <= i < |p.w| :: d.w[i] == p.w[i] - q.w[i];
    assert p.w == q.w;
  }
}
