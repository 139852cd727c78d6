/**
 * Rebuilding vector primitives from transform-feedback captures: every
 * captured vertex is projected to device coordinates for the gl2ps backend,
 * and triangles and lines that cross the user clip plane are cut on the CPU.
 * Calls to gl2psAddPolyPrimitive are modelled as appending to an output
 * sequence; only the primitive kind and its vertices are kept.
 */
module Gl3Print {

  /** A homogeneous clip-space position or an RGBA colour. */
  datatype Vec4 = Vec4(x: real, y: real, z: real, w: real)

  /** One vertex written back by transform feedback: 4 + 4 + 1 floats. */
  datatype FeedbackVertex = FeedbackVertex(pos: Vec4, color: Vec4, clipCoord: real)

  /** A vertex as gl2ps takes it: device coordinates and a colour. */
  datatype Gl2psVertex = Gl2psVertex(x: real, y: real, z: real, rgba: Vec4)

  datatype Gl2psKind = Gl2psTriangle | Gl2psLine

  /** One gl2psAddPolyPrimitive call. */
  datatype Gl2psPrimitive = Gl2psPrimitive(kind: Gl2psKind, verts: seq<Gl2psVertex>)

  /**
   * The four integers the viewport query fills in. The projection uses them as
   * left, bottom, right, top; for GL_VIEWPORT's (x, y, width, height) this
   * reading agrees only when x and y are 0.
   */
  datatype Viewport = Viewport(left: int, bottom: int, right: int, top: int)

  /** The number of floats in one FeedbackVertex. */
  const FeedbackVertexFloats: nat := 9

  function Abs(r: real): (a: real)
    ensures a >= 0.0 && (a == r || a == -r)
  {
    if r < 0.0 then -r else r
  }

  /**
   * One device coordinate from one NDC coordinate: half * ndc + lo + half,
   * where half is half the viewport extent (hi - lo) / 2.
   */
  function ToDevice(ndc: real, lo: int, hi: int): (d: real)
    ensures ndc == 0.0 ==> d == (lo + hi) as real / 2.0
  {
    var half := (hi - lo) as real * 0.5;
    half * ndc + lo as real + half
  }

  lemma NonNegativeProduct(x: real, y: real)
    requires x >= 0.0 && y >= 0.0
    ensures x * y >= 0.0
  {
  }

  /** NDC -1 and +1 land on the two viewport edges, and [-1, 1] stays between them. */
  lemma ToDeviceRange(ndc: real, lo: int, hi: int)
    ensures ToDevice(-1.0, lo, hi) == lo as real && ToDevice(1.0, lo, hi) == hi as real
    ensures lo <= hi && -1.0 <= ndc <= 1.0 ==> lo as real <= ToDevice(ndc, lo, hi) <= hi as real
  {
    var half := (hi - lo) as real * 0.5;
    if lo <= hi && -1.0 <= ndc <= 1.0 {
      assert half >= 0.0;
      NonNegativeProduct(half, ndc + 1.0);
      NonNegativeProduct(half, 1.0 - ndc);
    }
  }

  /** Whether a vertex lies on the clipped side of the plane. */
  predicate Clipped(v: FeedbackVertex) {
    v.clipCoord < 0.0
  }

  /** Every vertex of the first `n` can be projected: its w is positive. */
  predicate Captured(buf: seq<FeedbackVertex>, n: nat) {
    n <= |buf| && forall k :: 0 <= k < n ==> buf[k].pos.w > 0.0
  }

  /**
   * Clip coordinates to device coordinates: divide by w, then map NDC x and
   * y onto the viewport; depth and colour pass through.
   */
  function VertFBtoGL2PS(v: FeedbackVertex, vp: Viewport): (r: Gl2psVertex)
    requires v.pos.w != 0.0
    ensures r.rgba == v.color
  {
    var x := v.pos.x / v.pos.w;
    var y := v.pos.y / v.pos.w;
    var z := v.pos.z / v.pos.w;
    Gl2psVertex(ToDevice(x, vp.left, vp.right), ToDevice(y, vp.bottom, vp.top), z, v.color)
  }

  /**
   * The clip-volume faces x = -w and x = w land on the viewport's left and
   * right edges, y = -w and y = w on its bottom and top edges.
   */
  lemma ProjectionCorners(v: FeedbackVertex, vp: Viewport)
    requires v.pos.w != 0.0
    ensures var r := VertFBtoGL2PS(v, vp);
      && (v.pos.x == -v.pos.w ==> r.x == vp.left as real)
      && (v.pos.x == v.pos.w ==> r.x == vp.right as real)
      && (v.pos.y == -v.pos.w ==> r.y == vp.bottom as real)
      && (v.pos.y == v.pos.w ==> r.y == vp.top as real)
  {
    ToDeviceRange(v.pos.x / v.pos.w, vp.left, vp.right);
    ToDeviceRange(v.pos.y / v.pos.w, vp.bottom, vp.top);
    UnitQuotients(v.pos.w);
  }

  lemma UnitQuotients(w: real)
    requires w != 0.0
    ensures w / w == 1.0 && (-w) / w == -1.0
  {
    var q := w / w;
    assert q * w == w;
    assert (q - 1.0) * w == 0.0;
    assert (-w) / w == -(w / w);
  }

  /** A positive factor on both sides of a quotient cancels. */
  lemma DivCancel(a: real, w: real, s: real)
    requires w != 0.0 && s > 0.0
    ensures (s * a) / (s * w) == a / w
  {
    var q := a / w;
    assert q * w == a;
    assert q * (s * w) == s * a;
  }

  function Scale(s: real, p: Vec4): Vec4 {
    Vec4(s * p.x, s * p.y, s * p.z, s * p.w)
  }

  /** Projection only sees the direction of a homogeneous position: a positive factor changes nothing but the colour. */
  lemma ProjectionIgnoresScale(v: FeedbackVertex, s: real, vp: Viewport)
    requires v.pos.w != 0.0 && s > 0.0
    ensures VertFBtoGL2PS(FeedbackVertex(Scale(s, v.pos), Scale(s, v.color), v.clipCoord), vp)
      == VertFBtoGL2PS(v, vp).(rgba := Scale(s, v.color))
  {
    var p := v.pos;
    var u := Scale(s, v.pos);
    DivCancel(p.x, p.w, s);
    DivCancel(p.y, p.w, s);
    DivCancel(p.z, p.w, s);
    assert u.x / u.w == p.x / p.w;
    assert u.y / u.w == p.y / p.w;
    assert u.z / u.w == p.z / p.w;
  }

  /** A point inside the clip volume lands inside the viewport. */
  lemma ProjectionWithinViewport(v: FeedbackVertex, vp: Viewport)
    requires v.pos.w > 0.0 && vp.left <= vp.right && vp.bottom <= vp.top
    requires -v.pos.w <= v.pos.x <= v.pos.w && -v.pos.w <= v.pos.y <= v.pos.w
    ensures var r := VertFBtoGL2PS(v, vp);
      vp.left as real <= r.x <= vp.right as real && vp.bottom as real <= r.y <= vp.top as real
  {
    NdcBound(v.pos.x, v.pos.w);
    NdcBound(v.pos.y, v.pos.w);
    ToDeviceRange(v.pos.x / v.pos.w, vp.left, vp.right);
    ToDeviceRange(v.pos.y / v.pos.w, vp.bottom, vp.top);
  }

  /** Inside the clip volume the normalised coordinate is within [-1, 1]. */
  lemma NdcBound(c: real, w: real)
    requires w > 0.0 && -w <= c <= w
    ensures -1.0 <= c / w <= 1.0
  {
    var x := c / w;
    assert x * w == c;
    assert (x + 1.0) * w == c + w >= 0.0;
    assert (1.0 - x) * w == w - c >= 0.0;
  }

  /** p * wp + q * wq, component by component. */
  function WeightedSum(p: Vec4, wp: real, q: Vec4, wq: real): Vec4 {
    Vec4(p.x * wp + q.x * wq, p.y * wp + q.y * wq, p.z * wp + q.z * wq, p.w * wp + q.w * wq)
  }

  /** The weighted mean (p * wp + q * wq) / (wp + wq), component by component. */
  function Mix(p: Vec4, wp: real, q: Vec4, wq: real): Vec4
    requires wp + wq != 0.0
  {
    Scale(1.0 / (wp + wq), WeightedSum(p, wp, q, wq))
  }

  /** Dividing by a non-zero factor and multiplying back gives the vector back, in either order. */
  lemma ScaleInverse(s: real, v: Vec4)
    requires s != 0.0
    ensures Scale(s, Scale(1.0 / s, v)) == v
    ensures Scale(1.0 / s, Scale(s, v)) == v
  {
    var k := 1.0 / s;
    assert s * k == 1.0;
    InverseScalar(s, k, v.x);
    InverseScalar(s, k, v.y);
    InverseScalar(s, k, v.z);
    InverseScalar(s, k, v.w);
  }

  lemma InverseScalar(s: real, k: real, x: real)
    requires s * k == 1.0
    ensures s * (k * x) == x && k * (s * x) == x
  {
    assert s * (k * x) == (s * k) * x;
    assert k * (s * x) == (s * k) * x;
  }

  /** Scaling a mean by the sum of its weights gives back the weighted sum. */
  lemma ScaleMix(p: Vec4, wp: real, q: Vec4, wq: real)
    requires wp + wq != 0.0
    ensures Scale(wp + wq, Mix(p, wp, q, wq)) == WeightedSum(p, wp, q, wq)
  {
    ScaleInverse(wp + wq, WeightedSum(p, wp, q, wq));
  }

  /** A mean of two vectors with positive w and non-negative weights has positive w. */
  lemma MixPositive(p: Vec4, wp: real, q: Vec4, wq: real)
    requires wp >= 0.0 && wq >= 0.0 && wp + wq > 0.0
    ensures p.w > 0.0 && q.w > 0.0 ==> Mix(p, wp, q, wq).w > 0.0
  {
    if p.w > 0.0 && q.w > 0.0 {
      var k := 1.0 / (wp + wq);
      assert k > 0.0;
      assert p.w * wp >= 0.0 && q.w * wq >= 0.0;
      assert p.w * wp > 0.0 || q.w * wq > 0.0;
      assert k * (p.w * wp + q.w * wq) > 0.0;
    }
  }

  /**
   * The point the triangle clipper puts between `a` and `c`: each end weighted
   * by the absolute value of its own clip coordinate. Its clip coordinate is
   * never read and is left at 0.
   */
  function Blend(a: FeedbackVertex, c: FeedbackVertex): (n: FeedbackVertex)
    requires Clipped(a) != Clipped(c)
    ensures a.pos.w > 0.0 && c.pos.w > 0.0 ==> n.pos.w > 0.0
  {
    var ca, cc := Abs(a.clipCoord), Abs(c.clipCoord);
    MixPositive(a.pos, ca, c.pos, cc);
    FeedbackVertex(Mix(a.pos, ca, c.pos, cc), Mix(a.color, ca, c.color, cc), 0.0)
  }

  /** Across the plane one end is strictly negative, so the blend's denominator is positive. */
  lemma BlendDenominatorPositive(a: FeedbackVertex, c: FeedbackVertex)
    requires Clipped(a) != Clipped(c)
    ensures Abs(a.clipCoord) + Abs(c.clipCoord) > 0.0
  {
  }

  /** How far along from a to c the triangle clipper's blend sits: |cc| / (|ca| + |cc|). */
  function BlendParameter(a: FeedbackVertex, c: FeedbackVertex): (t: real)
    requires Clipped(a) != Clipped(c)
    ensures 0.0 <= t <= 1.0
    ensures t >= 0.5 <==> Abs(a.clipCoord) <= Abs(c.clipCoord)
  {
    var ca, cc := Abs(a.clipCoord), Abs(c.clipCoord);
    var d := ca + cc;
    var t := cc / d;
    assert t * d == cc;
    assert (1.0 - t) * d == ca;
    assert (t - 0.5) * d == (cc - ca) * 0.5;
    SignOfProduct(t, d);
    SignOfProduct(1.0 - t, d);
    SignOfProduct(t - 0.5, d);
    t
  }

  /** Multiplying by a positive number keeps the sign. */
  lemma SignOfProduct(u: real, d: real)
    requires d > 0.0
    ensures u >= 0.0 <==> u * d >= 0.0
  {
    if u < 0.0 {
      assert u * d < 0.0;
    }
  }

  /** The point (1 - t) p + t q of the segment from p to q. */
  function Lerp(p: Vec4, q: Vec4, t: real): Vec4 {
    Vec4(LerpAt(p.x, q.x, t), LerpAt(p.y, q.y, t), LerpAt(p.z, q.z, t), LerpAt(p.w, q.w, t))
  }

  function LerpAt(p: real, q: real, t: real): real {
    (1.0 - t) * p + t * q
  }

  /**
   * The blend is the point of the segment from a to c at BlendParameter(a, c),
   * in position and colour alike: past the midpoint towards c exactly when c
   * is the end farther from the plane.
   */
  lemma BlendOnSegment(a: FeedbackVertex, c: FeedbackVertex)
    requires Clipped(a) != Clipped(c)
    ensures Blend(a, c).pos == Lerp(a.pos, c.pos, BlendParameter(a, c))
    ensures Blend(a, c).color == Lerp(a.color, c.color, BlendParameter(a, c))
  {
    var ca, cc := Abs(a.clipCoord), Abs(c.clipCoord);
    MixIsLerp(a.pos, ca, c.pos, cc);
    MixIsLerp(a.color, ca, c.color, cc);
  }

  /** A weighted mean of two vectors is a point of the segment between them. */
  lemma MixIsLerp(p: Vec4, wp: real, q: Vec4, wq: real)
    requires wp >= 0.0 && wq >= 0.0 && wp + wq > 0.0
    ensures Mix(p, wp, q, wq) == Lerp(p, q, wq / (wp + wq))
  {
    var d := wp + wq;
    var t := wq / d;
    LerpWeights(wp, wq);
    LerpScaled(p, q, t, d, wp, wq);
    ScaleInverse(d, Lerp(p, q, t));
  }

  /** The parameter t = wq / (wp + wq) splits wp + wq into wp and wq. */
  lemma LerpWeights(wp: real, wq: real)
    requires wp + wq != 0.0
    ensures var t := wq / (wp + wq); (1.0 - t) * (wp + wq) == wp && t * (wp + wq) == wq
  {
    var t := wq / (wp + wq);
    assert t * (wp + wq) == wq;
  }

  /** d times the point at t of the segment is the weighted sum with weights (1 - t) d and t d. */
  lemma LerpScaled(p: Vec4, q: Vec4, t: real, d: real, wp: real, wq: real)
    requires (1.0 - t) * d == wp && t * d == wq
    ensures Scale(d, Lerp(p, q, t)) == WeightedSum(p, wp, q, wq)
  {
    LerpScalar(p.x, q.x, t, d, wp, wq);
    LerpScalar(p.y, q.y, t, d, wp, wq);
    LerpScalar(p.z, q.z, t, d, wp, wq);
    LerpScalar(p.w, q.w, t, d, wp, wq);
  }

  lemma LerpScalar(p: real, q: real, t: real, d: real, wp: real, wq: real)
    requires (1.0 - t) * d == wp && t * d == wq
    ensures d * LerpAt(p, q, t) == p * wp + q * wq
  {
    assert d * ((1.0 - t) * p) == p * ((1.0 - t) * d);
    assert d * (t * q) == q * (t * d);
  }

  /**
   * Interpolating the (linear) clip coordinate with the blend's own weights
   * gives 0, i.e. the blend lies on the clip plane, exactly when both ends are
   * equally far from it.
   */
  lemma BlendOnPlaneIff(a: FeedbackVertex, c: FeedbackVertex)
    requires Clipped(a) != Clipped(c)
    ensures var ca, cc := Abs(a.clipCoord), Abs(c.clipCoord);
      (a.clipCoord * ca + c.clipCoord * cc) / (ca + cc) == 0.0 <==> ca == cc
  {
    var ca, cc := Abs(a.clipCoord), Abs(c.clipCoord);
    var d := ca + cc;
    var x := a.clipCoord * ca + c.clipCoord * cc;
    var e := if Clipped(a) then cc - ca else ca - cc;
    if Clipped(a) {
      assert a.clipCoord == -ca && c.clipCoord == cc;
    } else {
      assert a.clipCoord == ca && c.clipCoord == -cc;
    }
    assert x == e * d;
    ZeroQuotient(e, d);
  }

  /** For a positive d, (e * d) / d is zero exactly when e is. */
  lemma ZeroQuotient(e: real, d: real)
    requires d > 0.0
    ensures (e * d) / d == 0.0 <==> e == 0.0
  {
    assert (e * d) / d == e;
  }

  function Triangle(p: Gl2psVertex, q: Gl2psVertex, r: Gl2psVertex): Gl2psPrimitive {
    Gl2psPrimitive(Gl2psTriangle, [p, q, r])
  }

  /** All three on the kept side (or no clip plane): the triangle is drawn as captured. */
  predicate KeepsTriangle(t: seq<FeedbackVertex>, clipOn: bool)
    requires |t| == 3
  {
    !clipOn || (!Clipped(t[0]) && !Clipped(t[1]) && !Clipped(t[2]))
  }

  predicate DropsTriangle(t: seq<FeedbackVertex>, clipOn: bool)
    requires |t| == 3
  {
    !KeepsTriangle(t, clipOn) && Clipped(t[0]) && Clipped(t[1]) && Clipped(t[2])
  }

  /** Rotation j of a triangle pairs corner j with corner j + 1 (mod 3). */
  predicate SameSide(t: seq<FeedbackVertex>, j: nat)
    requires |t| == 3 && j < 3
  {
    Clipped(t[j]) == Clipped(t[(j + 1) % 3])
  }

  /** The first rotation whose first two corners are on the same side of the plane. */
  function FirstSameSide(t: seq<FeedbackVertex>): (j: nat)
    requires |t| == 3
    ensures j < 3 && SameSide(t, j)
    ensures forall k :: 0 <= k < j ==> !SameSide(t, k)
  {
    if SameSide(t, 0) then 0 else if SameSide(t, 1) then 1 else 2
  }

  /**
   * The primitives one captured triangle turns into. A triangle cut by the
   * plane is rotated to (a, b, c) with a and b on the same side; n0 lies
   * between a and c, n1 between b and c. With c clipped, the quadrilateral
   * a, n0, n1, b is drawn as (a, n0, n1) then (a, n1, b); with a and b
   * clipped, the triangle (c, n0, n1) is drawn.
   */
  function ClipTriangle(t: seq<FeedbackVertex>, clipOn: bool, vp: Viewport): (r: seq<Gl2psPrimitive>)
    requires |t| == 3 && Captured(t, 3)
    ensures |r| <= 2
    ensures forall k :: 0 <= k < |r| ==> r[k].kind == Gl2psTriangle && |r[k].verts| == 3
  {
    if KeepsTriangle(t, clipOn) then
      [Triangle(VertFBtoGL2PS(t[0], vp), VertFBtoGL2PS(t[1], vp), VertFBtoGL2PS(t[2], vp))]
    else if DropsTriangle(t, clipOn) then
      []
    else
      var j := FirstSameSide(t);
      var a, b, c := t[j], t[(j + 1) % 3], t[(j + 2) % 3];
      var n0, n1 := Blend(a, c), Blend(b, c);
      var pa, pb, pc := VertFBtoGL2PS(a, vp), VertFBtoGL2PS(b, vp), VertFBtoGL2PS(c, vp);
      var p0, p1 := VertFBtoGL2PS(n0, vp), VertFBtoGL2PS(n1, vp);
      if Clipped(c) then [Triangle(pa, p0, p1), Triangle(pa, p1, pb)]
      else [Triangle(pc, p0, p1)]
  }

  /**
   * How many corners of a triangle lie on the clipped side: the size of the
   * set of clipped corner indices. With the plane on, none means the
   * triangle is kept whole and all three that it is dropped.
   */
  function ClippedCount(t: seq<FeedbackVertex>): (n: nat)
    requires |t| == 3
    ensures n == |set k | 0 <= k < 3 && Clipped(t[k])|
    ensures n == 0 <==> KeepsTriangle(t, true)
    ensures n == 3 <==> DropsTriangle(t, true)
  {
    ClippedIndices(t);
    (if Clipped(t[0]) then 1 else 0) + (if Clipped(t[1]) then 1 else 0) + (if Clipped(t[2]) then 1 else 0)
  }

  /** The set of clipped corner indices, written out by cases. */
  lemma ClippedIndices(t: seq<FeedbackVertex>)
    requires |t| == 3
    ensures (set k | 0 <= k < 3 && Clipped(t[k])) ==
      (if Clipped(t[0]) then {0} else {}) + (if Clipped(t[1]) then {1} else {}) + (if Clipped(t[2]) then {2} else {})
  {
    var s := set k | 0 <= k < 3 && Clipped(t[k]);
    var r := (if Clipped(t[0]) then {0} else {}) + (if Clipped(t[1]) then {1} else {}) + (if Clipped(t[2]) then {2} else {});
    forall k | k in s ensures k in r {
      assert k == 0 || k == 1 || k == 2;
    }
  }

  /**
   * In a triangle that is neither kept nor dropped, a same-side pair always
   * exists, and the third corner is the only one on its side.
   */
  lemma SameSidePairExists(t: seq<FeedbackVertex>, clipOn: bool)
    requires |t| == 3 && !KeepsTriangle(t, clipOn) && !DropsTriangle(t, clipOn)
    ensures exists j :: 0 <= j < 3 && SameSide(t, j)
    ensures var j := FirstSameSide(t);
      Clipped(t[j]) == Clipped(t[(j + 1) % 3]) != Clipped(t[(j + 2) % 3])
  {
    assert SameSide(t, FirstSameSide(t));
  }

  /**
   * Each captured triangle yields 0, 1 or 2 triangles: none when clipping
   * is on and every corner is clipped, two when exactly one corner is
   * clipped, and one otherwise.
   */
  lemma ClipTriangleCount(t: seq<FeedbackVertex>, clipOn: bool, vp: Viewport)
    requires |t| == 3 && Captured(t, 3)
    ensures var r := ClipTriangle(t, clipOn, vp);
      && (|r| == 0 <==> clipOn && ClippedCount(t) == 3)
      && (|r| == 2 <==> clipOn && ClippedCount(t) == 1)
      && (|r| == 1 <==> !clipOn || ClippedCount(t) == 0 || ClippedCount(t) == 2)
      && forall k :: 0 <= k < |r| ==> r[k].kind == Gl2psTriangle && |r[k].verts| == 3
  {
    if !KeepsTriangle(t, clipOn) && !DropsTriangle(t, clipOn) {
      SameSidePairExists(t, clipOn);
    }
  }

  /**
   * A triangle that is kept (the plane is off, or no corner is clipped) is
   * drawn once, corners in captured order.
   */
  lemma UnclippedTriangleKeepsOrder(t: seq<FeedbackVertex>, clipOn: bool, vp: Viewport)
    requires |t| == 3 && Captured(t, 3) && KeepsTriangle(t, clipOn)
    ensures ClipTriangle(t, clipOn, vp) == [Triangle(VertFBtoGL2PS(t[0], vp), VertFBtoGL2PS(t[1], vp), VertFBtoGL2PS(t[2], vp))]
  {
  }

  /**
   * When a single corner is clipped, the two triangles share the diagonal
   * from a to n1, and both kept corners a and b are drawn.
   */
  lemma QuadSplitSharesDiagonal(t: seq<FeedbackVertex>, vp: Viewport)
    requires |t| == 3 && Captured(t, 3) && ClippedCount(t) == 1
    ensures var r := ClipTriangle(t, true, vp);
      var j := FirstSameSide(t);
      && |r| == 2
      && r[0].verts[0] == r[1].verts[0] == VertFBtoGL2PS(t[j], vp)
      && r[0].verts[2] == r[1].verts[1]
      && r[1].verts[2] == VertFBtoGL2PS(t[(j + 1) % 3], vp)
      && !Clipped(t[j]) && !Clipped(t[(j + 1) % 3])
  {
    SameSidePairExists(t, true);
  }

  /** Every corner on the kept side is still a corner of some emitted triangle. */
  lemma KeptCornersSurvive(t: seq<FeedbackVertex>, clipOn: bool, vp: Viewport, i: nat)
    requires |t| == 3 && Captured(t, 3) && i < 3 && !Clipped(t[i])
    ensures exists k, m ::
      0 <= k < |ClipTriangle(t, clipOn, vp)| && 0 <= m < 3 && ClipTriangle(t, clipOn, vp)[k].verts[m] == VertFBtoGL2PS(t[i], vp)
  {
    var r := ClipTriangle(t, clipOn, vp);
    var p := VertFBtoGL2PS(t[i], vp);
    if KeepsTriangle(t, clipOn) {
      assert r[0].verts[i] == p;
    } else {
      SameSidePairExists(t, clipOn);
      var j := FirstSameSide(t);
      if Clipped(t[(j + 2) % 3]) {
        if i == j {
          assert r[0].verts[0] == p;
        } else {
          assert i == (j + 1) % 3;
          assert r[1].verts[2] == p;
        }
      } else {
        assert i == (j + 2) % 3;
        assert r[0].verts[0] == p;
      }
    }
  }

  /** A captured stretch of the buffer starting at `lo` is captured as a sequence of its own. */
  lemma CapturedSlice(buf: seq<FeedbackVertex>, n: nat, lo: nat, hi: nat)
    requires Captured(buf, n) && lo <= hi <= n
    ensures Captured(buf[lo..hi], hi - lo) && Captured(buf, hi)
  {
    forall k | 0 <= k < hi - lo ensures buf[lo..hi][k].pos.w > 0.0 {
      assert buf[lo..hi][k] == buf[lo + k];
    }
  }

  /** The primitives emitted for the first i / 3 triangles of a capture. */
  function TriangleStream(buf: seq<FeedbackVertex>, i: nat, clipOn: bool, vp: Viewport): (r: seq<Gl2psPrimitive>)
    requires i % 3 == 0 && Captured(buf, i)
    ensures forall k :: 0 <= k < |r| ==> r[k].kind == Gl2psTriangle
  {
    if i == 0 then [] else TriangleStream(buf, i - 3, clipOn, vp) + ClipTriangle(buf[i - 3..i], clipOn, vp)
  }

  /** The next group of three vertices still fits in a capture whose size is a multiple of three. */
  lemma NextTriangleFits(i: nat, n: nat)
    requires i % 3 == 0 && n % 3 == 0 && i < n
    ensures i + 3 <= n && (i + 3) % 3 == 0
  {
  }

  /** The stream over one more triangle is the old stream followed by that triangle's primitives. */
  lemma TriangleStreamStep(buf: seq<FeedbackVertex>, i: nat, clipOn: bool, vp: Viewport)
    requires i % 3 == 0 && (i + 3) % 3 == 0 && Captured(buf, i + 3)
    ensures Captured(buf, i) && Captured(buf[i..i + 3], 3)
    ensures TriangleStream(buf, i + 3, clipOn, vp)
      == TriangleStream(buf, i, clipOn, vp) + ClipTriangle(buf[i..i + 3], clipOn, vp)
  {
    CapturedSlice(buf, i + 3, 0, i);
    CapturedSlice(buf, i + 3, i, i + 3);
  }

  /**
   * A capture of i vertices draws at most 2 * (i / 3) triangles, and with
   * the clip plane off exactly i / 3, all of them triangles.
   */
  lemma {:induction false} TriangleStreamLength(buf: seq<FeedbackVertex>, i: nat, clipOn: bool, vp: Viewport)
    requires i % 3 == 0 && Captured(buf, i)
    ensures var s := TriangleStream(buf, i, clipOn, vp);
      && |s| <= 2 * (i / 3)
      && (!clipOn ==> |s| == i / 3)
      && forall k :: 0 <= k < |s| ==> s[k].kind == Gl2psTriangle
  {
    if i > 0 {
      assert i >= 3 && (i - 3) % 3 == 0;
      TriangleStreamStep(buf, i - 3, clipOn, vp);
      var s0: seq<Gl2psPrimitive>, e: seq<Gl2psPrimitive> := TriangleStream(buf, i - 3, clipOn, vp), ClipTriangle(buf[i - 3..i], clipOn, vp);
      TriangleStreamLength(buf, i - 3, clipOn, vp);
      ClipTriangleCount(buf[i - 3..i], clipOn, vp);
      assert (i - 3) / 3 + 1 == i / 3;
      forall k | 0 <= k < |s0| + |e| ensures (s0 + e)[k].kind == Gl2psTriangle {
        if k >= |s0| {
          assert (s0 + e)[k] == e[k - |s0|];
        }
      }
    }
  }

  /**
   * One pass of the triangle loop: project, drop or cut one triangle and
   * emit what it turns into. The search for a same-side pair is the loop
   * over j with its break.
   */
  method ProcessTriangle(t: seq<FeedbackVertex>, clipOn: bool, vp: Viewport) returns (emitted: seq<Gl2psPrimitive>)
    requires |t| == 3 && Captured(t, 3)
    ensures emitted == ClipTriangle(t, clipOn, vp)
  {
    emitted := [];
    var triVtx: seq<Gl2psVertex> := [];
    if !clipOn || (t[0].clipCoord >= 0.0 && t[1].clipCoord >= 0.0 && t[2].clipCoord >= 0.0) {
      for j := 0 to 3
        invariant triVtx == seq(j, k requires 0 <= k < j => VertFBtoGL2PS(t[k], vp))
      {
        triVtx := triVtx + [VertFBtoGL2PS(t[j], vp)];
      }
      assert triVtx == [VertFBtoGL2PS(t[0], vp), VertFBtoGL2PS(t[1], vp), VertFBtoGL2PS(t[2], vp)];
    } else if t[0].clipCoord < 0.0 && t[1].clipCoord < 0.0 && t[2].clipCoord < 0.0 {
      return;
    } else {
      // mixed sides: cut the triangle along the plane
      assert !KeepsTriangle(t, clipOn) && !DropsTriangle(t, clipOn);
      SameSidePairExists(t, clipOn);
      var j := 0;
      while j < 3
        invariant j <= FirstSameSide(t)
        invariant emitted == []
      {
        var ia, ib, ic := j, (j + 1) % 3, (j + 2) % 3;
        if (t[ia].clipCoord < 0.0) == (t[ib].clipCoord < 0.0) {
          // a and b are on the same side of the clip plane
          var n0 := Blend(t[ia], t[ic]);
          var n1 := Blend(t[ib], t[ic]);
          if t[ic].clipCoord < 0.0 {
            // a and b are kept: quadrilateral a, n0, n1, b split along a-n1
            var quad := [VertFBtoGL2PS(t[ia], vp), VertFBtoGL2PS(n0, vp), VertFBtoGL2PS(n1, vp), VertFBtoGL2PS(t[ib], vp)];
            emitted := emitted + [Gl2psPrimitive(Gl2psTriangle, quad[..3])];
            triVtx := [quad[0], quad[2], quad[3]];
            assert quad[..3] == [quad[0], quad[1], quad[2]];
          } else {
            // c is kept: triangle c, n0, n1
            triVtx := [VertFBtoGL2PS(t[ic], vp), VertFBtoGL2PS(n0, vp), VertFBtoGL2PS(n1, vp)];
          }
          assert j == FirstSameSide(t);
          break;
        }
        j := j + 1;
      }
    }
    emitted := emitted + [Gl2psPrimitive(Gl2psTriangle, triVtx)];
  }

  /** Walks the capture three vertices at a time, emitting each triangle's primitives in order. */
  method ProcessTriangleTransformFeedback(buf: seq<FeedbackVertex>, numVerts: nat, clipOn: bool, vp: Viewport)
    returns (out: seq<Gl2psPrimitive>)
    requires numVerts % 3 == 0 && Captured(buf, numVerts)
    ensures out == TriangleStream(buf, numVerts, clipOn, vp)
  {
    out := [];
    var i := 0;
    while i < numVerts
      invariant i <= numVerts && i % 3 == 0
      invariant out == TriangleStream(buf, i, clipOn, vp)
    {
      NextTriangleFits(i, numVerts);
      CapturedSlice(buf, numVerts, 0, i + 3);
      TriangleStreamStep(buf, i, clipOn, vp);
      var emitted := ProcessTriangle(buf[i..i + 3], clipOn, vp);
      out := out + emitted;
      i := i + 3;
    }
  }

  function Segment(p: Gl2psVertex, q: Gl2psVertex): Gl2psPrimitive {
    Gl2psPrimitive(Gl2psLine, [p, q])
  }

  /**
   * The vertex the line clipper makes from the kept end `a` and the clipped
   * end `b`: a * ca - b * cb, component by component, with no division.
   */
  function LineClipVertex(a: FeedbackVertex, b: FeedbackVertex): (v: FeedbackVertex)
    requires !Clipped(a) && Clipped(b)
    ensures a.pos.w > 0.0 && b.pos.w > 0.0 ==> v.pos.w > 0.0
  {
    var ca, cb := a.clipCoord, b.clipCoord;
    FeedbackVertex(Difference(a.pos, ca, b.pos, cb), Difference(a.color, ca, b.color, cb), 0.0)
  }

  /** p * wp - q * wq, component by component. */
  function Difference(p: Vec4, wp: real, q: Vec4, wq: real): Vec4 {
    Vec4(p.x * wp - q.x * wq, p.y * wp - q.y * wq, p.z * wp - q.z * wq, p.w * wp - q.w * wq)
  }

  /** Subtracting a weighted vector is adding it with the opposite weight. */
  lemma DifferenceIsWeightedSum(p: Vec4, wp: real, q: Vec4, wq: real)
    ensures Difference(p, wp, q, wq) == WeightedSum(p, wp, q, -wq)
  {
  }

  /**
   * The line clip vertex is the triangle clipper's blend of the two ends
   * scaled by |ca| + |cb|: the projected position is the blend's, while the
   * colour is the blended colour multiplied by that factor.
   */
  lemma LineClipVertexIsScaledBlend(a: FeedbackVertex, b: FeedbackVertex, vp: Viewport)
    requires !Clipped(a) && Clipped(b) && a.pos.w > 0.0 && b.pos.w > 0.0
    ensures var s := Abs(a.clipCoord) + Abs(b.clipCoord);
      var v, n := LineClipVertex(a, b), Blend(a, b);
      && s > 0.0
      && v.pos == Scale(s, n.pos) && v.color == Scale(s, n.color)
      && VertFBtoGL2PS(v, vp) == VertFBtoGL2PS(n, vp).(rgba := Scale(s, n.color))
  {
    var ca, cb := Abs(a.clipCoord), Abs(b.clipCoord);
    var n := Blend(a, b);
    assert ca == a.clipCoord && -cb == b.clipCoord;
    DifferenceIsWeightedSum(a.pos, a.clipCoord, b.pos, b.clipCoord);
    DifferenceIsWeightedSum(a.color, a.clipCoord, b.color, b.clipCoord);
    ScaleMix(a.pos, ca, b.pos, cb);
    ScaleMix(a.color, ca, b.color, cb);
    ProjectionIgnoresScale(n, ca + cb, vp);
  }

  /** Both ends on the kept side (or no clip plane): the segment is drawn as captured. */
  predicate KeepsLine(a: FeedbackVertex, b: FeedbackVertex, clipOn: bool) {
    !clipOn || (!Clipped(a) && !Clipped(b))
  }

  /**
   * The primitives one captured segment turns into: itself, nothing, or the
   * segment from the clip vertex to the kept end.
   */
  function ClipLine(v0: FeedbackVertex, v1: FeedbackVertex, clipOn: bool, vp: Viewport): (r: seq<Gl2psPrimitive>)
    requires v0.pos.w > 0.0 && v1.pos.w > 0.0
    ensures |r| <= 1
    ensures forall k :: 0 <= k < |r| ==> r[k].kind == Gl2psLine && |r[k].verts| == 2
  {
    if KeepsLine(v0, v1, clipOn) then [Segment(VertFBtoGL2PS(v0, vp), VertFBtoGL2PS(v1, vp))]
    else if Clipped(v0) && Clipped(v1) then []
    else
      var a := if Clipped(v0) then v1 else v0;
      var b := if Clipped(v0) then v0 else v1;
      [Segment(VertFBtoGL2PS(LineClipVertex(a, b), vp), VertFBtoGL2PS(a, vp))]
  }

  /**
   * A segment is dropped exactly when clipping is on and both ends are
   * clipped; otherwise one segment is drawn, ending at the kept end when it
   * was cut, and in captured order otherwise.
   */
  lemma ClipLineCases(v0: FeedbackVertex, v1: FeedbackVertex, clipOn: bool, vp: Viewport)
    requires v0.pos.w > 0.0 && v1.pos.w > 0.0
    ensures var r := ClipLine(v0, v1, clipOn, vp);
      && (r == [] <==> clipOn && Clipped(v0) && Clipped(v1))
      && |r| <= 1
      && (|r| == 1 ==> r[0].kind == Gl2psLine && |r[0].verts| == 2)
      && (KeepsLine(v0, v1, clipOn) ==> r[0].verts == [VertFBtoGL2PS(v0, vp), VertFBtoGL2PS(v1, vp)])
      && (clipOn && Clipped(v0) && !Clipped(v1) ==> r[0].verts[1] == VertFBtoGL2PS(v1, vp))
      && (clipOn && !Clipped(v0) && Clipped(v1) ==> r[0].verts[1] == VertFBtoGL2PS(v0, vp))
  {
  }

  /** The primitives emitted for the first i / 2 segments of a capture. */
  function LineStream(buf: seq<FeedbackVertex>, i: nat, clipOn: bool, vp: Viewport): (r: seq<Gl2psPrimitive>)
    requires i % 2 == 0 && Captured(buf, i)
    ensures forall k :: 0 <= k < |r| ==> r[k].kind == Gl2psLine
  {
    if i == 0 then [] else LineStream(buf, i - 2, clipOn, vp) + ClipLine(buf[i - 2], buf[i - 1], clipOn, vp)
  }

  /** The next pair of vertices still fits in a capture whose size is even. */
  lemma NextSegmentFits(i: nat, n: nat)
    requires i % 2 == 0 && n % 2 == 0 && i < n
    ensures i + 2 <= n && (i + 2) % 2 == 0
  {
  }

  /** The stream over one more segment is the old stream followed by that segment's primitives. */
  lemma LineStreamStep(buf: seq<FeedbackVertex>, i: nat, clipOn: bool, vp: Viewport)
    requires i % 2 == 0 && (i + 2) % 2 == 0 && Captured(buf, i + 2)
    ensures Captured(buf, i) && Captured(buf[i..i + 2], 2)
    ensures buf[i..i + 2][0] == buf[i] && buf[i..i + 2][1] == buf[i + 1]
    ensures LineStream(buf, i + 2, clipOn, vp)
      == LineStream(buf, i, clipOn, vp) + ClipLine(buf[i], buf[i + 1], clipOn, vp)
  {
    CapturedSlice(buf, i + 2, 0, i);
    CapturedSlice(buf, i + 2, i, i + 2);
  }

  /**
   * A capture of i vertices draws at most i / 2 segments, exactly i / 2 with
   * the clip plane off, all of them lines.
   */
  lemma {:induction false} LineStreamLength(buf: seq<FeedbackVertex>, i: nat, clipOn: bool, vp: Viewport)
    requires i % 2 == 0 && Captured(buf, i)
    ensures var s := LineStream(buf, i, clipOn, vp);
      && |s| <= i / 2
      && (!clipOn ==> |s| == i / 2)
      && forall k :: 0 <= k < |s| ==> s[k].kind == Gl2psLine
  {
    if i > 0 {
      assert i >= 2 && (i - 2) % 2 == 0;
      LineStreamStep(buf, i - 2, clipOn, vp);
      var s0: seq<Gl2psPrimitive>, e: seq<Gl2psPrimitive> := LineStream(buf, i - 2, clipOn, vp), ClipLine(buf[i - 2], buf[i - 1], clipOn, vp);
      LineStreamLength(buf, i - 2, clipOn, vp);
      ClipLineCases(buf[i - 2], buf[i - 1], clipOn, vp);
      assert (i - 2) / 2 + 1 == i / 2;
      forall k | 0 <= k < |s0| + |e| ensures (s0 + e)[k].kind == Gl2psLine {
        if k >= |s0| {
          assert (s0 + e)[k] == e[k - |s0|];
        }
      }
    }
  }

  /**
   * One pass of the line loop: project, drop or cut one segment and emit
   * what it turns into; `ia` is the end on the kept side, `ib` the clipped one.
   */
  method ProcessLine(l: seq<FeedbackVertex>, clipOn: bool, vp: Viewport) returns (emitted: seq<Gl2psPrimitive>)
    requires |l| == 2 && Captured(l, 2)
    ensures emitted == ClipLine(l[0], l[1], clipOn, vp)
  {
    var lineVtx: seq<Gl2psVertex>;
    if !clipOn || (l[0].clipCoord >= 0.0 && l[1].clipCoord >= 0.0) {
      lineVtx := [VertFBtoGL2PS(l[0], vp), VertFBtoGL2PS(l[1], vp)];
    } else if l[0].clipCoord < 0.0 && l[1].clipCoord < 0.0 {
      // both ends clipped: nothing is drawn
      return [];
    } else {
      var ia, ib;
      if l[0].clipCoord < 0.0 {
        // end 0 is the clipped one, end 1 is kept
        ia, ib := 1, 0;
      } else {
        // end 1 is the clipped one, end 0 is kept
        ia, ib := 0, 1;
      }
      var clipVert := LineClipVertex(l[ia], l[ib]);
      lineVtx := [VertFBtoGL2PS(clipVert, vp), VertFBtoGL2PS(l[ia], vp)];
    }
    emitted := [Gl2psPrimitive(Gl2psLine, lineVtx)];
  }

  /** Walks the capture two vertices at a time, emitting each segment (or nothing) in order. */
  method ProcessLineTransformFeedback(buf: seq<FeedbackVertex>, numVerts: nat, clipOn: bool, vp: Viewport)
    returns (out: seq<Gl2psPrimitive>)
    requires numVerts % 2 == 0 && Captured(buf, numVerts)
    ensures out == LineStream(buf, numVerts, clipOn, vp)
  {
    out := [];
    var i := 0;
    while i < numVerts
      invariant i <= numVerts && i % 2 == 0
      invariant out == LineStream(buf, i, clipOn, vp)
    {
      NextSegmentFits(i, numVerts);
      CapturedSlice(buf, numVerts, 0, i + 2);
      LineStreamStep(buf, i, clipOn, vp);
      var emitted := ProcessLine(buf[i..i + 2], clipOn, vp);
      out := out + emitted;
      i := i + 2;
    }
  }
}
