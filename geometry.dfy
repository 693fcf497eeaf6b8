/** Homogeneous points and the only transforms the sponge generator ever builds:
    a uniform scale followed by a translation, held exactly as reals. */
module Geometry {

  /** A homogeneous 4-vector (x, y, z, w); points carry w = 1, directions w = 0. */
  datatype Vec4 = Vec4(x: real, y: real, z: real, w: real)

  /** A 3-vector: a triangle edge, a triangle normal or a face normal. */
  datatype Vec3 = Vec3(x: real, y: real, z: real)

  /** The 4x4 matrix
        | s 0 0 tx |
        | 0 s 0 ty |
        | 0 0 s tz |
        | 0 0 0 1  |
      Every matrix the generator composes has this shape. */
  datatype Transform = Transform(s: real, tx: real, ty: real, tz: real)

  const Identity: Transform := Transform(1.0, 0.0, 0.0, 0.0)

  /** The matrix of a translation by (x, y, z). */
  function Translation(x: real, y: real, z: real): Transform
  {
    Transform(1.0, x, y, z)
  }

  /** The matrix of a uniform scale by c. */
  function Scaling(c: real): Transform
  {
    Transform(c, 0.0, 0.0, 0.0)
  }

  /** Matrix-vector product `m * v`. */
  function Apply(m: Transform, v: Vec4): Vec4
  {
    Vec4(m.s * v.x + m.tx * v.w, m.s * v.y + m.ty * v.w, m.s * v.z + m.tz * v.w, v.w)
  }

  /** Matrix product `a * b`. */
  function Compose(a: Transform, b: Transform): Transform
  {
    Transform(a.s * b.s, a.s * b.tx + a.tx, a.s * b.ty + a.ty, a.s * b.tz + a.tz)
  }

  /** One coordinate of ApplyCompose: c * (d * x + e * w) + f * w, regrouped. */
  lemma AffineStep(c: real, f: real, d: real, e: real, x: real, w: real)
    ensures c * (d * x + e * w) + f * w == (c * d) * x + (c * e + f) * w
  {
  }

  /** The product is the matrix of "apply b, then a". */
  lemma ApplyCompose(a: Transform, b: Transform, v: Vec4)
    ensures Apply(Compose(a, b), v) == Apply(a, Apply(b, v))
  {
    AffineStep(a.s, a.tx, b.s, b.tx, v.x, v.w);
    AffineStep(a.s, a.ty, b.s, b.ty, v.y, v.w);
    AffineStep(a.s, a.tz, b.s, b.tz, v.z, v.w);
  }

  /** The identity leaves every vector where it is. */
  lemma ApplyIdentity(v: Vec4)
    ensures Apply(Identity, v) == v
  {
  }

  /** Composition is associative, so the order in which a chain of parent and
      child transforms is multiplied out does not matter. */
  lemma ComposeAssociative(a: Transform, b: Transform, c: Transform)
    ensures Compose(Compose(a, b), c) == Compose(a, Compose(b, c))
  {
    var l, r := Compose(Compose(a, b), c), Compose(a, Compose(b, c));
    assert l.s == r.s by { assert (a.s * b.s) * c.s == a.s * (b.s * c.s); }
    assert l.tx == r.tx by { assert (a.s * b.s) * c.tx == a.s * (b.s * c.tx); }
    assert l.ty == r.ty by { assert (a.s * b.s) * c.ty == a.s * (b.s * c.ty); }
    assert l.tz == r.tz by { assert (a.s * b.s) * c.tz == a.s * (b.s * c.tz); }
  }

  /** Dot product of two 3-vectors. */
  function Dot(u: Vec3, v: Vec3): real
  {
    u.x * v.x + u.y * v.y + u.z * v.z
  }

  /** Cross product of two 3-vectors (right-handed). */
  function Cross(u: Vec3, v: Vec3): Vec3
  {
    Vec3(u.y * v.z - u.z * v.y, u.z * v.x - u.x * v.z, u.x * v.y - u.y * v.x)
  }

  /** The 3-vector k u. */
  function Scale3(k: real, u: Vec3): Vec3
  {
    Vec3(k * u.x, k * u.y, k * u.z)
  }

  /** The edge from point a to point b (their w components are ignored). */
  function Edge(a: Vec4, b: Vec4): Vec3
  {
    Vec3(b.x - a.x, b.y - a.y, b.z - a.z)
  }

  /** The geometric normal of the triangle (a, b, c): counter-clockwise
      seen from the side it points to, which is the side a renderer that
      culls clockwise triangles draws. */
  function TriangleNormal(a: Vec4, b: Vec4, c: Vec4): Vec3
  {
    Cross(Edge(a, b), Edge(a, c))
  }

  /** One coordinate of EdgeApply: (s x2 + t w2) - (s x1 + t w1) = s (x2 - x1)
      for two points (w1 = w2 = 1). */
  lemma EdgeStep(s: real, t: real, x1: real, w1: real, x2: real, w2: real, e: real)
    requires w1 == 1.0 && w2 == 1.0 && e == x2 - x1
    ensures (s * x2 + t * w2) - (s * x1 + t * w1) == s * e
  {
  }

  /** Placing both ends of an edge with the same transform scales the edge. */
  lemma EdgeApply(t: Transform, a: Vec4, b: Vec4)
    requires a.w == 1.0 && b.w == 1.0
    ensures Edge(Apply(t, a), Apply(t, b)) == Scale3(t.s, Edge(a, b))
  {
    var e := Edge(a, b);
    EdgeStep(t.s, t.tx, a.x, a.w, b.x, b.w, e.x);
    EdgeStep(t.s, t.ty, a.y, a.w, b.y, b.w, e.y);
    EdgeStep(t.s, t.tz, a.z, a.w, b.z, b.w, e.z);
  }

  /** One coordinate of CrossScaleX, -Y or -Z: p q - r s for p = j a, q = k b, r = j c,
      s = k d is j k times w = a b - c d. */
  lemma ScaledMinor(j: real, k: real, a: real, b: real, c: real, d: real,
                    p: real, q: real, r: real, s: real, w: real)
    requires p == j * a && q == k * b && r == j * c && s == k * d && w == a * b - c * d
    ensures p * q - r * s == j * (k * w)
  {
  }

  /** Scaling the factors of a cross product by j and k scales each of its
      coordinates by j k: here the first one, ... */
  lemma CrossScaleX(j: real, k: real, u: Vec3, v: Vec3)
    ensures Cross(Scale3(j, u), Scale3(k, v)).x == j * (k * Cross(u, v).x)
  {
    ScaledMinor(j, k, u.y, v.z, u.z, v.y, Scale3(j, u).y, Scale3(k, v).z, Scale3(j, u).z, Scale3(k, v).y, Cross(u, v).x);
  }

  /** ... the second one, ... */
  lemma CrossScaleY(j: real, k: real, u: Vec3, v: Vec3)
    ensures Cross(Scale3(j, u), Scale3(k, v)).y == j * (k * Cross(u, v).y)
  {
    ScaledMinor(j, k, u.z, v.x, u.x, v.z, Scale3(j, u).z, Scale3(k, v).x, Scale3(j, u).x, Scale3(k, v).z, Cross(u, v).y);
  }

  /** ... and the third one. */
  lemma CrossScaleZ(j: real, k: real, u: Vec3, v: Vec3)
    ensures Cross(Scale3(j, u), Scale3(k, v)).z == j * (k * Cross(u, v).z)
  {
    ScaledMinor(j, k, u.x, v.y, u.y, v.x, Scale3(j, u).x, Scale3(k, v).y, Scale3(j, u).y, Scale3(k, v).x, Cross(u, v).z);
  }

  /** A vector whose coordinates are those of w scaled by j k has its dot
      product with n scaled by j k. */
  lemma DotScaled(j: real, k: real, w: Vec3, n: Vec3, l: Vec3)
    requires l.x == j * (k * w.x) && l.y == j * (k * w.y) && l.z == j * (k * w.z)
    ensures Dot(l, n) == j * (k * Dot(w, n))
  {
  }

  /** A product of two positive reals is positive. */
  lemma PositiveProduct(x: real, y: real)
    requires x > 0.0 && y > 0.0
    ensures x * y > 0.0
  {
  }

  /** x = s (s d) is positive for every positive s and d. */
  lemma ScaledPositive(x: real, s: real, d: real)
    requires x == s * (s * d) && s > 0.0 && d > 0.0
    ensures x > 0.0
  {
    PositiveProduct(s, d);
    PositiveProduct(s, s * d);
  }

  /** A transform with scale s multiplies the normal of a triangle of points
      by s twice, so a transform of positive scale never turns a triangle
      over: a normal with a positive component along n keeps one. */
  lemma TriangleNormalApply(t: Transform, a: Vec4, b: Vec4, c: Vec4, n: Vec3)
    requires a.w == 1.0 && b.w == 1.0 && c.w == 1.0 && t.s > 0.0
    requires Dot(TriangleNormal(a, b, c), n) > 0.0
    ensures Dot(TriangleNormal(Apply(t, a), Apply(t, b), Apply(t, c)), n) > 0.0
  {
    var u, v := Edge(a, b), Edge(a, c);
    EdgeApply(t, a, b);
    EdgeApply(t, a, c);
    CrossScaleX(t.s, t.s, u, v);
    CrossScaleY(t.s, t.s, u, v);
    CrossScaleZ(t.s, t.s, u, v);
    DotScaled(t.s, t.s, Cross(u, v), n, Cross(Scale3(t.s, u), Scale3(t.s, v)));
    ScaledPositive(Dot(TriangleNormal(Apply(t, a), Apply(t, b), Apply(t, c)), n), t.s, Dot(Cross(u, v), n));
  }
}
