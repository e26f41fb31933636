/**
 * FGeneratedTriangle: the triangle record of the Bowyer-Watson triangulator and
 * its circumcircle predicate CircumCircleContains.
 *
 * Coordinates are exact reals, an abstraction of the engine's 32-bit floats.
 *
 * Proof layout: the arithmetic is done in lemmas over plain reals, which are called
 * with coordinates and function values as arguments. The lemmas about points and
 * triangles only put those facts together. The polynomial identities over points
 * are each proved on their own.
 */
module GeneratedTriangles {
  import opened Wrappers

  /** FVector2D */
  datatype Vector2D = Vector2D(x: real, y: real)

  /** FGeneratedTriangle: three vertices and the "bad" flag of the retriangulation sweep. */
  datatype Triangle = Triangle(vertex1: Vector2D, vertex2: Vector2D, vertex3: Vector2D, isBad: bool)

  /** The three-vertex constructor: the vertices in argument order, not marked bad. */
  function NewTriangle(v1: Vector2D, v2: Vector2D, v3: Vector2D): (t: Triangle)
    ensures t.vertex1 == v1 && t.vertex2 == v2 && t.vertex3 == v3
    ensures !t.isBad
  {
    Triangle(v1, v2, v3, false)
  }

  /** Squared Euclidean distance between two points. */
  function DistanceSquared(u: Vector2D, v: Vector2D): real
  {
    (u.x - v.x) * (u.x - v.x) + (u.y - v.y) * (u.y - v.y)
  }

  /** Twice the signed area of (a, b, c): positive when the turn a-b-c is counterclockwise. */
  function Orientation(a: Vector2D, b: Vector2D, c: Vector2D): real
  {
    (b.x - a.x) * (c.y - a.y) - (b.y - a.y) * (c.x - a.x)
  }

  predicate Collinear(a: Vector2D, b: Vector2D, c: Vector2D)
  {
    Orientation(a, b, c) == 0.0
  }

  predicate Degenerate(t: Triangle)
  {
    Collinear(t.vertex1, t.vertex2, t.vertex3)
  }

  /** q is a centre of a circle through all three vertices. */
  predicate IsCircumcentre(t: Triangle, q: Vector2D)
  {
    DistanceSquared(t.vertex1, q) == DistanceSquared(t.vertex2, q)
    && DistanceSquared(t.vertex2, q) == DistanceSquared(t.vertex3, q)
  }

  /** Two triangles with the same three vertices, in any of the six orders. */
  predicate SameVertices(t: Triangle, u: Triangle)
  {
    var a, b, c := t.vertex1, t.vertex2, t.vertex3;
    var v := (u.vertex1, u.vertex2, u.vertex3);
    v == (a, b, c) || v == (b, c, a) || v == (c, a, b)
    || v == (b, a, c) || v == (a, c, b) || v == (c, b, a)
  }

  // ---------------------------------------------------------------------
  // The computation of CircumCircleContains (the squared norms are the source's Ab, Cd, Ef)
  // ---------------------------------------------------------------------

  function NumeratorX(a: Vector2D, b: Vector2D, c: Vector2D): real
  {
    (a.x * a.x + a.y * a.y) * (c.y - b.y) + (b.x * b.x + b.y * b.y) * (a.y - c.y)
    + (c.x * c.x + c.y * c.y) * (b.y - a.y)
  }

  function DenominatorX(a: Vector2D, b: Vector2D, c: Vector2D): real
  {
    a.x * (c.y - b.y) + b.x * (a.y - c.y) + c.x * (b.y - a.y)
  }

  function NumeratorY(a: Vector2D, b: Vector2D, c: Vector2D): real
  {
    (a.x * a.x + a.y * a.y) * (c.x - b.x) + (b.x * b.x + b.y * b.y) * (a.x - c.x)
    + (c.x * c.x + c.y * c.y) * (b.x - a.x)
  }

  function DenominatorY(a: Vector2D, b: Vector2D, c: Vector2D): real
  {
    a.y * (c.x - b.x) + b.y * (a.x - c.x) + c.y * (b.x - a.x)
  }

  /**
   * Circum = (Circum_X / 2, Circum_Y / 2) for the vertices a, b, c; absent when the
   * denominators are zero, where the source divides by zero.
   */
  function Circumcentre(a: Vector2D, b: Vector2D, c: Vector2D): (o: Option<Vector2D>)
    ensures o.None? <==> Collinear(a, b, c)
  {
    DenominatorsAreOrientation(a, b, c);
    if DenominatorX(a, b, c) == 0.0 then None
    else
      var circumX := NumeratorX(a, b, c) / DenominatorX(a, b, c);
      var circumY := NumeratorY(a, b, c) / DenominatorY(a, b, c);
      Some(Vector2D(circumX / 2.0, circumY / 2.0))
  }

  /**
   * CircumCircleContains: whether `vertex` lies within or on the circumcircle, judged by its
   * squared distance to the centre against that of Vertex1. None for a degenerate triangle.
   */
  function CircumCircleContains(t: Triangle, vertex: Vector2D): (r: Option<bool>)
    ensures r.None? <==> Degenerate(t)
  {
    match Circumcentre(t.vertex1, t.vertex2, t.vertex3)
    case None => None
    case Some(circum) =>
      var radiusCircum := DistanceSquared(t.vertex1, circum);
      var distance := DistanceSquared(vertex, circum);
      Some(distance <= radiusCircum)
  }

  // ---------------------------------------------------------------------
  // Arithmetic over plain reals
  // ---------------------------------------------------------------------

  /** q = (n / d) / 2 multiplied out, for a denominator d equal to -o. */
  lemma HalfQuotientNegated(n: real, d: real, o: real, q: real)
    ensures d != 0.0 && o == -d && q == (n / d) / 2.0 ==> 2.0 * q * o == -n
  {
    if d != 0.0 {
      assert (n / d) * d == n;
    }
  }

  /** q = (n / d) / 2 multiplied out, for a denominator d equal to o. */
  lemma HalfQuotient(n: real, d: real, o: real, q: real)
    ensures d != 0.0 && o == d && q == (n / d) / 2.0 ==> 2.0 * q * o == n
  {
    if d != 0.0 {
      assert (n / d) * d == n;
    }
  }

  /** Negating numerator and denominator changes neither the quotient nor whether it is defined. */
  lemma NegatedQuotient(n: real, d: real, n2: real, d2: real)
    ensures n2 == -n && d2 == -d ==> (d2 == 0.0 <==> d == 0.0) && (d != 0.0 ==> n2 / d2 == n / d)
  {
    if n2 == -n && d2 == -d && d != 0.0 {
      assert (n / d) * d == n;
      assert (n / d) * d2 == n2;
    }
  }

  /**
   * A point p = (px, py) with both scaled centre equations is as far from a = (x1, y1)
   * as from b = (x2, y2): da and db are its squared distances to a and b.
   */
  lemma BisectorCore(x1: real, y1: real, x2: real, y2: real, px: real, py: real,
                     o: real, nx: real, ny: real, da: real, db: real)
    requires o != 0.0 && 2.0 * px * o == -nx && 2.0 * py * o == ny
    requires o * ((x1 * x1 + y1 * y1) - (x2 * x2 + y2 * y2)) == -(x1 - x2) * nx + (y1 - y2) * ny
    requires da - db == ((x1 * x1 + y1 * y1) - (x2 * x2 + y2 * y2)) - 2.0 * (x1 - x2) * px - 2.0 * (y1 - y2) * py
    ensures da == db
  {
    var s := (x1 * x1 + y1 * y1) - (x2 * x2 + y2 * y2);
    assert o * (da - db) == o * s - (x1 - x2) * (2.0 * px * o) - (y1 - y2) * (2.0 * py * o);
    assert o * (da - db) == 0.0;
  }

  /**
   * Two points p and q whose difference is orthogonal both to a - b and to a - c coincide
   * when o, the determinant of a - b and a - c, is not zero.
   */
  lemma CramerCore(x1: real, y1: real, x2: real, y2: real, x3: real, y3: real,
                   px: real, py: real, qx: real, qy: real, o: real)
    requires o == (x1 - x2) * (y1 - y3) - (y1 - y2) * (x1 - x3) && o != 0.0
    requires (x1 - x2) * (qx - px) + (y1 - y2) * (qy - py) == 0.0
    requires (x1 - x3) * (qx - px) + (y1 - y3) * (qy - py) == 0.0
    ensures qx == px && qy == py
  {
    var u, v := qx - px, qy - py;
    assert o * u == (y1 - y3) * ((x1 - x2) * u + (y1 - y2) * v) - (y1 - y2) * ((x1 - x3) * u + (y1 - y3) * v);
    assert o * v == (x1 - x2) * ((x1 - x3) * u + (y1 - y3) * v) - (x1 - x3) * ((x1 - x2) * u + (y1 - y2) * v);
  }

  /** Two points on the line of the bisector of a and b differ by a vector orthogonal to a - b. */
  lemma BisectorDifferenceCore(x1: real, y1: real, x2: real, y2: real, px: real, py: real, qx: real, qy: real)
    requires ((x1 * x1 + y1 * y1) - (x2 * x2 + y2 * y2)) - 2.0 * (x1 - x2) * px - 2.0 * (y1 - y2) * py == 0.0
    requires ((x1 * x1 + y1 * y1) - (x2 * x2 + y2 * y2)) - 2.0 * (x1 - x2) * qx - 2.0 * (y1 - y2) * qy == 0.0
    ensures (x1 - x2) * (qx - px) + (y1 - y2) * (qy - py) == 0.0
  {
    assert 2.0 * ((x1 - x2) * (qx - px) + (y1 - y2) * (qy - py))
        == (2.0 * (x1 - x2) * qx + 2.0 * (y1 - y2) * qy) - (2.0 * (x1 - x2) * px + 2.0 * (y1 - y2) * py);
  }

  // ---------------------------------------------------------------------
  // Polynomial identities over points
  // ---------------------------------------------------------------------

  /** Both denominators in terms of the orientation. */
  lemma DenominatorsAreOrientation(a: Vector2D, b: Vector2D, c: Vector2D)
    ensures DenominatorX(a, b, c) == -Orientation(a, b, c)
    ensures DenominatorY(a, b, c) == Orientation(a, b, c)
  {
  }

  /** The fact behind equidistance from a and b. */
  lemma BisectorIdentity(a: Vector2D, b: Vector2D, c: Vector2D)
    ensures Orientation(a, b, c) * ((a.x * a.x + a.y * a.y) - (b.x * b.x + b.y * b.y))
         == -(a.x - b.x) * NumeratorX(a, b, c) + (a.y - b.y) * NumeratorY(a, b, c)
  {
  }

  /** The squared distances of a and b to p differ by a term linear in p. */
  lemma DistanceDifference(a: Vector2D, b: Vector2D, p: Vector2D)
    ensures DistanceSquared(a, p) - DistanceSquared(b, p)
         == ((a.x * a.x + a.y * a.y) - (b.x * b.x + b.y * b.y)) - 2.0 * (a.x - b.x) * p.x - 2.0 * (a.y - b.y) * p.y
  {
  }

  /** The orientation as the determinant of the edge vectors a - b and a - c. */
  lemma OrientationAsDeterminant(a: Vector2D, b: Vector2D, c: Vector2D)
    ensures Orientation(a, b, c) == (a.x - b.x) * (a.y - c.y) - (a.y - b.y) * (a.x - c.x)
  {
  }

  lemma RotatedNumeratorX(a: Vector2D, b: Vector2D, c: Vector2D)
    ensures NumeratorX(b, c, a) == NumeratorX(a, b, c)
  {
  }

  lemma RotatedNumeratorY(a: Vector2D, b: Vector2D, c: Vector2D)
    ensures NumeratorY(b, c, a) == NumeratorY(a, b, c)
  {
  }

  lemma RotatedDenominators(a: Vector2D, b: Vector2D, c: Vector2D)
    ensures DenominatorX(b, c, a) == DenominatorX(a, b, c)
    ensures DenominatorY(b, c, a) == DenominatorY(a, b, c)
  {
  }

  lemma SwappedNumeratorX(a: Vector2D, b: Vector2D, c: Vector2D)
    ensures NumeratorX(b, a, c) == -NumeratorX(a, b, c)
  {
  }

  lemma SwappedNumeratorY(a: Vector2D, b: Vector2D, c: Vector2D)
    ensures NumeratorY(b, a, c) == -NumeratorY(a, b, c)
  {
  }

  lemma SwappedDenominators(a: Vector2D, b: Vector2D, c: Vector2D)
    ensures DenominatorX(b, a, c) == -DenominatorX(a, b, c)
    ensures DenominatorY(b, a, c) == -DenominatorY(a, b, c)
  {
  }

  // ---------------------------------------------------------------------
  // The denominators and the centre
  // ---------------------------------------------------------------------

  /** The two denominators are negatives of each other, and zero exactly for a collinear triple. */
  lemma DenominatorsOpposite(a: Vector2D, b: Vector2D, c: Vector2D)
    ensures DenominatorY(a, b, c) == -DenominatorX(a, b, c)
    ensures DenominatorX(a, b, c) == 0.0 <==> Collinear(a, b, c)
    ensures DenominatorY(a, b, c) == 0.0 <==> Collinear(a, b, c)
  {
    DenominatorsAreOrientation(a, b, c);
  }

  /** What Circumcentre computes, when it computes something. */
  lemma CircumcentreFormula(a: Vector2D, b: Vector2D, c: Vector2D, o: Vector2D)
    requires Circumcentre(a, b, c) == Some(o)
    ensures Orientation(a, b, c) != 0.0
    ensures DenominatorX(a, b, c) != 0.0 && DenominatorY(a, b, c) != 0.0
    ensures o.x == (NumeratorX(a, b, c) / DenominatorX(a, b, c)) / 2.0
    ensures o.y == (NumeratorY(a, b, c) / DenominatorY(a, b, c)) / 2.0
  {
    DenominatorsAreOrientation(a, b, c);
  }

  /** Both coordinates of the centre, multiplied out of their divisions. */
  lemma CircumcentreScaled(a: Vector2D, b: Vector2D, c: Vector2D, o: Vector2D)
    requires DenominatorX(a, b, c) != 0.0 && DenominatorY(a, b, c) != 0.0
    requires o.x == (NumeratorX(a, b, c) / DenominatorX(a, b, c)) / 2.0
    requires o.y == (NumeratorY(a, b, c) / DenominatorY(a, b, c)) / 2.0
    ensures 2.0 * o.x * Orientation(a, b, c) == -NumeratorX(a, b, c)
    ensures 2.0 * o.y * Orientation(a, b, c) == NumeratorY(a, b, c)
  {
    DenominatorsAreOrientation(a, b, c);
    HalfQuotientNegated(NumeratorX(a, b, c), DenominatorX(a, b, c), Orientation(a, b, c), o.x);
    HalfQuotient(NumeratorY(a, b, c), DenominatorY(a, b, c), Orientation(a, b, c), o.y);
  }

  /** A point satisfying the scaled centre equations is as far from a as from b. */
  lemma EquidistantScaled(a: Vector2D, b: Vector2D, c: Vector2D, o: Vector2D)
    requires Orientation(a, b, c) != 0.0
    requires 2.0 * o.x * Orientation(a, b, c) == -NumeratorX(a, b, c)
    requires 2.0 * o.y * Orientation(a, b, c) == NumeratorY(a, b, c)
    ensures DistanceSquared(a, o) == DistanceSquared(b, o)
  {
    BisectorIdentity(a, b, c);
    DistanceDifference(a, b, o);
    BisectorCore(a.x, a.y, b.x, b.y, o.x, o.y, Orientation(a, b, c), NumeratorX(a, b, c), NumeratorY(a, b, c),
      DistanceSquared(a, o), DistanceSquared(b, o));
  }

  /** The centre is as far from the first vertex as from the second. */
  lemma EquidistantFromFirstTwo(a: Vector2D, b: Vector2D, c: Vector2D, o: Vector2D)
    requires Circumcentre(a, b, c) == Some(o)
    ensures DistanceSquared(a, o) == DistanceSquared(b, o)
  {
    CircumcentreFormula(a, b, c, o);
    CircumcentreScaled(a, b, c, o);
    EquidistantScaled(a, b, c, o);
  }

  /** Rotating the vertex order leaves the centre unchanged. */
  lemma CircumcentreRotated(a: Vector2D, b: Vector2D, c: Vector2D)
    ensures Circumcentre(b, c, a) == Circumcentre(a, b, c)
  {
    RotatedNumeratorX(a, b, c);
    RotatedNumeratorY(a, b, c);
    RotatedDenominators(a, b, c);
  }

  /** Swapping the first two vertices leaves the centre unchanged. */
  lemma CircumcentreSwapped(a: Vector2D, b: Vector2D, c: Vector2D)
    ensures Circumcentre(b, a, c) == Circumcentre(a, b, c)
  {
    SwappedNumeratorX(a, b, c);
    SwappedNumeratorY(a, b, c);
    SwappedDenominators(a, b, c);
    NegatedQuotient(NumeratorX(a, b, c), DenominatorX(a, b, c), NumeratorX(b, a, c), DenominatorX(b, a, c));
    NegatedQuotient(NumeratorY(a, b, c), DenominatorY(a, b, c), NumeratorY(b, a, c), DenominatorY(b, a, c));
  }

  /** The centre is as far from each vertex as from the others. */
  lemma CircumcentreEquidistant(a: Vector2D, b: Vector2D, c: Vector2D, o: Vector2D)
    requires Circumcentre(a, b, c) == Some(o)
    ensures DistanceSquared(a, o) == DistanceSquared(b, o)
    ensures DistanceSquared(b, o) == DistanceSquared(c, o)
  {
    EquidistantFromFirstTwo(a, b, c, o);
    CircumcentreRotated(a, b, c);
    EquidistantFromFirstTwo(b, c, a, o);
  }

  /** A point as far from a as from b satisfies the linear equation of their bisector. */
  lemma OnBisector(a: Vector2D, b: Vector2D, p: Vector2D)
    requires DistanceSquared(a, p) == DistanceSquared(b, p)
    ensures ((a.x * a.x + a.y * a.y) - (b.x * b.x + b.y * b.y)) - 2.0 * (a.x - b.x) * p.x - 2.0 * (a.y - b.y) * p.y == 0.0
  {
    DistanceDifference(a, b, p);
  }

  /** Two points each as far from a as from b differ by a vector orthogonal to a - b. */
  lemma BisectorsParallel(a: Vector2D, b: Vector2D, p: Vector2D, q: Vector2D)
    requires DistanceSquared(a, p) == DistanceSquared(b, p)
    requires DistanceSquared(a, q) == DistanceSquared(b, q)
    ensures (a.x - b.x) * (q.x - p.x) + (a.y - b.y) * (q.y - p.y) == 0.0
  {
    OnBisector(a, b, p);
    OnBisector(a, b, q);
    BisectorDifferenceCore(a.x, a.y, b.x, b.y, p.x, p.y, q.x, q.y);
  }

  /** Two points each as far from a as from b and from c differ orthogonally to both a - b and a - c. */
  lemma CommonBisectors(a: Vector2D, b: Vector2D, c: Vector2D, p: Vector2D, q: Vector2D)
    requires DistanceSquared(a, p) == DistanceSquared(b, p) && DistanceSquared(a, p) == DistanceSquared(c, p)
    requires DistanceSquared(a, q) == DistanceSquared(b, q) && DistanceSquared(a, q) == DistanceSquared(c, q)
    ensures (a.x - b.x) * (q.x - p.x) + (a.y - b.y) * (q.y - p.y) == 0.0
    ensures (a.x - c.x) * (q.x - p.x) + (a.y - c.y) * (q.y - p.y) == 0.0
  {
    BisectorsParallel(a, b, p, q);
    BisectorsParallel(a, c, p, q);
  }

  /** When a, b, c are not collinear, a difference orthogonal to both a - b and a - c is zero. */
  lemma OrthogonalDifferenceZero(a: Vector2D, b: Vector2D, c: Vector2D, p: Vector2D, q: Vector2D)
    requires !Collinear(a, b, c)
    requires (a.x - b.x) * (q.x - p.x) + (a.y - b.y) * (q.y - p.y) == 0.0
    requires (a.x - c.x) * (q.x - p.x) + (a.y - c.y) * (q.y - p.y) == 0.0
    ensures p == q
  {
    OrientationAsDeterminant(a, b, c);
    CramerCore(a.x, a.y, b.x, b.y, c.x, c.y, p.x, p.y, q.x, q.y, Orientation(a, b, c));
  }

  /** At most one point is as far from each of three non-collinear points as from the others. */
  lemma EquidistantPointsCoincide(a: Vector2D, b: Vector2D, c: Vector2D, p: Vector2D, q: Vector2D)
    requires !Collinear(a, b, c)
    requires DistanceSquared(a, p) == DistanceSquared(b, p) && DistanceSquared(a, p) == DistanceSquared(c, p)
    requires DistanceSquared(a, q) == DistanceSquared(b, q) && DistanceSquared(a, q) == DistanceSquared(c, q)
    ensures p == q
  {
    CommonBisectors(a, b, c, p, q);
    OrthogonalDifferenceZero(a, b, c, p, q);
  }

  /** Any point as far from each vertex as from the others is the computed centre. */
  lemma CircumcentreUnique(a: Vector2D, b: Vector2D, c: Vector2D, o: Vector2D, q: Vector2D)
    requires Circumcentre(a, b, c) == Some(o)
    requires DistanceSquared(a, q) == DistanceSquared(b, q)
    requires DistanceSquared(a, q) == DistanceSquared(c, q)
    ensures q == o
  {
    CircumcentreEquidistant(a, b, c, o);
    EquidistantPointsCoincide(a, b, c, o, q);
  }

  /** A non-degenerate triangle has a circumcentre. */
  lemma CircumcentreExists(t: Triangle)
    requires !Degenerate(t)
    ensures exists q :: IsCircumcentre(t, q)
  {
    var o := Circumcentre(t.vertex1, t.vertex2, t.vertex3).value;
    CircumcentreEquidistant(t.vertex1, t.vertex2, t.vertex3, o);
    assert IsCircumcentre(t, o);
  }

  /**
   * CircumCircleContains answers whether the point is within or on the circle through the
   * three vertices, whichever vertex gives the radius.
   */
  lemma ContainsMeansWithinCircumcircle(t: Triangle, p: Vector2D, q: Vector2D)
    requires !Degenerate(t) && IsCircumcentre(t, q)
    ensures CircumCircleContains(t, p) == Some(DistanceSquared(p, q) <= DistanceSquared(t.vertex1, q))
    ensures CircumCircleContains(t, p) == Some(DistanceSquared(p, q) <= DistanceSquared(t.vertex2, q))
    ensures CircumCircleContains(t, p) == Some(DistanceSquared(p, q) <= DistanceSquared(t.vertex3, q))
  {
    var o := Circumcentre(t.vertex1, t.vertex2, t.vertex3).value;
    CircumcentreUnique(t.vertex1, t.vertex2, t.vertex3, o, q);
  }

  /** Every vertex of a non-degenerate triangle lies on its circumcircle, so it is contained. */
  lemma VerticesContained(t: Triangle)
    requires !Degenerate(t)
    ensures CircumCircleContains(t, t.vertex1) == Some(true)
    ensures CircumCircleContains(t, t.vertex2) == Some(true)
    ensures CircumCircleContains(t, t.vertex3) == Some(true)
  {
    var o := Circumcentre(t.vertex1, t.vertex2, t.vertex3).value;
    CircumcentreEquidistant(t.vertex1, t.vertex2, t.vertex3, o);
  }

  /** Listing the same vertices in another order gives the same centre. */
  lemma CircumcentrePermuted(t: Triangle, u: Triangle)
    requires SameVertices(t, u)
    ensures Circumcentre(u.vertex1, u.vertex2, u.vertex3) == Circumcentre(t.vertex1, t.vertex2, t.vertex3)
  {
    var a, b, c := t.vertex1, t.vertex2, t.vertex3;
    CircumcentreRotated(a, b, c);
    CircumcentreRotated(b, c, a);
    CircumcentreSwapped(a, b, c);
    CircumcentreSwapped(b, c, a);
    CircumcentreSwapped(c, a, b);
  }

  /** The answer does not depend on the order of the vertices, nor on the isBad flag. */
  lemma ContainsOrderIndependent(t: Triangle, u: Triangle, p: Vector2D)
    requires SameVertices(t, u)
    ensures CircumCircleContains(u, p) == CircumCircleContains(t, p)
  {
    CircumcentrePermuted(t, u);
    match Circumcentre(t.vertex1, t.vertex2, t.vertex3)
    case None =>
    case Some(o) =>
      CircumcentreEquidistant(t.vertex1, t.vertex2, t.vertex3, o);
  }
}
