/**
 Object to world coordinates by the Arbitrary Axis Algorithm of the Autodesk DXF
 Reference, over the real numbers. The square root of the axis length is passed in,
 as the non-negative number whose square it is.
 */
module ArbitraryAxis {

  datatype Vec = Vec(x: real, y: real, z: real)

  const THRESHOLD := 1.0 / 64.0

  function Cross(a: Vec, b: Vec): Vec {
    Vec(a.y * b.z - a.z * b.y, a.z * b.x - a.x * b.z, a.x * b.y - a.y * b.x)
  }

  function Dot(a: Vec, b: Vec): real {
    a.x * b.x + a.y * b.y + a.z * b.z
  }

  function Scale(k: real, a: Vec): Vec {
    Vec(k * a.x, k * a.y, k * a.z)
  }

  function Add(a: Vec, b: Vec): Vec {
    Vec(a.x + b.x, a.y + b.y, a.z + b.z)
  }

  function Sub(a: Vec, b: Vec): Vec {
    Vec(a.x - b.x, a.y - b.y, a.z - b.z)
  }

  function Abs(r: real): real {
    if r < 0.0 then -r else r
  }

  /** The x axis before it is scaled to length one. */
  function RawAxis(n: Vec): Vec {
    if Abs(n.x) < THRESHOLD && Abs(n.y) < THRESHOLD then Cross(Vec(0.0, 1.0, 0.0), n)
    else Cross(Vec(0.0, 0.0, 1.0), n)
  }

  function Product(a: real, b: real): real {
    a * b
  }

  function Sq(r: real): real {
    Product(r, r)
  }

  predicate IsRoot(root: real, square: real) {
    root >= 0.0 && Sq(root) == square
  }

  function XAxis(n: Vec, length: real): Vec
    requires length != 0.0
  {
    var ax := RawAxis(n);
    Vec(ax.x / length, ax.y / length, ax.z / length)
  }

  function Place(p: Vec, ax: Vec, ay: Vec, az: Vec): Vec {
    Vec(p.x * ax.x + p.y * ay.x + p.z * az.x,
        p.x * ax.y + p.y * ay.y + p.z * az.y,
        p.x * ax.z + p.y * ay.z + p.z * az.z)
  }

  function ToWorld(p: Vec, n: Vec, length: real): Vec
    requires length != 0.0
  {
    var ax := XAxis(n, length);
    var ay := Cross(n, ax);
    Place(p, ax, ay, n)
  }

  ghost predicate IsUnit(n: Vec) {
    Dot(n, n) == 1.0
  }

  // Where the division is by zero.

  lemma ProductIsPositive(a: real, b: real)
    requires (a > 0.0 && b > 0.0) || (a < 0.0 && b < 0.0)
    ensures Product(a, b) > 0.0
  {
    assert Product(-a, -b) == Product(a, b);
  }

  lemma SquareOfZero(r: real)
    requires r == 0.0
    ensures Sq(r) == 0.0
  {
  }

  lemma SquareSign(r: real)
    ensures Sq(r) >= 0.0
    ensures Sq(r) == 0.0 <==> r == 0.0
  {
    if r != 0.0 {
      ProductIsPositive(r, r);
    } else {
      SquareOfZero(r);
    }
  }

  lemma SumOfSquaresIsZero(a: real, b: real, root: real)
    requires IsRoot(root, Sq(a) + Sq(b))
    ensures root == 0.0 <==> a == 0.0 && b == 0.0
  {
    SquareSign(a);
    SquareSign(b);
    SquareSign(root);
  }

  lemma RawAxisSquared(n: Vec)
    ensures Dot(RawAxis(n), RawAxis(n))
         == if Abs(n.x) < THRESHOLD && Abs(n.y) < THRESHOLD then Sq(n.z) + Sq(n.x) else Sq(n.y) + Sq(n.x)
  {
    if Abs(n.x) < THRESHOLD && Abs(n.y) < THRESHOLD {
      assert RawAxis(n) == Vec(n.z, 0.0, -n.x);
    } else {
      assert RawAxis(n) == Vec(-n.y, n.x, 0.0);
    }
  }

  /** For any normal at all, the transform divides by zero exactly on the short vertical ones. */
  lemma DividesByZeroIff(n: Vec, length: real)
    requires IsRoot(length, Dot(RawAxis(n), RawAxis(n)))
    ensures length == 0.0 <==> n.x == 0.0 && n.z == 0.0 && Abs(n.y) < THRESHOLD
  {
    RawAxisSquared(n);
    if Abs(n.x) < THRESHOLD && Abs(n.y) < THRESHOLD {
      SumOfSquaresIsZero(n.z, n.x, length);
    } else {
      SumOfSquaresIsZero(n.y, n.x, length);
    }
  }

  lemma Shrinks(s: real)
    requires 0.0 <= s < 1.0
    ensures Sq(s) <= s
  {
    if s > 0.0 {
      ProductIsPositive(s, 1.0 - s);
    }
    assert Product(s, 1.0 - s) == s - Sq(s);
  }

  lemma SmallSquare(r: real)
    requires Abs(r) < 1.0
    ensures Sq(r) < 1.0
  {
    if r >= 0.0 {
      Shrinks(r);
    } else {
      Shrinks(-r);
      assert Sq(-r) == Sq(r);
    }
  }

  /** So never on a unit normal, in either branch. */
  lemma UnitNormalNeverDividesByZero(n: Vec, length: real)
    requires IsUnit(n) && IsRoot(length, Dot(RawAxis(n), RawAxis(n)))
    ensures length > 0.0
  {
    DividesByZeroIff(n, length);
    if length == 0.0 {
      VerticalIsLong(n);
      assert false;
    }
  }

  lemma VerticalIsLong(n: Vec)
    requires IsUnit(n) && n.x == 0.0 && n.z == 0.0
    ensures Abs(n.y) >= THRESHOLD
  {
    SquareOfZero(n.x);
    SquareOfZero(n.z);
    assert Dot(n, n) == Sq(n.x) + Sq(n.y) + Sq(n.z);
    if Abs(n.y) < THRESHOLD {
      SmallSquare(n.y);
    }
  }

  // Algebra of vectors.

  lemma CrossIsOrthogonal(a: Vec, b: Vec)
    ensures Dot(Cross(a, b), a) == 0.0 && Dot(Cross(a, b), b) == 0.0
  {
  }

  lemma Lagrange(a: Vec, b: Vec)
    ensures Dot(Cross(a, b), Cross(a, b)) == Dot(a, a) * Dot(b, b) - Dot(a, b) * Dot(a, b)
  {
  }

  lemma DotScale(k: real, a: Vec, b: Vec)
    ensures Dot(Scale(k, a), b) == k * Dot(a, b) && Dot(b, Scale(k, a)) == k * Dot(a, b)
  {
  }

  lemma DotAdd(a: Vec, b: Vec, c: Vec)
    ensures Dot(Add(a, b), c) == Dot(a, c) + Dot(b, c) && Dot(c, Add(a, b)) == Dot(a, c) + Dot(b, c)
  {
  }

  lemma DotCommutes(a: Vec, b: Vec)
    ensures Dot(a, b) == Dot(b, a)
  {
  }

  /** Three axes of length one at right angles. */
  ghost predicate Orthonormal(ax: Vec, ay: Vec, az: Vec) {
    && Dot(ax, ax) == 1.0 && Dot(ay, ay) == 1.0 && Dot(az, az) == 1.0
    && Dot(ax, ay) == 0.0 && Dot(ay, az) == 0.0 && Dot(ax, az) == 0.0
  }

  function Combine(p: Vec, ax: Vec, ay: Vec, az: Vec): Vec {
    Add(Add(Scale(p.x, ax), Scale(p.y, ay)), Scale(p.z, az))
  }

  lemma DotCombine(p: Vec, ax: Vec, ay: Vec, az: Vec, v: Vec)
    ensures Dot(Combine(p, ax, ay, az), v) == p.x * Dot(ax, v) + p.y * Dot(ay, v) + p.z * Dot(az, v)
  {
    DotAdd(Add(Scale(p.x, ax), Scale(p.y, ay)), Scale(p.z, az), v);
    DotAdd(Scale(p.x, ax), Scale(p.y, ay), v);
    DotScale(p.x, ax, v);
    DotScale(p.y, ay, v);
    DotScale(p.z, az, v);
  }

  /** In an orthonormal frame the coordinates are the products with the axes, and lengths are kept. */
  lemma FrameCoordinates(p: Vec, ax: Vec, ay: Vec, az: Vec)
    requires Orthonormal(ax, ay, az)
    ensures var w := Combine(p, ax, ay, az);
            && Dot(w, ax) == p.x && Dot(w, ay) == p.y && Dot(w, az) == p.z
            && Dot(w, w) == Dot(p, p)
  {
    var w := Combine(p, ax, ay, az);
    DotCombine(p, ax, ay, az, ax);
    DotCombine(p, ax, ay, az, ay);
    DotCombine(p, ax, ay, az, az);
    DotCommutes(ax, ay);
    DotCommutes(ay, az);
    DotCommutes(ax, az);
    assert Dot(w, ax) == p.x && Dot(w, ay) == p.y && Dot(w, az) == p.z;
    DotCombine(p, ax, ay, az, w);
    DotCommutes(w, ax);
    DotCommutes(w, ay);
    DotCommutes(w, az);
  }

  // The frame.

  lemma ScaledAxis(ax: Vec, length: real)
    requires length > 0.0 && Sq(length) == Dot(ax, ax)
    ensures var unit := Vec(ax.x / length, ax.y / length, ax.z / length); Dot(unit, unit) == 1.0
  {
    var k := 1.0 / length;
    assert Vec(ax.x / length, ax.y / length, ax.z / length) == Scale(k, ax);
    DotScale(k, ax, Scale(k, ax));
    DotScale(k, ax, ax);
    assert Dot(Scale(k, ax), Scale(k, ax)) == k * (k * Dot(ax, ax));
    Unscale(k, length);
  }

  lemma Unscale(k: real, length: real)
    requires length > 0.0 && k == 1.0 / length
    ensures k * (k * Sq(length)) == 1.0
  {
    assert k * length == 1.0;
    assert k * (k * (length * length)) == (k * length) * (k * length);
  }

  lemma AxesAreOrthonormal(n: Vec, length: real)
    requires IsUnit(n) && IsRoot(length, Dot(RawAxis(n), RawAxis(n)))
    ensures length > 0.0
    ensures Orthonormal(XAxis(n, length), Cross(n, XAxis(n, length)), n)
  {
    UnitNormalNeverDividesByZero(n, length);
    var raw, ax := RawAxis(n), XAxis(n, length);
    ScaledAxis(raw, length);
    assert ax == Scale(1.0 / length, raw);
    DotScale(1.0 / length, raw, n);
    CrossIsOrthogonal(Vec(0.0, 1.0, 0.0), n);
    CrossIsOrthogonal(Vec(0.0, 0.0, 1.0), n);
    assert Dot(raw, n) == 0.0;
    assert Dot(ax, n) == 0.0;
    var ay := Cross(n, ax);
    CrossIsOrthogonal(n, ax);
    Lagrange(n, ax);
    DotCommutes(n, ax);
    DotCommutes(ax, ay);
  }

  lemma Difference(k: real, m: real, a: real)
    ensures k * a - m * a == (k - m) * a
  {
  }

  lemma CombineIsLinear(p: Vec, q: Vec, ax: Vec, ay: Vec, az: Vec)
    ensures Sub(Combine(p, ax, ay, az), Combine(q, ax, ay, az)) == Combine(Sub(p, q), ax, ay, az)
  {
    ScaleIsLinear(p.x, q.x, ax);
    ScaleIsLinear(p.y, q.y, ay);
    ScaleIsLinear(p.z, q.z, az);
  }

  lemma ScaleIsLinear(k: real, m: real, a: Vec)
    ensures Sub(Scale(k, a), Scale(m, a)) == Scale(k - m, a)
  {
    Difference(k, m, a.x);
    Difference(k, m, a.y);
    Difference(k, m, a.z);
  }

  lemma PlaceCombines(p: Vec, ax: Vec, ay: Vec, az: Vec)
    ensures Place(p, ax, ay, az) == Combine(p, ax, ay, az)
  {
  }

  /** On a unit normal the transform keeps every distance and sends the local z axis to the normal. */
  lemma ToWorldIsIsometry(p: Vec, q: Vec, n: Vec, length: real)
    requires IsUnit(n) && IsRoot(length, Dot(RawAxis(n), RawAxis(n)))
    ensures length > 0.0
    ensures var d := Sub(ToWorld(p, n, length), ToWorld(q, n, length)); Dot(d, d) == Dot(Sub(p, q), Sub(p, q))
    ensures ToWorld(Vec(0.0, 0.0, 1.0), n, length) == n
  {
    AxesAreOrthonormal(n, length);
    var ax := XAxis(n, length);
    PlaceCombines(p, ax, Cross(n, ax), n);
    PlaceCombines(q, ax, Cross(n, ax), n);
    CombineIsLinear(p, q, ax, Cross(n, ax), n);
    FrameCoordinates(Sub(p, q), ax, Cross(n, ax), n);
    PlaceAxis(ax, Cross(n, ax), n);
  }

  lemma TripleProduct(a: Vec, n: Vec)
    ensures Cross(a, Cross(n, a)) == Sub(Scale(Dot(a, a), n), Scale(Dot(a, n), a))
  {
    var d, e := Dot(a, a), Dot(a, n);
    TripleComponent(a.x, a.y, a.z, n.x, n.y, n.z, d, e);
    TripleComponent(a.y, a.z, a.x, n.y, n.z, n.x, d, e);
    TripleComponent(a.z, a.x, a.y, n.z, n.x, n.y, d, e);
  }

  lemma TripleComponent(a: real, b: real, c: real, n: real, m: real, o: real, d: real, e: real)
    requires d == a * a + b * b + c * c && e == a * n + b * m + c * o
    ensures b * (n * b - m * a) - c * (o * a - n * c) == d * n - e * a
  {
    assert b * (n * b - m * a) == b * b * n - b * m * a;
    assert c * (o * a - n * c) == c * o * a - c * c * n;
    assert (a * a + b * b + c * c) * n == a * a * n + b * b * n + c * c * n;
    assert (a * n + b * m + c * o) * a == a * n * a + b * m * a + c * o * a;
  }

  /** The world axis that the local x axis is taken across: y for a nearly vertical normal, else z. */
  function Reference(n: Vec): Vec {
    if -1.0 / 64.0 < n.x < 1.0 / 64.0 && -1.0 / 64.0 < n.y < 1.0 / 64.0 then Vec(0.0, 1.0, 0.0)
    else Vec(0.0, 0.0, 1.0)
  }

  /** Which frame it is: right-handed, with its x axis along the cross product of the reference axis
      with the normal. */
  lemma FrameIsTheDeclaredOne(n: Vec, length: real)
    requires IsUnit(n) && IsRoot(length, Dot(RawAxis(n), RawAxis(n)))
    ensures length > 0.0
    ensures var i := ToWorld(Vec(1.0, 0.0, 0.0), n, length);
            var j := ToWorld(Vec(0.0, 1.0, 0.0), n, length);
            Scale(length, i) == Cross(Reference(n), n) && Cross(i, j) == n
  {
    AxesAreOrthonormal(n, length);
    var ax := XAxis(n, length);
    FirstAxes(ax, Cross(n, ax), n);
    TripleProduct(ax, n);
    Unit(n, ax);
    Rescale(RawAxis(n), length);
  }

  lemma FirstAxes(ax: Vec, ay: Vec, az: Vec)
    ensures Place(Vec(1.0, 0.0, 0.0), ax, ay, az) == ax && Place(Vec(0.0, 1.0, 0.0), ax, ay, az) == ay
  {
  }

  lemma Unit(n: Vec, a: Vec)
    ensures Sub(Scale(1.0, n), Scale(0.0, a)) == n
  {
  }

  lemma Rescale(a: Vec, length: real)
    requires length > 0.0
    ensures Scale(length, Vec(a.x / length, a.y / length, a.z / length)) == a
  {
  }

  lemma PlaceAxis(ax: Vec, ay: Vec, az: Vec)
    ensures Place(Vec(0.0, 0.0, 1.0), ax, ay, az) == az
  {
  }

  /** Back from world coordinates: the products with the three axes. */
  function ToObject(w: Vec, n: Vec, length: real): Vec
    requires length != 0.0
  {
    var ax := XAxis(n, length);
    Vec(Dot(w, ax), Dot(w, Cross(n, ax)), Dot(w, n))
  }

  /** Round trip: no two points are sent to one, and the point is recovered from its image. */
  lemma RoundTrip(p: Vec, n: Vec, length: real)
    requires IsUnit(n) && IsRoot(length, Dot(RawAxis(n), RawAxis(n)))
    ensures length > 0.0 && ToObject(ToWorld(p, n, length), n, length) == p
  {
    AxesAreOrthonormal(n, length);
    PlaceCombines(p, XAxis(n, length), Cross(n, XAxis(n, length)), n);
    FrameCoordinates(p, XAxis(n, length), Cross(n, XAxis(n, length)), n);
  }
}
