/** Integer geometry and number conversions shared by the Inferno generators.

    Positions are block coordinates (JOML `Vector3i`), columns are `Vector2i`
    whose second coordinate is the world z. Boxes are inclusive like the
    engine's `BlockRegion`, areas are inclusive like `BlockArea`, and a
    `Border` is the engine's `Border3D(top, bottom, sides)`. Heights are real
    numbers; the casts the generators apply to them (`Math.floor`,
    `Math.ceil`, `(int)`, `Math.round`, `TeraMath.clamp`) are written out. */
module Geometry {

  /** A block position. */
  datatype Vec3 = Vec3(x: int, y: int, z: int) {
    function Add(o: Vec3): Vec3 { Vec3(x + o.x, y + o.y, z + o.z) }
    function Sub(o: Vec3): Vec3 { Vec3(x - o.x, y - o.y, z - o.z) }
    function Scale(k: int): Vec3 { Vec3(k * x, k * y, k * z) }
  }

  /** A column position; `y` is the world z coordinate. */
  datatype Vec2 = Vec2(x: int, y: int)

  /** The column a block position stands in. */
  function Column(p: Vec3): Vec2 { Vec2(p.x, p.z) }

  /** An inclusive box of block positions; empty when some max is below its min. */
  datatype Box = Box(min: Vec3, max: Vec3) {
    predicate Contains(p: Vec3) {
      min.x <= p.x <= max.x && min.y <= p.y <= max.y && min.z <= p.z <= max.z
    }

    /** `BlockRegion.expand(dx, dy, dz)`: grow every side of the box. */
    function Expand(dx: int, dy: int, dz: int): Box {
      Box(Vec3(min.x - dx, min.y - dy, min.z - dz), Vec3(max.x + dx, max.y + dy, max.z + dz))
    }
  }

  /** `new BlockRegion(p)`: the box holding the single position `p`. */
  function Point(p: Vec3): (b: Box)
    ensures forall q :: b.Contains(q) <==> q == p
  {
    Box(p, p)
  }

  /** `new BlockRegion(min).setSize(sx, sy, sz)`. */
  function Sized(min: Vec3, sx: int, sy: int, sz: int): (b: Box)
    ensures forall q :: b.Contains(q) <==>
      (min.x <= q.x < min.x + sx && min.y <= q.y < min.y + sy && min.z <= q.z < min.z + sz)
  {
    Box(min, Vec3(min.x + sx - 1, min.y + sy - 1, min.z + sz - 1))
  }

  /** An inclusive rectangle of columns. */
  datatype Area = Area(min: Vec2, max: Vec2) {
    predicate Contains(c: Vec2) {
      min.x <= c.x <= max.x && min.y <= c.y <= max.y
    }
  }

  /** The columns a box stands on (a 2D facet's world area). */
  function Flat(b: Box): (a: Area)
    ensures forall p :: b.Contains(p) ==> a.Contains(Column(p))
  {
    Area(Vec2(b.min.x, b.min.z), Vec2(b.max.x, b.max.z))
  }

  /** A facet border: extra blocks above, below and on the four horizontal sides. */
  datatype Border = Border(top: nat, bottom: nat, sides: nat) {
    /** `Border3D.extendBy(top, bottom, sides)`. */
    function ExtendBy(t: nat, b: nat, s: nat): Border {
      Border(top + t, bottom + b, sides + s)
    }
  }

  /** A facet's world region: its target region grown by its border. */
  function WorldRegion(target: Box, border: Border): (w: Box)
    ensures forall p :: target.Contains(p) ==> w.Contains(p)
    ensures w.min == Vec3(target.min.x - border.sides, target.min.y - border.bottom, target.min.z - border.sides)
    ensures w.max == Vec3(target.max.x + border.sides, target.max.y + border.top, target.max.z + border.sides)
  {
    Box(Vec3(target.min.x - border.sides, target.min.y - border.bottom, target.min.z - border.sides),
        Vec3(target.max.x + border.sides, target.max.y + border.top, target.max.z + border.sides))
  }

  /** The set of positions of a box. */
  function Cells(b: Box): (s: set<Vec3>)
    ensures forall p :: p in s <==> b.Contains(p)
  {
    set x, y, z | b.min.x <= x <= b.max.x && b.min.y <= y <= b.max.y && b.min.z <= z <= b.max.z
      :: Vec3(x, y, z)
  }

  /** The set of columns of an area. */
  function Columns(a: Area): (s: set<Vec2>)
    ensures forall c :: c in s <==> a.Contains(c)
  {
    set x, y | a.min.x <= x <= a.max.x && a.min.y <= y <= a.max.y :: Vec2(x, y)
  }

  /** Squared Euclidean distance between two positions. */
  function SqDist(a: Vec3, b: Vec3): (d: int)
    ensures d >= 0
    ensures d == 0 <==> a == b
  {
    SqNonNeg(a.x - b.x);
    SqNonNeg(a.y - b.y);
    SqNonNeg(a.z - b.z);
    (a.x - b.x) * (a.x - b.x) + (a.y - b.y) * (a.y - b.y) + (a.z - b.z) * (a.z - b.z)
  }

  lemma SqNonNeg(d: int)
    ensures d * d >= 0
    ensures d * d == 0 <==> d == 0
  {
    if d < 0 {
      assert d * d == (-d) * (-d);
    }
  }

  // ---------------------------------------------------------------------------
  // Number conversions

  function Min(a: real, b: real): real { if a <= b then a else b }
  function Max(a: real, b: real): real { if a >= b then a else b }

  /** `Math.abs` on a float. */
  function Abs(r: real): (a: real)
    ensures a >= 0.0 && (a == r || a == -r)
  {
    if r < 0.0 then -r else r
  }

  /** `Math.floor`, as an integer. */
  function Floor(r: real): (n: int)
    ensures n as real <= r < n as real + 1.0
  {
    r.Floor
  }

  /** `Math.ceil`, as an integer. */
  function Ceil(r: real): (n: int)
    ensures n as real - 1.0 < r <= n as real
  {
    -((-r).Floor)
  }

  /** Java's `(int)` cast of a float: truncation toward zero. */
  function Trunc(r: real): (n: int)
    ensures r >= 0.0 ==> n as real <= r < n as real + 1.0
    ensures r < 0.0 ==> n as real - 1.0 < r <= n as real
  {
    if r >= 0.0 then Floor(r) else Ceil(r)
  }

  /** `Math.round(float)`: the nearest integer, halves rounded up. */
  function Round(r: real): (n: int)
    ensures r - 0.5 < n as real <= r + 0.5
  {
    Floor(r + 0.5)
  }

  /** `TeraMath.clamp(value, min, max)`. */
  function Clamp(v: real, lo: real, hi: real): (r: real)
    ensures lo <= hi ==> lo <= r <= hi
    ensures lo <= v <= hi ==> r == v
    ensures v < lo ==> r == lo
  {
    if v < lo then lo else if v > hi then hi else v
  }

  // ---------------------------------------------------------------------------
  // Noise functions are supplied by the engine: a value per column or position.

  type Noise2 = (int, int) -> real
  type Noise3 = (int, int, int) -> real

  /** A noise function's value at a column. */
  function At2(n: Noise2, c: Vec2): real { n(c.x, c.y) }

  /** A noise function's value at a position. */
  function At3(n: Noise3, p: Vec3): real { n(p.x, p.y, p.z) }

  // ---------------------------------------------------------------------------
  // Euclidean remainder, used for the engine's chunk-relative masking.

  lemma MulNonNeg(a: int, b: int)
    requires a >= 0 && b >= 0
    ensures a * b >= 0
  {
  }

  lemma MulBound(m: int, n: int)
    requires n > 0
    ensures m >= 1 ==> m * n >= n
    ensures m <= -1 ==> m * n <= -n
  {
    if m >= 1 {
      assert m * n == (m - 1) * n + n;
      MulNonNeg(m - 1, n);
    } else if m <= -1 {
      assert m * n == (m + 1) * n - n;
      MulNonNeg(-(m + 1), n);
      assert (-(m + 1)) * n == -((m + 1) * n);
    }
  }

  /** Adding an offset below `n` to a multiple of `n` leaves that offset as remainder. */
  lemma ModOffset(o: int, k: int, n: int)
    requires n > 0 && o % n == 0 && 0 <= k < n
    ensures (o + k) % n == k
  {
    var q := o / n;
    var d := (o + k) / n;
    var r := (o + k) % n;
    assert o == q * n;
    assert o + k == d * n + r;
    assert (d - q) * n == k - r;
    MulBound(d - q, n);
  }

  /** Moving one element from the work list to the done set keeps the split and shrinks the work list. */
  lemma TakeOne<T>(all: set<T>, done: set<T>, todo: set<T>, x: T)
    requires done + todo == all && done !! todo && x in todo
    ensures (done + {x}) + (todo - {x}) == all && (done + {x}) !! (todo - {x})
    ensures |todo - {x}| < |todo|
  {
    assert |todo - {x}| == |todo| - 1;
  }
}
