/**
 * Plane vectors and axis-aligned rectangles (SFML's Vector2f and FloatRect),
 * with float arithmetic taken as exact real arithmetic, and the C library's
 * trigonometry and square root as uninterpreted functions.
 */
module Geometry {
  import opened Util

  datatype Vec2 = Vec2(x: real, y: real) {
    function Plus(v: Vec2): Vec2 { Vec2(x + v.x, y + v.y) }
    function Minus(v: Vec2): Vec2 { Vec2(x - v.x, y - v.y) }
    function Times(k: real): Vec2 { Vec2(x * k, y * k) }
    function LengthSq(): real { x * x + y * y }
  }

  const Zero := Vec2(0.0, 0.0)

  /** An sf::FloatRect: top-left corner and size. */
  datatype Rect = Rect(left: real, top: real, width: real, height: real)

  /** Strictly positive reals. */
  type Positive = r: real | 0.0 < r witness 1.0

  /** Vectors other than the zero vector. */
  type NonZero = v: Vec2 | v != Vec2(0.0, 0.0) witness Vec2(1.0, 0.0)

  /**
   * The C library's std::cos, std::sin, std::atan2 and std::sqrt, about which
   * nothing is assumed beyond their types: for std::sqrt the type says only
   * that it maps positive numbers to positive numbers, and for a vector's
   * length std::sqrt(x * x + y * y) only that a vector other than zero has a
   * positive length.
   */
  const LibCos: real -> real
  const LibSin: real -> real
  const LibAtan2: (real, real) -> real
  const LibSqrt: Positive -> Positive
  const LibLength: NonZero -> Positive

  function Cos(a: real): real { LibCos(a) }
  function Sin(a: real): real { LibSin(a) }
  function Atan2(y: real, x: real): real { LibAtan2(y, x) }
  function Sqrt(x: Positive): Positive { LibSqrt(x) }
  function Length(v: NonZero): Positive { LibLength(v) }

  /** Sqrt behaves as the square root at `x`. */
  ghost predicate SqrtExactAt(x: Positive) {
    Sqrt(x) * Sqrt(x) == x
  }

  /** Length behaves as the Euclidean length at `v`. */
  ghost predicate LengthExactAt(v: NonZero) {
    Length(v) * Length(v) == v.LengthSq()
  }

  /**
   * Global bounds of a sprite whose origin is the centre of its frame and
   * whose position tracks the entity's, or the zero-size rectangle at the
   * entity's position when there is no sprite (texture failed to load).
   */
  function Bounds(position: Vec2, frame: Option<Vec2>): Rect {
    match frame
    case Some(size) => Rect(position.x - size.x / 2.0, position.y - size.y / 2.0, size.x, size.y)
    case None => Rect(position.x, position.y, 0.0, 0.0)
  }

  /**
   * The rectangle test of Projectile::checkCollision, repeated inline for
   * enemy-ship contact: both axes' intervals intersect, with strict comparisons.
   */
  predicate Overlaps(a: Rect, b: Rect) {
    a.left < b.left + b.width && b.left < a.left + a.width &&
    a.top < b.top + b.height && b.top < a.top + a.height
  }

  lemma OverlapsSymmetric(a: Rect, b: Rect)
    ensures Overlaps(a, b) <==> Overlaps(b, a)
  {
  }

  /** Rectangles that only share an edge do not overlap. */
  lemma SharedEdgeIsNoOverlap(a: Rect, b: Rect)
    requires a.left + a.width == b.left || b.left + b.width == a.left
          || a.top + a.height == b.top || b.top + b.height == a.top
    ensures !Overlaps(a, b)
  {
  }

  /** Two sprite-less entities never collide, wherever they are. */
  lemma PointsNeverOverlap(p: Vec2, q: Vec2)
    ensures !Overlaps(Bounds(p, None), Bounds(q, None))
  {
  }
}
