/**
 * A shot in flight (class Projectile): it moves in a straight line at the
 * velocity fixed when it was fired, cycles its six-frame animation, and
 * answers the rectangle-overlap and off-screen questions the game asks.
 */
module Projectiles {
  import opened Util
  import opened Geometry
  import opened Animation

  /** Who fired the shot: player shots hurt enemies, enemy shots hurt the player. */
  datatype Owner = Player | Enemy

  /** Time each animation frame is shown (50 ms). */
  const FrameDuration: real := 0.05

  /** How far past the window edge a shot may travel before it is dropped. */
  const OffScreenMargin: real := 50.0

  /**
   * Size of one frame of the shared shot.png sprite sheet, or None when the
   * texture could not be loaded and shots have no sprite.
   */
  const ShotFrame: Option<Vec2>

  /** Everything the 8-argument constructor is given. */
  datatype Spawn = Spawn(
    origin: Vec2,
    angle: real,
    speed: real,
    owner: Owner,
    lifetime: Option<real>,
    isBeam: bool,
    isPreview: bool)

  /** The velocity of a shot fired at `angle` (radians) with the given speed. */
  function LaunchVelocity(angle: real, speed: real): Vec2 {
    Vec2(Cos(angle) * speed, Sin(angle) * speed)
  }

  /** isOffScreen: beyond the margin on some side of the window. */
  predicate OffScreen(p: Vec2, screenWidth: int, screenHeight: int) {
    p.x < -OffScreenMargin || p.x > screenWidth as real + OffScreenMargin ||
    p.y < -OffScreenMargin || p.y > screenHeight as real + OffScreenMargin
  }

  /** A shot is kept exactly while it lies in the window grown by the margin, edges included. */
  lemma KeptExactlyInsideMargin(p: Vec2, screenWidth: int, screenHeight: int)
    ensures !OffScreen(p, screenWidth, screenHeight) <==>
              -OffScreenMargin <= p.x <= screenWidth as real + OffScreenMargin &&
              -OffScreenMargin <= p.y <= screenHeight as real + OffScreenMargin
  {
  }

  /** What a shot's frame update reads and writes: where it is, how fast it goes, what it shows. */
  datatype Flight = Flight(position: Vec2, velocity: Vec2, anim: Counter)

  /** The state one update call leaves a shot in: one Euler step, then the animation. */
  function Step(f: Flight, deltaTime: real): (r: Flight)
    requires f.anim.Valid()
    ensures r.anim.Valid() && r.velocity == f.velocity
  {
    Flight(f.position.Plus(f.velocity.Times(deltaTime)), f.velocity, Tick(f.anim, deltaTime, FrameDuration))
  }

  /** Where a shot ends up after a sequence of update calls: one Step per frame time. */
  function Drift(f: Flight, dts: seq<real>): (r: Flight)
    requires f.anim.Valid()
    ensures r.anim.Valid()
    decreases |dts|
  {
    if dts == [] then f else Drift(Step(f, dts[0]), dts[1..])
  }

  /**
   * Stepwise integration at constant velocity is exact: after any sequence
   * of update calls the shot keeps its velocity and is where one step of the
   * total elapsed time would have put it.
   */
  lemma {:induction false} DriftIsStraightLine(f: Flight, dts: seq<real>)
    requires f.anim.Valid()
    ensures Drift(f, dts).velocity == f.velocity
    ensures Drift(f, dts).position == f.position.Plus(f.velocity.Times(Sum(dts)))
    decreases |dts|
  {
    if dts != [] {
      var next := Step(f, dts[0]);
      DriftIsStraightLine(next, dts[1..]);
      MoveTwice(f.position, f.velocity, dts[0], Sum(dts[1..]));
    }
  }

  /** Two moves at the same velocity make one move for the total time. */
  lemma MoveTwice(p: Vec2, v: Vec2, d: real, t: real)
    ensures p.Plus(v.Times(d)).Plus(v.Times(t)) == p.Plus(v.Times(d + t))
  {
  }

  /** The state the constructor gives a shot: at the origin, heading along the angle, first frame. */
  function Launched(s: Spawn): (r: Flight)
    ensures r.anim.Valid()
  {
    Flight(s.origin, LaunchVelocity(s.angle, s.speed), Counter(0, 0.0))
  }

  class Projectile {
    var position: Vec2
    const velocity: Vec2
    const speed: real
    const owner: Owner
    const lifetime: Option<real>
    const isBeam: bool
    const isPreview: bool
    var currentFrame: int
    var animationTimer: real

    ghost predicate Valid()
      reads this
    {
      Anim().Valid()
    }

    function Anim(): Counter
      reads this
    {
      Counter(currentFrame, animationTimer)
    }

    function State(): Flight
      reads this
    {
      Flight(position, velocity, Anim())
    }

    /** The state the constructor leaves for the given arguments. */
    ghost predicate Born(s: Spawn)
      reads this
    {
      position == s.origin && velocity == LaunchVelocity(s.angle, s.speed) &&
      speed == s.speed && owner == s.owner && lifetime == s.lifetime &&
      isBeam == s.isBeam && isPreview == s.isPreview &&
      Anim() == Counter(0, 0.0)
    }

    constructor (x: real, y: real, angle: real, speed: real, owner: Owner,
                 lifetime: Option<real>, isBeam: bool, isPreview: bool)
      ensures Valid()
      ensures Born(Spawn(Vec2(x, y), angle, speed, owner, lifetime, isBeam, isPreview))
      ensures State() == Launched(Spawn(Vec2(x, y), angle, speed, owner, lifetime, isBeam, isPreview))
    {
      position := Vec2(x, y);
      this.speed := speed;
      this.owner := owner;
      this.lifetime := lifetime;
      this.isBeam := isBeam;
      this.isPreview := isPreview;
      currentFrame := 0;
      animationTimer := 0.0;
      velocity := Vec2(Cos(angle) * speed, Sin(angle) * speed);
    }

    method UpdateAnimation(deltaTime: real)
      requires Valid()
      modifies this`currentFrame, this`animationTimer
      ensures Valid()
      ensures Anim() == Tick(old(Anim()), deltaTime, FrameDuration)
    {
      animationTimer := animationTimer + deltaTime;
      if animationTimer >= FrameDuration {
        animationTimer := 0.0;
        currentFrame := (currentFrame + 1) % TotalFrames;
      }
    }

    /** One Euler step at the fixed velocity, then the animation. */
    method Update(deltaTime: real)
      requires Valid()
      modifies this`position, this`currentFrame, this`animationTimer
      ensures Valid()
      ensures position == old(position).Plus(velocity.Times(deltaTime))
      ensures Anim() == Tick(old(Anim()), deltaTime, FrameDuration)
      ensures State() == Step(old(State()), deltaTime)
    {
      position := position.Plus(velocity.Times(deltaTime));
      UpdateAnimation(deltaTime);
    }

    /** getBounds: the sprite's frame centred on the shot, or a zero-size box without a sprite. */
    function Bounds(): Rect
      reads this
    {
      Geometry.Bounds(position, ShotFrame)
    }

    predicate CheckCollision(other: Rect)
      reads this
    {
      Overlaps(Bounds(), other)
    }

    predicate IsOffScreen(screenWidth: int, screenHeight: int)
      reads this
    {
      OffScreen(position, screenWidth, screenHeight)
    }
  }
}
