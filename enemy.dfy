/**
 * An enemy (class Enemy): it either follows its waypoint path or wanders,
 * turning toward a point right of the screen centre every couple of seconds,
 * animates, and lets its firing pattern shoot from where it has just moved.
 * std::rand() results are parameters (`roll`), one per call that draws one.
 */
module Enemies {
  import opened Util
  import opened Geometry
  import opened Health
  import opened Animation
  import opened Waypoints
  import opened Patterns
  import Projectiles

  /** Time each animation frame is shown (80 ms). */
  const FrameDuration: real := 0.08

  /** The value of pi written in the wander code (3.14159f). */
  const WanderPi: real := 3.14159

  /** Size of one frame of the shared ufo.png sprite sheet, or None when it could not be loaded. */
  const EnemyFrame: Option<Vec2>

  /** Seconds between changes of wander direction: 1 + (rand() % 200) / 100. */
  function WanderInterval(roll: nat): (r: real)
    ensures 1.0 <= r <= 2.99
  {
    1.0 + (roll % 200) as real / 100.0
  }

  /** Initial heading, a whole number of degrees below 360: (rand() % 360) * pi / 180. */
  function StartAngle(roll: nat): (r: real)
    ensures 0.0 <= r <= 359.0 * WanderPi / 180.0
  {
    (roll % 360) as real * WanderPi / 180.0
  }

  /** Random deviation from the heading to the centre: (rand() % 90 - 45) degrees. */
  function Variation(roll: nat): (r: real)
    ensures -45.0 * WanderPi / 180.0 <= r <= 44.0 * WanderPi / 180.0
  {
    ((roll % 90) - 45) as real * WanderPi / 180.0
  }

  /** The point wandering enemies head for: 70% across, half-way down. */
  function WanderCentre(screenWidth: int, screenHeight: int): Vec2 {
    Vec2(screenWidth as real * 0.7, screenHeight as real / 2.0)
  }

  /** Movement timer and velocity of a wandering enemy. */
  datatype Wandering = Wandering(timer: real, velocity: Vec2)

  /** The timer half of updateMovement for an enemy without a path. */
  function Wander(w: Wandering, interval: real, position: Vec2, speed: real,
                  screenWidth: int, screenHeight: int, roll: nat, dt: real): (r: Wandering)
    // the timer restarts exactly when it reaches the interval ...
    ensures w.timer + dt >= interval ==> r.timer == 0.0
    // ... and the new heading is the heading to the centre turned by the roll's deviation, at full speed
    ensures w.timer + dt >= interval ==>
              var c := WanderCentre(screenWidth, screenHeight);
              r.velocity == Projectiles.LaunchVelocity(Atan2(c.y - position.y, c.x - position.x) + Variation(roll), speed)
    // otherwise the time is counted and the velocity kept
    ensures w.timer + dt < interval ==> r == Wandering(w.timer + dt, w.velocity)
  {
    var t := w.timer + dt;
    if t >= interval then
      var c := WanderCentre(screenWidth, screenHeight);
      var heading := Atan2(c.y - position.y, c.x - position.x) + Variation(roll);
      Wandering(0.0, Vec2(Cos(heading) * speed, Sin(heading) * speed))
    else Wandering(t, w.velocity)
  }

  /** An enemy as a value: what Enemy::update reads and writes, and its hit points. */
  datatype Foe = Foe(position: Vec2, velocity: Vec2, speed: real, health: int, anim: Counter,
                     movementTimer: real, interval: real, route: Option<PathState>, pattern: Pattern)
  {
    ghost predicate Valid() {
      health >= 0 && anim.Valid() && (route.Some? ==> route.value.Valid())
    }

    /** getBounds, as on the class. */
    function Box(): Rect {
      Geometry.Bounds(position, EnemyFrame)
    }

    /** isDead, as on the class. */
    predicate Dead() {
      health <= 0
    }
  }

  /**
   * updateMovement on a value: an enemy on a path takes the path's step and
   * stands where it leads; any other enemy only turns its wander timer and
   * heading.
   */
  function Moved(e: Foe, deltaTime: real, screenWidth: int, screenHeight: int, roll: nat): (r: Foe)
    requires e.Valid()
    ensures r.Valid()
    ensures r.health == e.health && r.speed == e.speed && r.interval == e.interval
    ensures r.anim == e.anim && r.pattern == e.pattern && r.route.Some? == e.route.Some?
    // an enemy on a path takes the path's step, stands where it leads and keeps its velocity and timer
    ensures e.route.Some? ==> r.route == Some(Step(e.route.value, deltaTime))
    ensures e.route.Some? ==> r.position == r.route.value.position && r.velocity == e.velocity
    ensures e.route.Some? ==> r.movementTimer == e.movementTimer
    // any other enemy stays put here and turns its timer and heading as Wander says
    ensures e.route.None? ==> r.position == e.position && r.route == None
    ensures e.route.None? ==>
              Wandering(r.movementTimer, r.velocity)
              == Wander(Wandering(e.movementTimer, e.velocity), e.interval, e.position, e.speed,
                        screenWidth, screenHeight, roll, deltaTime)
  {
    match e.route
    case Some(path) =>
      var next := Step(path, deltaTime);
      e.(route := Some(next), position := next.position)
    case None =>
      var w := Wander(Wandering(e.movementTimer, e.velocity), e.interval, e.position, e.speed,
                      screenWidth, screenHeight, roll, deltaTime);
      e.(movementTimer := w.timer, velocity := w.velocity)
  }

  /**
   * Enemy::update on a value: the enemy after the tick, and the shots its
   * pattern fires from where the enemy has just moved to.
   */
  function Advance(e: Foe, deltaTime: real, screenWidth: int, screenHeight: int, playerPos: Vec2,
                   roll: nat): (r: (Foe, seq<Projectiles.Spawn>))
    requires e.Valid()
    ensures r.0.Valid()
    // an update neither hurts nor heals, and changes no setting
    ensures r.0.health == e.health && r.0.speed == e.speed && r.0.interval == e.interval
    ensures r.0.route.Some? == e.route.Some? && r.0.pattern.Settings() == e.pattern.Settings()
    // an enemy on a path stands where its path has just moved to
    ensures r.0.route.Some? ==> r.0.position == r.0.route.value.position
    // every shot it fires is an enemy shot leaving from its new position
    ensures forall i :: 0 <= i < |r.1| ==> r.1[i].owner == Projectiles.Enemy && r.1[i].origin == r.0.position
    // it moves as updateMovement says, and an enemy without a path then drifts along its new velocity
    ensures var m := Moved(e, deltaTime, screenWidth, screenHeight, roll);
            r.0.velocity == m.velocity && r.0.movementTimer == m.movementTimer && r.0.route == m.route &&
            r.0.position == (if e.route.None? then m.position.Plus(m.velocity.Times(deltaTime)) else m.position)
    // it animates one tick
    ensures r.0.anim == Tick(e.anim, deltaTime, FrameDuration)
    // and its pattern fires once, from where the enemy has just moved to
    ensures (r.0.pattern, r.1) == Volleyed(e.pattern, deltaTime, r.0.position, playerPos)
  {
    var m := Moved(e, deltaTime, screenWidth, screenHeight, roll);
    var moved := if e.route.None? then m.(position := m.position.Plus(m.velocity.Times(deltaTime))) else m;
    var v := Volleyed(e.pattern, deltaTime, moved.position, playerPos);
    (moved.(anim := Tick(e.anim, deltaTime, FrameDuration), pattern := v.0), v.1)
  }

  class Enemy {
    var position: Vec2
    var velocity: Vec2
    const speed: real
    var health: int
    const maxHealth: int
    var currentFrame: int
    var animationTimer: real
    var movementTimer: real
    const directionChangeInterval: real
    var path: Path?
    var shooter: Shooter
    /** The enemy, its path and its pattern: what an update may change. */
    ghost var Repr: set<object>

    ghost predicate Valid()
      reads this, Repr
    {
      Repr == {this} + (if path == null then {} else {path}) + shooter.Objects() &&
      this !in shooter.Objects() && path !in shooter.Objects() &&
      (path != null ==> path.Valid()) &&
      health >= 0 && Anim().Valid()
    }

    function Anim(): Counter
      reads this
    {
      Counter(currentFrame, animationTimer)
    }

    /** The enemy as a value. */
    ghost function Value(): Foe
      reads this, path, shooter.Objects()
    {
      Foe(position, velocity, speed, health, Anim(), movementTimer, directionChangeInterval,
          if path == null then None else Some(path.State()), shooter.Value())
    }

    ghost function Wanderer(): Wandering
      reads this
    {
      Wandering(movementTimer, velocity)
    }

    /**
     * Enemy(x, y, speed): one hit point, no path, no pattern, a random wander
     * interval and a random initial heading at full speed.
     */
    constructor (x: real, y: real, speed: real, intervalRoll: nat, angleRoll: nat)
      ensures Valid() && fresh(Repr)
      ensures position == Vec2(x, y) && this.speed == speed
      ensures health == 1 && maxHealth == 1
      ensures Anim() == Counter(0, 0.0) && movementTimer == 0.0
      ensures directionChangeInterval == WanderInterval(intervalRoll)
      ensures velocity == Projectiles.LaunchVelocity(StartAngle(angleRoll), speed)
      ensures path == null && shooter == NoShooter
    {
      position := Vec2(x, y);
      this.speed := speed;
      health := 1;
      maxHealth := 1;
      movementTimer := 0.0;
      directionChangeInterval := 1.0 + (intervalRoll % 200) as real / 100.0;
      currentFrame := 0;
      animationTimer := 0.0;
      path := null;
      shooter := NoShooter;
      Repr := {this};
      var angle := (angleRoll % 360) as real * WanderPi / 180.0;
      velocity := Vec2(Cos(angle) * speed, Sin(angle) * speed);
    }

    method UpdateAnimation(deltaTime: real)
      requires Anim().Valid()
      modifies this`currentFrame, this`animationTimer
      ensures Anim() == Tick(old(Anim()), deltaTime, FrameDuration)
    {
      animationTimer := animationTimer + deltaTime;
      if animationTimer >= FrameDuration {
        animationTimer := 0.0;
        currentFrame := (currentFrame + 1) % TotalFrames;
      }
    }

    /**
     * updateMovement: a path, when attached, moves one tick and dictates the
     * position; otherwise only the wander timer and heading change.
     */
    method UpdateMovement(deltaTime: real, screenWidth: int, screenHeight: int, roll: nat)
      requires Valid()
      modifies this`position, this`velocity, this`movementTimer, path
      ensures Valid()
      ensures Value() == Moved(old(Value()), deltaTime, screenWidth, screenHeight, roll)
      ensures path != null ==>
                path.State() == Step(old(path.State()), deltaTime) && position == path.position &&
                velocity == old(velocity) && movementTimer == old(movementTimer)
      ensures path == null ==>
                Wanderer() == Wander(old(Wanderer()), directionChangeInterval, position, speed,
                                     screenWidth, screenHeight, roll, deltaTime) &&
                position == old(position)
    {
      if path != null {
        path.Update(deltaTime);
        position := path.position;
      } else {
        Roam(deltaTime, screenWidth, screenHeight, roll);
      }
    }

    /** The wander branch of updateMovement: count the time and, once per interval, turn towards the centre. */
    method Roam(deltaTime: real, screenWidth: int, screenHeight: int, roll: nat)
      modifies this`velocity, this`movementTimer
      ensures Wanderer() == Wander(old(Wanderer()), directionChangeInterval, position, speed,
                                   screenWidth, screenHeight, roll, deltaTime)
    {
      movementTimer := movementTimer + deltaTime;
      if movementTimer >= directionChangeInterval {
        movementTimer := 0.0;
        var centerX := screenWidth as real * 0.7;
        var centerY := screenHeight as real / 2.0;
        var targetAngle := Atan2(centerY - position.y, centerX - position.x);
        var variation := ((roll % 90) - 45) as real * WanderPi / 180.0;
        targetAngle := targetAngle + variation;
        velocity := Vec2(Cos(targetAngle) * speed, Sin(targetAngle) * speed);
      }
    }

    /**
     * Enemy::update: move (by the path, or by the wander velocity), animate,
     * then let the pattern fire from the new position. Health is untouched.
     */
    method Update(deltaTime: real, screenWidth: int, screenHeight: int, playerPos: Vec2,
                  projectiles: seq<Projectiles.Projectile>, roll: nat)
      returns (out: seq<Projectiles.Projectile>)
      requires Valid()
      modifies Repr
      ensures Valid() && Repr == old(Repr)
      ensures path == old(path) && shooter == old(shooter)
      ensures forall k :: |projectiles| <= k < |out| ==> fresh(out[k])
      ensures Value() == Advance(old(Value()), deltaTime, screenWidth, screenHeight, playerPos, roll).0
      ensures Appended(projectiles, out, Advance(old(Value()), deltaTime, screenWidth, screenHeight, playerPos, roll).1)
    {
      ghost var e0 := Value();
      var followingPath := path != null;
      UpdateMovement(deltaTime, screenWidth, screenHeight, roll);
      ghost var m := Value();
      if !followingPath {
        position := position.Plus(velocity.Times(deltaTime));
      }
      UpdateAnimation(deltaTime);
      assert Value() == (if e0.route.None? then m.(position := m.position.Plus(m.velocity.Times(deltaTime))) else m)
                          .(anim := Tick(e0.anim, deltaTime, FrameDuration));
      out := Fire(shooter, deltaTime, position, playerPos, projectiles);
    }

    /**
     * setPath: attach `p` (or detach with null); an attached path is restarted
     * from the enemy's current position and the wander velocity is zeroed.
     */
    method SetPath(p: Path?)
      requires Valid() && (p != null ==> p.Valid())
      modifies this, p
      ensures Valid() && path == p
      ensures Repr == {this} + (if p == null then {} else {p}) + shooter.Objects()
      ensures p != null ==> p.State() == Restart(old(p.State()), position) && velocity == Zero
      ensures p == null ==> velocity == old(velocity)
      ensures position == old(position) && health == old(health) && shooter == old(shooter)
    {
      path := p;
      if path != null {
        path.SetStart(position);
        velocity := Zero;
      }
      Repr := {this} + (if p == null then {} else {p}) + shooter.Objects();
    }

    method SetShootingPattern(s: Shooter)
      requires Valid()
      modifies this
      ensures Valid() && shooter == s
      ensures Repr == {this} + (if path == null then {} else {path}) + s.Objects()
      ensures position == old(position) && velocity == old(velocity) && health == old(health)
      ensures path == old(path)
    {
      shooter := s;
      Repr := {this} + (if path == null then {} else {path}) + s.Objects();
    }

    /** hasPath: a path is attached and still running. */
    predicate HasPath()
      reads this, path
    {
      path != null && !path.finished
    }

    method TakeDamage(damage: int)
      modifies this`health
      ensures health == Damage(old(health), damage)
    {
      health := if health - damage > 0 then health - damage else 0;
    }

    predicate IsDead()
      reads this
    {
      health <= 0
    }

    /** getBounds: the sprite's frame centred on the enemy, or a zero-size box without a sprite. */
    function Bounds(): Rect
      reads this
    {
      Geometry.Bounds(position, EnemyFrame)
    }
  }
}
