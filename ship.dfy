/**
 * The player's ship (class Ship): key flags set by input events, a velocity
 * rebuilt from them every frame (diagonals rescaled to the ship's speed), a
 * fire cooldown, and hit points that stop at zero.
 */
module Ships {
  import opened Util
  import opened Geometry
  import opened Health
  import Isometric

  /** Keys the ship reacts to; every other key is `Other`. */
  datatype Key = W | Up | S | Down | A | Left | D | Right | Space | Other

  /** Flight mode; the ship only ever reports Air. */
  datatype Mode = Air | Ground

  /** The five input flags. */
  datatype InputState = InputState(up: bool, down: bool, left: bool, right: bool, shoot: bool)

  /** handleInput: the flag the key is bound to takes the pressed state; nothing else changes. */
  function Press(c: InputState, key: Key, isPressed: bool): (r: InputState)
    ensures key == W || key == Up ==> r == c.(up := isPressed)
    ensures key == S || key == Down ==> r == c.(down := isPressed)
    ensures key == A || key == Left ==> r == c.(left := isPressed)
    ensures key == D || key == Right ==> r == c.(right := isPressed)
    ensures key == Space ==> r == c.(shoot := isPressed)
    ensures key == Other ==> r == c
  {
    match key
    case W | Up => c.(up := isPressed)
    case S | Down => c.(down := isPressed)
    case A | Left => c.(left := isPressed)
    case D | Right => c.(right := isPressed)
    case Space => c.(shoot := isPressed)
    case Other => c
  }

  /** Only the last event for a key matters: a press followed by a release is just the release. */
  lemma LastEventWins(c: InputState, key: Key, first: bool, second: bool)
    ensures Press(Press(c, key, first), key, second) == Press(c, key, second)
  {
  }

  /** Direction of one axis: -1, 0 or +1 for the negative and positive keys held. */
  function Axis(negative: bool, positive: bool): real {
    (if positive then 1.0 else 0.0) - (if negative then 1.0 else 0.0)
  }

  /** Some movement on both axes. */
  predicate Diagonal(c: InputState) {
    c.left != c.right && c.up != c.down
  }

  /** updateMovement: the velocity rebuilt from the flags alone. */
  function MoveVelocity(c: InputState, speed: real): (v: Vec2)
    // opposite keys cancel
    ensures c.left == c.right ==> v.x == 0.0
    ensures c.up == c.down ==> v.y == 0.0
    // straight movement is exactly the ship's speed along the axis (up is negative y)
    ensures !Diagonal(c) ==> v == Raw(c, speed)
  {
    var vy := if c.up then 0.0 - speed else 0.0;
    var vy := if c.down then vy + speed else vy;
    var vx := if c.left then 0.0 - speed else 0.0;
    var vx := if c.right then vx + speed else vx;
    if vx != 0.0 && vy != 0.0 then
      var length := Length(Vec2(vx, vy));
      Vec2((vx / length) * speed, (vy / length) * speed)
    else Vec2(vx, vy)
  }

  /** The velocity the keys ask for before diagonals are rescaled. */
  function Raw(c: InputState, speed: real): Vec2 {
    Vec2(Axis(c.left, c.right) * speed, Axis(c.up, c.down) * speed)
  }

  /** A diagonal is the requested direction rescaled by speed / length. */
  lemma {:induction false} DiagonalDirection(c: InputState, speed: real)
    requires Diagonal(c) && speed != 0.0
    ensures Raw(c, speed) != Zero
    ensures MoveVelocity(c, speed) == Raw(c, speed).Times(speed / Length(Raw(c, speed)))
  {
    var raw := Raw(c, speed);
    var len := Length(raw);
    DivideThenScale(raw.x, len, speed);
    DivideThenScale(raw.y, len, speed);
  }

  lemma DivideThenScale(a: real, len: real, s: real)
    requires len != 0.0
    ensures (a / len) * s == a * (s / len)
  {
    assert (a / len) * len == a;
    assert (s / len) * len == s;
  }

  /** With c == (v / len) * s, clearing the denominator. */
  lemma ClearDenominator(c: real, len: real, v: real, s: real)
    requires len != 0.0 && c == (v / len) * s
    ensures c * len == v * s
  {
    assert (v / len) * len == v;
  }

  /** A vector (vx, vy) with (vx, vy) * len == (rx, ry) * s, where len is the length of (rx, ry), has length s. */
  lemma NormalisedSquare(rx: real, ry: real, len: real, s: real, vx: real, vy: real)
    requires len > 0.0 && len * len == rx * rx + ry * ry
    requires vx * len == rx * s && vy * len == ry * s
    ensures vx * vx + vy * vy == s * s
  {
    assert vx * vx * len * len == rx * rx * s * s;
    assert vy * vy * len * len == ry * ry * s * s;
    assert (rx * rx + ry * ry) * s * s == len * len * s * s;
    assert (vx * vx + vy * vy - s * s) * len * len == 0.0;
    assert (vx * vx + vy * vy - s * s) * len == 0.0;
  }

  /**
   * A diagonal is normalised: its length is the ship's speed (stated on
   * squares, given that Length is exact at the requested vector).
   */
  lemma {:induction false} DiagonalKeepsSpeed(c: InputState, speed: real)
    requires Diagonal(c) && speed != 0.0
    requires Raw(c, speed) != Zero && LengthExactAt(Raw(c, speed))
    ensures MoveVelocity(c, speed).LengthSq() == speed * speed
  {
    var raw := Raw(c, speed);
    var len := Length(raw);
    var v := MoveVelocity(c, speed);
    assert v == Vec2((raw.x / len) * speed, (raw.y / len) * speed);
    ClearDenominator(v.x, len, raw.x, speed);
    ClearDenominator(v.y, len, raw.y, speed);
    NormalisedSquare(raw.x, raw.y, len, speed, v.x, v.y);
  }

  /** Scaling by a positive factor keeps the sign. */
  lemma PositiveScaleKeepsSign(a: real, k: real)
    requires k > 0.0
    ensures a * k < 0.0 <==> a < 0.0
    ensures a * k > 0.0 <==> a > 0.0
  {
    if a < 0.0 {
      assert (-a) * k > 0.0;
    } else if a > 0.0 {
      assert a * k > 0.0;
    }
  }

  /** For a positive speed each component points the way its keys say, diagonals included. */
  lemma {:induction false} VelocityFollowsKeys(c: InputState, speed: real)
    requires speed > 0.0
    ensures MoveVelocity(c, speed).x < 0.0 <==> c.left && !c.right
    ensures MoveVelocity(c, speed).x > 0.0 <==> c.right && !c.left
    ensures MoveVelocity(c, speed).y < 0.0 <==> c.up && !c.down
    ensures MoveVelocity(c, speed).y > 0.0 <==> c.down && !c.up
  {
    if Diagonal(c) {
      DiagonalDirection(c, speed);
      var raw := Raw(c, speed);
      var k := speed / Length(raw);
      assert k > 0.0;
      PositiveScaleKeepsSign(raw.x, k);
      PositiveScaleKeepsSign(raw.y, k);
    }
  }

  /** shouldShoot: whether the ship fires now, and the cooldown timer afterwards. */
  function ShotDecision(shootPressed: bool, timeSinceLastShot: real, fireRate: real): (r: (bool, real))
    ensures r.0 <==> shootPressed && timeSinceLastShot >= fireRate
    ensures r.0 ==> r.1 == 0.0
    ensures !r.0 ==> r.1 == timeSinceLastShot
  {
    if shootPressed && timeSinceLastShot >= fireRate then (true, 0.0) else (false, timeSinceLastShot)
  }

  /**
   * Shots fired over a run of frames with the fire key held or not: each frame
   * asks shouldShoot, then update adds the frame time to the cooldown.
   */
  function ShotsFired(shootPressed: bool, timeSinceLastShot: real, fireRate: real, dts: seq<real>): nat
    decreases |dts|
  {
    if dts == [] then 0
    else
      var d := ShotDecision(shootPressed, timeSinceLastShot, fireRate);
      (if d.0 then 1 else 0) + ShotsFired(shootPressed, d.1 + dts[0], fireRate, dts[1..])
  }

  /** The cooldown time that `shots` shots use up. */
  function CooldownUsed(shots: nat, fireRate: real): real {
    shots as real * fireRate
  }

  lemma OneMoreShot(shots: nat, fireRate: real)
    ensures CooldownUsed(shots + 1, fireRate) == CooldownUsed(shots, fireRate) + fireRate
  {
    assert (shots as real + 1.0) * fireRate == shots as real * fireRate + fireRate;
  }

  /**
   * The cooldown limits the rate of fire: over any run of frames, the shots
   * fired times fireRate never exceed the cooldown already built up plus the
   * time elapsed.
   */
  lemma {:induction false} FireRateLimit(shootPressed: bool, timeSinceLastShot: real, fireRate: real, dts: seq<real>)
    requires timeSinceLastShot >= 0.0
    requires forall i :: 0 <= i < |dts| ==> dts[i] >= 0.0
    ensures CooldownUsed(ShotsFired(shootPressed, timeSinceLastShot, fireRate, dts), fireRate)
            <= timeSinceLastShot + Sum(dts)
    decreases |dts|
  {
    if dts != [] {
      var d := ShotDecision(shootPressed, timeSinceLastShot, fireRate);
      var rest := dts[1..];
      assert forall i :: 0 <= i < |rest| ==> rest[i] == dts[i + 1];
      FireRateLimit(shootPressed, d.1 + dts[0], fireRate, rest);
      var n := ShotsFired(shootPressed, d.1 + dts[0], fireRate, rest);
      assert Sum(dts) == dts[0] + Sum(rest);
      if d.0 {
        assert ShotsFired(shootPressed, timeSinceLastShot, fireRate, dts) == n + 1;
        OneMoreShot(n, fireRate);
      } else {
        assert ShotsFired(shootPressed, timeSinceLastShot, fireRate, dts) == n;
      }
    }
  }

  class Ship {
    var position: Vec2
    var velocity: Vec2
    var speed: real
    var moveUp: bool
    var moveDown: bool
    var moveLeft: bool
    var moveRight: bool
    var shootPressed: bool
    const fireRate: real
    var timeSinceLastShot: real
    var health: int
    /** Size of the loaded player_sky.png, or None when it could not be loaded. */
    const sprite: Option<Vec2>

    function Input(): InputState
      reads this
    {
      InputState(moveUp, moveDown, moveLeft, moveRight, shootPressed)
    }

    /** Ship(x, y, speed): at rest, no key held, ready to fire after 0.15 s, 20 hit points. */
    constructor (x: real, y: real, speed: real, sprite: Option<Vec2>)
      ensures position == Vec2(x, y) && velocity == Zero && this.speed == speed
      ensures Input() == InputState(false, false, false, false, false)
      ensures fireRate == 0.15 && timeSinceLastShot == 0.0 && health == 20
      ensures this.sprite == sprite
    {
      position := Vec2(x, y);
      velocity := Zero;
      this.speed := speed;
      moveUp, moveDown, moveLeft, moveRight := false, false, false, false;
      shootPressed := false;
      fireRate := 0.15;
      timeSinceLastShot := 0.0;
      health := 20;
      this.sprite := sprite;
    }

    method HandleInput(key: Key, isPressed: bool)
      modifies this`moveUp, this`moveDown, this`moveLeft, this`moveRight, this`shootPressed
      ensures Input() == Press(old(Input()), key, isPressed)
    {
      match key
      case W | Up => moveUp := isPressed;
      case S | Down => moveDown := isPressed;
      case A | Left => moveLeft := isPressed;
      case D | Right => moveRight := isPressed;
      case Space => shootPressed := isPressed;
      case Other =>
    }

    method UpdateInput()
      modifies this`velocity
      ensures velocity == MoveVelocity(Input(), speed)
    {
      UpdateMovement();
    }

    method UpdateMovement()
      modifies this`velocity
      ensures velocity == MoveVelocity(Input(), speed)
    {
      var vx, vy := 0.0, 0.0;
      if moveUp {
        vy := vy - speed;
      }
      if moveDown {
        vy := vy + speed;
      }
      if moveLeft {
        vx := vx - speed;
      }
      if moveRight {
        vx := vx + speed;
      }
      if vx != 0.0 && vy != 0.0 {
        var length := Length(Vec2(vx, vy));
        vx, vy := (vx / length) * speed, (vy / length) * speed;
      }
      velocity := Vec2(vx, vy);
    }

    /** update: one Euler step, and the cooldown counts the frame time. */
    method Update(deltaTime: real)
      modifies this`position, this`timeSinceLastShot
      ensures position == old(position).Plus(velocity.Times(deltaTime))
      ensures timeSinceLastShot == old(timeSinceLastShot) + deltaTime
    {
      position := position.Plus(velocity.Times(deltaTime));
      UpdateShooting(deltaTime);
    }

    method ShouldShoot() returns (fire: bool)
      modifies this`timeSinceLastShot
      ensures (fire, timeSinceLastShot) == ShotDecision(shootPressed, old(timeSinceLastShot), fireRate)
    {
      if shootPressed && timeSinceLastShot >= fireRate {
        timeSinceLastShot := 0.0;
        return true;
      }
      return false;
    }

    method UpdateShooting(deltaTime: real)
      modifies this`timeSinceLastShot
      ensures timeSinceLastShot == old(timeSinceLastShot) + deltaTime
    {
      timeSinceLastShot := timeSinceLastShot + deltaTime;
    }

    method SetPosition(x: real, y: real)
      modifies this`position
      ensures position == Vec2(x, y)
    {
      position := Vec2(x, y);
    }

    method TakeDamage(amount: int)
      modifies this`health
      ensures health == Damage(old(health), amount)
    {
      health := if health - amount > 0 then health - amount else 0;
    }

    function GetMode(): Mode {
      Air
    }

    /** getBounds: the sprite centred on the ship, or a zero-size box without a sprite. */
    function Bounds(): Rect
      reads this`position
    {
      Geometry.Bounds(position, sprite)
    }

    /**
     * getForwardAngle: the screen direction of one tile "up" in the world,
     * -atan2(TILE_HEIGHT, TILE_WIDTH).
     */
    function ForwardAngle(): real {
      -Atan2(Isometric.TileHeight, Isometric.TileWidth)
    }
  }
}
