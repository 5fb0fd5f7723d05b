/**
 * Enemy firing patterns. Each pattern is a timer-driven object that, once a
 * tick, decides whether to fire and appends the shots it fires to the
 * game's projectile list; it never touches what is already there.
 *
 * Each pattern's decision is first stated as a pure function of its timer
 * (and phase), the positions and the frame time; the classes are proved to
 * follow those functions.
 */
module Patterns {
  import opened Util
  import opened Geometry
  import opened Projectiles

  /** The value of pi written in the radial pattern (3.14159265f). */
  const Pi: real := 3.14159265

  /** A pattern's new timer and the shots it fires in one tick, in firing order. */
  datatype Volley = Volley(timer: real, spawns: seq<Spawn>)

  /** Direction from the enemy to the player, as atan2(dy, dx). */
  function AimAngle(enemyPos: Vec2, playerPos: Vec2): real {
    Atan2(playerPos.y - enemyPos.y, playerPos.x - enemyPos.x)
  }

  /** A plain enemy shot: no lifetime given, neither beam nor preview. */
  function EnemyShot(origin: Vec2, angle: real, speed: real): Spawn {
    Spawn(origin, angle, speed, Enemy, None, false, false)
  }

  // ---------------------------------------------------------------------
  // Direct shot at the player

  /** The player is close enough to be shot at (or the pattern ignores range). */
  predicate InRange(activeRadius: real, always: bool, enemyPos: Vec2, playerPos: Vec2) {
    always || playerPos.Minus(enemyPos).LengthSq() <= activeRadius * activeRadius
  }

  /** One tick of DirectAtPlayerPattern. */
  function DirectShot(fireRate: real, projSpeed: real, activeRadius: real, always: bool,
                      timer: real, enemyPos: Vec2, playerPos: Vec2, dt: real): (r: Volley)
    ensures |r.spawns| <= 1
    // it fires exactly when the player is in range and the timer has run out
    ensures |r.spawns| == 1 <==> InRange(activeRadius, always, enemyPos, playerPos) && timer + dt >= fireRate
    // firing restarts the timer and sends one plain enemy shot from the enemy straight at the player
    ensures |r.spawns| == 1 ==>
              r.timer == 0.0 && r.spawns[0] == EnemyShot(enemyPos, AimAngle(enemyPos, playerPos), projSpeed)
    // otherwise, in range or not, the time is still counted
    ensures |r.spawns| == 0 ==> r.timer == timer + dt
  {
    var t := timer + dt;
    if !InRange(activeRadius, always, enemyPos, playerPos) then Volley(t, [])
    else if t >= fireRate then Volley(0.0, [EnemyShot(enemyPos, AimAngle(enemyPos, playerPos), projSpeed)])
    else Volley(t, [])
  }

  /** Ticks of a direct pattern with both ends standing still; the shots of all ticks in order. */
  function DirectRun(fireRate: real, projSpeed: real, activeRadius: real, always: bool,
                     timer: real, enemyPos: Vec2, playerPos: Vec2, dts: seq<real>): Volley
    decreases |dts|
  {
    if dts == [] then Volley(timer, [])
    else
      var v := DirectShot(fireRate, projSpeed, activeRadius, always, timer, enemyPos, playerPos, dts[0]);
      var rest := DirectRun(fireRate, projSpeed, activeRadius, always, v.timer, enemyPos, playerPos, dts[1..]);
      Volley(rest.timer, v.spawns + rest.spawns)
  }

  /**
   * While the player stays out of range nothing is fired, but the timer keeps
   * all the elapsed time, so the first tick in range can fire at once.
   */
  lemma {:induction false} OutOfRangeKeepsCounting(fireRate: real, projSpeed: real, activeRadius: real,
                                                   timer: real, enemyPos: Vec2, playerPos: Vec2, dts: seq<real>)
    requires !InRange(activeRadius, false, enemyPos, playerPos)
    ensures DirectRun(fireRate, projSpeed, activeRadius, false, timer, enemyPos, playerPos, dts)
         == Volley(timer + Sum(dts), [])
    decreases |dts|
  {
    if dts != [] {
      OutOfRangeKeepsCounting(fireRate, projSpeed, activeRadius, timer + dts[0], enemyPos, playerPos, dts[1..]);
    }
  }

  // ---------------------------------------------------------------------
  // Radial burst

  /** Direction of the i-th of `count` shots: the full turn split evenly. */
  function RadialAngle(i: int, count: int): real
    requires count > 0
  {
    (2.0 * Pi * i as real) / count as real
  }

  /** The shots of one burst, in the order the loop fires them. */
  function Burst(count: int, projSpeed: real, origin: Vec2): (r: seq<Spawn>)
    ensures |r| == if count > 0 then count else 0
    ensures forall i :: 0 <= i < |r| ==> r[i] == EnemyShot(origin, RadialAngle(i, count), projSpeed)
  {
    if count <= 0 then [] else seq(count, i requires 0 <= i < count => EnemyShot(origin, RadialAngle(i, count), projSpeed))
  }

  /**
   * The burst covers the full turn evenly: angles start at 0, strictly
   * increase by 2*pi/count, and stay below 2*pi.
   */
  lemma {:induction false} BurstEvenlySpaced(count: int, projSpeed: real, origin: Vec2)
    requires count > 0
    ensures Burst(count, projSpeed, origin)[0].angle == 0.0
    ensures forall i :: 0 <= i < count ==> 0.0 <= Burst(count, projSpeed, origin)[i].angle < 2.0 * Pi
    ensures forall i :: 0 <= i < count - 1 ==>
              Burst(count, projSpeed, origin)[i + 1].angle - Burst(count, projSpeed, origin)[i].angle
              == 2.0 * Pi / count as real
  {
    var b := Burst(count, projSpeed, origin);
    var c := count as real;
    forall i | 0 <= i < count
      ensures 0.0 <= b[i].angle < 2.0 * Pi
    {
      var a := 2.0 * Pi * i as real;
      assert 0.0 <= a < 2.0 * Pi * c;
      DivisionBounds(a, c, 2.0 * Pi);
    }
    forall i | 0 <= i < count - 1
      ensures b[i + 1].angle - b[i].angle == 2.0 * Pi / c
    {
      assert 2.0 * Pi * (i + 1) as real == 2.0 * Pi * i as real + 2.0 * Pi;
    }
  }

  /** Helper: dividing a value in [0, k*c) by a positive c lands in [0, k). */
  lemma DivisionBounds(a: real, c: real, k: real)
    requires c > 0.0 && 0.0 <= a < k * c
    ensures 0.0 <= a / c < k
  {
    assert a / c * c == a;
  }

  /** One tick of RadialPattern. */
  function RadialShot(count: int, interval: real, projSpeed: real,
                      timer: real, enemyPos: Vec2, dt: real): (r: Volley)
    // when the interval is up: timer restarts and a whole burst (none for count <= 0) is fired
    ensures timer + dt >= interval ==> r.timer == 0.0 && r.spawns == Burst(count, projSpeed, enemyPos)
    // otherwise nothing is fired and the time is counted
    ensures timer + dt < interval ==> r.timer == timer + dt && r.spawns == []
  {
    var t := timer + dt;
    if t >= interval then Volley(0.0, Burst(count, projSpeed, enemyPos)) else Volley(t, [])
  }

  // ---------------------------------------------------------------------
  // Lingering beam

  /** The beam pattern's phase. */
  datatype BeamState = Idle | Warning | Firing {
    /** The phase that follows this one. */
    function Next(): BeamState {
      match this
      case Idle => Warning
      case Warning => Firing
      case Firing => Idle
    }
  }

  /** How long the pattern stays in a phase. */
  function PhaseLength(state: BeamState, interval: real, warning: real, beamDur: real): real {
    match state
    case Idle => interval
    case Warning => warning
    case Firing => beamDur
  }

  /** The beam pattern's new phase and timer and the shots it fires in one tick. */
  datatype BeamTick = BeamTick(state: BeamState, timer: real, spawns: seq<Spawn>)

  /** One tick of LingeringBeamPattern. */
  function BeamShot(interval: real, warning: real, beamDur: real, projSpeed: real,
                    state: BeamState, timer: real, enemyPos: Vec2, playerPos: Vec2, dt: real): (r: BeamTick)
    ensures |r.spawns| <= 1
    // at most one phase change, always to the next phase of the cycle
    ensures r.state == state || r.state == state.Next()
    // it changes exactly when the phase's time is up, and the timer restarts exactly then
    ensures r.state != state <==> timer + dt >= PhaseLength(state, interval, warning, beamDur)
    ensures r.state != state ==> r.timer == 0.0
    ensures r.state == state ==> r.timer == timer + dt
    // a shot comes with entering Warning or Firing, never with going back to Idle
    ensures |r.spawns| == 1 <==> r.state != state && r.state != Idle
    // entering Warning fires the preview, aimed at the player now, living for the warning time
    ensures state == Idle && r.state == Warning ==>
              r.spawns[0] == Spawn(enemyPos, AimAngle(enemyPos, playerPos), projSpeed, Enemy, Some(warning), true, true)
    // entering Firing fires the beam, aimed afresh at where the player is now
    ensures state == Warning && r.state == Firing ==>
              r.spawns[0] == Spawn(enemyPos, AimAngle(enemyPos, playerPos), projSpeed, Enemy, Some(beamDur), true, false)
  {
    var t := timer + dt;
    match state
    case Idle =>
      if t >= interval then
        BeamTick(Warning, 0.0, [Spawn(enemyPos, AimAngle(enemyPos, playerPos), projSpeed, Enemy, Some(warning), true, true)])
      else BeamTick(Idle, t, [])
    case Warning =>
      if t >= warning then
        BeamTick(Firing, 0.0, [Spawn(enemyPos, AimAngle(enemyPos, playerPos), projSpeed, Enemy, Some(beamDur), true, false)])
      else BeamTick(Warning, t, [])
    case Firing =>
      if t >= beamDur then BeamTick(Idle, 0.0, []) else BeamTick(Firing, t, [])
  }

  /** Ticks of a beam pattern with both ends standing still; the shots of all ticks in order. */
  function BeamRun(interval: real, warning: real, beamDur: real, projSpeed: real,
                   state: BeamState, timer: real, enemyPos: Vec2, playerPos: Vec2, dts: seq<real>): BeamTick
    decreases |dts|
  {
    if dts == [] then BeamTick(state, timer, [])
    else
      var b := BeamShot(interval, warning, beamDur, projSpeed, state, timer, enemyPos, playerPos, dts[0]);
      var rest := BeamRun(interval, warning, beamDur, projSpeed, b.state, b.timer, enemyPos, playerPos, dts[1..]);
      BeamTick(rest.state, rest.timer, b.spawns + rest.spawns)
  }

  /**
   * Every shot is a beam; previews sit at the even positions and full beams at
   * the odd ones when `previewFirst`, the other way round otherwise.
   */
  ghost predicate Alternating(spawns: seq<Spawn>, previewFirst: bool) {
    forall i :: 0 <= i < |spawns| ==> spawns[i].isBeam && (spawns[i].isPreview <==> (i % 2 == 0) == previewFirst)
  }

  /**
   * Over any run of ticks the shots alternate preview, beam, preview, beam...
   * starting with a preview when the run starts outside Warning: every beam is
   * announced by a preview and there is never a second preview in between.
   */
  lemma {:induction false} PreviewsAndBeamsAlternate(interval: real, warning: real, beamDur: real, projSpeed: real,
                                                     state: BeamState, timer: real, enemyPos: Vec2, playerPos: Vec2,
                                                     dts: seq<real>)
    ensures Alternating(BeamRun(interval, warning, beamDur, projSpeed, state, timer, enemyPos, playerPos, dts).spawns,
                        state != Warning)
    decreases |dts|
  {
    if dts != [] {
      var b := BeamShot(interval, warning, beamDur, projSpeed, state, timer, enemyPos, playerPos, dts[0]);
      PreviewsAndBeamsAlternate(interval, warning, beamDur, projSpeed, b.state, b.timer, enemyPos, playerPos, dts[1..]);
      var rest := BeamRun(interval, warning, beamDur, projSpeed, b.state, b.timer, enemyPos, playerPos, dts[1..]).spawns;
      var s := b.spawns + rest;
      forall i | 0 <= i < |s|
        ensures s[i].isBeam && (s[i].isPreview <==> (i % 2 == 0) == (state != Warning))
      {
        var j := i - |b.spawns|;
        if |b.spawns| == 0 {
          assert s[i] == rest[i];
          assert (b.state != Warning) == (state != Warning);
        } else if i == 0 {
          assert s[0] == b.spawns[0];
          assert (state == Idle && b.state == Warning) || (state == Warning && b.state == Firing);
        } else {
          assert s[i] == rest[j] && j == i - 1;
          assert (state == Idle && b.state == Warning) || (state == Warning && b.state == Firing);
          assert (i % 2 == 0) <==> (j % 2 != 0);
        }
      }
    }
  }

  // ---------------------------------------------------------------------
  // The pattern objects

  /**
   * `after` is `before` with one new, freshly constructed shot per spawn
   * appended in order, each a distinct object: the shared list only ever
   * grows at its end.
   */
  ghost predicate Appended(before: seq<Projectile>, after: seq<Projectile>, spawns: seq<Spawn>)
    reads after
  {
    |after| == |before| + |spawns| && after[..|before|] == before &&
    (forall j :: |before| <= j < |after| ==> after[j].Valid() && after[j].Born(spawns[j - |before|])) &&
    forall i, j :: |before| <= i < j < |after| ==> after[i] != after[j]
  }

  /** Appending one more freshly constructed shot extends the appended spawns by its own. */
  lemma AppendedSnoc(before: seq<Projectile>, after: seq<Projectile>, spawns: seq<Spawn>, p: Projectile, s: Spawn)
    requires Appended(before, after, spawns) && p.Valid() && p.Born(s) && p !in after
    ensures Appended(before, after + [p], spawns + [s])
  {
    assert (after + [p])[..|before|] == after[..|before|];
  }

  class DirectAtPlayerPattern {
    const fireRate: real
    var timer: real
    const projSpeed: real
    const activeRadius: real
    const always: bool

    constructor (fireRate: real, projSpeed: real, activeRadius: real, always: bool)
      ensures this.fireRate == fireRate && this.projSpeed == projSpeed
      ensures this.activeRadius == activeRadius && this.always == always
      ensures timer == 0.0
    {
      this.fireRate := fireRate;
      this.projSpeed := projSpeed;
      this.activeRadius := activeRadius;
      this.always := always;
      timer := 0.0;
    }

    ghost function Plan(deltaTime: real, enemyPos: Vec2, playerPos: Vec2): Volley
      reads this
    {
      DirectShot(fireRate, projSpeed, activeRadius, always, timer, enemyPos, playerPos, deltaTime)
    }

    method Update(deltaTime: real, enemyPos: Vec2, playerPos: Vec2, projectiles: seq<Projectile>)
      returns (out: seq<Projectile>)
      modifies this`timer
      ensures var v := old(Plan(deltaTime, enemyPos, playerPos));
              timer == v.timer && Appended(projectiles, out, v.spawns)
      ensures forall k :: |projectiles| <= k < |out| ==> fresh(out[k])
    {
      timer := timer + deltaTime;
      var dx := playerPos.x - enemyPos.x;
      var dy := playerPos.y - enemyPos.y;
      var dist2 := dx * dx + dy * dy;
      out := projectiles;
      if !always && dist2 > activeRadius * activeRadius {
        return;
      }
      if timer >= fireRate {
        timer := 0.0;
        var angle := Atan2(dy, dx);
        var p := new Projectile(enemyPos.x, enemyPos.y, angle, projSpeed, Enemy, None, false, false);
        out := projectiles + [p];
      }
    }
  }

  class RadialPattern {
    const count: int
    const interval: real
    var timer: real
    const projSpeed: real

    constructor (count: int, interval: real, projSpeed: real)
      ensures this.count == count && this.interval == interval && this.projSpeed == projSpeed
      ensures timer == 0.0
    {
      this.count := count;
      this.interval := interval;
      this.projSpeed := projSpeed;
      timer := 0.0;
    }

    ghost function Plan(deltaTime: real, enemyPos: Vec2): Volley
      reads this
    {
      RadialShot(count, interval, projSpeed, timer, enemyPos, deltaTime)
    }

    method Update(deltaTime: real, enemyPos: Vec2, playerPos: Vec2, projectiles: seq<Projectile>)
      returns (out: seq<Projectile>)
      modifies this`timer
      ensures var v := old(Plan(deltaTime, enemyPos));
              timer == v.timer && Appended(projectiles, out, v.spawns)
      ensures forall k :: |projectiles| <= k < |out| ==> fresh(out[k])
    {
      timer := timer + deltaTime;
      out := projectiles;
      if timer >= interval {
        timer := 0.0;
        ghost var burst := Burst(count, projSpeed, enemyPos);
        var i := 0;
        while i < count
          invariant 0 <= i <= |burst| && timer == 0.0
          invariant Appended(projectiles, out, burst[..i])
          invariant forall k :: |projectiles| <= k < |out| ==> fresh(out[k])
        {
          var angle := (2.0 * Pi * i as real) / count as real;
          var p := new Projectile(enemyPos.x, enemyPos.y, angle, projSpeed, Enemy, None, false, false);
          AppendedSnoc(projectiles, out, burst[..i], p, burst[i]);
          assert burst[..i] + [burst[i]] == burst[..i + 1];
          out := out + [p];
          i := i + 1;
        }
        assert burst[..i] == burst;
      }

    }
  }

  class LingeringBeamPattern {
    const interval: real
    const warning: real
    const beamDur: real
    const projSpeed: real
    var timer: real
    var state: BeamState

    constructor (interval: real, warning: real, beamDur: real, projSpeed: real)
      ensures this.interval == interval && this.warning == warning
      ensures this.beamDur == beamDur && this.projSpeed == projSpeed
      ensures timer == 0.0 && state == Idle
    {
      this.interval := interval;
      this.warning := warning;
      this.beamDur := beamDur;
      this.projSpeed := projSpeed;
      timer := 0.0;
      state := Idle;
    }

    ghost function Plan(deltaTime: real, enemyPos: Vec2, playerPos: Vec2): BeamTick
      reads this
    {
      BeamShot(interval, warning, beamDur, projSpeed, state, timer, enemyPos, playerPos, deltaTime)
    }

    method Update(deltaTime: real, enemyPos: Vec2, playerPos: Vec2, projectiles: seq<Projectile>)
      returns (out: seq<Projectile>)
      modifies this`timer, this`state
      ensures var b := old(Plan(deltaTime, enemyPos, playerPos));
              state == b.state && timer == b.timer && Appended(projectiles, out, b.spawns)
      ensures forall k :: |projectiles| <= k < |out| ==> fresh(out[k])
    {
      timer := timer + deltaTime;
      out := projectiles;
      if state == Idle {
        if timer >= interval {
          timer := 0.0;
          state := Warning;
          var dx := playerPos.x - enemyPos.x;
          var dy := playerPos.y - enemyPos.y;
          var angle := Atan2(dy, dx);
          var p := new Projectile(enemyPos.x, enemyPos.y, angle, projSpeed, Enemy, Some(warning), true, true);
          out := projectiles + [p];
        }
      } else if state == Warning {
        if timer >= warning {
          timer := 0.0;
          state := Firing;
          var dx := playerPos.x - enemyPos.x;
          var dy := playerPos.y - enemyPos.y;
          var angle := Atan2(dy, dx);
          var p := new Projectile(enemyPos.x, enemyPos.y, angle, projSpeed, Enemy, Some(beamDur), true, false);
          out := projectiles + [p];
        }
      } else if state == Firing {
        if timer >= beamDur {
          timer := 0.0;
          state := Idle;
        }
      }
    }
  }

  // ---------------------------------------------------------------------
  // The pattern an enemy holds, and the factory helpers

  /** The owning pointer an enemy keeps to its pattern: none, or one of the three kinds. */
  datatype Shooter =
    | NoShooter
    | Direct(direct: DirectAtPlayerPattern)
    | Radial(radial: RadialPattern)
    | Beam(beam: LingeringBeamPattern)
  {
    ghost function Objects(): set<object> {
      match this
      case NoShooter => {}
      case Direct(d) => {d}
      case Radial(r) => {r}
      case Beam(b) => {b}
    }

    /** The pattern's settings and timer, as a value. */
    ghost function Value(): Pattern
      reads Objects()
    {
      match this
      case NoShooter => Unarmed
      case Direct(d) => Aimed(d.fireRate, d.projSpeed, d.activeRadius, d.always, d.timer)
      case Radial(r) => Ring(r.count, r.interval, r.projSpeed, r.timer)
      case Beam(b) => Lingering(b.interval, b.warning, b.beamDur, b.projSpeed, b.state, b.timer)
    }

    /** The shots the pattern fires on a tick taken in the current state. */
    ghost function Spawns(deltaTime: real, enemyPos: Vec2, playerPos: Vec2): seq<Spawn>
      reads Objects()
    {
      match this
      case NoShooter => []
      case Direct(d) => d.Plan(deltaTime, enemyPos, playerPos).spawns
      case Radial(r) => r.Plan(deltaTime, enemyPos).spawns
      case Beam(b) => b.Plan(deltaTime, enemyPos, playerPos).spawns
    }
  }

  /** A pattern as a value: its kind, its settings and its timer (and phase). */
  datatype Pattern =
    | Unarmed
    | Aimed(fireRate: real, projSpeed: real, activeRadius: real, always: bool, timer: real)
    | Ring(count: int, interval: real, projSpeed: real, timer: real)
    | Lingering(interval: real, warning: real, beamDur: real, projSpeed: real, state: BeamState, timer: real)
  {
    /** The kind and settings alone, with the timer and phase at their start. */
    function Settings(): Pattern {
      match this
      case Unarmed => Unarmed
      case Aimed(fireRate, projSpeed, activeRadius, always, _) => Aimed(fireRate, projSpeed, activeRadius, always, 0.0)
      case Ring(count, interval, projSpeed, _) => Ring(count, interval, projSpeed, 0.0)
      case Lingering(interval, warning, beamDur, projSpeed, _, _) => Lingering(interval, warning, beamDur, projSpeed, Idle, 0.0)
    }
  }

  /**
   * ShootingPattern::update on a pattern value: the pattern after the tick
   * and the shots it fires, in order. Whatever the kind, only the timer (and
   * phase) move, and every shot is an enemy shot leaving from the enemy.
   */
  function Volleyed(p: Pattern, deltaTime: real, enemyPos: Vec2, playerPos: Vec2): (r: (Pattern, seq<Spawn>))
    ensures r.0.Settings() == p.Settings()
    ensures p.Unarmed? ==> r == (p, [])
    ensures forall i :: 0 <= i < |r.1| ==> r.1[i].owner == Enemy && r.1[i].origin == enemyPos
  {
    match p
    case Unarmed => (p, [])
    case Aimed(fireRate, projSpeed, activeRadius, always, timer) =>
      var v := DirectShot(fireRate, projSpeed, activeRadius, always, timer, enemyPos, playerPos, deltaTime);
      (Aimed(fireRate, projSpeed, activeRadius, always, v.timer), v.spawns)
    case Ring(count, interval, projSpeed, timer) =>
      var v := RadialShot(count, interval, projSpeed, timer, enemyPos, deltaTime);
      (Ring(count, interval, projSpeed, v.timer), v.spawns)
    case Lingering(interval, warning, beamDur, projSpeed, state, timer) =>
      var b := BeamShot(interval, warning, beamDur, projSpeed, state, timer, enemyPos, playerPos, deltaTime);
      (Lingering(interval, warning, beamDur, projSpeed, b.state, b.timer), b.spawns)
  }

  /** ShootingPattern::update, dispatched on the kind of pattern. */
  method Fire(s: Shooter, deltaTime: real, enemyPos: Vec2, playerPos: Vec2, projectiles: seq<Projectile>)
    returns (out: seq<Projectile>)
    modifies s.Objects()
    ensures forall k :: |projectiles| <= k < |out| ==> fresh(out[k])
    ensures s.Value() == Volleyed(old(s.Value()), deltaTime, enemyPos, playerPos).0
    ensures Appended(projectiles, out, Volleyed(old(s.Value()), deltaTime, enemyPos, playerPos).1)
  {
    match s
    case NoShooter =>
      out := projectiles;
    case Direct(d) =>
      out := d.Update(deltaTime, enemyPos, playerPos, projectiles);
    case Radial(r) =>
      out := r.Update(deltaTime, enemyPos, playerPos, projectiles);
    case Beam(b) =>
      out := b.Update(deltaTime, enemyPos, playerPos, projectiles);
  }

  method MakeDirectAtPlayerPattern(fireRate: real, projSpeed: real, activeRadius: real, always: bool)
    returns (s: Shooter)
    ensures s.Direct? && fresh(s.direct) && s.direct.timer == 0.0
    ensures s.direct.fireRate == fireRate && s.direct.projSpeed == projSpeed
    ensures s.direct.activeRadius == activeRadius && s.direct.always == always
  {
    var d := new DirectAtPlayerPattern(fireRate, projSpeed, activeRadius, always);
    s := Direct(d);
  }

  method MakeRadialPattern(count: int, interval: real, projSpeed: real) returns (s: Shooter)
    ensures s.Radial? && fresh(s.radial) && s.radial.timer == 0.0
    ensures s.radial.count == count && s.radial.interval == interval && s.radial.projSpeed == projSpeed
  {
    var r := new RadialPattern(count, interval, projSpeed);
    s := Radial(r);
  }

  method MakeLingeringBeamPattern(interval: real, warning: real, beamDur: real, projSpeed: real)
    returns (s: Shooter)
    ensures s.Beam? && fresh(s.beam) && s.beam.timer == 0.0 && s.beam.state == Idle
    ensures s.beam.interval == interval && s.beam.warning == warning
    ensures s.beam.beamDur == beamDur && s.beam.projSpeed == projSpeed
  {
    var b := new LingeringBeamPattern(interval, warning, beamDur, projSpeed);
    s := Beam(b);
  }
}
