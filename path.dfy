/**
 * The waypoint follower (class Path): a position that walks a list of
 * waypoints at constant speed, either looping or latching `finished` at the end.
 */
module Waypoints {
  import opened Geometry

  /** Squared distance under which the follower counts as already on the target (1e-4f). */
  const ArriveDistSq: real := 0.0001

  /** A snapshot of a Path's fields. */
  datatype PathState = PathState(
    waypoints: seq<Vec2>,
    targetIndex: nat,
    position: Vec2,
    speed: real,
    loop: bool,
    finished: bool)
  {
    /** While the path runs, the target index names a waypoint. */
    ghost predicate Valid() {
      !finished ==> targetIndex < |waypoints|
    }

    /** Vector from the position to the current target. */
    function ToTarget(): Vec2
      requires targetIndex < |waypoints|
    {
      waypoints[targetIndex].Minus(position)
    }
  }

  /**
   * The state Path(waypoints, speed, loop) starts in: on the first waypoint
   * aiming at the second (index 1 % n), or finished when there are none.
   */
  function Start(waypoints: seq<Vec2>, speed: real, loop: bool): (r: PathState)
    ensures r.Valid()
    ensures r.waypoints == waypoints && r.speed == speed && r.loop == loop
    ensures r.finished <==> |waypoints| == 0
    ensures |waypoints| > 0 ==> r.position == waypoints[0] && r.targetIndex == 1 % |waypoints|
    ensures |waypoints| == 0 ==> r.position == Zero && r.targetIndex == 0
  {
    if |waypoints| > 0 then PathState(waypoints, 1 % |waypoints|, waypoints[0], speed, loop, false)
    else PathState(waypoints, 0, Zero, speed, loop, true)
  }

  /**
   * setStart: the follower is placed at `startPos` aiming at the first
   * waypoint; the finished flag is left alone, except that a path without
   * waypoints becomes finished.
   */
  function Restart(s: PathState, startPos: Vec2): (r: PathState)
    ensures s.Valid() ==> r.Valid()
    ensures r.position == startPos
    ensures r.waypoints == s.waypoints && r.speed == s.speed && r.loop == s.loop
    ensures |s.waypoints| > 0 ==> r.targetIndex == 0 && r.finished == s.finished
    ensures |s.waypoints| == 0 ==> r.finished && r.targetIndex == s.targetIndex
  {
    if |s.waypoints| == 0 then s.(position := startPos, finished := true)
    else s.(position := startPos, targetIndex := 0)
  }

  /**
   * reset: back to the state the constructor starts in, finished exactly when
   * there are no waypoints; only an empty path keeps its position.
   */
  function Rewind(s: PathState): (r: PathState)
    ensures r.Valid()
    ensures r.finished <==> |s.waypoints| == 0
    ensures |s.waypoints| > 0 ==> r == Start(s.waypoints, s.speed, s.loop)
    ensures |s.waypoints| == 0 ==> r == Start(s.waypoints, s.speed, s.loop).(position := s.position)
  {
    if |s.waypoints| > 0 then s.(finished := false, position := s.waypoints[0], targetIndex := 1 % |s.waypoints|)
    else s.(finished := true, targetIndex := 0)
  }

  /**
   * Whether one tick reaches the current target: the follower is already
   * within the arrival distance, or the step is at least the remaining distance.
   */
  predicate Reaches(s: PathState, dt: real)
    requires s.targetIndex < |s.waypoints|
  {
    var distSq := s.ToTarget().LengthSq();
    distSq < ArriveDistSq || s.speed * dt >= Sqrt(distSq)
  }

  /** Snap onto the current target and aim at the next waypoint, wrapping or finishing at the end. */
  function Arrive(s: PathState): (r: PathState)
    requires !s.finished && s.targetIndex < |s.waypoints|
    ensures r.Valid()
    ensures r.waypoints == s.waypoints && r.speed == s.speed && r.loop == s.loop
    // the follower stands exactly on the waypoint it was heading for
    ensures r.position == s.waypoints[s.targetIndex]
    // it then aims at the next waypoint ...
    ensures s.targetIndex + 1 < |s.waypoints| ==> r.targetIndex == s.targetIndex + 1 && !r.finished
    // ... or, past the last one, wraps to the first when looping ...
    ensures s.targetIndex + 1 == |s.waypoints| && s.loop ==> r.targetIndex == 0 && !r.finished
    // ... and otherwise latches finished with the index one past the end
    ensures s.targetIndex + 1 == |s.waypoints| && !s.loop ==> r.finished && r.targetIndex == |s.waypoints|
  {
    var target := s.waypoints[s.targetIndex];
    var next := s.targetIndex + 1;
    if next >= |s.waypoints| then
      if s.loop then s.(position := target, targetIndex := 0)
      else s.(position := target, targetIndex := next, finished := true)
    else s.(position := target, targetIndex := next)
  }

  /** One call of Path::update. */
  function Step(s: PathState, dt: real): (r: PathState)
    requires s.Valid()
    ensures r.Valid()
    ensures r.waypoints == s.waypoints && r.speed == s.speed && r.loop == s.loop
    // a finished (or empty) path is frozen
    ensures s.finished || |s.waypoints| == 0 ==> r == s
    // a looping path never finishes; it wraps to the first waypoint instead
    ensures s.loop ==> r.finished == s.finished
    // at most one waypoint transition per tick
    ensures r.targetIndex == s.targetIndex || r.targetIndex == s.targetIndex + 1
         || (r.targetIndex == 0 && s.loop && s.targetIndex + 1 == |s.waypoints|)
    // finishing only happens by running past the last waypoint
    ensures r.finished && !s.finished ==> !s.loop && r.targetIndex == |s.waypoints|
    // a transition lands exactly on the waypoint that was the target: no leftover distance
    ensures r.targetIndex != s.targetIndex || r.finished != s.finished
        ==> r.position == s.waypoints[s.targetIndex]
    // a running path that reaches its target this tick arrives there ...
    ensures !s.finished && |s.waypoints| > 0 && Reaches(s, dt) ==> r == Arrive(s)
    // ... and one that does not only moves: index and flag stay
    ensures !s.finished && |s.waypoints| > 0 && !Reaches(s, dt) ==> r == s.(position := r.position)
  {
    if s.finished || |s.waypoints| == 0 then s
    else
      var toTarget := s.ToTarget();
      var distSq := toTarget.LengthSq();
      if distSq < ArriveDistSq then Arrive(s)
      else
        var dist := Sqrt(distSq);
        var dir := toTarget.Times(1.0 / dist);
        var moveDist := s.speed * dt;
        if moveDist >= dist then Arrive(s)
        else s.(position := s.position.Plus(dir.Times(moveDist)))
  }

  /**
   * The target changes exactly on the ticks that reach it, unless the path
   * loops over a single waypoint, where arriving aims at that same waypoint again.
   */
  lemma TransitionExactlyOnArrival(s: PathState, dt: real)
    requires s.Valid() && !s.finished && |s.waypoints| > 0
    requires |s.waypoints| > 1 || !s.loop
    ensures var r := Step(s, dt);
            (r.targetIndex != s.targetIndex || r.finished != s.finished) <==> Reaches(s, dt)
  {
  }

  /** Helper: expanding the squared length of a scaled vector. */
  lemma ScaledLengthSq(v: Vec2, k: real)
    ensures v.Times(k).LengthSq() == k * k * v.LengthSq()
  {
    calc {
      v.Times(k).LengthSq();
      (v.x * k) * (v.x * k) + (v.y * k) * (v.y * k);
      k * k * (v.x * v.x) + k * k * (v.y * v.y);
    }
  }

  /**
   * When the step is shorter than the remaining distance the target does not
   * change and the distance to it shrinks by exactly speed * dt (stated on
   * squares, given that Sqrt is exact at the current squared distance).
   */
  lemma {:induction false} ShortStepShrinksDistance(s: PathState, dt: real)
    requires s.Valid() && !s.finished
    requires ArriveDistSq <= s.ToTarget().LengthSq()
    requires SqrtExactAt(s.ToTarget().LengthSq())
    requires s.speed * dt < Sqrt(s.ToTarget().LengthSq())
    ensures Step(s, dt).targetIndex == s.targetIndex && !Step(s, dt).finished
    ensures var d := Sqrt(s.ToTarget().LengthSq()) - s.speed * dt;
            Step(s, dt).ToTarget().LengthSq() == d * d
  {
    var v := s.ToTarget();
    var dist := Sqrt(v.LengthSq());
    var m := s.speed * dt;
    var r := Step(s, dt);
    assert 0.0 < dist;
    var k := 1.0 - m / dist;
    assert r.position == s.position.Plus(v.Times(1.0 / dist).Times(m));
    StepTowards(s.waypoints[s.targetIndex], s.position, dist, m);
    ScaledLengthSq(v, k);
    ShrinkSquare(k, dist, v.LengthSq(), m);
  }

  /** Moving m along the unit vector towards t leaves t - p rescaled by 1 - m / dist. */
  lemma StepTowards(t: Vec2, p: Vec2, dist: real, m: real)
    requires dist != 0.0
    ensures t.Minus(p.Plus(t.Minus(p).Times(1.0 / dist).Times(m))) == t.Minus(p).Times(1.0 - m / dist)
  {
    ShrinkComponent(t.x, p.x, dist, m);
    ShrinkComponent(t.y, p.y, dist, m);
  }

  lemma ShrinkComponent(a: real, b: real, dist: real, m: real)
    requires dist != 0.0
    ensures a - (b + ((a - b) * (1.0 / dist)) * m) == (a - b) * (1.0 - m / dist)
  {
    assert (1.0 / dist) * m == m / dist;
    assert ((a - b) * (1.0 / dist)) * m == (a - b) * (m / dist);
  }

  /** Rescaling by 1 - m / dist a vector of length dist leaves it of length dist - m, on squares. */
  lemma ShrinkSquare(k: real, dist: real, lsq: real, m: real)
    requires dist != 0.0 && lsq == dist * dist && k == 1.0 - m / dist
    ensures k * k * lsq == (dist - m) * (dist - m)
  {
    assert (m / dist) * dist == m;
    assert k * dist == dist - m;
    assert k * k * lsq == (k * dist) * (k * dist);
  }

  /** The state after a sequence of ticks. */
  function Run(s: PathState, dts: seq<real>): (r: PathState)
    requires s.Valid()
    ensures r.Valid()
    decreases |dts|
  {
    if dts == [] then s else Run(Step(s, dts[0]), dts[1..])
  }

  /** A looping path that is running keeps running, however many ticks pass. */
  lemma {:induction false} LoopingPathNeverFinishes(s: PathState, dts: seq<real>)
    requires s.Valid() && s.loop && !s.finished
    ensures !Run(s, dts).finished
    decreases |dts|
  {
    if dts != [] {
      LoopingPathNeverFinishes(Step(s, dts[0]), dts[1..]);
    }
  }

  /** Once finished, nothing changes again: position, index and flag stay put. */
  lemma {:induction false} FinishedPathIsFrozen(s: PathState, dts: seq<real>)
    requires s.Valid() && s.finished
    ensures Run(s, dts) == s
    decreases |dts|
  {
    if dts != [] {
      FinishedPathIsFrozen(Step(s, dts[0]), dts[1..]);
    }
  }

  class Path {
    var waypoints: seq<Vec2>
    var targetIndex: nat
    var position: Vec2
    var speed: real
    var loop: bool
    var finished: bool

    ghost function State(): PathState
      reads this
    {
      PathState(waypoints, targetIndex, position, speed, loop, finished)
    }

    ghost predicate Valid()
      reads this
    {
      State().Valid()
    }

    /** Path(): no waypoints, so already finished. */
    constructor Default()
      ensures Valid()
      ensures State() == PathState([], 0, Zero, 100.0, true, true)
    {
      waypoints, targetIndex, position := [], 0, Zero;
      speed, loop, finished := 100.0, true, true;
    }

    constructor (waypoints: seq<Vec2>, speed: real, loop: bool)
      ensures Valid()
      ensures State() == Start(waypoints, speed, loop)
    {
      this.waypoints := waypoints;
      targetIndex := 0;
      position := Zero;
      this.speed := speed;
      this.loop := loop;
      finished := false;
      if |waypoints| > 0 {
        position := waypoints[0];
        targetIndex := 1 % |waypoints|;
      } else {
        finished := true;
      }
    }

    /** Replaces the waypoints and rewinds. */
    method SetWaypoints(waypoints: seq<Vec2>)
      modifies this
      ensures Valid()
      ensures State() == Rewind(old(State()).(waypoints := waypoints))
    {
      this.waypoints := waypoints;
      Reset();
    }

    method SetStart(startPos: Vec2)
      requires Valid()
      modifies this
      ensures Valid()
      ensures State() == Restart(old(State()), startPos)
    {
      if |waypoints| == 0 {
        position := startPos;
        finished := true;
      } else {
        position := startPos;
        targetIndex := 0;
      }
    }

    method SetSpeed(s: real)
      modifies this
      ensures State() == old(State()).(speed := s)
    {
      speed := s;
    }

    method SetLoop(loop: bool)
      modifies this
      ensures State() == old(State()).(loop := loop)
    {
      this.loop := loop;
    }

    method Reset()
      modifies this
      ensures Valid()
      ensures State() == Rewind(old(State()))
    {
      finished := |waypoints| == 0;
      if |waypoints| > 0 {
        position := waypoints[0];
        targetIndex := 1 % |waypoints|;
      } else {
        targetIndex := 0;
      }
    }

    /**
     * The arrival code that Path::update runs in both of its arrival cases:
     * snap onto the target, then aim at the next waypoint, wrapping to the
     * first one when looping and latching finished otherwise.
     */
    method ArriveAtTarget()
      requires Valid() && !finished
      modifies this
      ensures State() == Arrive(old(State()))
    {
      position := waypoints[targetIndex];
      targetIndex := targetIndex + 1;
      if targetIndex >= |waypoints| {
        if loop && |waypoints| > 0 {
          targetIndex := 0;
        } else {
          finished := true;
        }
      }
    }

    /** Path::update: one tick of movement toward the current target. */
    method Update(deltaTime: real)
      requires Valid()
      modifies this
      ensures State() == Step(old(State()), deltaTime)
      ensures Valid()
    {
      if finished || |waypoints| == 0 {
        return;
      }
      ghost var s0 := State();
      var target := waypoints[targetIndex];
      var toTarget := target.Minus(position);
      var distSq := toTarget.LengthSq();
      assert toTarget == s0.ToTarget();
      if distSq < ArriveDistSq {
        ArriveAtTarget();
        return;
      }
      var dist := Sqrt(distSq);
      var dir := toTarget.Times(1.0 / dist);
      var moveDist := speed * deltaTime;
      if moveDist >= dist {
        ArriveAtTarget();
      } else {
        position := position.Plus(dir.Times(moveDist));
      }
    }
  }
}
