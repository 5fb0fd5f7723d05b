/**
 * One frame of the game (Game::update) and its collision passes
 * (Game::checkCollisions): shoot, move the shots and cull those off screen,
 * update the enemies and cull the dead, resolve shot hits, apply contact
 * damage, keep the ship on screen, and stop when the ship has no health left.
 *
 * The game's two lists are held as values: a shot is its owner and its
 * flight, an enemy its Foe value. They are advanced by the same step
 * functions that Projectile::update and Enemy::update are proved to follow.
 */
module Shmup {
  import opened Util
  import opened Geometry
  import opened Health
  import Projectiles
  import Enemies
  import Ships
  import Patterns

  /** The window the game runs in (WINDOW_WIDTH x WINDOW_HEIGHT). */
  const WindowWidth: int := 800
  const WindowHeight: int := 600

  /** Distance the ship's centre keeps from every window edge. */
  const ShipRadius: real := 15.0

  /** How far ahead of the ship a player shot appears. */
  const MuzzleOffset: real := 30.0

  /** Speed of a player shot: the constructor's default. */
  const PlayerShotSpeed: real := 500.0

  // ---------------------------------------------------------------------
  // Shots and hits, on values

  /**
   * A projectile as the frame update sees it: who fired it, and its flight
   * (where it is, how fast it goes, which frame it shows).
   */
  datatype Shot = Shot(owner: Projectiles.Owner, flight: Projectiles.Flight) {
    ghost predicate Valid() {
      flight.anim.Valid()
    }

    /** getBounds: the shot sprite's frame centred on the shot. */
    function Box(): Rect {
      Geometry.Bounds(flight.position, Projectiles.ShotFrame)
    }

    /** isOffScreen for this window. */
    predicate OffScreen() {
      Projectiles.OffScreen(flight.position, WindowWidth, WindowHeight)
    }
  }

  /** The shot a constructor call with these arguments creates. */
  function Launch(s: Projectiles.Spawn): (r: Shot)
    ensures r.Valid()
  {
    Shot(s.owner, Projectiles.Launched(s))
  }

  /** The inner loop of the first pass: the first target in list order that the shot overlaps. */
  function FirstHit(box: Rect, targets: seq<Rect>): (r: Option<nat>)
    ensures r.Some? ==>
              r.value < |targets| && Overlaps(box, targets[r.value]) &&
              forall j :: 0 <= j < r.value ==> !Overlaps(box, targets[j])
    ensures r.None? <==> forall j :: 0 <= j < |targets| ==> !Overlaps(box, targets[j])
  {
    if targets == [] then None
    else if Overlaps(box, targets[0]) then Some(0)
    else
      match FirstHit(box, targets[1..])
      case None => None
      case Some(k) => Some(k + 1)
  }

  /** The enemy a shot damages in the first pass: only player shots look for one. */
  function Aim(s: Shot, targets: seq<Rect>): Option<nat> {
    if s.owner == Projectiles.Player then FirstHit(s.Box(), targets) else None
  }

  /** The first pass keeps exactly the shots that hit no enemy. */
  function Misses(shots: seq<Shot>, targets: seq<Rect>): (mask: seq<bool>)
    ensures |mask| == |shots|
    ensures forall i :: 0 <= i < |shots| ==> mask[i] == Aim(shots[i], targets).None?
  {
    seq(|shots|, i requires 0 <= i < |shots| => Aim(shots[i], targets).None?)
  }

  /** The number of shots whose first-pass hit lands on target `k`. */
  function HitsOn(shots: seq<Shot>, targets: seq<Rect>, k: nat): nat
  {
    if shots == [] then 0
    else
      HitsOn(shots[..|shots| - 1], targets, k) +
      (if Aim(shots[|shots| - 1], targets) == Some(k) then 1 else 0)
  }

  /** The hits on targets 0 .. n-1 together. */
  function HitsBelow(shots: seq<Shot>, targets: seq<Rect>, n: nat): nat
  {
    if n == 0 then 0 else HitsBelow(shots, targets, n - 1) + HitsOn(shots, targets, n - 1)
  }

  lemma HitsOnSnoc(shots: seq<Shot>, targets: seq<Rect>, k: nat, m: nat)
    requires m < |shots|
    ensures HitsOn(shots[..m + 1], targets, k)
         == HitsOn(shots[..m], targets, k) + (if Aim(shots[m], targets) == Some(k) then 1 else 0)
  {
    assert shots[..m + 1][..m] == shots[..m];
  }

  /** One more shot adds one hit below n exactly when it lands on a target below n. */
  lemma {:induction false} HitsBelowSnoc(shots: seq<Shot>, s: Shot, targets: seq<Rect>, n: nat)
    ensures HitsBelow(shots + [s], targets, n)
         == HitsBelow(shots, targets, n) + (if Aim(s, targets).Some? && Aim(s, targets).value < n then 1 else 0)
  {
    if n > 0 {
      HitsBelowSnoc(shots, s, targets, n - 1);
      assert (shots + [s])[..|shots + [s]| - 1] == shots;
    }
  }

  lemma {:induction false} NoShotsNoHits(targets: seq<Rect>, n: nat)
    ensures HitsBelow([], targets, n) == 0
  {
    if n > 0 {
      NoShotsNoHits(targets, n - 1);
    }
  }

  /**
   * Nothing is counted twice or lost: the enemies take, all together,
   * exactly as many hits as the first pass removes shots.
   */
  lemma {:induction false} HitsMatchRemovedShots(shots: seq<Shot>, targets: seq<Rect>)
    ensures HitsBelow(shots, targets, |targets|) == |shots| - Count(Misses(shots, targets))
  {
    if shots == [] {
      NoShotsNoHits(targets, |targets|);
    } else {
      var n := |shots| - 1;
      var init := shots[..n];
      HitsMatchRemovedShots(init, targets);
      assert init + [shots[n]] == shots;
      HitsBelowSnoc(init, shots[n], targets, |targets|);
      assert Misses(shots, targets)[..n] == Misses(init, targets);
      CountSnoc(Misses(shots, targets), n);
      assert Misses(shots, targets)[..n + 1] == Misses(shots, targets);
      var a := Aim(shots[n], targets);
      assert a.Some? ==> a.value < |targets|;
    }
  }

  /** Enemy shots never hurt enemies: the first pass keeps every one of them. */
  lemma EnemyShotsPassThroughEnemies(shots: seq<Shot>, targets: seq<Rect>, k: nat)
    requires forall i :: 0 <= i < |shots| ==> shots[i].owner == Projectiles.Enemy
    ensures HitsOn(shots, targets, k) == 0
    ensures Keep(shots, Misses(shots, targets)) == shots
  {
    if shots != [] {
      EnemyShotsPassThroughEnemies(shots[..|shots| - 1], targets, k);
    }
  }

  /** The second pass: an enemy shot overlapping the ship is used up on it. */
  predicate StrikesShip(s: Shot, shipBox: Rect) {
    s.owner == Projectiles.Enemy && Overlaps(s.Box(), shipBox)
  }

  /** The second pass keeps exactly the shots that do not strike the ship. */
  function Spares(shots: seq<Shot>, shipBox: Rect): (mask: seq<bool>)
    ensures |mask| == |shots|
    ensures forall i :: 0 <= i < |shots| ==> mask[i] == !StrikesShip(shots[i], shipBox)
  {
    seq(|shots|, i requires 0 <= i < |shots| => !StrikesShip(shots[i], shipBox))
  }

  /** The number of shots the second pass uses up on the ship. */
  function StrikeCount(shots: seq<Shot>, shipBox: Rect): nat
  {
    if shots == [] then 0
    else
      StrikeCount(shots[..|shots| - 1], shipBox) +
      (if StrikesShip(shots[|shots| - 1], shipBox) then 1 else 0)
  }

  lemma StrikeCountSnoc(shots: seq<Shot>, shipBox: Rect, m: nat)
    requires m < |shots|
    ensures StrikeCount(shots[..m + 1], shipBox)
         == StrikeCount(shots[..m], shipBox) + (if StrikesShip(shots[m], shipBox) then 1 else 0)
  {
    assert shots[..m + 1][..m] == shots[..m];
  }

  /** The ship loses one hit point for every shot the second pass removes. */
  lemma {:induction false} StrikesMatchRemovedShots(shots: seq<Shot>, shipBox: Rect)
    ensures StrikeCount(shots, shipBox) == |shots| - Count(Spares(shots, shipBox))
  {
    if shots != [] {
      var n := |shots| - 1;
      StrikesMatchRemovedShots(shots[..n], shipBox);
      assert Spares(shots, shipBox)[..n] == Spares(shots[..n], shipBox);
      CountSnoc(Spares(shots, shipBox), n);
      assert Spares(shots, shipBox)[..n + 1] == Spares(shots, shipBox);
    }
  }

  /** Judging the shots a first pass left is judging them all and filtering the verdicts alike. */
  lemma {:induction false} SparesOfKeep(shots: seq<Shot>, mask: seq<bool>, shipBox: Rect)
    requires |mask| == |shots|
    ensures Spares(Keep(shots, mask), shipBox) == Keep(Spares(shots, shipBox), mask)
  {
    if shots != [] {
      var n := |shots| - 1;
      SparesOfKeep(shots[..n], mask[..n], shipBox);
      SparesPrefix(shots, shipBox, n);
      var kept := Keep(shots[..n], mask[..n]);
      if mask[n] {
        assert Keep(shots, mask) == kept + [shots[n]];
        SparesSnoc(kept, shots[n], shipBox);
      } else {
        assert Keep(shots, mask) == kept;
      }
    }
  }

  lemma SparesPrefix(shots: seq<Shot>, shipBox: Rect, n: nat)
    requires n <= |shots|
    ensures Spares(shots, shipBox)[..n] == Spares(shots[..n], shipBox)
  { }

  lemma SparesSnoc(shots: seq<Shot>, s: Shot, shipBox: Rect)
    ensures Spares(shots + [s], shipBox) == Spares(shots, shipBox) + [!StrikesShip(s, shipBox)]
  { }

  /** A filter that keeps every shot able to strike the ship leaves the ship's damage as it was. */
  lemma {:induction false} StrikesSurviveFilter(shots: seq<Shot>, mask: seq<bool>, shipBox: Rect)
    requires |mask| == |shots|
    requires forall i :: 0 <= i < |shots| && StrikesShip(shots[i], shipBox) ==> mask[i]
    ensures StrikeCount(Keep(shots, mask), shipBox) == StrikeCount(shots, shipBox)
  {
    if shots != [] {
      var n := |shots| - 1;
      StrikesSurviveFilter(shots[..n], mask[..n], shipBox);
      var kept := Keep(shots[..n], mask[..n]);
      if mask[n] {
        assert Keep(shots, mask) == kept + [shots[n]];
        assert (kept + [shots[n]])[..|kept|] == kept;
      } else {
        assert Keep(shots, mask) == kept;
      }
    }
  }

  /** Which shots survive both passes of checkCollisions. */
  function Survivors(shots: seq<Shot>, targets: seq<Rect>, shipBox: Rect): (mask: seq<bool>)
    ensures |mask| == |shots|
    ensures forall i :: 0 <= i < |shots| ==>
              (mask[i] <==> Aim(shots[i], targets).None? && !StrikesShip(shots[i], shipBox))
  {
    Both(Misses(shots, targets), Spares(shots, shipBox))
  }

  /**
   * The two passes in sequence act as one filter on the shots (or on anything
   * listed alongside them), and the ship's damage from the second is what the
   * whole list, unfiltered, would cause: the first pass only ever removes
   * player shots, which never strike the ship.
   */
  lemma TwoPassesAsOne<T>(items: seq<T>, shots: seq<Shot>, targets: seq<Rect>, shipBox: Rect)
    requires |items| == |shots|
    ensures Keep(Keep(items, Misses(shots, targets)), Spares(Keep(shots, Misses(shots, targets)), shipBox))
         == Keep(items, Survivors(shots, targets, shipBox))
    ensures StrikeCount(Keep(shots, Misses(shots, targets)), shipBox) == StrikeCount(shots, shipBox)
  {
    var m1, m2 := Misses(shots, targets), Spares(shots, shipBox);
    SparesOfKeep(shots, m1, shipBox);
    assert Spares(Keep(shots, m1), shipBox) == Keep(m2, m1);
    KeepTwice(items, m1, m2);
    assert Survivors(shots, targets, shipBox) == Both(m1, m2);
    StrikesSurviveFilter(shots, m1, shipBox);
  }

  /** Contact: which enemies overlap the ship this frame. */
  function Touching(targets: seq<Rect>, shipBox: Rect): (mask: seq<bool>)
    ensures |mask| == |targets|
    ensures forall k :: 0 <= k < |targets| ==> mask[k] == Overlaps(targets[k], shipBox)
  {
    seq(|targets|, k requires 0 <= k < |targets| => Overlaps(targets[k], shipBox))
  }

  // ---------------------------------------------------------------------
  // Keeping the ship on screen

  /**
   * The clamp as written: each of the four tests compares the position read
   * before the clamp, and each call writes back that stale position's other
   * coordinate, so a y correction undoes an x correction made just before it.
   */
  function ClampAsWritten(pos: Vec2): Vec2 {
    var maxX := WindowWidth as real - ShipRadius;
    var maxY := WindowHeight as real - ShipRadius;
    var p1 := if pos.x < ShipRadius then Vec2(ShipRadius, pos.y) else pos;
    var p2 := if pos.x > maxX then Vec2(maxX, pos.y) else p1;
    var p3 := if pos.y < ShipRadius then Vec2(pos.x, ShipRadius) else p2;
    if pos.y > maxY then Vec2(pos.x, maxY) else p3
  }

  /** The ship in the top-left corner beyond both edges keeps its off-screen x. */
  lemma ClampAsWrittenLeavesCornerOffScreen()
    ensures ClampAsWritten(Vec2(-10.0, -10.0)) == Vec2(-10.0, 15.0)
    ensures ClampAsWritten(Vec2(-10.0, -10.0)).x < ShipRadius
  {
  }

  /**
   * What the clamp as written guarantees for every position: y always ends in
   * range, x ends in range exactly when x or y was in range before, and when
   * y was out of range x is written back unchanged.
   */
  lemma ClampAsWrittenBounds(pos: Vec2)
    ensures ShipRadius <= ClampAsWritten(pos).y <= WindowHeight as real - ShipRadius
    ensures ShipRadius <= ClampAsWritten(pos).x <= WindowWidth as real - ShipRadius <==>
              (ShipRadius <= pos.x <= WindowWidth as real - ShipRadius ||
               ShipRadius <= pos.y <= WindowHeight as real - ShipRadius)
    ensures !(ShipRadius <= pos.y <= WindowHeight as real - ShipRadius) ==> ClampAsWritten(pos).x == pos.x
  {
  }

  /** The evidently intended clamp: each coordinate into [15, size - 15] independently. */
  function Clamped(pos: Vec2): (r: Vec2)
    ensures ShipRadius <= r.x <= WindowWidth as real - ShipRadius
    ensures ShipRadius <= r.y <= WindowHeight as real - ShipRadius
    // a coordinate already in range is left alone; one out of range moves to the nearest edge
    ensures ShipRadius <= pos.x <= WindowWidth as real - ShipRadius ==> r.x == pos.x
    ensures ShipRadius <= pos.y <= WindowHeight as real - ShipRadius ==> r.y == pos.y
    ensures pos.x < ShipRadius ==> r.x == ShipRadius
    ensures pos.x > WindowWidth as real - ShipRadius ==> r.x == WindowWidth as real - ShipRadius
    ensures pos.y < ShipRadius ==> r.y == ShipRadius
    ensures pos.y > WindowHeight as real - ShipRadius ==> r.y == WindowHeight as real - ShipRadius
  {
    var maxX := WindowWidth as real - ShipRadius;
    var maxY := WindowHeight as real - ShipRadius;
    var x := if pos.x < ShipRadius then ShipRadius else if pos.x > maxX then maxX else pos.x;
    var y := if pos.y < ShipRadius then ShipRadius else if pos.y > maxY then maxY else pos.y;
    Vec2(x, y)
  }

  /** Clamping twice is clamping once. */
  lemma ClampIdempotent(pos: Vec2)
    ensures Clamped(Clamped(pos)) == Clamped(pos)
  {
  }

  /**
   * The code as written agrees with the intended clamp exactly when the two
   * corrections do not both happen: when x or y was already in range.
   */
  lemma ClampAsWrittenAgreesUnlessBothOut(pos: Vec2)
    ensures ClampAsWritten(pos) == Clamped(pos) <==>
              (ShipRadius <= pos.x <= WindowWidth as real - ShipRadius ||
               ShipRadius <= pos.y <= WindowHeight as real - ShipRadius)
  {
  }

  /** The player's shot: ahead of the ship along the forward angle, at the default speed. */
  function PlayerShot(shipPos: Vec2, angle: real): Projectiles.Spawn {
    Projectiles.Spawn(shipPos.Plus(Projectiles.LaunchVelocity(angle, MuzzleOffset)), angle,
                      PlayerShotSpeed, Projectiles.Player, None, false, false)
  }

  // ---------------------------------------------------------------------
  // The shot loop

  ghost predicate ShotsValid(ss: seq<Shot>) {
    forall j :: 0 <= j < |ss| ==> ss[j].Valid()
  }

  /** Every shot one update call later. */
  function Flown(ss: seq<Shot>, deltaTime: real): (r: seq<Shot>)
    requires ShotsValid(ss)
    ensures |r| == |ss| && ShotsValid(r)
    ensures forall j :: 0 <= j < |ss| ==> r[j] == Shot(ss[j].owner, Projectiles.Step(ss[j].flight, deltaTime))
  {
    seq(|ss|, j requires 0 <= j < |ss| => Shot(ss[j].owner, Projectiles.Step(ss[j].flight, deltaTime)))
  }

  /** Which shots lie on screen, margin included. */
  function OnScreen(ss: seq<Shot>): (mask: seq<bool>)
    ensures |mask| == |ss|
    ensures forall j :: 0 <= j < |ss| ==> mask[j] == !ss[j].OffScreen()
  {
    seq(|ss|, j requires 0 <= j < |ss| => !ss[j].OffScreen())
  }

  /** The shot list after the shot loop: every shot moved, those now off screen erased. */
  function Culled(ss: seq<Shot>, deltaTime: real): seq<Shot>
    requires ShotsValid(ss)
  {
    Keep(Flown(ss, deltaTime), OnScreen(Flown(ss, deltaTime)))
  }

  /** What the loop leaves behind is a list of valid shots, all on screen, no longer than before. */
  lemma CulledOnScreen(ss: seq<Shot>, deltaTime: real)
    requires ShotsValid(ss)
    ensures ShotsValid(Culled(ss, deltaTime)) && |Culled(ss, deltaTime)| <= |ss|
    ensures forall i :: 0 <= i < |Culled(ss, deltaTime)| ==> !Culled(ss, deltaTime)[i].OffScreen()
  {
    var moved := Flown(ss, deltaTime);
    KeepWhere(moved, OnScreen(moved), (s: Shot) => s.Valid() && !s.OffScreen());
  }

  /**
   * The shot loop: each shot moves one step; one that ends up off screen is
   * erased on the spot and the index stays, otherwise the index advances.
   */
  method SweepShots(ss: seq<Shot>, deltaTime: real) returns (ps: seq<Shot>)
    requires ShotsValid(ss)
    ensures ps == Culled(ss, deltaTime)
  {
    ghost var after := Flown(ss, deltaTime);
    ghost var stays := OnScreen(after);
    ps := ss;
    ghost var d := 0;
    var i := 0;
    while i < |ps|
      invariant d <= |ss| && ps == Keep(after[..d], stays[..d]) + ss[d..]
      invariant i == |Keep(after[..d], stays[..d])|
      decreases |ss| - d
    {
      SweepStep(after, ss, stays, d, ps);
      var moved := Shot(ps[i].owner, Projectiles.Step(ps[i].flight, deltaTime));
      if moved.OffScreen() {
        ps := ps[..i] + ps[i + 1..];
      } else {
        ps := ps[i := moved];
        i := i + 1;
      }
      d := d + 1;
    }
    assert d == |ss|;
    SweepDone(after, ss, stays, ps);
  }

  /** A shot is still listed after the loop exactly when its move leaves it on screen. */
  lemma CulledExactlyOffScreen(ss: seq<Shot>, deltaTime: real, j: nat)
    requires ShotsValid(ss) && j < |ss|
    ensures Flown(ss, deltaTime)[j] in Culled(ss, deltaTime) <==> !Flown(ss, deltaTime)[j].OffScreen()
  {
    var moved := Flown(ss, deltaTime);
    if !moved[j].OffScreen() {
      KeepKeepsFlagged(moved, OnScreen(moved), j);
    } else {
      CulledOnScreen(ss, deltaTime);
    }
  }

  // ---------------------------------------------------------------------
  // The enemy loop

  ghost predicate FoesValid(es: seq<Enemies.Foe>) {
    forall k :: 0 <= k < |es| ==> es[k].Valid()
  }

  /** Each enemy one update call later; `rolls(j)` is what rand() gives the j-th enemy. */
  function Advanced(es: seq<Enemies.Foe>, deltaTime: real, playerPos: Vec2, rolls: nat -> nat): (r: seq<Enemies.Foe>)
    requires FoesValid(es)
    ensures |r| == |es| && FoesValid(r)
    ensures forall j :: 0 <= j < |es| ==>
              r[j] == Enemies.Advance(es[j], deltaTime, WindowWidth, WindowHeight, playerPos, rolls(j)).0
  {
    var r := seq(|es|, j requires 0 <= j < |es| =>
                   Enemies.Advance(es[j], deltaTime, WindowWidth, WindowHeight, playerPos, rolls(j)).0);
    assert forall j :: 0 <= j < |es| ==>
             r[j] == Enemies.Advance(es[j], deltaTime, WindowWidth, WindowHeight, playerPos, rolls(j)).0;
    r
  }

  /** Which enemies are still alive: the enemy loop erases the others. */
  function Living(es: seq<Enemies.Foe>): (mask: seq<bool>)
    ensures |mask| == |es|
    ensures forall k :: 0 <= k < |es| ==> mask[k] == !es[k].Dead()
  {
    seq(|es|, k requires 0 <= k < |es| => !es[k].Dead())
  }

  /** The shots a list of spawns creates, in order. */
  function Launches(spawns: seq<Projectiles.Spawn>): (r: seq<Shot>)
    ensures |r| == |spawns| && ShotsValid(r)
    ensures forall i :: 0 <= i < |spawns| ==> r[i] == Launch(spawns[i])
  {
    seq(|spawns|, i requires 0 <= i < |spawns| => Launch(spawns[i]))
  }

  /** The shots the first `n` enemies fire in the enemy loop, enemy by enemy. */
  ghost function Volleys(es: seq<Enemies.Foe>, deltaTime: real, playerPos: Vec2, rolls: nat -> nat, n: nat): (r: seq<Shot>)
    requires FoesValid(es) && n <= |es|
    ensures ShotsValid(r)
  {
    if n == 0 then []
    else
      Volleys(es, deltaTime, playerPos, rolls, n - 1) +
      Launches(Enemies.Advance(es[n - 1], deltaTime, WindowWidth, WindowHeight, playerPos, rolls(n - 1)).1)
  }

  /**
   * The enemy loop: each enemy updates, and what it fires is appended to the
   * shot list; one that is dead afterwards is erased on the spot and the
   * index stays, otherwise the index advances. `rolls(n)` is what rand()
   * gives the n-th enemy visited.
   */
  method SweepFoes(es: seq<Enemies.Foe>, shots: seq<Shot>, deltaTime: real, playerPos: Vec2, rolls: nat -> nat)
    returns (kept: seq<Enemies.Foe>, fired: seq<Shot>)
    requires FoesValid(es)
    ensures kept == Keep(Advanced(es, deltaTime, playerPos, rolls), Living(Advanced(es, deltaTime, playerPos, rolls)))
    ensures fired == shots + Volleys(es, deltaTime, playerPos, rolls, |es|)
  {
    ghost var after := Advanced(es, deltaTime, playerPos, rolls);
    ghost var alive := Living(after);
    kept, fired := es, shots;
    var n := 0;
    var i := 0;
    while i < |kept|
      invariant n <= |es| && kept == Keep(after[..n], alive[..n]) + es[n..]
      invariant i == |Keep(after[..n], alive[..n])|
      invariant fired == shots + Volleys(es, deltaTime, playerPos, rolls, n)
      decreases |es| - n
    {
      kept, fired, i := VisitFoe(es, shots, deltaTime, playerPos, rolls, after, alive, n, kept, fired, i);
      n := n + 1;
    }
    assert n == |es|;
    SweepDone(after, es, alive, kept);
  }

  /**
   * The body of the enemy loop for the `n`-th enemy visited, standing at
   * index `i`: it updates, its shots are appended, and it is erased on the
   * spot if dead, the index advancing otherwise.
   */
  method VisitFoe(ghost es: seq<Enemies.Foe>, ghost shots: seq<Shot>, deltaTime: real, playerPos: Vec2,
                  rolls: nat -> nat, ghost after: seq<Enemies.Foe>, ghost alive: seq<bool>,
                  n: nat, kept: seq<Enemies.Foe>, fired: seq<Shot>, i: nat)
    returns (kept': seq<Enemies.Foe>, fired': seq<Shot>, i': nat)
    requires FoesValid(es) && n < |es|
    requires after == Advanced(es, deltaTime, playerPos, rolls) && alive == Living(after)
    requires kept == Keep(after[..n], alive[..n]) + es[n..] && i == |Keep(after[..n], alive[..n])|
    requires fired == shots + Volleys(es, deltaTime, playerPos, rolls, n)
    ensures kept' == Keep(after[..n + 1], alive[..n + 1]) + es[n + 1..] && i' == |Keep(after[..n + 1], alive[..n + 1])|
    ensures fired' == shots + Volleys(es, deltaTime, playerPos, rolls, n + 1)
  {
    SweepStep(after, es, alive, n, kept);
    AppendTwice(shots, Volleys(es, deltaTime, playerPos, rolls, n),
                Launches(Enemies.Advance(es[n], deltaTime, WindowWidth, WindowHeight, playerPos, rolls(n)).1));
    var r := Enemies.Advance(kept[i], deltaTime, WindowWidth, WindowHeight, playerPos, rolls(n));
    fired' := fired + Launches(r.1);
    if r.0.Dead() {
      kept', i' := kept[..i] + kept[i + 1..], i;
    } else {
      kept', i' := kept[i := r.0], i + 1;
    }
  }

  /** The enemies the loop keeps are valid, and so is the shot list it grows. */
  lemma SurvivorsValid(es: seq<Enemies.Foe>, deltaTime: real, playerPos: Vec2, rolls: nat -> nat)
    requires FoesValid(es)
    ensures FoesValid(Keep(Advanced(es, deltaTime, playerPos, rolls), Living(Advanced(es, deltaTime, playerPos, rolls))))
    ensures forall shots :: ShotsValid(shots) ==> ShotsValid(shots + Volleys(es, deltaTime, playerPos, rolls, |es|))
  {
    var after := Advanced(es, deltaTime, playerPos, rolls);
    KeepWhere(after, Living(after), (e: Enemies.Foe) => e.Valid());
  }

  /**
   * The enemy loop erases exactly the enemies that were already dead when
   * it started: an update never changes health, so an enemy killed in this
   * frame's collisions is only erased in the next frame's loop, and still
   * fires once more on the way.
   */
  lemma UpdateCullsOnlyTheAlreadyDead(es: seq<Enemies.Foe>, deltaTime: real, playerPos: Vec2, rolls: nat -> nat)
    requires FoesValid(es)
    ensures Living(Advanced(es, deltaTime, playerPos, rolls)) == Living(es)
  {
  }

  /** Whatever the enemies fire is enemy shots, so the first collision pass lets all of it through. */
  lemma {:induction false} VolleysAreEnemyShots(es: seq<Enemies.Foe>, deltaTime: real, playerPos: Vec2,
                                                rolls: nat -> nat, n: nat)
    requires FoesValid(es) && n <= |es|
    ensures forall i :: 0 <= i < |Volleys(es, deltaTime, playerPos, rolls, n)| ==>
              Volleys(es, deltaTime, playerPos, rolls, n)[i].owner == Projectiles.Enemy
  {
    if n > 0 {
      VolleysAreEnemyShots(es, deltaTime, playerPos, rolls, n - 1);
    }
  }

  // ---------------------------------------------------------------------
  // Damage

  /** The enemies' rectangles, in list order. */
  function Boxes(es: seq<Enemies.Foe>): (r: seq<Rect>)
    ensures |r| == |es|
    ensures forall k :: 0 <= k < |es| ==> r[k] == es[k].Box()
  {
    seq(|es|, k requires 0 <= k < |es| => es[k].Box())
  }

  /** The enemies after the first collision pass: each loses a hit point per shot that hit it first. */
  function Struck(es: seq<Enemies.Foe>, shots: seq<Shot>): (r: seq<Enemies.Foe>)
    ensures |r| == |es|
  {
    seq(|es|, k requires 0 <= k < |es| => es[k].(health := Damage(es[k].health, HitsOn(shots, Boxes(es), k))))
  }

  /** The enemies after contact: each one overlapping the ship loses a hit point. */
  function Bumped(es: seq<Enemies.Foe>, shipBox: Rect): (r: seq<Enemies.Foe>)
    ensures |r| == |es|
  {
    seq(|es|, k requires 0 <= k < |es| =>
          if Overlaps(es[k].Box(), shipBox) then es[k].(health := Damage(es[k].health, 1)) else es[k])
  }

  /** Hit points of a whole list. */
  function TotalHealth(es: seq<Enemies.Foe>): int {
    if es == [] then 0 else TotalHealth(es[..|es| - 1]) + es[|es| - 1].health
  }

  /** Damage leaves every enemy where it was, alive or not: only health changes. */
  lemma DamageMovesNothing(es: seq<Enemies.Foe>, shots: seq<Shot>, shipBox: Rect)
    ensures Boxes(Struck(es, shots)) == Boxes(es)
    ensures Boxes(Bumped(es, shipBox)) == Boxes(es)
    ensures forall k :: 0 <= k < |es| ==> Struck(es, shots)[k].(health := es[k].health) == es[k]
    ensures forall k :: 0 <= k < |es| ==> Bumped(es, shipBox)[k].(health := es[k].health) == es[k]
  {
    assert Boxes(Struck(es, shots)) == Boxes(es);
    assert Boxes(Bumped(es, shipBox)) == Boxes(es);
  }

  /** Two lists that differ in one health value differ by that much in total. */
  lemma {:induction false} TotalHealthPointwise(es: seq<Enemies.Foe>, fs: seq<Enemies.Foe>, deficit: seq<int>)
    requires |fs| == |es| == |deficit|
    requires forall k :: 0 <= k < |es| ==> fs[k].health == es[k].health - deficit[k]
    ensures TotalHealth(fs) == TotalHealth(es) - IntSum(deficit)
    decreases |es|
  {
    if es != [] {
      var n := |es| - 1;
      TotalHealthPointwise(es[..n], fs[..n], deficit[..n]);
    }
  }

  /** Total of a list of integers, last element first. */
  function IntSum(s: seq<int>): int {
    if s == [] then 0 else IntSum(s[..|s| - 1]) + s[|s| - 1]
  }

  /** Hits on each target in turn. */
  function HitsPer(shots: seq<Shot>, targets: seq<Rect>, n: nat): (r: seq<int>)
    ensures |r| == n
    ensures forall k :: 0 <= k < n ==> r[k] == HitsOn(shots, targets, k)
  {
    seq(n, k requires 0 <= k < n => HitsOn(shots, targets, k) as int)
  }

  lemma {:induction false} HitsPerSum(shots: seq<Shot>, targets: seq<Rect>, n: nat)
    ensures IntSum(HitsPer(shots, targets, n)) == HitsBelow(shots, targets, n)
  {
    if n > 0 {
      HitsPerSum(shots, targets, n - 1);
      assert HitsPer(shots, targets, n)[..n - 1] == HitsPer(shots, targets, n - 1);
    }
  }

  /**
   * No hit is lost: while no enemy is hit more often than it has hit points,
   * the enemies lose together exactly as many hit points as the first pass
   * removes shots.
   */
  lemma EveryHitCosts(es: seq<Enemies.Foe>, shots: seq<Shot>)
    requires forall k :: 0 <= k < |es| ==> es[k].health >= HitsOn(shots, Boxes(es), k)
    ensures TotalHealth(Struck(es, shots)) == TotalHealth(es) - (|shots| - Count(Misses(shots, Boxes(es))))
  {
    var deficit := HitsPer(shots, Boxes(es), |es|);
    TotalHealthPointwise(es, Struck(es, shots), deficit);
    HitsPerSum(shots, Boxes(es), |es|);
    HitsMatchRemovedShots(shots, Boxes(es));
  }

  // ---------------------------------------------------------------------
  // The inner loop of the first collision pass

  /** The first enemy, in list order, whose rectangle the box overlaps. */
  method FirstTarget(box: Rect, es: seq<Enemies.Foe>) returns (hit: Option<nat>)
    ensures hit == FirstHit(box, Boxes(es))
  {
    var k := 0;
    while k < |es|
      invariant k <= |es|
      invariant forall j :: 0 <= j < k ==> !Overlaps(box, es[j].Box())
    {
      if Overlaps(box, es[k].Box()) {
        return Some(k);
      }
      k := k + 1;
    }
    return None;
  }

  /** The enemy a shot damages in the first pass, found by the inner loop. */
  method AimAt(s: Shot, es: seq<Enemies.Foe>) returns (hit: Option<nat>)
    ensures hit == Aim(s, Boxes(es))
  {
    hit := None;
    if s.owner == Projectiles.Player {
      hit := FirstTarget(s.Box(), es);
    }
  }

  // ---------------------------------------------------------------------
  // The game

  /** The first collision pass over a list of shots and a list of enemies. */
  method StrikeEnemies(shots: seq<Shot>, es: seq<Enemies.Foe>) returns (left: seq<Shot>, hurt: seq<Enemies.Foe>)
    requires FoesValid(es)
    ensures left == Keep(shots, Misses(shots, Boxes(es)))
    ensures hurt == Struck(es, shots)
  {
    ghost var miss := Misses(shots, Boxes(es));
    left, hurt := shots, es;
    ghost var d := 0;
    var i := 0;
    while i < |left|
      invariant d <= |shots| && left == Keep(shots[..d], miss[..d]) + shots[d..]
      invariant i == |Keep(shots[..d], miss[..d])|
      invariant hurt == Struck(es, shots[..d])
      decreases |shots| - d
    {
      left, hurt, i := StrikeOnce(es, shots, miss, d, left, hurt, i);
      d := d + 1;
    }
    assert d == |shots|;
    SweepDone(shots, shots, miss, left);
    WholePrefix(shots, d);
  }

  /** The body of the first collision pass for the `d`-th shot visited, standing at index `i`. */
  method StrikeOnce(ghost es: seq<Enemies.Foe>, ghost shots: seq<Shot>, ghost miss: seq<bool>, ghost d: nat,
                    left: seq<Shot>, hurt: seq<Enemies.Foe>, i: nat)
    returns (left': seq<Shot>, hurt': seq<Enemies.Foe>, i': nat)
    requires FoesValid(es) && d < |shots| && miss == Misses(shots, Boxes(es))
    requires left == Keep(shots[..d], miss[..d]) + shots[d..] && i == |Keep(shots[..d], miss[..d])|
    requires hurt == Struck(es, shots[..d])
    ensures left' == Keep(shots[..d + 1], miss[..d + 1]) + shots[d + 1..] && i' == |Keep(shots[..d + 1], miss[..d + 1])|
    ensures hurt' == Struck(es, shots[..d + 1])
  {
    SweepAt(shots, miss, d, left);
    StruckBoxes(es, shots[..d]);
    var hit := AimAt(left[i], hurt);
    hurt' := StrikeFoe(es, shots, d, hurt, hit);
    left', i' := SweepOnce(shots, miss, d, left, i, hit.None?);
  }

  /** The enemy a shot hits, if any, loses a hit point. */
  method StrikeFoe(ghost es: seq<Enemies.Foe>, ghost shots: seq<Shot>, ghost d: nat, hurt: seq<Enemies.Foe>, hit: Option<nat>)
    returns (hurt': seq<Enemies.Foe>)
    requires FoesValid(es) && d < |shots|
    requires hurt == Struck(es, shots[..d]) && hit == Aim(shots[d], Boxes(es))
    ensures hurt' == Struck(es, shots[..d + 1])
  {
    StruckStep(es, shots, d);
    if hit.Some? {
      var k := hit.value;
      hurt' := hurt[k := hurt[k].(health := Damage(hurt[k].health, 1))];
    } else {
      hurt' := hurt;
    }
  }

  /** The second collision pass over a list of shots: the ship loses a hit point per enemy shot overlapping it. */
  method HitShip(ship: Ships.Ship, shots: seq<Shot>, box: Rect) returns (left: seq<Shot>)
    requires ship.health >= 0
    modifies ship`health
    ensures left == Keep(shots, Spares(shots, box))
    ensures ship.health == Damage(old(ship.health), StrikeCount(shots, box))
  {
    ghost var spare := Spares(shots, box);
    left := shots;
    ghost var d := 0;
    var i := 0;
    while i < |left|
      invariant d <= |shots| && left == Keep(shots[..d], spare[..d]) + shots[d..]
      invariant i == |Keep(shots[..d], spare[..d])|
      invariant ship.health == Damage(old(ship.health), StrikeCount(shots[..d], box))
      decreases |shots| - d
    {
      left, i := HitShipOnce(ship, old(ship.health), shots, box, spare, d, left, i);
      d := d + 1;
    }
    assert d == |shots|;
    SweepDone(shots, shots, spare, left);
    WholePrefix(shots, d);
  }

  /** The body of the second collision pass for the `d`-th shot visited, standing at index `i`. */
  method HitShipOnce(ship: Ships.Ship, ghost health0: int, ghost shots: seq<Shot>, box: Rect, ghost spare: seq<bool>,
                     ghost d: nat, left: seq<Shot>, i: nat)
    returns (left': seq<Shot>, i': nat)
    requires health0 >= 0 && d < |shots| && spare == Spares(shots, box)
    requires left == Keep(shots[..d], spare[..d]) + shots[d..] && i == |Keep(shots[..d], spare[..d])|
    requires ship.health == Damage(health0, StrikeCount(shots[..d], box))
    modifies ship`health
    ensures left' == Keep(shots[..d + 1], spare[..d + 1]) + shots[d + 1..] && i' == |Keep(shots[..d + 1], spare[..d + 1])|
    ensures ship.health == Damage(health0, StrikeCount(shots[..d + 1], box))
  {
    SweepAt(shots, spare, d, left);
    StrikeCountSnoc(shots, box, d);
    DamageAccumulates(health0, StrikeCount(shots[..d], box), 1);
    var strikes := StrikesShip(left[i], box);
    if strikes {
      ship.TakeDamage(1);
    }
    left', i' := SweepOnce(shots, spare, d, left, i, !strikes);
  }

  /** Contact over a list of enemies: each one overlapping the ship costs the ship and itself a hit point. */
  method Contact(ship: Ships.Ship, es: seq<Enemies.Foe>, box: Rect) returns (bumped: seq<Enemies.Foe>)
    requires ship.health >= 0
    modifies ship`health
    ensures bumped == Bumped(es, box)
    ensures ship.health == Damage(old(ship.health), Count(Touching(Boxes(es), box)))
  {
    ghost var touch := Touching(Boxes(es), box);
    bumped := es;
    var k := 0;
    assert touch[..0] == [];
    while k < |bumped|
      invariant k <= |bumped| == |es|
      invariant bumped == Bumped(es, box)[..k] + es[k..]
      invariant ship.health == Damage(old(ship.health), Count(touch[..k]))
    {
      CountSnoc(touch, k);
      DamageAccumulates(old(ship.health), Count(touch[..k]), 1);
      BumpedStep(es, box, k, bumped);
      if Overlaps(bumped[k].Box(), box) {
        ship.TakeDamage(1);
        bumped := bumped[k := bumped[k].(health := Damage(bumped[k].health, 1))];
      }
      k := k + 1;
    }
    WholePrefix(touch, k);
    WholePrefix(Bumped(es, box), k);
  }

  /** Kept shots of a valid list are valid. */
  lemma ShotsKeptValid(ss: seq<Shot>, mask: seq<bool>)
    requires ShotsValid(ss) && |mask| == |ss|
    ensures ShotsValid(Keep(ss, mask))
  {
    KeepWhere(ss, mask, (s: Shot) => s.Valid());
  }

  class Game {
    const ship: Ships.Ship
    var enemies: seq<Enemies.Foe>
    var projectiles: seq<Shot>
    var running: bool

    /** The ship's health never goes negative, and every shot and enemy is in a good state. */
    ghost predicate Valid()
      reads this, ship
    {
      ship.health >= 0 && ShotsValid(projectiles) && FoesValid(enemies)
    }

    /** The window-sized game with the ship in the middle, before any level is set up. */
    constructor (shipSprite: Option<Vec2>)
      ensures Valid()
      ensures ship.position == Vec2(WindowWidth as real / 2.0, WindowHeight as real / 2.0)
      ensures ship.speed == 300.0 && ship.health == 20 && ship.sprite == shipSprite
      ensures enemies == [] && projectiles == [] && running
    {
      ship := new Ships.Ship(WindowWidth as real / 2.0, WindowHeight as real / 2.0, 300.0, shipSprite);
      enemies := [];
      projectiles := [];
      running := true;
    }

    /** What setting up a level does with each enemy it builds: push it onto the list. */
    method AddEnemy(e: Enemies.Foe)
      requires Valid() && e.Valid()
      modifies this`enemies
      ensures Valid() && enemies == old(enemies) + [e]
    {
      enemies := enemies + [e];
    }

    /** Shooting: a player shot ahead of the ship whenever the cooldown allows. */
    method Shoot()
      requires Valid()
      modifies this`projectiles, ship`timeSinceLastShot
      ensures Valid()
      ensures ship.timeSinceLastShot
           == Ships.ShotDecision(ship.shootPressed, old(ship.timeSinceLastShot), ship.fireRate).1
      ensures projectiles == old(projectiles) +
                if Ships.ShotDecision(ship.shootPressed, old(ship.timeSinceLastShot), ship.fireRate).0
                then [Launch(PlayerShot(ship.position, ship.ForwardAngle()))] else []
    {
      var fire := ship.ShouldShoot();
      if fire {
        var shipPos := ship.position;
        var angle := ship.ForwardAngle();
        var spawnX := shipPos.x + Cos(angle) * MuzzleOffset;
        var spawnY := shipPos.y + Sin(angle) * MuzzleOffset;
        projectiles := projectiles + [Launch(Projectiles.Spawn(Vec2(spawnX, spawnY), angle, PlayerShotSpeed,
                                                                Projectiles.Player, None, false, false))];
      }
    }

    /**
     * The shot loop of the frame update: each shot moves and animates, and
     * the ones that end up off screen are erased from the list on the spot.
     */
    method MoveProjectiles(deltaTime: real)
      requires Valid()
      modifies this`projectiles
      ensures Valid()
      ensures projectiles == Culled(old(projectiles), deltaTime)
    {
      CulledOnScreen(projectiles, deltaTime);
      projectiles := SweepShots(projectiles, deltaTime);
    }

    /**
     * The enemy loop of the frame update: each enemy updates (and may fire,
     * appending to the shot list), and the dead ones are erased on the spot.
     * `rolls(j)` is what rand() gives the j-th enemy visited.
     */
    method UpdateEnemies(deltaTime: real, playerPos: Vec2, rolls: nat -> nat)
      requires Valid()
      modifies this`enemies, this`projectiles
      ensures Valid()
      ensures enemies == Keep(Advanced(old(enemies), deltaTime, playerPos, rolls),
                              Living(Advanced(old(enemies), deltaTime, playerPos, rolls)))
      ensures projectiles == old(projectiles) + Volleys(old(enemies), deltaTime, playerPos, rolls, |old(enemies)|)
    {
      SurvivorsValid(enemies, deltaTime, playerPos, rolls);
      enemies, projectiles := SweepFoes(enemies, projectiles, deltaTime, playerPos, rolls);
    }

    /** The first collision pass: a player shot that hits an enemy damages the first one it hits and is erased. */
    method PlayerShotsHitEnemies()
      requires Valid()
      modifies this`projectiles, this`enemies
      ensures Valid()
      ensures projectiles == Keep(old(projectiles), Misses(old(projectiles), Boxes(old(enemies))))
      ensures enemies == Struck(old(enemies), old(projectiles))
    {
      ShotsKeptValid(projectiles, Misses(projectiles, Boxes(enemies)));
      StruckValid(enemies, projectiles);
      projectiles, enemies := StrikeEnemies(projectiles, enemies);
    }

    /** The second collision pass: an enemy shot overlapping the ship costs it a hit point and is erased. */
    method EnemyShotsHitShip()
      requires Valid()
      modifies this`projectiles, ship`health
      ensures Valid()
      ensures projectiles == Keep(old(projectiles), Spares(old(projectiles), ship.Bounds()))
      ensures ship.health == Damage(old(ship.health), StrikeCount(old(projectiles), ship.Bounds()))
    {
      ShotsKeptValid(projectiles, Spares(projectiles, ship.Bounds()));
      projectiles := HitShip(ship, projectiles, ship.Bounds());
    }

    /**
     * checkCollisions: both passes. Together they erase the shots that hit
     * an enemy or the ship, and the ship takes exactly the hits it would
     * take from the whole list, as the first pass never removes an enemy shot.
     */
    method CheckCollisions()
      requires Valid()
      modifies this`projectiles, this`enemies, ship`health
      ensures Valid()
      ensures projectiles == Keep(old(projectiles), Survivors(old(projectiles), Boxes(old(enemies)), ship.Bounds()))
      ensures enemies == Struck(old(enemies), old(projectiles))
      ensures ship.health == Damage(old(ship.health), StrikeCount(old(projectiles), ship.Bounds()))
    {
      PlayerShotsHitEnemies();
      EnemyShotsHitShip();
      TwoPassesAsOne(old(projectiles), old(projectiles), Boxes(old(enemies)), ship.Bounds());
    }

    /** Contact: every enemy overlapping the ship costs the ship and itself one hit point each. */
    method ContactDamage()
      requires Valid()
      modifies this`enemies, ship`health
      ensures Valid()
      ensures enemies == Bumped(old(enemies), ship.Bounds())
      ensures ship.health == Damage(old(ship.health), Count(Touching(Boxes(old(enemies)), ship.Bounds())))
    {
      BumpedValid(enemies, ship.Bounds());
      enemies := Contact(ship, enemies, ship.Bounds());
    }

    /** Keeping the ship on screen, with each test reading the position as it stands. */
    method ClampShip()
      modifies ship`position
      ensures ship.position == Clamped(old(ship.position))
    {
      if ship.position.x < ShipRadius {
        ship.SetPosition(ShipRadius, ship.position.y);
      }
      if ship.position.x > WindowWidth as real - ShipRadius {
        ship.SetPosition(WindowWidth as real - ShipRadius, ship.position.y);
      }
      if ship.position.y < ShipRadius {
        ship.SetPosition(ship.position.x, ShipRadius);
      }
      if ship.position.y > WindowHeight as real - ShipRadius {
        ship.SetPosition(ship.position.x, WindowHeight as real - ShipRadius);
      }
    }

    /**
     * Game::update: input, shooting, the ship's move, the shot loop, the
     * enemy loop (aimed at where the ship now is), collisions, contact, the
     * clamp, and the end of the game once the ship has no health left.
     */
    method Update(deltaTime: real, rolls: nat -> nat)
      requires Valid()
      modifies this, ship
      ensures Valid()
      ensures running == (old(running) && ship.health > 0)
      ensures ShipRadius <= ship.position.x <= WindowWidth as real - ShipRadius
      ensures ShipRadius <= ship.position.y <= WindowHeight as real - ShipRadius
    {
      ship.UpdateInput();
      Shoot();
      ship.Update(deltaTime);
      MoveProjectiles(deltaTime);
      var playerPos := ship.position;
      UpdateEnemies(deltaTime, playerPos, rolls);
      CheckCollisions();
      ContactDamage();
      ClampShip();
      if ship.health <= 0 {
        running := false;
      }
    }
  }

  /** One shot more: the enemy it hits first, if any, loses one more hit point. */
  lemma StruckStep(es: seq<Enemies.Foe>, shots: seq<Shot>, d: nat)
    requires FoesValid(es) && d < |shots|
    ensures var a := Aim(shots[d], Boxes(es));
            Struck(es, shots[..d + 1])
              == if a.Some? then Struck(es, shots[..d])[a.value := Struck(es, shots[..d])[a.value].(
                                   health := Damage(Struck(es, shots[..d])[a.value].health, 1))]
                 else Struck(es, shots[..d])
  {
    var a := Aim(shots[d], Boxes(es));
    var s0, s1 := Struck(es, shots[..d]), Struck(es, shots[..d + 1]);
    forall k | 0 <= k < |es|
      ensures s1[k] == if a == Some(k) then s0[k].(health := Damage(s0[k].health, 1)) else s0[k]
    {
      HitsOnSnoc(shots, Boxes(es), k, d);
      DamageAccumulates(es[k].health, HitsOn(shots[..d], Boxes(es), k), 1);
    }
  }

  /** The first pass moves no enemy. */
  lemma StruckBoxes(es: seq<Enemies.Foe>, shots: seq<Shot>)
    ensures Boxes(Struck(es, shots)) == Boxes(es)
  {
    assert forall k :: 0 <= k < |es| ==> Boxes(Struck(es, shots))[k] == Boxes(es)[k];
  }

  lemma StruckValid(es: seq<Enemies.Foe>, shots: seq<Shot>)
    requires FoesValid(es)
    ensures FoesValid(Struck(es, shots))
  {
    forall k | 0 <= k < |es|
      ensures Struck(es, shots)[k].Valid()
    {
    }
  }

  lemma BumpedValid(es: seq<Enemies.Foe>, shipBox: Rect)
    requires FoesValid(es)
    ensures FoesValid(Bumped(es, shipBox))
  {
    forall k | 0 <= k < |es|
      ensures Bumped(es, shipBox)[k].Valid()
    {
    }
  }

  /** One more enemy checked for contact. */
  lemma BumpedStep(es: seq<Enemies.Foe>, shipBox: Rect, k: nat, cur: seq<Enemies.Foe>)
    requires k < |es| && cur == Bumped(es, shipBox)[..k] + es[k..]
    ensures cur[k] == es[k]
    ensures Overlaps(es[k].Box(), shipBox) ==>
              cur[k := cur[k].(health := Damage(cur[k].health, 1))] == Bumped(es, shipBox)[..k + 1] + es[k + 1..]
    ensures !Overlaps(es[k].Box(), shipBox) ==> cur == Bumped(es, shipBox)[..k + 1] + es[k + 1..]
  {
    var next := Bumped(es, shipBox)[..k + 1] + es[k + 1..];
    assert |cur| == |next| == |es|;
    assert cur[k] == es[k];
    forall j | 0 <= j < |es| && j != k
      ensures cur[j] == next[j]
    {
    }
  }
}
