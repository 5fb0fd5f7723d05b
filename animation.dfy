/**
 * The sprite-sheet animation counter that Enemy and Projectile both run:
 * six frames laid out two per row over three rows, advanced one at a time
 * once the frame's time is up.
 */
module Animation {

  const FrameCols: int := 2
  const FrameRows: int := 3
  const TotalFrames: int := FrameCols * FrameRows

  /** The current frame and the time spent on it. */
  datatype Counter = Counter(frame: int, timer: real) {
    ghost predicate Valid() { 0 <= frame < TotalFrames }
  }

  /** One call of updateAnimation. */
  function Tick(c: Counter, dt: real, frameDuration: real): (r: Counter)
    requires c.Valid()
    ensures r.Valid()
    // the frame moves on by exactly one, wrapping after the last
    ensures r.frame == c.frame || r.frame == (c.frame + 1) % TotalFrames
    // it moves on exactly when the accumulated time reaches the frame's duration
    ensures r.frame != c.frame <==> c.timer + dt >= frameDuration
    // and the timer restarts exactly then; otherwise it keeps accumulating
    ensures r.frame != c.frame ==> r.timer == 0.0
    ensures r.frame == c.frame ==> r.timer == c.timer + dt
  {
    var timer := c.timer + dt;
    if timer >= frameDuration then Counter((c.frame + 1) % TotalFrames, 0.0)
    else Counter(c.frame, timer)
  }

  /** Column and row of a frame in the sprite sheet (updateSpriteRect). */
  function Cell(frame: int): (cell: (int, int))
    requires 0 <= frame < TotalFrames
    ensures 0 <= cell.0 < FrameCols && 0 <= cell.1 < FrameRows
    ensures cell.1 * FrameCols + cell.0 == frame
  {
    (frame % FrameCols, frame / FrameCols)
  }
}
