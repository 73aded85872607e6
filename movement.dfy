/** Player movement (game.js movePlayer): one step of PLAYER_SPEED per held
    direction, then each coordinate clamped to the canvas. */
module Movement {
  import opened Geometry
  import opened Entities

  /** Math.max(0, Math.min(hi, v)). */
  function Clamp(v: real, hi: real): (r: real)
    ensures hi >= 0.0 ==> 0.0 <= r <= hi
    ensures 0.0 <= v <= hi ==> r == v
    ensures hi >= 0.0 && v < 0.0 ==> r == 0.0
    ensures hi >= 0.0 && v > hi ==> r == hi
  {
    Max(0.0, Min(hi, v))
  }

  /** Net displacement along one axis when `back` moves by -speed and
      `forth` by +speed; both held cancel out. */
  function Step(back: bool, forth: bool): (d: real)
    ensures back == forth ==> d == 0.0
    ensures forth && !back ==> d == PLAYER_SPEED
    ensures back && !forth ==> d == -PLAYER_SPEED
  {
    (if forth then PLAYER_SPEED else 0.0) - (if back then PLAYER_SPEED else 0.0)
  }

  /** The player's box after one movePlayer on a width x height canvas. */
  function Moved(p: Box, keys: Keys, width: real, height: real): (q: Box)
    ensures q.w == p.w && q.h == p.h
    ensures p.w <= width ==> 0.0 <= q.x <= width - p.w
    ensures p.h <= height ==> 0.0 <= q.y <= height - p.h
  {
    p.(x := Clamp(p.x + Step(keys.left, keys.right), width - p.w),
       y := Clamp(p.y + Step(keys.up, keys.down), height - p.h))
  }

  /** Clamping twice is clamping once. */
  lemma ClampIdempotent(v: real, hi: real)
    requires hi >= 0.0
    ensures Clamp(Clamp(v, hi), hi) == Clamp(v, hi)
  {
  }

  /** A frame with no key held leaves a moved player where it is: the clamp
      already put it on the canvas. */
  lemma MoveSettles(p: Box, keys: Keys, width: real, height: real)
    requires p.w <= width && p.h <= height
    ensures Moved(Moved(p, keys, width, height), Keys(false, false, false, false), width, height)
            == Moved(p, keys, width, height)
  {
  }

  /** From a position on the canvas, holding both opposite keys of an axis,
      or neither, leaves that coordinate unchanged. */
  lemma OppositeKeysCancel(p: Box, keys: Keys, width: real, height: real)
    requires OnCanvas(p, width, height)
    ensures keys.left == keys.right ==> Moved(p, keys, width, height).x == p.x
    ensures keys.up == keys.down ==> Moved(p, keys, width, height).y == p.y
  {
  }

  /** A single held direction moves the player by exactly PLAYER_SPEED when
      the canvas edge is far enough away, and onto the edge otherwise. */
  lemma SingleKeyStep(p: Box, width: real, height: real)
    requires OnCanvas(p, width, height)
    ensures Moved(p, Keys(true, false, false, false), width, height).y
            == (if p.y >= PLAYER_SPEED then p.y - PLAYER_SPEED else 0.0)
    ensures Moved(p, Keys(false, true, false, false), width, height).y
            == (if p.y + PLAYER_SPEED <= height - p.h then p.y + PLAYER_SPEED else height - p.h)
    ensures Moved(p, Keys(false, false, true, false), width, height).x
            == (if p.x >= PLAYER_SPEED then p.x - PLAYER_SPEED else 0.0)
    ensures Moved(p, Keys(false, false, false, true), width, height).x
            == (if p.x + PLAYER_SPEED <= width - p.w then p.x + PLAYER_SPEED else width - p.w)
  {
  }

  /** A frame moves the player at most PLAYER_SPEED along each axis. */
  lemma StepBounded(p: Box, keys: Keys, width: real, height: real)
    requires OnCanvas(p, width, height)
    ensures var q := Moved(p, keys, width, height);
      -PLAYER_SPEED <= q.x - p.x <= PLAYER_SPEED && -PLAYER_SPEED <= q.y - p.y <= PLAYER_SPEED
  {
  }
}
