/** The per-frame collision checks (game.js checkCollisions,
    checkChaserCollision) and the state a frame ends in. */
module Collisions {
  import opened Geometry
  import opened Entities
  import Placement

  /** A still hidden object that the player's box touches is uncovered:
      the closed boxes share a point. */
  predicate Uncovers(p: Box, o: HiddenObject)
    ensures p.w >= 0.0 && p.h >= 0.0 && o.box.w >= 0.0 && o.box.h >= 0.0 ==>
      (Uncovers(p, o) <==>
         !o.revealed && exists px: real, py: real :: InClosed(px, py, p) && InClosed(px, py, o.box))
  {
    // The branch only brings the common-point lemma into scope for the
    // ensures; both arms compute the source's test.
    if p.w >= 0.0 && p.h >= 0.0 && o.box.w >= 0.0 && o.box.h >= 0.0 then
      CollidingIffCommonPoint(p, o.box);
      !o.revealed && IsColliding(p, o.box)
    else
      !o.revealed && IsColliding(p, o.box)
  }

  /** One object after the check against player box p. */
  function RevealOne(o: HiddenObject, p: Box): (r: HiddenObject)
    ensures r.box == o.box && r.kind == o.kind
    ensures r.revealed <==> o.revealed || IsColliding(p, o.box)
  {
    if Uncovers(p, o) then o.(revealed := true) else o
  }

  /** The objects after checkCollisions with player box p, front to back. */
  function Reveal(objs: seq<HiddenObject>, p: Box): (r: seq<HiddenObject>)
    ensures |r| == |objs|
    ensures forall i :: 0 <= i < |objs| ==> r[i] == RevealOne(objs[i], p)
  {
    if objs == [] then [] else [RevealOne(objs[0], p)] + Reveal(objs[1..], p)
  }

  /** The state at the end of a frame that started in s, checked objects objs
      against the moved player p, then the player against the chaser c: the
      chaser check runs last, so it has the last word. */
  function FrameState(s: GameState, objs: seq<HiddenObject>, p: Box, c: Box): (r: GameState)
    ensures r != s ==> r == Win || r == GameOver
    ensures r == Win ==> FindsBeaver(objs, p) || s == Win
    ensures IsColliding(p, c) ==> r == GameOver
  {
    if IsColliding(p, c) then GameOver
    else if FindsBeaver(objs, p) then Win
    else s
  }

  /** This check uncovers the beaver: some object of type Beaver is hidden
      before the check and revealed by it. */
  predicate FindsBeaver(objs: seq<HiddenObject>, p: Box)
    ensures FindsBeaver(objs, p) <==>
      exists i :: 0 <= i < |objs| && objs[i].kind == Beaver && !objs[i].revealed && Reveal(objs, p)[i].revealed
  {
    exists i :: 0 <= i < |objs| && Uncovers(p, objs[i]) && objs[i].kind == Beaver
  }

  /** checkCollisions scans front to back: one more object finds the beaver
      exactly when the shorter prefix did or that object is a hidden beaver
      the player touches. */
  lemma FindsBeaverPrefix(objs: seq<HiddenObject>, p: Box, n: int)
    requires 0 <= n < |objs|
    ensures FindsBeaver(objs[..n + 1], p) <==>
      FindsBeaver(objs[..n], p) || (Uncovers(p, objs[n]) && objs[n].kind == Beaver)
  {
    var longer := objs[..n + 1];
    assert longer[..n] == objs[..n];
    assert longer[n] == objs[n];
  }

  /** Revealing never hides an object again, and every object the player
      touches ends up revealed. */
  lemma RevealMonotone(objs: seq<HiddenObject>, p: Box, i: int)
    requires 0 <= i < |objs|
    ensures objs[i].revealed ==> Reveal(objs, p)[i].revealed
    ensures IsColliding(p, objs[i].box) ==> Reveal(objs, p)[i].revealed
    ensures !objs[i].revealed && !IsColliding(p, objs[i].box) ==> !Reveal(objs, p)[i].revealed
  {
  }

  /** A second check with the same player box changes nothing. */
  lemma RevealIdempotent(objs: seq<HiddenObject>, p: Box)
    ensures Reveal(Reveal(objs, p), p) == Reveal(objs, p)
  {
  }

  /** After a check with player box p, the same check cannot find the beaver
      again, so a repeated check never re-triggers the win. */
  lemma NoSecondWin(objs: seq<HiddenObject>, p: Box)
    ensures !FindsBeaver(Reveal(objs, p), p)
  {
  }

  /** Reveal changes no position and no type, so the placement guarantees of
      a new game survive every frame. */
  lemma RevealKeepsLayout(objs: seq<HiddenObject>, p: Box, width: real, height: real, player: Box, chaser: Box)
    ensures Placement.Separated(objs, player, chaser) ==> Placement.Separated(Reveal(objs, p), player, chaser)
    ensures Placement.OnField(objs, width, height) ==> Placement.OnField(Reveal(objs, p), width, height)
    ensures Placement.ExactlyOneBeaver(objs) ==> Placement.ExactlyOneBeaver(Reveal(objs, p))
  {
  }

  /** A frame that both uncovers the beaver and touches the chaser is lost. */
  lemma CaughtBeatsFound(s: GameState, objs: seq<HiddenObject>, p: Box, c: Box)
    requires FindsBeaver(objs, p) && IsColliding(p, c)
    ensures FrameState(s, objs, p, c) == GameOver
  {
  }

  /** The only ways a frame leaves `Playing` are finding the beaver (Win) and
      being caught (GameOver). */
  lemma FrameOutcomes(objs: seq<HiddenObject>, p: Box, c: Box)
    ensures var r := FrameState(Playing, objs, p, c);
      (r == Win <==> FindsBeaver(objs, p) && !IsColliding(p, c)) &&
      (r == GameOver <==> IsColliding(p, c)) &&
      (r == Playing <==> !FindsBeaver(objs, p) && !IsColliding(p, c))
  {
  }

  /** A player that touches a hidden rock only on its border (an edge or a
      corner), and touches neither another object nor the chaser, uncovers
      it and the game goes on. */
  lemma TouchingRockIsRevealed(objs: seq<HiddenObject>, p: Box, c: Box, i: int)
    requires 0 <= i < |objs| && Proper(p) && Proper(objs[i].box)
    requires objs[i] == HiddenObject(objs[i].box, false, Rock)
    requires IsColliding(p, objs[i].box) && !IsOverlapping(p, objs[i].box)
    requires forall j :: 0 <= j < |objs| && j != i ==> !IsColliding(p, objs[j].box)
    requires !IsColliding(p, c)
    ensures Reveal(objs, p)[i].revealed
    ensures FrameState(Playing, objs, p, c) == Playing
  {
  }
}
