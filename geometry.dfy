/** Axis-aligned boxes on the canvas and the game's two box tests.
    Coordinates are exact reals; y grows downwards, as on a canvas. */
module Geometry {

  /** A box with top-left corner (x, y), width w and height h. */
  datatype Box = Box(x: real, y: real, w: real, h: real)

  /** Every box the game creates has a positive width and height. */
  predicate Proper(b: Box) {
    b.w > 0.0 && b.h > 0.0
  }

  function Max(a: real, b: real): (r: real)
    ensures r >= a && r >= b && (r == a || r == b)
  {
    if a >= b then a else b
  }

  function Min(a: real, b: real): (r: real)
    ensures r <= a && r <= b && (r == a || r == b)
  {
    if a <= b then a else b
  }

  /** The gameplay test (game.js isColliding): the boxes collide unless one
      lies strictly beyond the other on some axis, so boxes that only touch
      along an edge or at a corner collide. */
  predicate IsColliding(a: Box, b: Box)
    ensures a.w >= 0.0 && a.h >= 0.0 && b.w >= 0.0 && b.h >= 0.0 ==>
      (IsColliding(a, b) <==>
         Max(a.x, b.x) <= Min(a.x + a.w, b.x + b.w) && Max(a.y, b.y) <= Min(a.y + a.h, b.y + b.h))
  {
    !(a.x + a.w < b.x || a.x > b.x + b.w || a.y + a.h < b.y || a.y > b.y + b.h)
  }

  /** The placement test (game.js isOverlapping): the boxes overlap unless
      they are separated on some axis, touching counting as separated. */
  predicate IsOverlapping(a: Box, b: Box)
    ensures Proper(a) && Proper(b) ==>
      (IsOverlapping(a, b) <==>
         Max(a.x, b.x) < Min(a.x + a.w, b.x + b.w) && Max(a.y, b.y) < Min(a.y + a.h, b.y + b.h))
  {
    !(a.x + a.w <= b.x || a.x >= b.x + b.w || a.y + a.h <= b.y || a.y >= b.y + b.h)
  }

  /** (px, py) lies in the closed box b (its border included). */
  predicate InClosed(px: real, py: real, b: Box) {
    b.x <= px <= b.x + b.w && b.y <= py <= b.y + b.h
  }

  /** (px, py) lies in the interior of b. */
  predicate InOpen(px: real, py: real, b: Box) {
    b.x < px < b.x + b.w && b.y < py < b.y + b.h
  }

  /** isColliding is the reference notion "the closed boxes share a point". */
  lemma CollidingIffCommonPoint(a: Box, b: Box)
    requires a.w >= 0.0 && a.h >= 0.0 && b.w >= 0.0 && b.h >= 0.0
    ensures IsColliding(a, b) <==> exists px: real, py: real :: InClosed(px, py, a) && InClosed(px, py, b)
  {
    if IsColliding(a, b) {
      var px, py := Max(a.x, b.x), Max(a.y, b.y);
      assert InClosed(px, py, a) && InClosed(px, py, b);
    }
  }

  /** isOverlapping is the reference notion "the interiors share a point". */
  lemma OverlappingIffCommonInteriorPoint(a: Box, b: Box)
    requires Proper(a) && Proper(b)
    ensures IsOverlapping(a, b) <==> exists px: real, py: real :: InOpen(px, py, a) && InOpen(px, py, b)
  {
    if IsOverlapping(a, b) {
      var px := (Max(a.x, b.x) + Min(a.x + a.w, b.x + b.w)) / 2.0;
      var py := (Max(a.y, b.y) + Min(a.y + a.h, b.y + b.h)) / 2.0;
      assert InOpen(px, py, a) && InOpen(px, py, b);
    }
  }

  /** isColliding does not depend on the order of its arguments. */
  lemma CollidingSymmetric(a: Box, b: Box)
    ensures IsColliding(a, b) == IsColliding(b, a)
  {
  }

  /** Neither does isOverlapping, so a layout checked in one order is
      separated in both. */
  lemma OverlappingSymmetric(a: Box, b: Box)
    ensures IsOverlapping(a, b) == IsOverlapping(b, a)
  {
  }

  /** The placement test is the stricter one. */
  lemma OverlappingImpliesColliding(a: Box, b: Box)
    ensures IsOverlapping(a, b) ==> IsColliding(a, b)
  {
  }

  /** Two boxes side by side, sharing a piece of positive length of a
      vertical edge: they collide but do not overlap. */
  lemma SharedVerticalEdge(a: Box, b: Box)
    requires Proper(a) && Proper(b)
    requires b.x == a.x + a.w && Max(a.y, b.y) < Min(a.y + a.h, b.y + b.h)
    ensures IsColliding(a, b) && !IsOverlapping(a, b)
  {
  }

  /** One box directly below the other, sharing a piece of positive length
      of a horizontal edge. */
  lemma SharedHorizontalEdge(a: Box, b: Box)
    requires Proper(a) && Proper(b)
    requires b.y == a.y + a.h && Max(a.x, b.x) < Min(a.x + a.w, b.x + b.w)
    ensures IsColliding(a, b) && !IsOverlapping(a, b)
  {
  }

  /** Colliding without overlapping means the boxes meet on their borders
      only: some point is common to both closed boxes, none to both interiors. */
  lemma TouchingOnly(a: Box, b: Box)
    requires Proper(a) && Proper(b)
    requires IsColliding(a, b) && !IsOverlapping(a, b)
    ensures exists px: real, py: real :: InClosed(px, py, a) && InClosed(px, py, b)
    ensures forall px: real, py: real :: !(InOpen(px, py, a) && InOpen(px, py, b))
  {
    CollidingIffCommonPoint(a, b);
    OverlappingIffCommonInteriorPoint(a, b);
  }
}
