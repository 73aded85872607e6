/** Object placement (game.js initGame): rejection sampling of NUM_OBJECTS
    boxes that overlap neither the player's nor the chaser's start box nor
    each other, then one object tagged as the beaver. Math.random() is
    replaced by a supplied sequence of draws, consumed in order. */
module Placement {
  import opened Geometry
  import opened Entities

  /** Two Math.random() values: u for the candidate's x, v for its y. */
  datatype Draw = Draw(u: real, v: real)

  /** What Math.random() promises: a value in [0, 1). */
  predicate ValidDraw(d: Draw) {
    0.0 <= d.u < 1.0 && 0.0 <= d.v < 1.0
  }

  predicate ValidDraws(draws: seq<Draw>) {
    forall k :: 0 <= k < |draws| ==> ValidDraw(draws[k])
  }

  /** A Math.random() value u scaled to a span: u * span, within [0, span]
      and below span when the span is not empty. */
  function Scaled(u: real, span: real): (r: real)
    requires 0.0 <= u < 1.0 && span >= 0.0
    ensures 0.0 <= r <= span
    ensures span > 0.0 ==> r < span
  {
    var r := u * span;
    assert span - r == (1.0 - u) * span;
    MulNonNegative(1.0 - u, span);
    MulNonNegative(u, span);
    r
  }

  /** The candidate box drawn from d: Math.random() * (canvas.width - obj.width). */
  function Candidate(d: Draw, width: real, height: real): (b: Box)
    requires ValidDraw(d) && CanvasOk(width, height)
    ensures b.w == OBJECT_SIZE && b.h == OBJECT_SIZE
    ensures OnCanvas(b, width, height)
  {
    Box(Scaled(d.u, width - OBJECT_SIZE), Scaled(d.v, height - OBJECT_SIZE), OBJECT_SIZE, OBJECT_SIZE)
  }

  lemma MulNonNegative(a: real, b: real)
    requires a >= 0.0 && b >= 0.0
    ensures a * b >= 0.0
    ensures a > 0.0 && b > 0.0 ==> a * b > 0.0
  {
  }

  /** The retry loop keeps candidate c: it overlaps neither start box nor any
      object placed so far. */
  predicate Accepts(c: Box, placed: seq<HiddenObject>, player: Box, chaser: Box)
    ensures Separated(placed, player, chaser) ==>
      (Accepts(c, placed, player, chaser) <==> Separated(placed + [HiddenObject(c, false, Rock)], player, chaser))
  {
    var ok := !IsOverlapping(c, player) && !IsOverlapping(c, chaser) &&
      forall m :: 0 <= m < |placed| ==> !IsOverlapping(c, placed[m].box);
    var next := placed + [HiddenObject(c, false, Rock)];
    assert next[|placed|].box == c;
    assert forall m :: 0 <= m < |placed| ==> next[m] == placed[m];
    ok
  }

  /** The objects after placing n more behind `placed`, reading the draws in
      order and keeping the first candidate that Accepts each time; None when
      the draws run out first (where the source keeps drawing). */
  function Place(draws: seq<Draw>, placed: seq<HiddenObject>, n: nat,
                 width: real, height: real, player: Box, chaser: Box): (r: Option<seq<HiddenObject>>)
    requires ValidDraws(draws) && CanvasOk(width, height)
    ensures r.Some? ==> |r.value| == |placed| + n && r.value[..|placed|] == placed
    ensures n == 0 ==> r == Some(placed)
    decreases |draws|
  {
    if n == 0 then Some(placed)
    else if draws == [] then None
    else
      var c := Candidate(draws[0], width, height);
      if Accepts(c, placed, player, chaser) then
        Place(draws[1..], placed + [HiddenObject(c, false, Rock)], n - 1, width, height, player, chaser)
      else
        Place(draws[1..], placed, n, width, height, player, chaser)
  }

  /** No two objects overlap, and none overlaps the player's or the chaser's box. */
  predicate Separated(objs: seq<HiddenObject>, player: Box, chaser: Box) {
    (forall i, j :: 0 <= i < j < |objs| ==> !IsOverlapping(objs[j].box, objs[i].box)) &&
    (forall i :: 0 <= i < |objs| ==> !IsOverlapping(objs[i].box, player) && !IsOverlapping(objs[i].box, chaser))
  }

  /** Every object is OBJECT_SIZE square and lies on the canvas. */
  predicate OnField(objs: seq<HiddenObject>, width: real, height: real) {
    forall i :: 0 <= i < |objs| ==>
      objs[i].box.w == OBJECT_SIZE && objs[i].box.h == OBJECT_SIZE && OnCanvas(objs[i].box, width, height)
  }

  /** Every object is a still hidden rock. */
  predicate HiddenRocks(objs: seq<HiddenObject>) {
    forall i :: 0 <= i < |objs| ==> !objs[i].revealed && objs[i].kind == Rock
  }

  /** Appending an accepted candidate keeps the placed objects separated. */
  lemma AcceptedStaysSeparated(placed: seq<HiddenObject>, obj: HiddenObject, player: Box, chaser: Box,
                               width: real, height: real)
    requires Separated(placed, player, chaser) && OnField(placed, width, height) && HiddenRocks(placed)
    requires Accepts(obj.box, placed, player, chaser)
    requires obj.box.w == OBJECT_SIZE && obj.box.h == OBJECT_SIZE && OnCanvas(obj.box, width, height)
    requires !obj.revealed && obj.kind == Rock
    ensures var next := placed + [obj];
      Separated(next, player, chaser) && OnField(next, width, height) && HiddenRocks(next)
  {
  }

  /** Placement keeps a separated, on-canvas set of hidden rocks so. */
  lemma {:induction false} PlaceSound(draws: seq<Draw>, placed: seq<HiddenObject>, n: nat,
                                      width: real, height: real, player: Box, chaser: Box)
    requires ValidDraws(draws) && CanvasOk(width, height)
    requires Separated(placed, player, chaser) && OnField(placed, width, height) && HiddenRocks(placed)
    ensures var r := Place(draws, placed, n, width, height, player, chaser);
      r.Some? ==> Separated(r.value, player, chaser) && OnField(r.value, width, height) && HiddenRocks(r.value)
    decreases |draws|
  {
    if n != 0 && draws != [] {
      var c := Candidate(draws[0], width, height);
      if Accepts(c, placed, player, chaser) {
        var next := placed + [HiddenObject(c, false, Rock)];
        AcceptedStaysSeparated(placed, next[|placed|], player, chaser, width, height);
        PlaceSound(draws[1..], next, n - 1, width, height, player, chaser);
      } else {
        PlaceSound(draws[1..], placed, n, width, height, player, chaser);
      }
    }
  }

  /** Math.floor(r * n) for a Math.random() value r: an index below n. */
  function BeaverIndex(r: real, n: nat): (k: int)
    requires 0.0 <= r < 1.0 && n > 0
    ensures 0 <= k < n
  {
    Scaled(r, n as real).Floor
  }

  /** All objects keep their type except the k-th, which becomes the beaver. */
  function TagBeaver(objs: seq<HiddenObject>, k: nat): (r: seq<HiddenObject>)
    requires k < |objs|
    ensures |r| == |objs|
    ensures forall i :: 0 <= i < |objs| ==>
      r[i].box == objs[i].box && r[i].revealed == objs[i].revealed &&
      r[i].kind == (if i == k then Beaver else objs[i].kind)
    ensures HiddenRocks(objs) ==> ExactlyOneBeaver(r)
  {
    var r := objs[k := objs[k].(kind := Beaver)];
    assert r[k].kind == Beaver;
    r
  }

  /** Exactly one object is the beaver; every other one is a rock. */
  predicate ExactlyOneBeaver(objs: seq<HiddenObject>) {
    exists b :: 0 <= b < |objs| && objs[b].kind == Beaver &&
      forall i :: 0 <= i < |objs| && i != b ==> objs[i].kind == Rock
  }

  /** The objects of a new game: NUM_OBJECTS placed from the draws around the
      start boxes, then the one at BeaverIndex(beaverDraw, ...) tagged. */
  function InitialObjects(draws: seq<Draw>, beaverDraw: real, width: real, height: real): (r: Option<seq<HiddenObject>>)
    requires ValidDraws(draws) && CanvasOk(width, height) && 0.0 <= beaverDraw < 1.0
    ensures r.Some? <==> Place(draws, [], NUM_OBJECTS, width, height, StartPlayer(width, height), StartChaser()).Some?
    ensures r.Some? ==> |r.value| == NUM_OBJECTS && r.value[BeaverIndex(beaverDraw, NUM_OBJECTS)].kind == Beaver
  {
    match Place(draws, [], NUM_OBJECTS, width, height, StartPlayer(width, height), StartChaser())
    case None => None
    case Some(objs) => Some(TagBeaver(objs, BeaverIndex(beaverDraw, |objs|)))
  }

  /** The layout of a new game: NUM_OBJECTS hidden objects of OBJECT_SIZE on
      the canvas, pairwise non-overlapping and clear of the start boxes, the
      drawn one the beaver and all others rocks. */
  lemma InitialLayout(draws: seq<Draw>, beaverDraw: real, width: real, height: real)
    requires ValidDraws(draws) && CanvasOk(width, height) && 0.0 <= beaverDraw < 1.0
    ensures var r := InitialObjects(draws, beaverDraw, width, height);
      r.Some? ==>
        |r.value| == NUM_OBJECTS &&
        Separated(r.value, StartPlayer(width, height), StartChaser()) &&
        OnField(r.value, width, height) &&
        (forall i :: 0 <= i < |r.value| ==> !r.value[i].revealed) &&
        (forall i :: 0 <= i < |r.value| ==> (r.value[i].kind == Beaver <==> i == BeaverIndex(beaverDraw, NUM_OBJECTS))) &&
        ExactlyOneBeaver(r.value)
  {
    var player, chaser := StartPlayer(width, height), StartChaser();
    PlaceSound(draws, [], NUM_OBJECTS, width, height, player, chaser);
    var placed := Place(draws, [], NUM_OBJECTS, width, height, player, chaser);
    if placed.Some? {
      var b := BeaverIndex(beaverDraw, NUM_OBJECTS);
      var objs := TagBeaver(placed.value, b);
      assert objs[b].kind == Beaver;
    }
  }
}
