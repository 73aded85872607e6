/** The game's records and constants: the player, the chaser, the hidden
    objects, the session state and the keyboard input of one frame. */
module Entities {
  import opened Geometry

  const PLAYER_SIZE: real := 20.0
  const PLAYER_SPEED: real := 5.0
  const CHASER_SIZE: real := 30.0
  const OBJECT_SIZE: real := 30.0
  const NUM_OBJECTS: nat := 10
  /** The canvas size comes from the page; the model asks for room for one object. */
  const MIN_CANVAS: real := 30.0

  datatype Option<T> = None | Some(value: T)

  /** The session state (game.js gameState). */
  datatype GameState = Title | Playing | Win | GameOver

  /** The type tag of a hidden object. */
  datatype Kind = Rock | Beaver

  /** A hidden object: its box, whether it has been uncovered, and its type. */
  datatype HiddenObject = HiddenObject(box: Box, revealed: bool, kind: Kind)

  /** The four directions held down during a frame: up is ArrowUp or w, down
      is ArrowDown or s, left is ArrowLeft or a, right is ArrowRight or d. */
  datatype Keys = Keys(up: bool, down: bool, left: bool, right: bool)

  predicate CanvasOk(width: real, height: real) {
    width >= MIN_CANVAS && height >= MIN_CANVAS
  }

  /** The player's box at the start of a game: centred on the canvas. */
  function StartPlayer(width: real, height: real): (p: Box)
    ensures p.w == PLAYER_SIZE && p.h == PLAYER_SIZE
    ensures p.x + p.w / 2.0 == width / 2.0 && p.y + p.h / 2.0 == height / 2.0
  {
    Box((width - PLAYER_SIZE) / 2.0, (height - PLAYER_SIZE) / 2.0, PLAYER_SIZE, PLAYER_SIZE)
  }

  /** The chaser's box at the start of a game: the top-left corner. */
  function StartChaser(): (c: Box)
    ensures c.x == 0.0 && c.y == 0.0 && c.w == CHASER_SIZE && c.h == CHASER_SIZE
  {
    Box(0.0, 0.0, CHASER_SIZE, CHASER_SIZE)
  }

  /** The box b lies on a width x height canvas. */
  predicate OnCanvas(b: Box, width: real, height: real) {
    0.0 <= b.x <= width - b.w && 0.0 <= b.y <= height - b.h
  }
}
