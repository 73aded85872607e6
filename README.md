# Find The Beaver — a Dafny model of the game logic

"Find The Beaver" is a small canvas game. The player is a 20×20 square
moved with the arrow keys or WASD. Ten 30×30 hidden objects are scattered
over the canvas, and exactly one of them is the beaver; touching an object
uncovers it. A 30×30 chaser starts in the top-left corner and pursues the
player. Uncovering the beaver wins. Being touched by the chaser loses. Enter
starts a game from the title screen and returns to it from either end
screen.

This project models the game logic of `game.js` without the browser:

- `geometry.dfy` (module `Geometry`): boxes and the two box tests.
  `IsColliding` counts touching edges as contact and is used during play.
  `IsOverlapping` does not, and is used for placement. Each is proved equal
  to a reference notion: a common point of the closed boxes, or a common
  interior point.
- `entities.dfy` (module `Entities`): the records, the constants (player 20,
  speed 5, chaser 30, object 30, ten objects) and the start boxes.
- `movement.dfy` (module `Movement`): `movePlayer` as a function `Moved`.
  It takes one step per held direction, then clamps each coordinate to the
  canvas.
- `placement.dfy` (module `Placement`): the rejection sampling of `initGame`
  as a function `Place` over a sequence of random draws, then the beaver tag.
  Lemmas prove that no two objects overlap, none overlaps a start box, all
  lie on the canvas, and exactly one is the beaver.
- `collisions.dfy` (module `Collisions`): `checkCollisions` as `Reveal`, and
  the state a frame ends in (`FrameState`). Lemmas prove that reveals are
  monotone and idempotent, and that being caught overrides finding the
  beaver.
- `game.dfy` (module `GameSession`): the class `Game`. It holds the canvas
  size, the player, the chaser, the objects and the session state. Its
  methods update them in place, as the source does:
  - `MovePlayer`, with its four sequential key tests;
  - `InitGame`, the `for` loop with the final beaver tag; its retry loop is
    the method `FindPosition`, and the inner for-of scan is `OverlapsAny`;
  - `CheckCollisions`, the in-place reveal loop;
  - `CheckChaserCollision`, `Update`, `GameLoop`, `StartGame`, `ResetGame`
    and `PressEnter`.

  Each method is proved against the functions above.

Inputs that the browser supplies become parameters:

- The canvas width and height come from the page. They are constructor
  arguments, with both at least 30.
- The keys held during a frame are four booleans (`Keys`).
- The readiness of the three images is one boolean, `imagesReady`.
- Every `Math.random()` pair used for a candidate position is a `Draw(u, v)`
  with `u, v` in [0, 1). The draws are consumed in order.
- The `Math.random()` value behind the beaver index is `beaverDraw`.
- The chaser's corner after its move in a frame is `(chaserX, chaserY)`.

Coordinates are exact reals, where the source uses doubles.

Three details of `game.js` shape the model:

- Enter on `win` or `gameOver` returns to `title` at once (`game.js:26-34`,
  `game.js:55-62`). Only the end-screen text waits for the one-second timer
  (`game.js:260-269`).
- The chaser-speed sync in the first `update` (`game.js:84-92`) never runs,
  because the second definition (`game.js:246-251`) shadows it. The model
  uses the second one.
- `startGame` calls `gameLoop()` directly (`game.js:48`), so the first frame
  runs inside the Enter press. `StartGame` includes that frame.

## Model

| member | source | states |
|---|---|---|
| `Geometry.IsColliding` | game.js:220-227 | for boxes of non-negative size, isColliding holds exactly when the boxes' x ranges and y ranges both intersect as closed intervals |
| `Geometry.IsOverlapping` | game.js:229-236 | for boxes of positive size, isOverlapping holds exactly when the x ranges and y ranges both intersect in an interval of positive length |
| `Geometry.CollidingIffCommonPoint` | game.js:220-227 | for boxes of non-negative size, isColliding holds exactly when some point lies in both closed boxes (touching edges included) |
| `Geometry.OverlappingIffCommonInteriorPoint` | game.js:229-236 | for boxes of positive size, isOverlapping holds exactly when some point lies in the interior of both boxes |
| `Geometry.CollidingSymmetric` | game.js:220-227 | isColliding does not depend on the order of its arguments |
| `Geometry.OverlappingSymmetric` | game.js:229-236 | isOverlapping does not depend on the order of its arguments |
| `Geometry.OverlappingImpliesColliding` | game.js:220-236 | every overlap is also a collision, so the placement test is the stricter one |
| `Geometry.SharedVerticalEdge` | game.js:220-236 | any two boxes side by side, the right one's left edge on the left one's right edge, whose vertical extents overlap in an interval of positive length, collide but do not overlap |
| `Geometry.SharedHorizontalEdge` | game.js:220-236 | any two stacked boxes, the lower one's top edge on the upper one's bottom edge, whose horizontal extents overlap in an interval of positive length, collide but do not overlap |
| `Geometry.TouchingOnly` | game.js:220-236 | colliding without overlapping means the closed boxes share a point and the interiors share none |
| `Entities.StartPlayer` | game.js:65-70 | the player starts as a 20×20 box centred on the canvas |
| `Entities.StartChaser` | game.js:75-79 | the chaser starts as a 30×30 box at the origin |
| `Movement.Step` | game.js:105-108 | the net step along one axis is 0 when both opposite keys or neither are held, and ±5 when exactly one is |
| `Movement.Clamp` | game.js:111-112 | Math.max(0, Math.min(hi, v)) lies in [0, hi] when hi ≥ 0, leaves a value already in range alone, and sends values below or above the range to 0 or hi |
| `Movement.Moved` | game.js:104-113 | after movePlayer the size is unchanged and 0 ≤ x ≤ W − width, 0 ≤ y ≤ H − height |
| `Movement.ClampIdempotent` | game.js:111-112 | clamping twice gives the same result as clamping once |
| `Movement.MoveSettles` | game.js:104-113 | a frame with no key held leaves a moved player in place |
| `Movement.OppositeKeysCancel` | game.js:105-112 | from a position on the canvas, holding both opposite keys of an axis, or neither, leaves that coordinate unchanged |
| `Movement.SingleKeyStep` | game.js:105-112 | each single direction moves the player by exactly the speed (5), or onto the canvas edge when the edge is nearer |
| `Movement.StepBounded` | game.js:104-113 | one frame moves the player by at most the speed along each axis |
| `Placement.Scaled` | game.js:160-161 | a Math.random() value times a span lies in [0, span] |
| `Placement.Candidate` | game.js:160-161 | every candidate is a 30×30 box lying on the canvas |
| `Placement.Accepts` | game.js:163-173 | given placed objects already separated from each other and from both start boxes, a candidate is accepted exactly when pushing it keeps them so |
| `Placement.Place` | game.js:150-177 | rejection sampling that succeeds adds exactly n objects after the ones already placed, and keeps those unchanged |
| `Placement.PlaceSound` | game.js:158-176 | placement keeps objects pairwise non-overlapping, clear of the player's and the chaser's boxes, 30×30 on the canvas, hidden and rocks |
| `Placement.BeaverIndex` | game.js:179 | Math.floor(Math.random() * n) is an index in [0, n) |
| `Placement.TagBeaver` | game.js:179-180 | tagging changes only the type of the object at the drawn index, which becomes the beaver; applied to hidden rocks it leaves exactly one beaver |
| `Placement.InitialObjects` | game.js:142-181 | a layout exists exactly when rejection sampling places all 10 objects; then it has 10 objects and the drawn index holds the beaver |
| `Placement.InitialLayout` | game.js:142-181 | a completed layout has exactly 10 unrevealed 30×30 objects on the canvas, pairwise non-overlapping and clear of both start boxes; the drawn index is the beaver and every other object is a rock |
| `Collisions.Uncovers` | game.js:203 | for boxes of non-negative size, an object is uncovered exactly when it is still hidden and some point lies in both its closed box and the player's |
| `Collisions.RevealOne` | game.js:203-204 | one object after the check keeps its box and type, and is revealed exactly when it was already revealed or touches the player |
| `Collisions.Reveal` | game.js:201-211 | checkCollisions handles each object independently and keeps the number of objects |
| `Collisions.FindsBeaver` | game.js:203-206 | a check wins exactly when some object of type beaver is hidden before it and revealed by it |
| `Collisions.FindsBeaverPrefix` | game.js:202-210 | scanning one more object finds the beaver exactly when the shorter scan did or that object is a hidden beaver the player touches |
| `Collisions.FrameState` | game.js:246-251 | a frame's state changes only to win or gameOver; win requires finding the beaver (or was already the state); touching the chaser always ends in gameOver |
| `Collisions.RevealMonotone` | game.js:201-211 | revealed objects stay revealed, every object the player touches becomes revealed, and no other object changes its flag |
| `Collisions.RevealIdempotent` | game.js:201-211 | a second check with the same player position changes no object |
| `Collisions.NoSecondWin` | game.js:201-211 | a second check with the same player position cannot trigger the win again |
| `Collisions.RevealKeepsLayout` | game.js:201-211 | reveals preserve non-overlap, the on-canvas sizes and positions, and the single beaver |
| `Collisions.CaughtBeatsFound` | game.js:246-251 | a frame that both uncovers the beaver and touches the chaser ends in gameOver |
| `Collisions.FrameOutcomes` | game.js:201-218 | from playing, a frame ends in win iff it finds the beaver without being caught, in gameOver iff caught, and otherwise stays playing |
| `Collisions.TouchingRockIsRevealed` | game.js:201-227 | a hidden rock that the player touches only on its border (any edge or corner), when the player touches no other object and not the chaser, is uncovered and the game goes on |
| `GameSession.FindPosition` | game.js:158-174 | the retry loop returns an accepted candidate built from the last draw it read, and the rest of the layout is Place on the remaining draws with that object pushed; when the draws run out, Place fails too |
| `GameSession.OverlapsAny` | game.js:165-171 | the for-of scan reports an overlap exactly when the candidate overlaps some placed object |
| `Placement.AcceptedStaysSeparated` | game.js:163-176 | pushing an accepted candidate keeps the placed objects separated, on the canvas, hidden and rocks |
| `GameSession.Game.constructor` | game.js:4-138 | the page starts on the title screen (game.js:4) with the player centred and the chaser at the origin (game.js:64-81) and no objects (game.js:138) |
| `GameSession.Game.MovePlayer` | game.js:104-113 | the new player box is Moved(old box, keys); only the player changes, and it stays on the canvas |
| `GameSession.Game.InitGame` | game.js:142-181 | player and chaser are reset; when the draws suffice, the objects are exactly InitialObjects (10 unrevealed, exactly one beaver at the drawn index); placed objects are always separated and on the canvas |
| `GameSession.Game.CheckCollisions` | game.js:201-211 | the objects become Reveal(old objects, player); the state becomes win exactly when a newly revealed object is the beaver, and is unchanged otherwise |
| `GameSession.Game.CheckChaserCollision` | game.js:213-218 | the state becomes gameOver exactly when player and chaser collide, and is unchanged otherwise |
| `GameSession.Game.Update` | game.js:246-251 | a frame moves the player, places the chaser, reveals against the moved player and ends in FrameState |
| `GameSession.Game.GameLoop` | game.js:238-244 | a frame runs, and the next is requested, exactly when the state is playing; otherwise nothing changes |
| `GameSession.Game.StartGame` | game.js:36-53 | with images not ready nothing changes; with them ready the state becomes playing, a new layout is made and its first frame runs |
| `GameSession.Game.ResetGame` | game.js:55-62 | the state returns to title |
| `GameSession.Game.PressEnter` | game.js:26-34 | Enter on title starts the game only when all images are ready; on win or gameOver it returns to title and changes nothing else; while playing it changes nothing |

## Left out

- Rendering: `drawPlayer`, `drawChaser`, `drawObjects`, `render` and the canvas calls (game.js:129-136, 183-199, 253-258) only draw the state.
- DOM text and visibility in `startGame`, `resetGame` and `showEndScreen`, and the one-second timer of `showEndScreen` (game.js:260-269), are display only. A later timer that overwrites the title text after an early Enter does not change `gameState`.
- Image loading and the `onerror` logging (game.js:6-23) are reduced to one `imagesReady` boolean.
- The 100 ms retry poll of `startGame` (game.js:51) is left out. With images not ready, `StartGame` changes nothing, and a later poll is another call. Several polls started by repeated Enter presses could later start the game more than once; the model does not capture this.
- The keyboard listeners (game.js:94-102) become the `Keys` argument of each frame.
- `moveChaser` (game.js:115-127) normalises with `Math.sqrt` and floating-point division, which have no exact counterpart here. The chaser's corner after each frame is an input, so the chaser's speed field and the pursuit property are not modelled.
- `requestAnimationFrame` (game.js:240) is not modelled as a callback. `GameLoop` returns whether it would schedule the next frame, and the caller runs the next frame.
- `Math.random()` (game.js:160-161, 179) is replaced by the supplied `draws` and `beaverDraw`.
- The player's colour (game.js:71) is not modelled.
- Objects are values in a sequence, not shared JS objects; the source never aliases them.
- Double-precision rounding is not modelled: coordinates are exact reals.
- GameSession.Game.InitGame: the source's retry loop has no bound (game.js:159-174). The model reads a finite sequence of draws, and when they run out it stops with `complete == false` and the objects placed so far, where the source would keep drawing. In that case no beaver is tagged and fewer than 10 objects exist, but those placed are still separated and on the canvas.
- GameSession.Game.StartGame: when the draws run out during the layout, no first frame runs. The state is left at playing, and the player and chaser at their start boxes.
- The first, shadowed `update` (game.js:84-92) is dead code.
