/** One game session (the globals of game.js): the player, the chaser, the
    hidden objects and the session state, with the operations that update
    them in place. */
module GameSession {
  import opened Geometry
  import opened Entities
  import opened Movement
  import opened Placement
  import opened Collisions

  /** The for-of loop of initGame: does c overlap any object placed so far? */
  method OverlapsAny(c: Box, placed: seq<HiddenObject>) returns (overlap: bool)
    ensures overlap <==> exists m :: 0 <= m < |placed| && IsOverlapping(c, placed[m].box)
  {
    overlap := false;
    var j := 0;
    while j < |placed|
      invariant 0 <= j <= |placed|
      invariant forall m :: 0 <= m < j ==> !IsOverlapping(c, placed[m].box)
    {
      if IsOverlapping(c, placed[j].box) {
        overlap := true;
        break;
      }
      j := j + 1;
    }
  }

  /** The retry loop of initGame: read draws from index `from` on until a
      candidate clears both start boxes and every placed object. Returns the
      accepted box and the index of the next unread draw; `found` is false
      when the draws run out first. */
  method FindPosition(draws: seq<Draw>, from: nat, placed: seq<HiddenObject>, n: nat,
                      width: real, height: real, player: Box, chaser: Box)
    returns (found: bool, box: Box, next: nat)
    requires ValidDraws(draws) && CanvasOk(width, height) && from <= |draws| && n > 0
    ensures from <= next <= |draws|
    ensures found ==> from < next && box == Candidate(draws[next - 1], width, height)
    ensures found ==> Accepts(box, placed, player, chaser)
    ensures found ==> Place(draws[from..], placed, n, width, height, player, chaser)
                      == Place(draws[next..], placed + [HiddenObject(box, false, Rock)], n - 1, width, height, player, chaser)
    ensures !found ==> Place(draws[from..], placed, n, width, height, player, chaser) == None
  {
    box := Box(0.0, 0.0, OBJECT_SIZE, OBJECT_SIZE);
    next := from;
    found := false;
    while !found
      invariant from <= next <= |draws|
      invariant box.w == OBJECT_SIZE && box.h == OBJECT_SIZE
      invariant !found ==> Place(draws[from..], placed, n, width, height, player, chaser)
                           == Place(draws[next..], placed, n, width, height, player, chaser)
      invariant found ==> from < next && box == Candidate(draws[next - 1], width, height)
      invariant found ==> Accepts(box, placed, player, chaser)
      invariant found ==> Place(draws[from..], placed, n, width, height, player, chaser)
                          == Place(draws[next - 1..], placed, n, width, height, player, chaser)
      decreases |draws| - next, if found then 0 else 1
    {
      if next == |draws| {
        return;
      }
      box := box.(x := Scaled(draws[next].u, width - box.w), y := Scaled(draws[next].v, height - box.h));
      assert box == Candidate(draws[next], width, height);
      assert draws[next..][1..] == draws[next + 1..];
      next := next + 1;

      if IsOverlapping(box, player) || IsOverlapping(box, chaser) {
        continue;
      }

      var overlap := OverlapsAny(box, placed);
      if !overlap {
        found := true;
      }
    }
    assert draws[next - 1..][1..] == draws[next..];
  }

  class Game {
    /** canvas.width and canvas.height, fixed by the page. */
    const width: real
    const height: real
    var player: Box
    var chaser: Box
    var objects: seq<HiddenObject>
    var state: GameState

    /** Sizes never change, and the player never leaves the canvas. */
    ghost predicate Valid()
      reads this
    {
      CanvasOk(width, height) &&
      player.w == PLAYER_SIZE && player.h == PLAYER_SIZE && OnCanvas(player, width, height) &&
      chaser.w == CHASER_SIZE && chaser.h == CHASER_SIZE
    }

    /** The page as loaded: title screen, player centred, chaser in the corner,
        no objects yet. */
    constructor (width: real, height: real)
      requires CanvasOk(width, height)
      ensures Valid()
      ensures this.width == width && this.height == height
      ensures state == Title && player == StartPlayer(width, height) && chaser == StartChaser() && objects == []
    {
      this.width := width;
      this.height := height;
      player := StartPlayer(width, height);
      chaser := StartChaser();
      objects := [];
      state := Title;
    }

    /** movePlayer: one step per held direction, then clamp to the canvas. */
    method MovePlayer(keys: Keys)
      requires Valid()
      modifies this`player
      ensures Valid()
      ensures player == Moved(old(player), keys, width, height)
    {
      if keys.up { player := player.(y := player.y - PLAYER_SPEED); }
      if keys.down { player := player.(y := player.y + PLAYER_SPEED); }
      if keys.left { player := player.(x := player.x - PLAYER_SPEED); }
      if keys.right { player := player.(x := player.x + PLAYER_SPEED); }

      player := player.(x := Max(0.0, Min(width - player.w, player.x)));
      player := player.(y := Max(0.0, Min(height - player.h, player.y)));
    }

    /** initGame: reset the player and the chaser, place NUM_OBJECTS objects by
        rejection sampling from the draws, then tag one as the beaver. When the
        draws run out before every object is placed, `complete` is false (the
        source would go on drawing). */
    method InitGame(draws: seq<Draw>, beaverDraw: real) returns (complete: bool)
      requires Valid() && ValidDraws(draws) && 0.0 <= beaverDraw < 1.0
      modifies this`player, this`chaser, this`objects
      ensures Valid()
      ensures player == StartPlayer(width, height) && chaser == StartChaser()
      ensures complete <==> InitialObjects(draws, beaverDraw, width, height).Some?
      ensures complete ==> objects == InitialObjects(draws, beaverDraw, width, height).value
      ensures complete ==> |objects| == NUM_OBJECTS && ExactlyOneBeaver(objects)
      ensures complete ==> forall i :: 0 <= i < |objects| ==>
        !objects[i].revealed && (objects[i].kind == Beaver <==> i == BeaverIndex(beaverDraw, NUM_OBJECTS))
      ensures Separated(objects, player, chaser) && OnField(objects, width, height)
    {
      player := player.(x := (width - player.w) / 2.0, y := (height - player.h) / 2.0);
      chaser := chaser.(x := 0.0, y := 0.0);

      ghost var goal := Place(draws, [], NUM_OBJECTS, width, height, player, chaser);
      objects := [];
      var k := 0;  // the next draw to read
      var i := 0;
      while i < NUM_OBJECTS
        invariant 0 <= i <= NUM_OBJECTS && 0 <= k <= |draws| && |objects| == i
        invariant player == StartPlayer(width, height) && chaser == StartChaser()
        invariant Place(draws[k..], objects, NUM_OBJECTS - i, width, height, player, chaser) == goal
        invariant Separated(objects, player, chaser) && OnField(objects, width, height) && HiddenRocks(objects)
      {
        var validPosition, box, next := FindPosition(draws, k, objects, NUM_OBJECTS - i, width, height, player, chaser);
        if !validPosition {
          complete := false;
          PlaceSound(draws, [], NUM_OBJECTS, width, height, player, chaser);
          return;
        }
        k := next;
        var obj := HiddenObject(box, false, Rock);
        AcceptedStaysSeparated(objects, obj, player, chaser, width, height);
        objects := objects + [obj];
        i := i + 1;
      }

      var beaverIndex := BeaverIndex(beaverDraw, |objects|);
      objects := objects[beaverIndex := objects[beaverIndex].(kind := Beaver)];
      complete := true;
      InitialLayout(draws, beaverDraw, width, height);
    }

    /** checkCollisions: uncover every hidden object the player touches; when
        one of them is the beaver, the game is won. */
    method CheckCollisions()
      modifies this`objects, this`state
      ensures objects == Reveal(old(objects), player)
      ensures state == (if FindsBeaver(old(objects), player) then Win else old(state))
    {
      var i := 0;
      while i < |objects|
        invariant 0 <= i <= |objects| == |old(objects)|
        invariant forall m :: 0 <= m < i ==> objects[m] == RevealOne(old(objects)[m], player)
        invariant forall m :: i <= m < |objects| ==> objects[m] == old(objects)[m]
        invariant state == (if FindsBeaver(old(objects)[..i], player) then Win else old(state))
      {
        FindsBeaverPrefix(old(objects), player, i);
        if !objects[i].revealed && IsColliding(player, objects[i].box) {
          objects := objects[i := objects[i].(revealed := true)];
          if objects[i].kind == Beaver {
            state := Win;
          }
        }
        i := i + 1;
      }
      assert old(objects)[..i] == old(objects);
    }

    /** checkChaserCollision: the game is lost when the chaser touches the player. */
    method CheckChaserCollision()
      modifies this`state
      ensures state == (if IsColliding(player, chaser) then GameOver else old(state))
    {
      if IsColliding(player, chaser) {
        state := GameOver;
      }
    }

    /** update: move the player, move the chaser (its new corner is given:
        the pursuit step is not modelled), check the objects, then the chaser. */
    method Update(keys: Keys, chaserX: real, chaserY: real)
      requires Valid()
      modifies this`player, this`chaser, this`objects, this`state
      ensures Valid()
      ensures player == Moved(old(player), keys, width, height)
      ensures chaser == old(chaser).(x := chaserX, y := chaserY)
      ensures objects == Reveal(old(objects), player)
      ensures state == FrameState(old(state), old(objects), player, chaser)
    {
      MovePlayer(keys);
      chaser := chaser.(x := chaserX, y := chaserY);
      CheckCollisions();
      CheckChaserCollision();
    }

    /** gameLoop: a frame runs (and the next one is requested) only while the
        game is being played. */
    method GameLoop(keys: Keys, chaserX: real, chaserY: real) returns (scheduled: bool)
      requires Valid()
      modifies this`player, this`chaser, this`objects, this`state
      ensures Valid()
      ensures scheduled <==> old(state) == Playing
      ensures !scheduled ==> unchanged(this)
      ensures scheduled ==>
        player == Moved(old(player), keys, width, height) &&
        chaser == old(chaser).(x := chaserX, y := chaserY) &&
        objects == Reveal(old(objects), player) &&
        state == FrameState(Playing, old(objects), player, chaser)
    {
      scheduled := state == Playing;
      if scheduled {
        Update(keys, chaserX, chaserY);
      }
    }

    /** startGame: with every image loaded, play, lay out a new game and run
        its first frame at once; otherwise nothing changes yet (the source
        polls again later). `placed` reports whether the layout finished. */
    method StartGame(imagesReady: bool, draws: seq<Draw>, beaverDraw: real,
                     keys: Keys, chaserX: real, chaserY: real) returns (placed: bool)
      requires Valid() && ValidDraws(draws) && 0.0 <= beaverDraw < 1.0
      modifies this`player, this`chaser, this`objects, this`state
      ensures Valid()
      ensures !imagesReady ==> !placed && unchanged(this)
      ensures imagesReady ==> (placed <==> InitialObjects(draws, beaverDraw, width, height).Some?)
      ensures imagesReady && !placed ==>
        state == Playing && player == StartPlayer(width, height) && chaser == StartChaser()
      ensures placed ==>
        var laidOut := InitialObjects(draws, beaverDraw, width, height).value;
        player == Moved(StartPlayer(width, height), keys, width, height) &&
        chaser == StartChaser().(x := chaserX, y := chaserY) &&
        objects == Reveal(laidOut, player) &&
        state == FrameState(Playing, laidOut, player, chaser)
    {
      placed := false;
      if imagesReady {
        state := Playing;
        placed := InitGame(draws, beaverDraw);
        if placed {
          var _ := GameLoop(keys, chaserX, chaserY);
        }
      }
    }

    /** resetGame: back to the title screen. */
    method ResetGame()
      modifies this`state
      ensures state == Title
    {
      state := Title;
    }

    /** The Enter key: start from the title screen, return to it from either
        end screen, and do nothing during play. */
    method PressEnter(imagesReady: bool, draws: seq<Draw>, beaverDraw: real,
                      keys: Keys, chaserX: real, chaserY: real)
      requires Valid() && ValidDraws(draws) && 0.0 <= beaverDraw < 1.0
      modifies this`player, this`chaser, this`objects, this`state
      ensures Valid()
      ensures old(state) == Playing ==> unchanged(this)
      ensures old(state) == Win || old(state) == GameOver ==>
        state == Title && unchanged(this`player, this`chaser, this`objects)
      ensures old(state) == Title ==> (state != Title <==> imagesReady)
      ensures old(state) == Title && !imagesReady ==> unchanged(this)
      ensures old(state) == Title && imagesReady && InitialObjects(draws, beaverDraw, width, height).Some? ==>
        var laidOut := InitialObjects(draws, beaverDraw, width, height).value;
        player == Moved(StartPlayer(width, height), keys, width, height) &&
        chaser == StartChaser().(x := chaserX, y := chaserY) &&
        objects == Reveal(laidOut, player) &&
        state == FrameState(Playing, laidOut, player, chaser)
    {
      if state == Title {
        var _ := StartGame(imagesReady, draws, beaverDraw, keys, chaserX, chaserY);
      } else if state == GameOver || state == Win {
        ResetGame();
      }
    }
  }
}
