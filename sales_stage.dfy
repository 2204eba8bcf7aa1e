/**
 * The sales stage object: the snake game's fields, updated in place, with
 * score and awareness changed only through the orchestrator it holds.  Each
 * method is proved to leave the fields and the session record exactly as
 * the matching function of SnakeRules says.
 */
module Sales {
  import opened Options
  import opened SessionRules
  import opened SnakeRules
  import opened Arcade

  /**
   * The `do ... while` loop of `spawnPickup`, over a finite supply of draws:
   * the first drawn cell that is off the snake, or `None` if the supply runs
   * out first.
   */
  method SampleFreeCell(cells: seq<CellDraw>, snake: seq<Point>) returns (cell: Option<Point>)
    requires FairCells(cells)
    ensures cell == FirstFree(cells, snake)
    ensures cell.Some? ==> InBounds(cell.value) && cell.value !in snake
  {
    var i := 0;
    while i < |cells|
      invariant 0 <= i <= |cells|
      invariant FirstFree(cells[i..], snake) == FirstFree(cells, snake)
    {
      assert cells[i..][1..] == cells[i + 1..];
      var p := DrawnCell(cells[i]);
      if p !in snake {
        return Some(p);
      }
      i := i + 1;
    }
    return None;
  }

  /**
   * The first part of `handleWallCollision`: push each of left, right, up
   * and down unless it reverses the heading.
   */
  method CollectSafeDirections(direction: Point) returns (safeDirections: seq<Point>)
    ensures safeDirections == SafeDirections(direction)
  {
    safeDirections := [];
    if direction.x != 1 { safeDirections := safeDirections + [Point(-1, 0)]; }
    if direction.x != -1 { safeDirections := safeDirections + [Point(1, 0)]; }
    if direction.y != 1 { safeDirections := safeDirections + [Point(0, -1)]; }
    if direction.y != -1 { safeDirections := safeDirections + [Point(0, 1)]; }
  }

  class SalesStage {
    const game: SweetwaterArcade

    var snake: seq<Point>
    var direction: Point
    var nextDirection: Point
    var pickup: Option<Pickup>
    var gameRunning: bool
    var gameSpeed: int
    /** The "Preferred" and "Neutral" counters the stage shows. */
    var preferredCount: nat
    var neutralCount: nat
    /** The symbols each persona's preferred pickups are drawn from. */
    const personaPickups: map<string, seq<string>>

    /** The stage's fields as a value. */
    function Model(): SnakeState
      reads this
    {
      SnakeState(snake, direction, nextDirection, pickup, gameSpeed, gameRunning, preferredCount, neutralCount, personaPickups)
    }

    predicate Valid()
      reads this
    {
      Inv(Model())
    }

    constructor (game: SweetwaterArcade)
      ensures this.game == game
      ensures Model() == Fresh && Valid()
    {
      this.game := game;
      snake := [];
      direction := Right;
      nextDirection := Right;
      pickup := None;
      gameRunning := false;
      gameSpeed := 250;
      preferredCount := 0;
      neutralCount := 0;
      personaPickups := PersonaPickups;
      new;
      FreshIsValid();
    }

    /**
     * `start`: the stage's markup resets both counters, then
     * `initSnakeGame` runs.  `stalled` reports a spawn loop that ran out of
     * draws.
     */
    method Start(d: Draws) returns (stalled: bool)
      requires Valid() && Fair(d)
      modifies this
      ensures Valid()
      ensures Step(Model(), game.State(), stalled)
              == InitGame(old(Model()).(preferredCount := 0, neutralCount := 0), game.State(), d)
    {
      preferredCount := 0;
      neutralCount := 0;
      stalled := InitSnakeGame(d);
    }

    /** `initSnakeGame`: the start snake heading right, a pickup, then the game loop runs. */
    method InitSnakeGame(d: Draws) returns (stalled: bool)
      requires Valid() && Fair(d)
      modifies this
      ensures Valid()
      ensures Step(Model(), game.State(), stalled) == InitGame(old(Model()), game.State(), d)
    {
      snake := [Point(10, 6), Point(9, 6), Point(8, 6)];
      direction := Right;
      nextDirection := Right;
      assert Model() == old(Model()).(snake := StartSnake, direction := Right, nextDirection := Right);
      var spawned := SpawnPickup(d);
      if !spawned {
        return true;
      }
      gameRunning := true;
      stalled := false;
    }

    /** `spawnPickup`; on `false` the draws ran out and nothing changed. */
    method SpawnPickup(d: Draws) returns (spawned: bool)
      requires TableOk(personaPickups) && Fair(d)
      modifies this`pickup
      ensures spawned == Spawn(personaPickups, snake, game.currentPersona, d).Some?
      ensures pickup == if spawned then Spawn(personaPickups, snake, game.currentPersona, d) else old(pickup)
    {
      var cell := SampleFreeCell(d.cells, snake);
      if cell.None? {
        return false;
      }
      var isPreferred := d.coin < 0.3;
      var symbols := SymbolsFor(personaPickups, game.currentPersona, isPreferred);
      pickup := Some(Pickup(cell.value, isPreferred, symbols[PickIndex(d.symbol, |symbols|)]));
      spawned := true;
    }

    /** `updateSnake`: one tick. */
    method UpdateSnake(d: Draws) returns (stalled: bool)
      requires Valid() && Fair(d)
      modifies this, game
      ensures Valid()
      ensures Step(Model(), game.State(), stalled) == Tick(old(Model()), old(game.State()), d)
      ensures game.currentStage == old(game.currentStage)
    {
      if !gameRunning {
        return false;
      }
      direction := nextDirection;
      ghost var committed, g := Model(), game.State();
      assert g == old(game.State());
      var head := Add(snake[0], direction);
      if !InBounds(head) {
        assert Tick(old(Model()), g, d) == WallHit(committed, g, d.turn);
        HandleWallCollision(d.turn);
        return false;
      }
      if head in snake {
        assert Tick(old(Model()), g, d) == BodyHit(committed, g);
        HandleSelfCollision();
        return false;
      }
      assert Tick(old(Model()), g, d) == Advance(committed, g, d, head);
      stalled := MoveHead(head, d);
    }

    /** The rest of `updateSnake` once `head` is on the board and off the body. */
    method MoveHead(head: Point, d: Draws) returns (stalled: bool)
      requires Valid() && Fair(d) && gameRunning && InBounds(head) && head !in snake
      modifies this, game
      ensures Valid()
      ensures Step(Model(), game.State(), stalled) == Advance(old(Model()), old(game.State()), d, head)
      ensures game.currentStage == old(game.currentStage)
    {
      snake := [head] + snake;
      assert Model() == old(Model()).(snake := [head] + old(snake));
      if pickup.Some? && head == pickup.value.cell {
        AdvanceCollects(old(Model()), old(game.State()), d, head);
        stalled := CollectPickup(d);
      } else {
        AdvanceClears(old(Model()), old(game.State()), d, head);
        snake := snake[..|snake| - 1];
        stalled := false;
      }
    }

    /** `collectPickup`, with the head already on the pickup. */
    method CollectPickup(d: Draws) returns (stalled: bool)
      requires Valid() && Fair(d) && pickup.Some?
      modifies this, game
      ensures Valid()
      ensures Step(Model(), game.State(), stalled) == Collect(old(Model()), old(game.State()), d)
      ensures game.currentStage == old(game.currentStage)
    {
      var preferred := pickup.value.preferred;
      var points := if preferred then 100 else 25;
      game.AddScore(points);
      if preferred {
        game.UpdateAwareness(0.1);
      }
      if preferred {
        preferredCount := preferredCount + 1;
      } else {
        neutralCount := neutralCount + 1;
      }
      ghost var counted, rewarded := Model(), game.State();
      assert counted == Tally(old(Model()), preferred);
      assert rewarded == Reward(old(game.State()), preferred);
      var spawned := SpawnPickup(d);
      if !spawned {
        return true;
      }
      if gameSpeed > 120 {
        gameSpeed := gameSpeed - 3;
      }
      stalled := false;
    }

    /** `handleWallCollision`, after the direction is committed. */
    method HandleWallCollision(turnDraw: real)
      requires Valid() && snake != [] && UnitDraw(turnDraw)
      modifies this, game
      ensures Valid()
      ensures Step(Model(), game.State(), false) == WallHit(old(Model()), old(game.State()), turnDraw)
      ensures game.currentStage == old(game.currentStage)
    {
      var safeDirections := CollectSafeDirections(direction);
      var newDirection := safeDirections[PickIndex(turnDraw, |safeDirections|)];
      nextDirection := newDirection;
      var newHead := Add(snake[0], newDirection);
      if InBounds(newHead) {
        snake := [newHead] + snake;
        snake := snake[..|snake| - 1];
        assert snake == [newHead] + old(snake)[..|old(snake)| - 1];
      }
      assert Model() == WallHit(old(Model()), old(game.State()), turnDraw).board;
      game.UpdateAwareness(-0.05);
    }

    /** `handleSelfCollision`. */
    method HandleSelfCollision()
      requires Valid() && snake != []
      modifies this, game
      ensures Valid()
      ensures Step(Model(), game.State(), false) == BodyHit(old(Model()), old(game.State()))
      ensures game.currentStage == old(game.currentStage)
    {
      if game.awareness < 0.5 {
        GameOver();
        return;
      }
      game.UpdateAwareness(-0.2);
      if |snake| > 3 {
        snake := snake[..|snake| - 1];
      }
    }

    /** `gameOver`: the game loop stops. */
    method GameOver()
      modifies this`gameRunning
      ensures Model() == EndGame(old(Model()))
    {
      gameRunning := false;
    }

    /** The stage's key handler, for a directional key. */
    method HandleKey(intent: Intent)
      requires Valid()
      modifies this`nextDirection
      ensures Valid()
      ensures Model() == old(Model()).(nextDirection := BufferTurn(old(Model()), intent))
    {
      if !gameRunning {
        return;
      }
      match intent
      case TurnUp =>
        if direction.y == 0 { nextDirection := Point(0, -1); }
      case TurnDown =>
        if direction.y == 0 { nextDirection := Point(0, 1); }
      case TurnLeft =>
        if direction.x == 0 { nextDirection := Point(-1, 0); }
      case TurnRight =>
        if direction.x == 0 { nextDirection := Point(1, 0); }
    }
  }
}
