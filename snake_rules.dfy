/**
 * The sales stage's snake simulation as values: the stage's fields as one
 * record, and one function per step of the tick (commit the buffered
 * direction, then a wall hit, a body hit or a clear move, the last possibly
 * collecting the pickup).  Every `Math.random()` the stage calls is a real
 * draw in [0, 1) handed in by the caller.
 */
module SnakeRules {
  import opened Options
  import opened SessionRules

  const Width: int := 20
  const Height: int := 12
  /** The self-collision penalty never shrinks the snake below this length. */
  const MinLength: nat := 3
  /** Milliseconds between ticks when the stage object is created. */
  const InitialSpeed: int := 250
  /** Collections speed the game up only while the interval is above this ... */
  const SpeedThreshold: int := 120
  const SpeedStep: int := 3
  /** ... so the interval stops at 118, the first value of 250 - 3k not above 120. */
  const SpeedFloor: int := 118
  const PreferredPoints: int := 100
  const NeutralPoints: int := 25
  const PreferredChance: real := 0.3
  const PreferredBonus: real := 0.1
  const WallPenalty: real := -0.05
  const CollisionPenalty: real := -0.2
  /** Below this awareness a body hit ends the game. */
  const GameOverThreshold: real := 0.5

  /** A grid cell, or a direction (a step of at most one cell along each axis). */
  datatype Point = Point(x: int, y: int)

  const Left: Point := Point(-1, 0)
  const Right: Point := Point(1, 0)
  const Up: Point := Point(0, -1)
  const Down: Point := Point(0, 1)

  function Add(p: Point, d: Point): Point
  {
    Point(p.x + d.x, p.y + d.y)
  }

  predicate InBounds(p: Point)
  {
    0 <= p.x < Width && 0 <= p.y < Height
  }

  predicate IsUnit(d: Point)
  {
    d == Left || d == Right || d == Up || d == Down
  }

  function Reverse(d: Point): Point
  {
    Point(-d.x, -d.y)
  }

  predicate Perpendicular(a: Point, b: Point)
  {
    a.x * b.x + a.y * b.y == 0
  }

  /** For unit directions, perpendicular means one is horizontal and the other vertical. */
  lemma UnitPerpendicular(a: Point, d: Point)
    requires IsUnit(a) && IsUnit(d)
    ensures Perpendicular(a, d) <==> (if a.x == 0 then d.y == 0 else d.x == 0)
  {
  }

  /** A directional key press (W/A/S/D or the arrow keys). */
  datatype Intent = TurnUp | TurnDown | TurnLeft | TurnRight

  function IntentDirection(intent: Intent): Point
  {
    match intent
    case TurnUp => Up
    case TurnDown => Down
    case TurnLeft => Left
    case TurnRight => Right
  }

  datatype Pickup = Pickup(cell: Point, preferred: bool, symbol: string)

  /**
   * The fields of the sales stage that the simulation reads and writes,
   * with the persona symbol table the constructor installs.
   */
  datatype SnakeState = SnakeState(
    snake: seq<Point>,
    direction: Point,
    nextDirection: Point,
    pickup: Option<Pickup>,
    gameSpeed: int,
    gameRunning: bool,
    preferredCount: nat,
    neutralCount: nat,
    personaPickups: map<string, seq<string>>)

  /** The stage as its constructor leaves it. */
  const Fresh: SnakeState := SnakeState([], Right, Right, None, InitialSpeed, false, 0, 0, PersonaPickups)

  /** The snake `initSnakeGame` places in the middle of the board, head first. */
  const StartSnake: seq<Point> := [Point(10, 6), Point(9, 6), Point(8, 6)]

  /**
   * What holds of the stage between any two of its operations.  Cells need
   * not be distinct: a wall turn may put the head on the body.
   */
  predicate Inv(b: SnakeState)
  {
    && (MinLength <= |b.snake| || (b.snake == [] && !b.gameRunning))
    && (forall c :: c in b.snake ==> InBounds(c))
    && (b.pickup.Some? ==> InBounds(b.pickup.value.cell))
    && IsUnit(b.direction) && IsUnit(b.nextDirection)
    && b.nextDirection != Reverse(b.direction)
    && SpeedFloor <= b.gameSpeed <= InitialSpeed
    && TableOk(b.personaPickups)
  }

  /** Committing the buffered heading keeps the invariant: a unit vector is not its own reverse. */
  lemma CommitKeepsInv(b: SnakeState)
    requires Inv(b)
    ensures Inv(b.(direction := b.nextDirection))
  {
  }

  lemma FreshIsValid()
    ensures Inv(Fresh)
  {
    PersonaPickupsAreFull();
  }

  /** A draw of `Math.random()`. */
  predicate UnitDraw(r: real)
  {
    0.0 <= r < 1.0
  }

  /** The two draws of one pass of the spawn loop: column, then row. */
  datatype CellDraw = CellDraw(x: real, y: real)

  /**
   * The draws one tick may consume: the wall-turn choice, the spawn loop's
   * successive cell draws, the preferred coin and the symbol choice.
   */
  datatype Draws = Draws(turn: real, cells: seq<CellDraw>, coin: real, symbol: real)

  predicate FairCells(cells: seq<CellDraw>)
  {
    forall c :: c in cells ==> UnitDraw(c.x) && UnitDraw(c.y)
  }

  predicate Fair(d: Draws)
  {
    UnitDraw(d.turn) && FairCells(d.cells) && UnitDraw(d.coin) && UnitDraw(d.symbol)
  }

  /**
   * What a tick produces: the new stage fields, the new session record, and
   * whether the spawn loop ran out of draws.  A stalled step is the state the
   * original holds while still resampling: the rewards are applied, the old
   * pickup is still set and the speed is not yet lowered.
   */
  datatype Step = Step(board: SnakeState, state: GameState, stalled: bool)

  // ---------------------------------------------------------------------
  // Pickups

  const NeutralPickups: seq<string> := ["\U{1F3B5}", "\U{1F3B6}", "\U{1F3BC}", "\U{1F3A4}"]

  const PersonaPickups: map<string, seq<string>> := map[
    "bedroom_producer" := ["\U{1F39B}\U{FE0F}", "\U{1F3A7}", "\U{1F4BB}", "\U{1F3B9}"],
    "touring_pro" := ["\U{1F3B8}", "\U{1F3A4}", "\U{1F50C}", "\U{1F4FB}"],
    "choir_director" := ["\U{1F3A4}", "\U{1F4E2}", "\U{1F3B5}", "\U{1F3BC}"],
    "studio_engineer" := ["\U{1F39B}\U{FE0F}", "\U{1F50A}", "\U{1F4E1}", "\U{1F39A}\U{FE0F}"]
  ]

  /** Every list of a symbol table has a symbol to draw. */
  predicate TableOk(table: map<string, seq<string>>)
  {
    forall id :: id in table ==> table[id] != []
  }

  /** The constructor's table has four symbols for each of the four personas. */
  lemma PersonaPickupsAreFull()
    ensures TableOk(PersonaPickups)
    ensures forall id :: id in PersonaPickups ==> |PersonaPickups[id]| == 4
  {
  }

  /**
   * The list a pickup's symbol is drawn from: the active persona's own list
   * for a preferred pickup; the neutral list for a neutral pickup, when no
   * persona is active, or when the persona's id has no list.
   */
  function SymbolsFor(table: map<string, seq<string>>, persona: Option<Persona>, preferred: bool): (symbols: seq<string>)
    requires TableOk(table)
    ensures symbols != []
    ensures preferred && persona.Some? && persona.value.personaId in table
            ==> symbols == table[persona.value.personaId]
    ensures !preferred || persona.None? || persona.value.personaId !in table
            ==> symbols == NeutralPickups
  {
    if preferred && persona.Some? && persona.value.personaId in table
    then table[persona.value.personaId]
    else NeutralPickups
  }

  /** The cell one pass of the spawn loop draws. */
  function DrawnCell(c: CellDraw): (p: Point)
    requires UnitDraw(c.x) && UnitDraw(c.y)
    ensures InBounds(p)
  {
    Point(PickIndex(c.x, Width as nat), PickIndex(c.y, Height as nat))
  }

  /**
   * The rejection loop of `spawnPickup`: the first drawn cell that is not a
   * snake cell, or `None` when the draws run out first.
   */
  function FirstFree(cells: seq<CellDraw>, snake: seq<Point>): (r: Option<Point>)
    requires FairCells(cells)
    ensures r.Some? ==> InBounds(r.value) && r.value !in snake
    ensures r.Some? ==> exists i :: 0 <= i < |cells| && r.value == DrawnCell(cells[i])
                                   && forall j :: 0 <= j < i ==> DrawnCell(cells[j]) in snake
    ensures r.None? ==> forall i :: 0 <= i < |cells| ==> DrawnCell(cells[i]) in snake
    decreases |cells|
  {
    if cells == [] then None
    else
      var p := DrawnCell(cells[0]);
      if p !in snake then Some(p)
      else
        var r := FirstFree(cells[1..], snake);
        assert forall i :: 1 <= i < |cells| ==> cells[i] == cells[1..][i - 1];
        r
  }

  /** `spawnPickup`: a free cell, a 30% preferred coin, and a symbol from `SymbolsFor`. */
  function Spawn(table: map<string, seq<string>>, snake: seq<Point>, persona: Option<Persona>, d: Draws): (r: Option<Pickup>)
    requires TableOk(table) && Fair(d)
    ensures r.Some? ==> InBounds(r.value.cell) && r.value.cell !in snake
    ensures r.Some? ==> (r.value.preferred <==> d.coin < PreferredChance)
    ensures r.Some? ==> r.value.symbol in SymbolsFor(table, persona, r.value.preferred)
    ensures r.None? <==> forall i :: 0 <= i < |d.cells| ==> DrawnCell(d.cells[i]) in snake
  {
    match FirstFree(d.cells, snake)
    case None => None
    case Some(cell) =>
      var preferred := d.coin < PreferredChance;
      var symbols := SymbolsFor(table, persona, preferred);
      Some(Pickup(cell, preferred, symbols[PickIndex(d.symbol, |symbols|)]))
  }

  /** The speed-up after a collection. */
  function NextSpeed(speed: int): (r: int)
    ensures r <= speed && speed - r <= SpeedStep
    ensures SpeedFloor <= speed ==> SpeedFloor <= r
    ensures r < speed <==> SpeedThreshold < speed
    ensures SpeedThreshold < speed ==> r == speed - SpeedStep
  {
    if speed > SpeedThreshold then speed - SpeedStep else speed
  }

  /** The interval after `n` collections in one stage object. */
  function SpeedAfter(n: nat): int
  {
    if n == 0 then InitialSpeed else NextSpeed(SpeedAfter(n - 1))
  }

  /** 250 drops by 3 per collection until it reaches 118 after 44 of them, then stays. */
  lemma {:induction false} SpeedSchedule(n: nat)
    ensures SpeedAfter(n) == if n <= 44 then InitialSpeed - SpeedStep * n else SpeedFloor
  {
    if n > 0 {
      SpeedSchedule(n - 1);
    }
  }

  // ---------------------------------------------------------------------
  // Direction

  /**
   * The directions `handleWallCollision` may turn to, in the order it
   * pushes them: left, right, up, down, minus the reverse of the heading.
   */
  function SafeDirections(d: Point): (safe: seq<Point>)
    ensures IsUnit(d) ==> |safe| == 3
    ensures forall e :: e in safe ==> IsUnit(e) && e != Reverse(d)
    ensures IsUnit(d) ==> forall e :: IsUnit(e) && e != Reverse(d) ==> e in safe
  {
    (if d.x != 1 then [Left] else [])
    + (if d.x != -1 then [Right] else [])
    + (if d.y != 1 then [Up] else [])
    + (if d.y != -1 then [Down] else [])
  }

  /**
   * The key handler: while the game runs, a vertical turn is buffered only
   * when the heading is horizontal and a horizontal turn only when it is
   * vertical; everything else leaves the buffered direction as it was.
   */
  function BufferTurn(b: SnakeState, intent: Intent): (next: Point)
    requires Inv(b)
    ensures Inv(b.(nextDirection := next))
    ensures next == (if b.gameRunning && Perpendicular(IntentDirection(intent), b.direction)
                     then IntentDirection(intent) else b.nextDirection)
  {
    UnitPerpendicular(IntentDirection(intent), b.direction);
    if !b.gameRunning then b.nextDirection
    else
      match intent
      case TurnUp => if b.direction.y == 0 then Up else b.nextDirection
      case TurnDown => if b.direction.y == 0 then Down else b.nextDirection
      case TurnLeft => if b.direction.x == 0 then Left else b.nextDirection
      case TurnRight => if b.direction.x == 0 then Right else b.nextDirection
  }

  // ---------------------------------------------------------------------
  // The tick

  /** The cell the head moves to when the buffered direction is committed. */
  function Candidate(b: SnakeState): Point
    requires b.snake != []
  {
    Add(b.snake[0], b.nextDirection)
  }

  /**
   * `handleWallCollision` (the direction is already committed): turn to a
   * safe direction, step there if that cell is on the board, keep the
   * length, and lose 0.05 awareness.  The new head is not checked against
   * the body or the pickup.
   */
  function WallHit(b: SnakeState, g: GameState, turnDraw: real): (r: Step)
    requires Inv(b) && b.snake != [] && UnitDraw(turnDraw)
    ensures Inv(r.board) && !r.stalled
    ensures r.board.nextDirection == SafeDirections(b.direction)[PickIndex(turnDraw, |SafeDirections(b.direction)|)]
    ensures |r.board.snake| == |b.snake|
    ensures var turned := Add(b.snake[0], r.board.nextDirection);
      r.board.snake == if InBounds(turned) then [turned] + b.snake[..|b.snake| - 1] else b.snake
    ensures r.board == b.(snake := r.board.snake, nextDirection := r.board.nextDirection)
    ensures r.state == g.(awareness := CapAwareness(g.awareness, WallPenalty))
  {
    var safe := SafeDirections(b.direction);
    var turn := safe[PickIndex(turnDraw, |safe|)];
    var newHead := Add(b.snake[0], turn);
    var snake := if InBounds(newHead) then [newHead] + b.snake[..|b.snake| - 1] else b.snake;
    Step(b.(snake := snake, nextDirection := turn), g.(awareness := CapAwareness(g.awareness, WallPenalty)), false)
  }

  /** `gameOver`: the simulation stops; nothing else changes. */
  function EndGame(b: SnakeState): SnakeState
  {
    b.(gameRunning := false)
  }

  /**
   * `handleSelfCollision`: below 0.5 awareness the game ends; otherwise
   * lose 0.2 awareness and, while longer than 3, the tail.  The head never
   * moves.
   */
  function BodyHit(b: SnakeState, g: GameState): (r: Step)
    requires Inv(b) && b.snake != []
    ensures Inv(r.board) && !r.stalled
    ensures r.board.snake != [] && r.board.snake[0] == b.snake[0]
    ensures r.board == b.(snake := r.board.snake, gameRunning := r.board.gameRunning)
    ensures r.state == g || r.state == g.(awareness := CapAwareness(g.awareness, CollisionPenalty))
    ensures GameOverThreshold <= g.awareness ==>
              r.board.snake == if |b.snake| > MinLength then b.snake[..|b.snake| - 1] else b.snake
  {
    if g.awareness < GameOverThreshold then
      Step(EndGame(b), g, false)
    else
      var snake := if |b.snake| > MinLength then b.snake[..|b.snake| - 1] else b.snake;
      Step(b.(snake := snake), g.(awareness := CapAwareness(g.awareness, CollisionPenalty)), false)
  }

  /**
   * `collectPickup` (the head is already on the pickup and the tail kept):
   * score 100 or 25 scaled by awareness, 0.1 awareness for a preferred
   * pickup, the matching counter, a fresh pickup, then one speed step.
   */
  function Collect(b: SnakeState, g: GameState, d: Draws): (r: Step)
    requires Inv(b) && b.pickup.Some? && Fair(d)
    ensures Inv(r.board)
    ensures r.board.snake == b.snake && r.board.direction == b.direction
    ensures r.board.nextDirection == b.nextDirection && r.board.gameRunning == b.gameRunning
    ensures SpeedFloor <= r.board.gameSpeed <= b.gameSpeed
    ensures r.state.timer == g.timer && r.state.currentPersona == g.currentPersona
    ensures g.awareness <= MaxAwareness ==> r.state.awareness <= MaxAwareness
  {
    var preferred := b.pickup.value.preferred;
    var b1 := Tally(b, preferred);
    var g1 := Reward(g, preferred);
    match Spawn(b1.personaPickups, b1.snake, g1.currentPersona, d)
    case None => Step(b1, g1, true)
    case Some(p) => Step(b1.(pickup := Some(p), gameSpeed := NextSpeed(b1.gameSpeed)), g1, false)
  }

  /** The counter a collected pickup bumps. */
  function Tally(b: SnakeState, preferred: bool): SnakeState
  {
    if preferred then b.(preferredCount := b.preferredCount + 1) else b.(neutralCount := b.neutralCount + 1)
  }

  /** The reward for a collected pickup: scaled points, then the capped bonus for a preferred one. */
  function Reward(g: GameState, preferred: bool): GameState
  {
    var g1 := g.(score := g.score + ScoreGain(if preferred then PreferredPoints else NeutralPoints, g.awareness));
    if preferred then g1.(awareness := CapAwareness(g1.awareness, PreferredBonus)) else g1
  }

  /** `updateSnake`: one tick of the simulation. */
  function Tick(b: SnakeState, g: GameState, d: Draws): (r: Step)
    requires Inv(b) && Fair(d)
    ensures Inv(r.board)
    ensures SpeedFloor <= r.board.gameSpeed <= b.gameSpeed
    ensures r.state.timer == g.timer && r.state.currentPersona == g.currentPersona
    ensures g.awareness <= MaxAwareness ==> r.state.awareness <= MaxAwareness
    ensures !b.gameRunning ==> r.board == b && r.state == g && !r.stalled
    ensures r.board.gameRunning ==> b.gameRunning
  {
    if !b.gameRunning then Step(b, g, false)
    else
      var b1 := b.(direction := b.nextDirection);
      CommitKeepsInv(b);
      var head := Add(b.snake[0], b1.direction);
      if !InBounds(head) then WallHit(b1, g, d.turn)
      else if head in b.snake then BodyHit(b1, g)
      else Advance(b1, g, d, head)
  }

  /**
   * The rest of `updateSnake` once the head's cell is on the board and off
   * the body: the head enters it, then either the pickup there is collected
   * or the tail leaves.
   */
  function Advance(b: SnakeState, g: GameState, d: Draws, head: Point): (r: Step)
    requires Inv(b) && Fair(d) && b.gameRunning && InBounds(head) && head !in b.snake
    ensures Inv(r.board) && r.board.gameRunning
    ensures SpeedFloor <= r.board.gameSpeed <= b.gameSpeed
    ensures r.state.timer == g.timer && r.state.currentPersona == g.currentPersona
    ensures g.awareness <= MaxAwareness ==> r.state.awareness <= MaxAwareness
    ensures r.board.direction == b.direction && r.board.nextDirection == b.nextDirection
    ensures |r.board.snake| == if b.pickup.Some? && b.pickup.value.cell == head then |b.snake| + 1 else |b.snake|
    ensures r.board.snake[0] == head && r.board.snake[1..] == b.snake[..|r.board.snake| - 1]
  {
    var b2 := b.(snake := [head] + b.snake);
    if b2.pickup.Some? && head == b2.pickup.value.cell then Collect(b2, g, d)
    else
      var r := Step(b2.(snake := b2.snake[..|b2.snake| - 1]), g, false);
      assert r.board.snake[1..] == b.snake[..|b.snake| - 1];
      r
  }

  /** `Advance` when the head's cell holds no pickup: the tail leaves. */
  lemma AdvanceClears(b: SnakeState, g: GameState, d: Draws, head: Point)
    requires Inv(b) && Fair(d) && b.gameRunning && InBounds(head) && head !in b.snake
    requires !(b.pickup.Some? && head == b.pickup.value.cell)
    ensures Advance(b, g, d, head) == Step(b.(snake := ([head] + b.snake)[..|b.snake|]), g, false)
  {
    var grown := [head] + b.snake;
    assert |grown| - 1 == |b.snake|;
  }

  /** `Advance` onto the pickup: the pickup is collected with the tail kept. */
  lemma AdvanceCollects(b: SnakeState, g: GameState, d: Draws, head: Point)
    requires Inv(b) && Fair(d) && b.gameRunning && InBounds(head) && head !in b.snake
    requires b.pickup.Some? && head == b.pickup.value.cell
    ensures Advance(b, g, d, head) == Collect(b.(snake := [head] + b.snake), g, d)
  {
  }

  /**
   * `initSnakeGame`: the start snake heading right, a pickup, and the game
   * running.  The interval is not reset.
   */
  function InitGame(b: SnakeState, g: GameState, d: Draws): (r: Step)
    requires Inv(b) && Fair(d)
    ensures Inv(r.board) && r.state == g
    ensures r.board.snake == StartSnake && r.board.direction == Right && r.board.nextDirection == Right
    ensures r.board.gameSpeed == b.gameSpeed
    ensures !r.stalled ==> r.board.gameRunning && r.board.pickup.Some? && r.board.pickup.value.cell !in StartSnake
  {
    var b1 := b.(snake := StartSnake, direction := Right, nextDirection := Right);
    match Spawn(b.personaPickups, StartSnake, g.currentPersona, d)
    case None => Step(b1, g, true)
    case Some(p) => Step(b1.(pickup := Some(p), gameRunning := true), g, false)
  }

  // ---------------------------------------------------------------------
  // What one tick does, branch by branch

  /**
   * A clear tick: the head advances one cell along the committed direction;
   * the length is kept, or grows by one when the head lands on the pickup.
   */
  lemma ClearTick(b: SnakeState, g: GameState, d: Draws)
    requires Inv(b) && Fair(d) && b.gameRunning
    requires InBounds(Candidate(b)) && Candidate(b) !in b.snake
    ensures var r := Tick(b, g, d);
      && r.board.direction == b.nextDirection
      && r.board.gameRunning
      && r.board.snake[0] == Candidate(b)
      && r.board.snake[1..] == b.snake[..|r.board.snake| - 1]
      && |r.board.snake| == (if b.pickup.Some? && b.pickup.value.cell == Candidate(b) then |b.snake| + 1 else |b.snake|)
  {
    assert Tick(b, g, d) == Advance(b.(direction := b.nextDirection), g, d, Candidate(b));
  }

  /**
   * A collecting tick: 100 points for a preferred pickup and 25 otherwise,
   * scaled by the awareness before the bonus; a preferred pickup also adds
   * 0.1 awareness (capped); unless the spawn loop is still drawing, the new
   * pickup is off the snake and the interval takes one speed step.
   */
  lemma CollectingTick(b: SnakeState, g: GameState, d: Draws)
    requires Inv(b) && Fair(d) && b.gameRunning
    requires InBounds(Candidate(b)) && Candidate(b) !in b.snake
    requires b.pickup.Some? && b.pickup.value.cell == Candidate(b)
    ensures var r := Tick(b, g, d);
      var preferred := b.pickup.value.preferred;
      && r.state.score == g.score + ScoreGain(if preferred then PreferredPoints else NeutralPoints, g.awareness)
      && r.state.awareness == (if preferred then CapAwareness(g.awareness, PreferredBonus) else g.awareness)
      && r.board.preferredCount == b.preferredCount + (if preferred then 1 else 0)
      && r.board.neutralCount == b.neutralCount + (if preferred then 0 else 1)
      && (r.stalled ==> r.board.pickup == b.pickup && r.board.gameSpeed == b.gameSpeed)
      && (!r.stalled ==> r.board.pickup.Some? && r.board.pickup.value.cell !in r.board.snake)
      && (!r.stalled ==> r.board.gameSpeed == NextSpeed(b.gameSpeed))
  {
  }

  /**
   * A wall tick: the game keeps running, the length is kept, the snake
   * turns to one of the three directions that do not reverse the committed
   * one and steps there only if that cell is on the board, and awareness
   * takes the 0.05 penalty.
   */
  lemma WallTick(b: SnakeState, g: GameState, d: Draws)
    requires Inv(b) && Fair(d) && b.gameRunning
    requires !InBounds(Candidate(b))
    ensures var r := Tick(b, g, d);
      var turned := Add(b.snake[0], r.board.nextDirection);
      && r.board.gameRunning
      && r.board.direction == b.nextDirection
      && |SafeDirections(b.nextDirection)| == 3
      && r.board.nextDirection == SafeDirections(b.nextDirection)[PickIndex(d.turn, 3)]
      && r.board.nextDirection != Reverse(b.nextDirection)
      && |r.board.snake| == |b.snake|
      && (InBounds(turned) ==> r.board.snake == [turned] + b.snake[..|b.snake| - 1])
      && (!InBounds(turned) ==> r.board.snake == b.snake)
      && r.board.pickup == b.pickup
      && r.state == g.(awareness := CapAwareness(g.awareness, WallPenalty))
  {
  }

  /**
   * A body tick: below 0.5 awareness the game stops with the snake where it
   * is; otherwise awareness takes the 0.2 penalty, the head stays, and the
   * snake loses its tail only while longer than 3.
   */
  lemma BodyTick(b: SnakeState, g: GameState, d: Draws)
    requires Inv(b) && Fair(d) && b.gameRunning
    requires InBounds(Candidate(b)) && Candidate(b) in b.snake
    ensures var r := Tick(b, g, d);
      && r.board.direction == b.nextDirection
      && r.board.pickup == b.pickup
      && (!r.board.gameRunning <==> g.awareness < GameOverThreshold)
      && (g.awareness < GameOverThreshold ==> r.board.snake == b.snake && r.state == g)
      && (GameOverThreshold <= g.awareness ==>
            && r.state == g.(awareness := CapAwareness(g.awareness, CollisionPenalty))
            && r.board.snake[0] == b.snake[0]
            && |r.board.snake| == (if |b.snake| > MinLength then |b.snake| - 1 else |b.snake|)
            && r.board.snake == (if |b.snake| > MinLength then b.snake[..|b.snake| - 1] else b.snake))
  {
  }

  // ---------------------------------------------------------------------
  // Runs of ticks

  predicate AllFair(ds: seq<Draws>)
  {
    forall d :: d in ds ==> Fair(d)
  }

  /** Successive ticks, stopping at the first whose spawn loop runs out of draws. */
  function Run(b: SnakeState, g: GameState, ds: seq<Draws>): (r: Step)
    requires Inv(b) && AllFair(ds)
    ensures Inv(r.board)
    decreases |ds|
  {
    if ds == [] then Step(b, g, false)
    else
      var s := Tick(b, g, ds[0]);
      if s.stalled then s else Run(s.board, s.state, ds[1..])
  }

  /** Once the game is over, no later tick changes anything. */
  lemma {:induction false} GameOverIsFinal(b: SnakeState, g: GameState, ds: seq<Draws>)
    requires Inv(b) && AllFair(ds) && !b.gameRunning
    ensures Run(b, g, ds) == Step(b, g, false)
    decreases |ds|
  {
    if ds != [] {
      GameOverIsFinal(b, g, ds[1..]);
    }
  }

  /** Over any run the interval never rises and never drops below 118. */
  lemma {:induction false} RunSpeedMonotone(b: SnakeState, g: GameState, ds: seq<Draws>)
    requires Inv(b) && AllFair(ds)
    ensures SpeedFloor <= Run(b, g, ds).board.gameSpeed <= b.gameSpeed
    decreases |ds|
  {
    if ds != [] {
      var s := Tick(b, g, ds[0]);
      if !s.stalled {
        RunSpeedMonotone(s.board, s.state, ds[1..]);
      }
    }
  }

  /** Over any run, awareness that starts at most 3.0 stays at most 3.0. */
  lemma {:induction false} RunAwarenessCapped(b: SnakeState, g: GameState, ds: seq<Draws>)
    requires Inv(b) && AllFair(ds) && g.awareness <= MaxAwareness
    ensures Run(b, g, ds).state.awareness <= MaxAwareness
    decreases |ds|
  {
    if ds != [] {
      var s := Tick(b, g, ds[0]);
      if !s.stalled {
        RunAwarenessCapped(s.board, s.state, ds[1..]);
      }
    }
  }

  /** A stopped game is never restarted by ticking: a run that ends running began running. */
  lemma {:induction false} RunNeverRestarts(b: SnakeState, g: GameState, ds: seq<Draws>)
    requires Inv(b) && AllFair(ds)
    ensures Run(b, g, ds).board.gameRunning ==> b.gameRunning
    decreases |ds|
  {
    if ds != [] {
      var s := Tick(b, g, ds[0]);
      if !s.stalled {
        RunNeverRestarts(s.board, s.state, ds[1..]);
      }
    }
  }

  // ---------------------------------------------------------------------
  // Two situations the rules allow

  /** Moving onto the tail cell is a body hit, because the tail is still there when the head is tested. */
  lemma TailCellIsABodyHit()
    ensures var b := SnakeState([Point(1, 1), Point(1, 2), Point(2, 2), Point(2, 1)], Up, Right, None, InitialSpeed, true, 0, 0, PersonaPickups);
      var g := GameState(0, DefaultBaseline, 0.0, None);
      var r := Tick(b, g, Draws(0.0, [], 0.0, 0.0));
      && Inv(b)
      && r.board.snake == [Point(1, 1), Point(1, 2), Point(2, 2)]
      && r.state.awareness == 1.0
  {
  }

  /** A snake heading up along the left edge, with a body cell right of the top-left corner. */
  const CornerSnake: SnakeState :=
    SnakeState([Point(0, 0), Point(0, 1), Point(1, 1), Point(1, 0), Point(2, 0)], Up, Up, None, InitialSpeed, true, 0, 0, PersonaPickups)

  lemma CornerSnakeIsValid()
    ensures Inv(CornerSnake)
  {
  }

  /** A wall turn can put the head on a body cell, so snake cells need not be distinct. */
  lemma WallTurnCanOverlapBody()
    ensures Inv(CornerSnake)
    ensures var s := Tick(CornerSnake, GameState(0, DefaultBaseline, 0.0, None), Draws(0.5, [], 0.0, 0.0)).board.snake;
      |s| == 5 && s[0] == Point(1, 0) && s[4] == Point(1, 0)
  {
    var g := GameState(0, DefaultBaseline, 0.0, None);
    CornerSnakeIsValid();
    CornerTickIsWallHit(g, Draws(0.5, [], 0.0, 0.0));
    CornerWallTurn(g);
  }

  /** The corner snake's next cell is above the board, so its tick is a wall hit. */
  lemma CornerTickIsWallHit(g: GameState, d: Draws)
    requires Fair(d)
    ensures Inv(CornerSnake)
    ensures Tick(CornerSnake, g, d) == WallHit(CornerSnake, g, d.turn)
  {
    CornerSnakeIsValid();
    assert !InBounds(Candidate(CornerSnake));
  }

  /** A draw of 0.5 turns the corner snake right, onto the body cell (1, 0), which stays the last cell. */
  lemma CornerWallTurn(g: GameState)
    ensures Inv(CornerSnake)
    ensures var s := WallHit(CornerSnake, g, 0.5).board.snake;
      |s| == 5 && s[0] == Point(1, 0) && s[4] == Point(1, 0)
  {
    CornerSnakeIsValid();
    TurnFromUpAtMiddleDraw();
    TurnRightOntoBody(CornerSnake, g, 0.5);
  }

  /**
   * Heading up from (0, 0) with (1, 0) as the fourth cell of a five-cell
   * snake, a wall turn to the right puts the head on that body cell, which
   * stays the last cell.
   */
  lemma TurnRightOntoBody(b: SnakeState, g: GameState, turnDraw: real)
    requires Inv(b) && UnitDraw(turnDraw) && b.direction == Up
    requires SafeDirections(Up)[PickIndex(turnDraw, |SafeDirections(Up)|)] == Right
    requires |b.snake| == 5 && b.snake[0] == Point(0, 0) && b.snake[3] == Point(1, 0)
    ensures var s := WallHit(b, g, turnDraw).board.snake;
      |s| == 5 && s[0] == Point(1, 0) && s[4] == Point(1, 0)
  {
    var r := WallHit(b, g, turnDraw);
    assert r.board.snake == [Point(1, 0)] + b.snake[..4];
    assert r.board.snake[4] == b.snake[3];
  }

  /** From heading up, the safe directions are left, right, up, and a draw of 0.5 picks right. */
  lemma TurnFromUpAtMiddleDraw()
    ensures SafeDirections(Up)[PickIndex(0.5, |SafeDirections(Up)|)] == Right
  {
    assert SafeDirections(Up) == [Left, Right, Up];
    assert PickIndex(0.5, 3) == 1;
  }
}
