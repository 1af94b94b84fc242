// The snake game the agent generated in its workspace: a grid of cells, a
// snake that moves one cell per frame and wraps around the edges, food that
// makes it grow, and arrow keys that turn it but never straight back.
// Rendering, the clock and `random` are outside the model: each frame's
// events and the random draws of `random_food_position` are inputs.

module Snake {
  import opened Wrappers

  const Width: int := 640
  const Height: int := 480
  const CellSize: int := 20
  /** `HEIGHT // CELL_SIZE` and `WIDTH // CELL_SIZE`, as `GridSize` checks. */
  const Rows: int := 24
  const Cols: int := 32

  lemma GridSize()
    ensures Rows == Height / CellSize && Cols == Width / CellSize
    ensures Height % CellSize == 0 && Width % CellSize == 0
  {
  }

  /** A grid position `(column, row)`. */
  datatype Cell = Cell(x: int, y: int)

  /** A direction `(dx, dy)`. */
  datatype Dir = Dir(dx: int, dy: int)

  const Up: Dir := Dir(0, -1)
  const Down: Dir := Dir(0, 1)
  const Left: Dir := Dir(-1, 0)
  const Right: Dir := Dir(1, 0)

  predicate IsUnit(d: Dir)
  {
    d == Up || d == Down || d == Left || d == Right
  }

  function Opposite(d: Dir): Dir
  {
    Dir(-d.dx, -d.dy)
  }

  predicate InGrid(c: Cell)
  {
    0 <= c.x < Cols && 0 <= c.y < Rows
  }

  /** The keys the game distinguishes. */
  datatype Key = ArrowUp | ArrowDown | ArrowLeft | ArrowRight | OtherKey

  /** One entry of `pygame.event.get()`. */
  datatype Event = Quit | KeyPress(key: Key) | OtherEvent

  /** What one frame sees: its events, and the random cells drawn if food has to be placed. */
  datatype Frame = Frame(events: seq<Event>, draws: seq<Cell>)

  /**
    * The variables of `main`. `stalled` records that `random_food_position`
    * found no free cell among the draws given, i.e. it is still looping.
    */
  datatype GameState = GameState(
    snake: seq<Cell>, direction: Dir, food: Cell, score: int, running: bool, stalled: bool)

  predicate NoDuplicates(s: seq<Cell>)
  {
    forall i, j :: 0 <= i < j < |s| ==> s[i] != s[j]
  }

  /**
    * What every frame keeps: a non-empty snake on the grid without repeated
    * cells, a unit direction, food on a free cell unless its placement is
    * still looping, and one point per cell grown.
    */
  predicate Valid(g: GameState)
  {
    && g.snake != []
    && (forall c :: c in g.snake ==> InGrid(c))
    && NoDuplicates(g.snake)
    && IsUnit(g.direction)
    && (!g.stalled ==> InGrid(g.food) && g.food !in g.snake)
    && |g.snake| == g.score + 1
  }

  // ---------------------------------------------------------------------
  // Key handling

  /** The direction an arrow key asks for; none for any other key. */
  function Wanted(k: Key): Option<Dir>
  {
    match k
    case ArrowUp => Some(Up)
    case ArrowDown => Some(Down)
    case ArrowLeft => Some(Left)
    case ArrowRight => Some(Right)
    case OtherKey => None
  }

  /**
    * One KEYDOWN: an arrow turns the snake unless it points straight back.
    * For a unit direction, the asked direction is taken exactly when it is
    * not the reverse of the current one.
    */
  function Turn(d: Dir, k: Key): (r: Dir)
    ensures Wanted(k).None? ==> r == d
    ensures IsUnit(d) && Wanted(k).Some? ==> (r == Wanted(k).value <==> Wanted(k).value != Opposite(d))
    ensures IsUnit(d) && Wanted(k).Some? && Wanted(k).value == Opposite(d) ==> r == d
  {
    if k == ArrowUp && d != Down then Up
    else if k == ArrowDown && d != Up then Down
    else if k == ArrowLeft && d != Right then Left
    else if k == ArrowRight && d != Left then Right
    else d
  }

  /** No single key reverses a unit direction, and the result is a unit direction again. */
  lemma NoReverse(d: Dir, k: Key)
    requires IsUnit(d)
    ensures IsUnit(Turn(d, k))
    ensures Turn(d, k) != Opposite(d)
  {
  }

  /** One event: QUIT clears `running`, a key press may turn, anything else is ignored. */
  function OnEvent(g: GameState, e: Event): GameState
  {
    match e
    case Quit => g.(running := false)
    case KeyPress(k) => g.(direction := Turn(g.direction, k))
    case OtherEvent => g
  }

  /** The events of one frame, in order; QUIT does not stop the rest from being handled. */
  function OnEvents(g: GameState, events: seq<Event>): (r: GameState)
    ensures r.snake == g.snake && r.food == g.food && r.score == g.score && r.stalled == g.stalled
    ensures r.running ==> g.running
    ensures IsUnit(g.direction) ==> IsUnit(r.direction)
    decreases |events|
  {
    if events == [] then g
    else
      var before := OnEvents(g, events[..|events| - 1]);
      NoReverseKeeps(before.direction, events[|events| - 1]);
      OnEvent(before, events[|events| - 1])
  }

  lemma NoReverseKeeps(d: Dir, e: Event)
    ensures e.KeyPress? && IsUnit(d) ==> IsUnit(Turn(d, e.key))
  {
  }

  /** A QUIT anywhere in the frame ends the loop after this frame. */
  lemma {:induction false} QuitStops(g: GameState, events: seq<Event>)
    requires Quit in events
    ensures !OnEvents(g, events).running
    decreases |events|
  {
    var last := events[|events| - 1];
    if last != Quit {
      assert events == events[..|events| - 1] + [last];
      QuitStops(g, events[..|events| - 1]);
    }
  }

  /** Two keys in one frame can reverse the snake: RIGHT, then UP, then LEFT. */
  lemma ChainedKeysReverse(g: GameState)
    requires g.direction == Right
    ensures OnEvents(g, [KeyPress(ArrowUp), KeyPress(ArrowLeft)]).direction == Opposite(Right)
  {
    var es := [KeyPress(ArrowUp), KeyPress(ArrowLeft)];
    assert es[..1] == [KeyPress(ArrowUp)] && es[..1][..0] == [];
  }

  // ---------------------------------------------------------------------
  // Moving

  /**
    * The new head, wrapped around the edges. Python's `%` with a positive
    * divisor and Dafny's `%` agree: the remainder lies in `[0, divisor)`.
    */
  function Move(c: Cell, d: Dir): (r: Cell)
    ensures InGrid(r)
  {
    Cell((c.x + d.dx) % Cols, (c.y + d.dy) % Rows)
  }

  /** Wrapping is undone by moving back: the move is a bijection of the grid. */
  lemma MoveBack(c: Cell, d: Dir)
    requires InGrid(c) && IsUnit(d)
    ensures Move(Move(c, d), Opposite(d)) == c
  {
    WrapBack(c.x, Cols);
    WrapBack(c.y, Rows);
  }

  /** Stepping one place forward or back with wrap-around, then the other way, returns to the start. */
  lemma WrapBack(a: int, n: int)
    requires 0 <= a < n && (n == Cols || n == Rows)
    ensures ((a + 1) % n + -1) % n == a && ((a + -1) % n + 1) % n == a
    ensures ((a + 0) % n + -0) % n == a
  {
    ModSmall(a, n);
    if a + 1 == n {
      ModSmall(n - 1, n);
      assert (a + 1) % n == 0;
      assert (0 + -1) % n == n - 1;
    } else {
      ModSmall(a + 1, n);
    }
    if a == 0 {
      ModSmall(n - 1, n);
      assert (-1) % n == n - 1;
      assert (n - 1 + 1) % n == 0;
    } else {
      ModSmall(a - 1, n);
    }
  }

  lemma ModSmall(v: int, n: int)
    requires 0 <= v < n && (n == Cols || n == Rows)
    ensures v % n == v && (v + n) % n == v && (v - n) % n == v
  {
    if n == Cols {
      assert v % 32 == v && (v + 32) % 32 == v && (v - 32) % 32 == v;
    } else {
      assert v % 24 == v && (v + 24) % 24 == v && (v - 24) % 24 == v;
    }
  }

  /** `random_food_position`: the first drawn cell that the snake does not cover. */
  function FirstFree(snake: seq<Cell>, draws: seq<Cell>): (r: Option<Cell>)
    ensures r.Some? ==> r.value in draws && r.value !in snake
    ensures r.None? <==> forall c :: c in draws ==> c in snake
    decreases |draws|
  {
    if draws == [] then None
    else if draws[0] !in snake then Some(draws[0])
    else
      var r := FirstFree(snake, draws[1..]);
      assert draws == [draws[0]] + draws[1..];
      r
  }

  /** A snake that covers the whole grid leaves no cell to draw: the source's loop never ends. */
  lemma FullGridStalls(snake: seq<Cell>, draws: seq<Cell>)
    requires forall c :: InGrid(c) ==> c in snake
    requires forall c :: c in draws ==> InGrid(c)
    ensures FirstFree(snake, draws).None?
  {
  }

  /** The move step of one frame (the snake must be non-empty: the source reads `snake[0]`). */
  function TickSpec(g: GameState, draws: seq<Cell>): GameState
    requires g.snake != []
  {
    var head := Move(g.snake[0], g.direction);
    if head in g.snake then g.(running := false)
    else
      var grown := [head] + g.snake;
      if head == g.food then
        match FirstFree(grown, draws)
        case Some(f) => g.(snake := grown, score := g.score + 1, food := f)
        case None => g.(snake := grown, score := g.score + 1, running := false, stalled := true)
      else g.(snake := grown[..|grown| - 1])
  }

  /** Running into itself (the cell the tail is about to leave included) ends the game and changes nothing else. */
  lemma CollisionEnds(g: GameState, draws: seq<Cell>)
    requires g.snake != [] && Move(g.snake[0], g.direction) in g.snake
    ensures TickSpec(g, draws) == g.(running := false)
  {
  }

  /** Eating prepends the head, and length and score both grow by one. */
  lemma EatingGrows(g: GameState, draws: seq<Cell>)
    requires g.snake != []
    requires var head := Move(g.snake[0], g.direction); head !in g.snake && head == g.food
    ensures TickSpec(g, draws).snake == [g.food] + g.snake
    ensures TickSpec(g, draws).score == g.score + 1
  {
  }

  /** Otherwise the head is prepended and the tail dropped: the length and score stay. */
  lemma MovingShifts(g: GameState, draws: seq<Cell>)
    requires g.snake != []
    requires var head := Move(g.snake[0], g.direction); head !in g.snake && head != g.food
    ensures var r := TickSpec(g, draws);
      && |r.snake| == |g.snake| && r.score == g.score
      && r.snake[0] == Move(g.snake[0], g.direction)
      && r.snake[1..] == g.snake[..|g.snake| - 1]
  {
  }

  lemma PrependKeepsDistinct(h: Cell, s: seq<Cell>)
    requires NoDuplicates(s) && h !in s
    ensures NoDuplicates([h] + s)
  {
    var t := [h] + s;
    forall i, j | 0 <= i < j < |t| ensures t[i] != t[j] {
      assert t[j] == s[j - 1];
    }
  }

  lemma DropLastKeepsDistinct(s: seq<Cell>)
    requires s != [] && NoDuplicates(s)
    ensures NoDuplicates(s[..|s| - 1])
  {
  }

  /** One move keeps every part of `Valid`: above all, the snake never overlaps itself. */
  lemma TickKeepsValid(g: GameState, draws: seq<Cell>)
    requires Valid(g) && forall c :: c in draws ==> InGrid(c)
    ensures Valid(TickSpec(g, draws))
  {
    var head := Move(g.snake[0], g.direction);
    if head !in g.snake {
      var grown := [head] + g.snake;
      PrependKeepsDistinct(head, g.snake);
      if head != g.food {
        DropLastKeepsDistinct(grown);
        assert forall c :: c in grown[..|grown| - 1] ==> c in grown;
      }
    }
  }

  /** One pass of `while running`: the events, then the move (which happens even after QUIT). */
  function FrameSpec(g: GameState, f: Frame): GameState
    requires g.snake != []
  {
    TickSpec(OnEvents(g, f.events), f.draws)
  }

  /** The loop of `main` over the frames given, stopping once `running` is false. */
  function PlaySpec(g: GameState, frames: seq<Frame>): GameState
    requires Valid(g) && forall i :: 0 <= i < |frames| ==> DrawsInGrid(frames[i])
    decreases |frames|
  {
    if !g.running || frames == [] then g
    else
      FrameKeepsValid(g, frames[0]);
      PlaySpec(FrameSpec(g, frames[0]), frames[1..])
  }

  predicate DrawsInGrid(f: Frame)
  {
    forall c :: c in f.draws ==> InGrid(c)
  }

  lemma FrameKeepsValid(g: GameState, f: Frame)
    requires Valid(g) && DrawsInGrid(f)
    ensures Valid(FrameSpec(g, f))
    ensures FrameSpec(g, f).score >= g.score
  {
    TickKeepsValid(OnEvents(g, f.events), f.draws);
  }

  /** However many frames are played, the state stays valid and the score never drops. */
  lemma {:induction false} PlayKeepsValid(g: GameState, frames: seq<Frame>)
    requires Valid(g) && forall i :: 0 <= i < |frames| ==> DrawsInGrid(frames[i])
    ensures Valid(PlaySpec(g, frames))
    ensures PlaySpec(g, frames).score >= g.score
    decreases |frames|
  {
    if g.running && frames != [] {
      FrameKeepsValid(g, frames[0]);
      var next := FrameSpec(g, frames[0]);
      assert PlaySpec(g, frames) == PlaySpec(next, frames[1..]);
      PlayKeepsValid(next, frames[1..]);
    }
  }

  /** The start of `main`: one cell in the middle heading right, food placed, score 0. */
  function Initial(draws: seq<Cell>): (r: GameState)
    requires forall c :: c in draws ==> InGrid(c)
    ensures Valid(r)
  {
    var snake := [Cell(Cols / 2, Rows / 2)];
    match FirstFree(snake, draws)
    case Some(f) => GameState(snake, Right, f, 0, true, false)
    case None => GameState(snake, Right, Cell(0, 0), 0, false, true)
  }

  // ---------------------------------------------------------------------
  // The game as the source runs it

  /** `random_food_position` as the source writes it: retry until a draw misses the snake. */
  method RandomFoodPosition(snake: seq<Cell>, draws: seq<Cell>) returns (r: Option<Cell>)
    ensures r == FirstFree(snake, draws)
  {
    var i := 0;
    while i < |draws|
      invariant i <= |draws|
      invariant FirstFree(snake, draws) == FirstFree(snake, draws[i..])
    {
      assert draws[i..][1..] == draws[i + 1..];
      if draws[i] !in snake {
        return Some(draws[i]);
      }
      i := i + 1;
    }
    return None;
  }

  class Game {
    var snake: seq<Cell>
    var direction: Dir
    var food: Cell
    var score: int
    var running: bool
    var stalled: bool

    function State(): GameState
      reads this
    {
      GameState(snake, direction, food, score, running, stalled)
    }

    constructor(draws: seq<Cell>)
      requires forall c :: c in draws ==> InGrid(c)
      ensures State() == Initial(draws)
    {
      snake := [Cell(Cols / 2, Rows / 2)];
      direction := Right;
      score := 0;
      var f := RandomFoodPosition([Cell(Cols / 2, Rows / 2)], draws);
      match f
      case Some(c) =>
        food := c;
        running := true;
        stalled := false;
      case None =>
        food := Cell(0, 0);
        running := false;
        stalled := true;
    }

    /** The `for event in pygame.event.get()` loop. */
    method HandleEvents(events: seq<Event>)
      modifies this
      ensures State() == OnEvents(old(State()), events)
    {
      for i := 0 to |events|
        invariant State() == OnEvents(old(State()), events[..i])
      {
        assert events[..i + 1][..i] == events[..i];
        match events[i]
        case Quit => running := false;
        case KeyPress(k) => direction := Turn(direction, k);
        case OtherEvent =>
      }
      assert events[..|events|] == events;
    }

    /** The "Move snake" block: collide, or prepend the head and grow or drop the tail. */
    method Tick(draws: seq<Cell>)
      requires snake != []
      modifies this
      ensures State() == TickSpec(old(State()), draws)
    {
      var head := Move(snake[0], direction);
      if head in snake {
        running := false;
        return;
      }
      snake := [head] + snake;
      if head == food {
        score := score + 1;
        var f := RandomFoodPosition(snake, draws);
        match f
        case Some(c) =>
          food := c;
        case None =>
          running := false;
          stalled := true;
      } else {
        snake := snake[..|snake| - 1];
      }
    }

    /** `while running:` over the frames given. */
    method Play(frames: seq<Frame>)
      requires Valid(State()) && forall i :: 0 <= i < |frames| ==> DrawsInGrid(frames[i])
      modifies this
      ensures State() == PlaySpec(old(State()), frames)
      ensures Valid(State())
    {
      var i := 0;
      while running && i < |frames|
        invariant i <= |frames| && Valid(State())
        invariant PlaySpec(old(State()), frames) == PlaySpec(State(), frames[i..])
        decreases |frames| - i
      {
        assert frames[i..][1..] == frames[i + 1..];
        FrameKeepsValid(State(), frames[i]);
        HandleEvents(frames[i].events);
        Tick(frames[i].draws);
        i := i + 1;
      }
    }
  }
}
