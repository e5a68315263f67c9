/** The Board component (gomoku-game/src/components/Board.js) without its
    rendering: seven pieces of state, the click and engine-move handlers,
    the one-second clock tick, restart and the difficulty buttons. The human
    plays black and moves first; the engine plays white. */
module Game {
  import opened Grid
  import Lines
  import opened RelevantCells
  import opened Evaluation
  import opened AlphaBetaSearch
  import opened Engine

  /** `currentPlayer` and `winner`: 'player' or 'ai'. */
  datatype Side = Human | Computer

  /** Seconds on a fresh turn clock. */
  const TurnSeconds: int := 30

  /** The component's state. */
  datatype GameState = GameState(
    board: Board,
    current: Side,
    over: bool,
    winner: Option<Side>,
    humanTime: int,
    computerTime: int,
    difficulty: Difficulty)

  /** What every reachable state satisfies: a 15x15 board, clocks between 0
      and 30, a winner only once the game is over, and while it is not over
      both clocks still running and an empty cell left. */
  predicate Consistent(s: GameState) {
    IsBoard(s.board) &&
    0 <= s.humanTime <= TurnSeconds && 0 <= s.computerTime <= TurnSeconds &&
    (s.winner.Some? ==> s.over) &&
    (!s.over ==> s.humanTime >= 1 && s.computerTime >= 1 && !IsFull(s.board))
  }

  /** An empty board, the human to move, nobody winning, both clocks full. */
  predicate FreshGame(s: GameState) {
    IsBoard(s.board) && (forall r, c :: 0 <= r < Size && 0 <= c < Size ==> s.board[r][c] == Empty) &&
    s.current == Human && !s.over && s.winner == None &&
    s.humanTime == TurnSeconds && s.computerTime == TurnSeconds
  }

  /** `handleRestart`: everything but the difficulty starts over. */
  function Restart(s: GameState): (t: GameState)
    ensures FreshGame(t) && Consistent(t) && t.difficulty == s.difficulty
  {
    assert !IsFull(EmptyBoard()) by {
      assert EmptyBoard()[0][0] == Empty;
    }
    GameState(EmptyBoard(), Human, false, None, TurnSeconds, TurnSeconds, s.difficulty)
  }

  /** `handleDifficultyChange`: the new level, then a restart. */
  function ChangeDifficulty(s: GameState, level: Difficulty): (t: GameState)
    ensures FreshGame(t) && Consistent(t) && t.difficulty == level
  {
    Restart(s.(difficulty := level))
  }

  /** The click is ignored: game over, the engine's turn, or an occupied cell. */
  predicate ClickIgnored(s: GameState, row: int, col: int)
    requires IsBoard(s.board) && InBounds(row, col)
  {
    s.over || s.current != Human || s.board[row][col] != Empty
  }

  /** `handleCellClick(row, col)`. */
  function Click(s: GameState, row: int, col: int): (t: GameState)
    requires IsBoard(s.board) && InBounds(row, col)
    ensures Consistent(s) ==> Consistent(t)
  {
    if ClickIgnored(s, row, col) then s
    else
      var nb := Place(s.board, row, col, Black);
      if Lines.Wins(nb, row, col, Black) then s.(board := nb, winner := Some(Human), over := true)
      else if IsFull(nb) then s.(board := nb, over := true)
      else s.(board := nb, current := Computer, computerTime := TurnSeconds)
  }

  /** `handleAIMove(row, col)`: no guard of its own; the caller only calls it
      with the engine to move and the game running. */
  function Answer(s: GameState, row: int, col: int): (t: GameState)
    requires IsBoard(s.board) && InBounds(row, col)
    ensures Consistent(s) ==> Consistent(t)
  {
    var nb := Place(s.board, row, col, White);
    if Lines.Wins(nb, row, col, White) then s.(board := nb, winner := Some(Computer), over := true)
    else if IsFull(nb) then s.(board := nb, over := true)
    else s.(board := nb, current := Human, humanTime := TurnSeconds)
  }

  /** One tick of the interval: nothing once the game is over; otherwise the
      clock of the side to move loses a second, and a clock at 1 or less
      drops to 0 and hands the win to the other side. */
  function Tick(s: GameState): (t: GameState)
    ensures Consistent(s) ==> Consistent(t)
  {
    if s.over then s
    else if s.current == Human then
      if s.humanTime <= 1 then s.(humanTime := 0, winner := Some(Computer), over := true)
      else s.(humanTime := s.humanTime - 1)
    else
      if s.computerTime <= 1 then s.(computerTime := 0, winner := Some(Human), over := true)
      else s.(computerTime := s.computerTime - 1)
  }

  /** The engine's turn: its move, if any, goes to handleAIMove. */
  function EngineTurn(s: GameState, draws: Draws, clock: nat): (t: GameState)
    requires IsBoard(s.board) && ValidDraws(draws)
    ensures Consistent(s) ==> Consistent(t)
  {
    match ChooseMove(s.board, s.difficulty, draws, clock)
    case None => s
    case Some(p) =>
      assert p in Candidates(s.board);
      Answer(s, p.row, p.col)
  }

  /** n ticks with no move in between. */
  function Ticks(s: GameState, n: nat): GameState {
    if n == 0 then s else Tick(Ticks(s, n - 1))
  }

  // ---------------------------------------------------------------------
  // Properties

  /** A click changes the state exactly when it is not ignored. */
  lemma ClickChangesIffAccepted(s: GameState, row: int, col: int)
    requires IsBoard(s.board) && InBounds(row, col)
    ensures Click(s, row, col) == s <==> ClickIgnored(s, row, col)
  {
    if !ClickIgnored(s, row, col) {
      assert Click(s, row, col).board[row][col] == Stone(Black);
    }
  }

  /** An accepted click puts black at (row, col) and leaves every other cell
      as it was; it ends the game with the human winning exactly when that
      stone wins, ends it as a draw when it fills the board, and otherwise
      passes the turn to the engine with a full clock. */
  lemma ClickOutcome(s: GameState, row: int, col: int)
    requires Consistent(s) && InBounds(row, col) && !ClickIgnored(s, row, col)
    ensures var t := Click(s, row, col);
      t.board == Place(s.board, row, col, Black) &&
      t.board[row][col] == Stone(Black) &&
      (forall r, c {:trigger t.board[r][c]} :: InBounds(r, c) && (r, c) != (row, col) ==> t.board[r][c] == s.board[r][c]) &&
      (t.winner == Some(Human) <==> Lines.Wins(t.board, row, col, Black)) &&
      (t.over <==> Lines.Wins(t.board, row, col, Black) || IsFull(t.board)) &&
      (!t.over ==> t.current == Computer && t.computerTime == TurnSeconds) &&
      (t.over ==> t.current == Human && t.winner != Some(Computer))
  {
  }

  /** handleAIMove puts white at (row, col), whatever was there; the engine
      wins exactly when that stone wins; otherwise a full board ends the game
      and a running game passes the turn to the human with a full clock. */
  lemma AnswerOutcome(s: GameState, row: int, col: int)
    requires Consistent(s) && !s.over && InBounds(row, col)
    ensures var t := Answer(s, row, col);
      t.board == Place(s.board, row, col, White) &&
      (t.winner == Some(Computer) <==> Lines.Wins(t.board, row, col, White)) &&
      (t.over <==> Lines.Wins(t.board, row, col, White) || IsFull(t.board)) &&
      (!t.over ==> t.current == Human && t.humanTime == TurnSeconds) &&
      (t.over && t.winner == None ==> IsFull(t.board))
  {
  }

  /** A finished game ignores clicks and ticks. */
  lemma OverIsFinal(s: GameState, row: int, col: int)
    requires IsBoard(s.board) && InBounds(row, col) && s.over
    ensures Click(s, row, col) == s && Tick(s) == s
  {
  }

  /** The engine's turn keeps every stone on the board and adds one white
      stone on an empty cell, because the move comes from the candidate list;
      while the game runs the engine always has a move. */
  lemma EngineTurnAddsOneStone(s: GameState, draws: Draws, clock: nat)
    requires Consistent(s) && !s.over && ValidDraws(draws)
    ensures ChooseMove(s.board, s.difficulty, draws, clock).Some?
    ensures var p := ChooseMove(s.board, s.difficulty, draws, clock).value;
      var t := EngineTurn(s, draws, clock);
      InBounds(p.row, p.col) && s.board[p.row][p.col] == Empty && t.board[p.row][p.col] == Stone(White) &&
      forall r, c {:trigger t.board[r][c]} :: InBounds(r, c) && (r, c) != (p.row, p.col) ==> t.board[r][c] == s.board[r][c]
  {
    PassesIffFull(s.board, s.difficulty, draws, clock);
    MoveIsEmptyCell(s.board, s.difficulty, draws, clock);
  }

  /** The side to move with k seconds left and nobody moving: after j < k
      ticks the game still runs with k - j seconds on that clock, and the
      k-th tick ends it with the clock at 0 and the other side winning. The
      other clock never moves. */
  lemma {:induction false} Countdown(s: GameState, j: nat)
    requires Consistent(s) && !s.over
    requires j <= (if s.current == Human then s.humanTime else s.computerTime)
    ensures var t := Ticks(s, j);
      var k := if s.current == Human then s.humanTime else s.computerTime;
      t.current == s.current && t.board == s.board &&
      (s.current == Human ==> t.humanTime == k - j && t.computerTime == s.computerTime) &&
      (s.current == Computer ==> t.computerTime == k - j && t.humanTime == s.humanTime) &&
      (j < k ==> !t.over && t.winner == None) &&
      (j == k ==> t.over && t.winner == Some(if s.current == Human then Computer else Human))
  {
    if j > 0 {
      Countdown(s, j - 1);
    }
  }

  /** The board's own checkWin: four axes, at most four probes each way,
      counting the centre; the same predicate as the engine's. */
  method CheckWin(b: Board, row: int, col: int, p: Player) returns (win: bool)
    requires IsBoard(b)
    ensures win == Lines.Wins(b, row, col, p)
  {
    var a := 0;
    while a < 4
      invariant 0 <= a <= 4
      invariant forall k :: 0 <= k < a ==> Lines.LineCount(b, row, col, Lines.Axes[k], p) < 5
    {
      var count := AxisCount(b, row, col, Lines.Axes[a], p);
      if count >= 5 {
        return true;
      }
      a := a + 1;
    }
    return false;
  }

  /** The body of checkWin's loop for one direction (dx, dy): `count` starts
      at 1, then gains the stones of p met going forward and going back. */
  method AxisCount(b: Board, row: int, col: int, d: Lines.Dir, p: Player) returns (count: nat)
    requires IsBoard(b)
    ensures count == Lines.LineCount(b, row, col, d, p)
  {
    count := 1;
    var forward := WalkForward(b, row, col, d, p);
    count := count + forward;
    var backward := WalkBackward(b, row, col, d, p);
    count := count + backward;
  }

  /** The first inner loop: `row + dx * i`, `col + dy * i` for i = 1..4,
      stopping at the first cell that is off the board or not p's. */
  method WalkForward(b: Board, row: int, col: int, d: Lines.Dir, p: Player) returns (run: nat)
    requires IsBoard(b)
    ensures run == Lines.RunFrom(b, row, col, d, p, 1)
  {
    run := 0;
    var i := 1;
    while i < 5
      invariant 1 <= i <= 5 && run == i - 1
      invariant Lines.RunFrom(b, row, col, d, p, 1) == run + Lines.RunFrom(b, row, col, d, p, i)
    {
      var newRow, newCol := row + d.dr * i, col + d.dc * i;
      if 0 <= newRow < Size && 0 <= newCol < Size && b[newRow][newCol] == Stone(p) {
        run := run + 1;
      } else {
        break;
      }
      i := i + 1;
    }
  }

  /** The second inner loop: `row - dx * i`, `col - dy * i`, which walks the
      opposite direction. */
  method WalkBackward(b: Board, row: int, col: int, d: Lines.Dir, p: Player) returns (run: nat)
    requires IsBoard(b)
    ensures run == Lines.RunFrom(b, row, col, Lines.Opposite(d), p, 1)
  {
    ghost var back := Lines.Opposite(d);
    run := 0;
    var i := 1;
    while i < 5
      invariant 1 <= i <= 5 && run == i - 1
      invariant Lines.RunFrom(b, row, col, back, p, 1) == run + Lines.RunFrom(b, row, col, back, p, i)
    {
      var newRow, newCol := row - d.dr * i, col - d.dc * i;
      assert newRow == row + back.dr * i && newCol == col + back.dc * i;
      if 0 <= newRow < Size && 0 <= newCol < Size && b[newRow][newCol] == Stone(p) {
        run := run + 1;
      } else {
        break;
      }
      i := i + 1;
    }
  }

  // ---------------------------------------------------------------------
  // The component

  /** The component's `useState` fields. */
  class GameBoard {
    var board: Board
    var currentPlayer: Side
    var gameOver: bool
    var winner: Option<Side>
    var playerTimeLeft: int
    var aiTimeLeft: int
    var difficulty: Difficulty

    /** The fields as one value. */
    function State(): GameState
      reads this
    {
      GameState(board, currentPlayer, gameOver, winner, playerTimeLeft, aiTimeLeft, difficulty)
    }

    predicate Valid()
      reads this
    {
      Consistent(State())
    }

    /** The initial `useState` values: difficulty 'medium'. */
    constructor ()
      ensures Valid() && FreshGame(State()) && difficulty == Medium
    {
      board := EmptyBoard();
      currentPlayer := Human;
      gameOver := false;
      winner := None;
      playerTimeLeft := TurnSeconds;
      aiTimeLeft := TurnSeconds;
      difficulty := Medium;
      new;
      assert board[0][0] == Empty;
    }

    method HandleCellClick(row: int, col: int)
      requires Valid() && InBounds(row, col)
      modifies this
      ensures Valid() && State() == Click(old(State()), row, col)
    {
      if gameOver || currentPlayer != Human || board[row][col] != Empty {
        return;
      }
      var newBoard := Place(board, row, col, Black);
      board := newBoard;
      var won := CheckWin(newBoard, row, col, Black);
      if won {
        winner := Some(Human);
        gameOver := true;
        return;
      }
      if IsFull(newBoard) {
        gameOver := true;
        return;
      }
      currentPlayer := Computer;
      aiTimeLeft := TurnSeconds;
    }

    method HandleAIMove(row: int, col: int)
      requires Valid() && InBounds(row, col)
      modifies this
      ensures Valid() && State() == Answer(old(State()), row, col)
    {
      var newBoard := Place(board, row, col, White);
      board := newBoard;
      var won := CheckWin(newBoard, row, col, White);
      if won {
        winner := Some(Computer);
        gameOver := true;
        return;
      }
      if IsFull(newBoard) {
        gameOver := true;
        return;
      }
      currentPlayer := Human;
      playerTimeLeft := TurnSeconds;
    }

    /** The interval callback: the functional updates of setPlayerTimeLeft and
      setAiTimeLeft. */
    method OnTick()
      requires Valid()
      modifies this
      ensures Valid() && State() == Tick(old(State()))
    {
      if gameOver {
        return;
      }
      if currentPlayer == Human {
        if playerTimeLeft <= 1 {
          winner := Some(Computer);
          gameOver := true;
          playerTimeLeft := 0;
        } else {
          playerTimeLeft := playerTimeLeft - 1;
        }
      } else {
        if aiTimeLeft <= 1 {
          winner := Some(Human);
          gameOver := true;
          aiTimeLeft := 0;
        } else {
          aiTimeLeft := aiTimeLeft - 1;
        }
      }
    }

    method HandleRestart()
      modifies this
      ensures Valid() && State() == Restart(old(State()))
    {
      board := EmptyBoard();
      currentPlayer := Human;
      gameOver := false;
      winner := None;
      playerTimeLeft := TurnSeconds;
      aiTimeLeft := TurnSeconds;
      assert board[0][0] == Empty;
    }

    method HandleDifficultyChange(level: Difficulty)
      modifies this
      ensures Valid() && State() == ChangeDifficulty(old(State()), level)
    {
      difficulty := level;
      HandleRestart();
    }

    /** The engine effect's timeout body, run while it is the engine's turn
        and the game is not over: ask for a move and play it if there is one. */
    method PlayEngineTurn(draws: Draws, cache: EvaluationCache, clock: Clock)
      requires Valid() && currentPlayer == Computer && !gameOver && ValidDraws(draws) && cache.Valid()
      modifies this, cache, clock
      ensures Valid() && cache.Valid()
      ensures State() == EngineTurn(old(State()), draws, old(clock.left))
    {
      var aiMove := MakeSmartAIMove(board, difficulty, draws, cache, clock);
      if aiMove.Some? {
        assert aiMove.value in Candidates(board);
        HandleAIMove(aiMove.value.row, aiMove.value.col);
      }
    }
  }
}
