/** `alphaBeta`: depth-bounded minimax with alpha-beta pruning, a time box and
    a shortcut for immediate wins. Every node iterates the candidate list of
    the board the engine was called with (getRelevantEmptyCells closes over
    that board), not the candidates of its own board, so a deeper ply may
    place a stone on a cell a shallower ply already took. */
module AlphaBetaSearch {
  import opened Grid
  import opened Lines
  import opened RelevantCells
  import opened Evaluation

  /** A search value: a finite score or one of the initial values
      -Infinity and +Infinity of maxEval and minEval. */
  datatype Score = NegInf | Fin(v: int) | PosInf

  /** `a <= b` on numbers extended with the infinities. */
  predicate Le(a: Score, b: Score) {
    a == NegInf || b == PosInf || (a.Fin? && b.Fin? && a.v <= b.v)
  }

  /** `Math.max`. */
  function Max(a: Score, b: Score): (m: Score)
    ensures Le(a, m) && Le(b, m) && (m == a || m == b)
  {
    if Le(a, b) then b else a
  }

  /** `Math.min`. */
  function Min(a: Score, b: Score): (m: Score)
    ensures Le(m, a) && Le(m, b) && (m == a || m == b)
  {
    if Le(a, b) then a else b
  }

  /** An infinity, or a finite value no larger in size than any board score
      or the win values 100000 and -100000. */
  predicate Bounded(s: Score) {
    s.Fin? ==> -90000000 <= s.v <= 90000000
  }

  /** Every entry of a candidate list is a cell of the board. */
  predicate AllCells(cands: seq<Pos>) {
    forall i :: 0 <= i < |cands| ==> IsCell(cands[i])
  }

  /** The deadline check `Date.now() - startTime > timeLimit`. Assuming
      `Date.now()` never goes backwards during a call, the answers of
      successive checks are some number of `false` followed by `true` for
      ever; `left` is the number of checks that still find time left. */
  class Clock {
    var left: nat

    constructor (polls: nat)
      ensures left == polls
    {
      left := polls;
    }

    /** One deadline check: expired once no in-time check is left. */
    method Expired() returns (expired: bool)
      modifies this
      ensures expired == (old(left) == 0)
      ensures left == if expired then 0 else old(left) - 1
    {
      expired := left == 0;
      if !expired {
        left := left - 1;
      }
    }
  }

  /** A search value and the number of in-time checks left after it. */
  datatype Outcome = Outcome(value: Score, clock: nat)

  /** alphaBeta(board, depth, alpha, beta, isMaximizing) over the candidate
      list `cands`, with `clock` in-time deadline checks left. */
  function Search(cands: seq<Pos>, b: Board, depth: nat, alpha: Score, beta: Score, maximizing: bool, clock: nat): (o: Outcome)
    requires IsBoard(b) && AllCells(cands)
    ensures o.clock <= clock
    ensures Bounded(o.value)
    decreases depth, |cands| + 1
  {
    if clock == 0 then Outcome(Fin(BoardScore(b)), 0)
    else if depth == 0 then Outcome(Fin(BoardScore(b)), clock - 1)
    else if maximizing then MaxLoop(cands, b, depth, alpha, beta, 0, NegInf, clock - 1)
    else MinLoop(cands, b, depth, alpha, beta, 0, PosInf, clock - 1)
  }

  /** The maximising loop from candidate i on, with maxEval = best so far. */
  function MaxLoop(cands: seq<Pos>, b: Board, depth: nat, alpha: Score, beta: Score, i: nat, best: Score, clock: nat): (o: Outcome)
    requires IsBoard(b) && AllCells(cands) && 1 <= depth && i <= |cands|
    ensures o.clock <= clock
    ensures Bounded(best) ==> Bounded(o.value)
    decreases depth, |cands| - i
  {
    if i == |cands| || clock == 0 then Outcome(best, clock)
    else
      var p := cands[i];
      var nb := Place(b, p.row, p.col, White);
      if Wins(nb, p.row, p.col, White) then Outcome(Fin(100000), clock - 1)
      else
        var r := Search(cands, nb, depth - 1, alpha, beta, false, clock - 1);
        var best', alpha' := Max(best, r.value), Max(alpha, r.value);
        if Le(beta, alpha') then Outcome(best', r.clock)
        else MaxLoop(cands, b, depth, alpha', beta, i + 1, best', r.clock)
  }

  /** The minimising loop from candidate i on, with minEval = best so far. */
  function MinLoop(cands: seq<Pos>, b: Board, depth: nat, alpha: Score, beta: Score, i: nat, best: Score, clock: nat): (o: Outcome)
    requires IsBoard(b) && AllCells(cands) && 1 <= depth && i <= |cands|
    ensures o.clock <= clock
    ensures Bounded(best) ==> Bounded(o.value)
    decreases depth, |cands| - i
  {
    if i == |cands| || clock == 0 then Outcome(best, clock)
    else
      var p := cands[i];
      var nb := Place(b, p.row, p.col, Black);
      if Wins(nb, p.row, p.col, Black) then Outcome(Fin(-100000), clock - 1)
      else
        var r := Search(cands, nb, depth - 1, alpha, beta, true, clock - 1);
        var best', beta' := Min(best, r.value), Min(beta, r.value);
        if Le(beta', alpha) then Outcome(best', r.clock)
        else MinLoop(cands, b, depth, alpha, beta', i + 1, best', r.clock)
  }

  // ---------------------------------------------------------------------
  // Properties

  /** When no deadline check has expired (some in-time check is still left
      at the end) and there is a candidate, the search value is finite: the
      infinities are only returned by a loop cut short by the deadline. */
  lemma {:induction false} SearchFiniteInTime(cands: seq<Pos>, b: Board, depth: nat, alpha: Score, beta: Score, maximizing: bool, clock: nat)
    requires IsBoard(b) && AllCells(cands) && |cands| > 0
    requires Search(cands, b, depth, alpha, beta, maximizing, clock).clock > 0
    ensures Search(cands, b, depth, alpha, beta, maximizing, clock).value.Fin?
    decreases depth, |cands| + 1
  {
    if clock > 0 && depth > 0 {
      if maximizing {
        MaxLoopFiniteInTime(cands, b, depth, alpha, beta, 0, NegInf, clock - 1);
      } else {
        MinLoopFiniteInTime(cands, b, depth, alpha, beta, 0, PosInf, clock - 1);
      }
    }
  }

  /** One quiet pass of the maximising loop (white does not win at
      candidate i): search the move, then stop on a cut-off or go on. */
  lemma MaxLoopQuiet(cands: seq<Pos>, b: Board, depth: nat, alpha: Score, beta: Score, i: nat, best: Score, clock: nat)
    returns (r: Outcome)
    requires IsBoard(b) && AllCells(cands) && 1 <= depth && i < |cands| && clock > 0
    requires !Wins(Place(b, cands[i].row, cands[i].col, White), cands[i].row, cands[i].col, White)
    ensures r == Search(cands, Place(b, cands[i].row, cands[i].col, White), depth - 1, alpha, beta, false, clock - 1)
    ensures MaxLoop(cands, b, depth, alpha, beta, i, best, clock) ==
      if Le(beta, Max(alpha, r.value)) then Outcome(Max(best, r.value), r.clock)
      else MaxLoop(cands, b, depth, Max(alpha, r.value), beta, i + 1, Max(best, r.value), r.clock)
  {
    r := Search(cands, Place(b, cands[i].row, cands[i].col, White), depth - 1, alpha, beta, false, clock - 1);
  }

  /** One quiet pass of the minimising loop (black does not win at
      candidate i). */
  lemma MinLoopQuiet(cands: seq<Pos>, b: Board, depth: nat, alpha: Score, beta: Score, i: nat, best: Score, clock: nat)
    returns (r: Outcome)
    requires IsBoard(b) && AllCells(cands) && 1 <= depth && i < |cands| && clock > 0
    requires !Wins(Place(b, cands[i].row, cands[i].col, Black), cands[i].row, cands[i].col, Black)
    ensures r == Search(cands, Place(b, cands[i].row, cands[i].col, Black), depth - 1, alpha, beta, true, clock - 1)
    ensures MinLoop(cands, b, depth, alpha, beta, i, best, clock) ==
      if Le(Min(beta, r.value), alpha) then Outcome(Min(best, r.value), r.clock)
      else MinLoop(cands, b, depth, alpha, Min(beta, r.value), i + 1, Min(best, r.value), r.clock)
  {
    r := Search(cands, Place(b, cands[i].row, cands[i].col, Black), depth - 1, alpha, beta, true, clock - 1);
  }

  lemma {:induction false} MaxLoopFiniteInTime(cands: seq<Pos>, b: Board, depth: nat, alpha: Score, beta: Score, i: nat, best: Score, clock: nat)
    requires IsBoard(b) && AllCells(cands) && 1 <= depth && i <= |cands|
    requires best.Fin? || (best == NegInf && i < |cands|)
    requires MaxLoop(cands, b, depth, alpha, beta, i, best, clock).clock > 0
    ensures MaxLoop(cands, b, depth, alpha, beta, i, best, clock).value.Fin?
    decreases depth, |cands| - i
  {
    if i < |cands| && clock > 0 {
      var p := cands[i];
      var nb := Place(b, p.row, p.col, White);
      if !Wins(nb, p.row, p.col, White) {
        var r := MaxLoopQuiet(cands, b, depth, alpha, beta, i, best, clock);
        SearchFiniteInTime(cands, nb, depth - 1, alpha, beta, false, clock - 1);
        if !Le(beta, Max(alpha, r.value)) {
          MaxLoopFiniteInTime(cands, b, depth, Max(alpha, r.value), beta, i + 1, Max(best, r.value), r.clock);
        }
      }
    }
  }

  lemma {:induction false} MinLoopFiniteInTime(cands: seq<Pos>, b: Board, depth: nat, alpha: Score, beta: Score, i: nat, best: Score, clock: nat)
    requires IsBoard(b) && AllCells(cands) && 1 <= depth && i <= |cands|
    requires best.Fin? || (best == PosInf && i < |cands|)
    requires MinLoop(cands, b, depth, alpha, beta, i, best, clock).clock > 0
    ensures MinLoop(cands, b, depth, alpha, beta, i, best, clock).value.Fin?
    decreases depth, |cands| - i
  {
    if i < |cands| && clock > 0 {
      var p := cands[i];
      var nb := Place(b, p.row, p.col, Black);
      if !Wins(nb, p.row, p.col, Black) {
        var r := MinLoopQuiet(cands, b, depth, alpha, beta, i, best, clock);
        SearchFiniteInTime(cands, nb, depth - 1, alpha, beta, true, clock - 1);
        if !Le(Min(beta, r.value), alpha) {
          MinLoopFiniteInTime(cands, b, depth, alpha, Min(beta, r.value), i + 1, Min(best, r.value), r.clock);
        }
      }
    }
  }

  /** The reply the medium engine expects from the opponent, without pruning
      or deadline: scanning the candidates in order, -100000 at the first
      cell where black would complete five, otherwise the least board score
      after a black stone on any candidate. */
  function MinReply(cands: seq<Pos>, b: Board, i: nat, best: Score): (s: Score)
    requires IsBoard(b) && AllCells(cands) && i <= |cands|
    ensures best.Fin? ==> s.Fin?
    decreases |cands| - i
  {
    if i == |cands| then best
    else
      var p := cands[i];
      var nb := Place(b, p.row, p.col, Black);
      if Wins(nb, p.row, p.col, Black) then Fin(-100000)
      else MinReply(cands, b, i + 1, Min(best, Fin(BoardScore(nb))))
  }

  /** One ply with alpha at -Infinity, as the medium engine searches each
      move with the full window: pruning never fires, and when the deadline
      does not expire the value is the unpruned reply. */
  lemma {:induction false} OnePlyIsMinReply(cands: seq<Pos>, b: Board, beta: Score, i: nat, best: Score, clock: nat)
    requires IsBoard(b) && AllCells(cands) && i <= |cands| && beta != NegInf
    requires MinLoop(cands, b, 1, NegInf, beta, i, best, clock).clock > 0
    ensures MinLoop(cands, b, 1, NegInf, beta, i, best, clock).value == MinReply(cands, b, i, best)
    decreases |cands| - i
  {
    if i < |cands| && clock > 0 {
      var p := cands[i];
      var nb := Place(b, p.row, p.col, Black);
      if !Wins(nb, p.row, p.col, Black) {
        var r := Search(cands, nb, 0, NegInf, beta, true, clock - 1);
        if r.clock > 0 {
          assert r.value == Fin(BoardScore(nb));
          OnePlyIsMinReply(cands, b, Min(beta, r.value), i + 1, Min(best, r.value), r.clock);
        }
      }
    }
  }

  // ---------------------------------------------------------------------
  // Pruning and the unpruned search

  /** The search alphaBeta prunes: the same shortcuts for an immediate win
      and the same candidate list, but every candidate is searched (no
      beta <= alpha cut-off) and there is no deadline. */
  function Minimax(cands: seq<Pos>, b: Board, depth: nat, maximizing: bool): Score
    requires IsBoard(b) && AllCells(cands)
    decreases depth, |cands| + 1
  {
    if depth == 0 then Fin(BoardScore(b))
    else if maximizing then MaxUnpruned(cands, b, depth, 0, NegInf)
    else MinUnpruned(cands, b, depth, 0, PosInf)
  }

  /** The maximising loop of Minimax from candidate i on, with maxEval `best`. */
  function MaxUnpruned(cands: seq<Pos>, b: Board, depth: nat, i: nat, best: Score): Score
    requires IsBoard(b) && AllCells(cands) && 1 <= depth && i <= |cands|
    decreases depth, |cands| - i
  {
    if i == |cands| then best
    else
      var p := cands[i];
      var nb := Place(b, p.row, p.col, White);
      if Wins(nb, p.row, p.col, White) then Fin(100000)
      else MaxUnpruned(cands, b, depth, i + 1, Max(best, Minimax(cands, nb, depth - 1, false)))
  }

  /** The minimising loop of Minimax from candidate i on, with minEval `best`. */
  function MinUnpruned(cands: seq<Pos>, b: Board, depth: nat, i: nat, best: Score): Score
    requires IsBoard(b) && AllCells(cands) && 1 <= depth && i <= |cands|
    decreases depth, |cands| - i
  {
    if i == |cands| then best
    else
      var p := cands[i];
      var nb := Place(b, p.row, p.col, Black);
      if Wins(nb, p.row, p.col, Black) then Fin(-100000)
      else MinUnpruned(cands, b, depth, i + 1, Min(best, Minimax(cands, nb, depth - 1, true)))
  }

  /** A finite value no larger in size than the win values. */
  predicate InWinRange(s: Score) {
    s.Fin? && -100000 <= s.v <= 100000
  }

  /** Every board at the search horizon reachable from b, through
      candidates that do not win at once, scores within the win values
      -100000 and 100000. */
  ghost predicate HorizonInWinRange(cands: seq<Pos>, b: Board, depth: nat, maximizing: bool)
    requires IsBoard(b) && AllCells(cands)
    decreases depth, 0
  {
    if depth == 0 then -100000 <= BoardScore(b) <= 100000
    else forall i :: 0 <= i < |cands| ==> ChildInWinRange(cands, b, depth, maximizing, i)
  }

  /** The stone placed at candidate i wins at once, or the horizon below
      it is within the win values. */
  ghost predicate ChildInWinRange(cands: seq<Pos>, b: Board, depth: nat, maximizing: bool, i: nat)
    requires IsBoard(b) && AllCells(cands) && 1 <= depth && i < |cands|
    decreases depth - 1, 1
  {
    var stone := if maximizing then White else Black;
    var nb := Place(b, cands[i].row, cands[i].col, stone);
    Wins(nb, cands[i].row, cands[i].col, stone) || HorizonInWinRange(cands, nb, depth - 1, !maximizing)
  }

  /** The horizon condition passed on to a candidate that does not win. */
  lemma HorizonChild(cands: seq<Pos>, b: Board, depth: nat, maximizing: bool, i: nat, stone: Player)
    requires IsBoard(b) && AllCells(cands) && 1 <= depth && i < |cands|
    requires stone == if maximizing then White else Black
    requires HorizonInWinRange(cands, b, depth, maximizing)
    requires !Wins(Place(b, cands[i].row, cands[i].col, stone), cands[i].row, cands[i].col, stone)
    ensures HorizonInWinRange(cands, Place(b, cands[i].row, cands[i].col, stone), depth - 1, !maximizing)
  {
    assert ChildInWinRange(cands, b, depth, maximizing, i);
  }

  /** x seen through the window (alpha, beta). */
  function Clamp(x: Score, alpha: Score, beta: Score): Score {
    Max(alpha, Min(x, beta))
  }

  /** With a horizon in the win range the unpruned value is in it too. */
  lemma {:induction false} MinimaxInWinRange(cands: seq<Pos>, b: Board, depth: nat, maximizing: bool)
    requires IsBoard(b) && AllCells(cands) && |cands| > 0
    requires HorizonInWinRange(cands, b, depth, maximizing)
    ensures InWinRange(Minimax(cands, b, depth, maximizing))
    decreases depth, |cands| + 1
  {
    if depth > 0 {
      if maximizing {
        MaxUnprunedInWinRange(cands, b, depth, 0, NegInf);
      } else {
        MinUnprunedInWinRange(cands, b, depth, 0, PosInf);
      }
    }
  }

  lemma {:induction false} MaxUnprunedInWinRange(cands: seq<Pos>, b: Board, depth: nat, i: nat, best: Score)
    requires IsBoard(b) && AllCells(cands) && 1 <= depth && i <= |cands|
    requires HorizonInWinRange(cands, b, depth, true)
    requires InWinRange(best) || (best == NegInf && i < |cands|)
    ensures InWinRange(MaxUnpruned(cands, b, depth, i, best))
    decreases depth, |cands| - i
  {
    if i < |cands| {
      var p := cands[i];
      var nb := Place(b, p.row, p.col, White);
      if !Wins(nb, p.row, p.col, White) {
        HorizonChild(cands, b, depth, true, i, White);
        MinimaxInWinRange(cands, nb, depth - 1, false);
        MaxUnprunedInWinRange(cands, b, depth, i + 1, Max(best, Minimax(cands, nb, depth - 1, false)));
      }
    }
  }

  lemma {:induction false} MinUnprunedInWinRange(cands: seq<Pos>, b: Board, depth: nat, i: nat, best: Score)
    requires IsBoard(b) && AllCells(cands) && 1 <= depth && i <= |cands|
    requires HorizonInWinRange(cands, b, depth, false)
    requires InWinRange(best) || (best == PosInf && i < |cands|)
    ensures InWinRange(MinUnpruned(cands, b, depth, i, best))
    decreases depth, |cands| - i
  {
    if i < |cands| {
      var p := cands[i];
      var nb := Place(b, p.row, p.col, Black);
      if !Wins(nb, p.row, p.col, Black) {
        HorizonChild(cands, b, depth, false, i, Black);
        MinimaxInWinRange(cands, nb, depth - 1, true);
        MinUnprunedInWinRange(cands, b, depth, i + 1, Min(best, Minimax(cands, nb, depth - 1, true)));
      }
    }
  }

  /** With the values in the win range, the unpruned maximising loop is the
      larger of its running maxEval and the loop started afresh: a win,
      worth 100000, is above every other value. */
  lemma {:induction false} MaxUnprunedSplit(cands: seq<Pos>, b: Board, depth: nat, i: nat, best: Score)
    requires IsBoard(b) && AllCells(cands) && 1 <= depth && i <= |cands|
    requires HorizonInWinRange(cands, b, depth, true)
    requires Le(best, Fin(100000))
    ensures MaxUnpruned(cands, b, depth, i, best) == Max(best, MaxUnpruned(cands, b, depth, i, NegInf))
    decreases |cands| - i
  {
    if i < |cands| {
      var p := cands[i];
      var nb := Place(b, p.row, p.col, White);
      if !Wins(nb, p.row, p.col, White) {
        var e := Minimax(cands, nb, depth - 1, false);
        HorizonChild(cands, b, depth, true, i, White);
        MinimaxInWinRange(cands, nb, depth - 1, false);
        MaxUnprunedSplit(cands, b, depth, i + 1, Max(best, e));
        MaxUnprunedSplit(cands, b, depth, i + 1, e);
        MaxAssoc(best, e, MaxUnpruned(cands, b, depth, i + 1, NegInf));
      }
    }
  }

  /** The mirror of MaxUnprunedSplit: a black win, worth -100000, is below
      every other value. */
  lemma {:induction false} MinUnprunedSplit(cands: seq<Pos>, b: Board, depth: nat, i: nat, best: Score)
    requires IsBoard(b) && AllCells(cands) && 1 <= depth && i <= |cands|
    requires HorizonInWinRange(cands, b, depth, false)
    requires Le(Fin(-100000), best)
    ensures MinUnpruned(cands, b, depth, i, best) == Min(best, MinUnpruned(cands, b, depth, i, PosInf))
    decreases |cands| - i
  {
    if i < |cands| {
      var p := cands[i];
      var nb := Place(b, p.row, p.col, Black);
      if !Wins(nb, p.row, p.col, Black) {
        var e := Minimax(cands, nb, depth - 1, true);
        HorizonChild(cands, b, depth, false, i, Black);
        MinimaxInWinRange(cands, nb, depth - 1, true);
        MinUnprunedSplit(cands, b, depth, i + 1, Min(best, e));
        MinUnprunedSplit(cands, b, depth, i + 1, e);
        MinAssoc(best, e, MinUnpruned(cands, b, depth, i + 1, PosInf));
      }
    }
  }

  lemma MaxAssoc(x: Score, y: Score, z: Score)
    ensures Max(x, Max(y, z)) == Max(Max(x, y), z)
  {
  }

  lemma MinAssoc(x: Score, y: Score, z: Score)
    ensures Min(x, Min(y, z)) == Min(Min(x, y), z)
  {
  }

  /** One quiet pass of the unpruned maximising loop: the child's value E
      joins maxEval, and the rest of the loop can be searched afresh. */
  lemma MaxUnprunedQuiet(cands: seq<Pos>, b: Board, depth: nat, i: nat, best: Score) returns (E: Score)
    requires IsBoard(b) && AllCells(cands) && 1 <= depth && i < |cands| && |cands| > 0
    requires !Wins(Place(b, cands[i].row, cands[i].col, White), cands[i].row, cands[i].col, White)
    requires HorizonInWinRange(cands, b, depth, true) && Le(best, Fin(100000))
    ensures E == Minimax(cands, Place(b, cands[i].row, cands[i].col, White), depth - 1, false) && InWinRange(E)
    ensures MaxUnpruned(cands, b, depth, i, best) == Max(Max(best, E), MaxUnpruned(cands, b, depth, i + 1, NegInf))
  {
    var nb := Place(b, cands[i].row, cands[i].col, White);
    E := Minimax(cands, nb, depth - 1, false);
    HorizonChild(cands, b, depth, true, i, White);
    MinimaxInWinRange(cands, nb, depth - 1, false);
    MaxUnprunedSplit(cands, b, depth, i + 1, Max(best, E));
  }

  /** One quiet pass of the unpruned minimising loop. */
  lemma MinUnprunedQuiet(cands: seq<Pos>, b: Board, depth: nat, i: nat, best: Score) returns (E: Score)
    requires IsBoard(b) && AllCells(cands) && 1 <= depth && i < |cands| && |cands| > 0
    requires !Wins(Place(b, cands[i].row, cands[i].col, Black), cands[i].row, cands[i].col, Black)
    requires HorizonInWinRange(cands, b, depth, false) && Le(Fin(-100000), best)
    ensures E == Minimax(cands, Place(b, cands[i].row, cands[i].col, Black), depth - 1, true) && InWinRange(E)
    ensures MinUnpruned(cands, b, depth, i, best) == Min(Min(best, E), MinUnpruned(cands, b, depth, i + 1, PosInf))
  {
    var nb := Place(b, cands[i].row, cands[i].col, Black);
    E := Minimax(cands, nb, depth - 1, true);
    HorizonChild(cands, b, depth, false, i, Black);
    MinimaxInWinRange(cands, nb, depth - 1, true);
    MinUnprunedSplit(cands, b, depth, i + 1, Min(best, E));
  }

  /** Alpha-beta is exact inside its window: the value of alphaBeta
      searched with the window (alpha, beta), seen through that window, is
      the unpruned value seen through it. It is the exact value when that
      lies strictly inside, at most alpha when the unpruned value is, and at
      least beta when the unpruned value is. This holds when no deadline
      check expires and every horizon board scores within the win values. */
  lemma {:induction false} SearchClampsMinimax(cands: seq<Pos>, b: Board, depth: nat, alpha: Score, beta: Score,
                                              maximizing: bool, clock: nat)
    requires IsBoard(b) && AllCells(cands) && |cands| > 0
    requires !Le(beta, alpha) && Le(alpha, Fin(100000)) && Le(Fin(-100000), beta)
    requires HorizonInWinRange(cands, b, depth, maximizing)
    requires Search(cands, b, depth, alpha, beta, maximizing, clock).clock > 0
    ensures Clamp(Search(cands, b, depth, alpha, beta, maximizing, clock).value, alpha, beta)
         == Clamp(Minimax(cands, b, depth, maximizing), alpha, beta)
    decreases depth, |cands| + 1
  {
    if depth > 0 {
      if maximizing {
        MaxLoopClampsMinimax(cands, b, depth, alpha, alpha, beta, 0, NegInf, clock - 1);
      } else {
        MinLoopClampsMinimax(cands, b, depth, alpha, beta, beta, 0, PosInf, clock - 1);
      }
    }
  }

  /** The maximising loop, entered with the node's window (alpha, beta), the
      current alpha `acur` = max(alpha, maxEval) still below beta. */
  lemma {:induction false} MaxLoopClampsMinimax(cands: seq<Pos>, b: Board, depth: nat, alpha: Score, acur: Score, beta: Score,
                                               i: nat, best: Score, clock: nat)
    requires IsBoard(b) && AllCells(cands) && 1 <= depth && i <= |cands| && |cands| > 0
    requires Le(alpha, Fin(100000)) && Le(Fin(-100000), beta)
    requires acur == Max(alpha, best) && !Le(beta, acur) && Le(best, Fin(100000))
    requires HorizonInWinRange(cands, b, depth, true)
    requires MaxLoop(cands, b, depth, acur, beta, i, best, clock).clock > 0
    ensures Clamp(MaxLoop(cands, b, depth, acur, beta, i, best, clock).value, alpha, beta)
         == Clamp(MaxUnpruned(cands, b, depth, i, best), alpha, beta)
    decreases depth, |cands| - i
  {
    if i < |cands| && clock > 0 {
      var p := cands[i];
      var nb := Place(b, p.row, p.col, White);
      if !Wins(nb, p.row, p.col, White) {
        var r := MaxLoopQuiet(cands, b, depth, acur, beta, i, best, clock);
        var E := MaxUnprunedQuiet(cands, b, depth, i, best);
        var e := r.value;
        HorizonChild(cands, b, depth, true, i, White);
        SearchClampsMinimax(cands, nb, depth - 1, acur, beta, false, clock - 1);
        if Le(beta, Max(acur, e)) {
          MaxCutOff(alpha, acur, beta, best, e, E, MaxUnpruned(cands, b, depth, i + 1, NegInf));
        } else {
          MaxQuiet(alpha, acur, beta, best, e, E);
          MaxLoopClampsMinimax(cands, b, depth, alpha, Max(acur, e), beta, i + 1, Max(best, e), r.clock);
          MaxUnprunedSplit(cands, b, depth, i + 1, Max(best, e));
          ClampOfMax(alpha, beta, Max(best, e), Max(best, E), MaxUnpruned(cands, b, depth, i + 1, NegInf));
        }
      }
    }
  }

  /** The minimising loop, entered with the node's window (alpha, beta), the
      current beta `bcur` = min(beta, minEval) still above alpha. */
  lemma {:induction false} MinLoopClampsMinimax(cands: seq<Pos>, b: Board, depth: nat, alpha: Score, beta: Score, bcur: Score,
                                               i: nat, best: Score, clock: nat)
    requires IsBoard(b) && AllCells(cands) && 1 <= depth && i <= |cands| && |cands| > 0
    requires Le(alpha, Fin(100000)) && Le(Fin(-100000), beta)
    requires bcur == Min(beta, best) && !Le(bcur, alpha) && Le(Fin(-100000), best)
    requires HorizonInWinRange(cands, b, depth, false)
    requires MinLoop(cands, b, depth, alpha, bcur, i, best, clock).clock > 0
    ensures Clamp(MinLoop(cands, b, depth, alpha, bcur, i, best, clock).value, alpha, beta)
         == Clamp(MinUnpruned(cands, b, depth, i, best), alpha, beta)
    decreases depth, |cands| - i
  {
    if i < |cands| && clock > 0 {
      var p := cands[i];
      var nb := Place(b, p.row, p.col, Black);
      if !Wins(nb, p.row, p.col, Black) {
        var r := MinLoopQuiet(cands, b, depth, alpha, bcur, i, best, clock);
        var E := MinUnprunedQuiet(cands, b, depth, i, best);
        var e := r.value;
        HorizonChild(cands, b, depth, false, i, Black);
        SearchClampsMinimax(cands, nb, depth - 1, alpha, bcur, true, clock - 1);
        if Le(Min(bcur, e), alpha) {
          MinCutOff(alpha, beta, bcur, best, e, E, MinUnpruned(cands, b, depth, i + 1, PosInf));
        } else {
          MinQuiet(alpha, beta, bcur, best, e, E);
          MinLoopClampsMinimax(cands, b, depth, alpha, beta, Min(bcur, e), i + 1, Min(best, e), r.clock);
          MinUnprunedSplit(cands, b, depth, i + 1, Min(best, e));
          ClampOfMin(alpha, beta, Min(best, e), Min(best, E), MinUnpruned(cands, b, depth, i + 1, PosInf));
        }
      }
    }
  }

  /** A cut-off in the maximising loop: the child's value reached beta, so
      the unpruned value reaches beta as well. */
  lemma MaxCutOff(alpha: Score, acur: Score, beta: Score, best: Score, e: Score, E: Score, rest: Score)
    requires acur == Max(alpha, best) && !Le(beta, acur) && Le(beta, Max(acur, e))
    requires Clamp(e, acur, beta) == Clamp(E, acur, beta)
    ensures Clamp(Max(best, e), alpha, beta) == Clamp(Max(Max(best, E), rest), alpha, beta)
  {
  }

  /** No cut-off in the maximising loop: the child's value and the unpruned
      one agree once raised to the current alpha, and stay in the win range. */
  lemma MaxQuiet(alpha: Score, acur: Score, beta: Score, best: Score, e: Score, E: Score)
    requires acur == Max(alpha, best) && !Le(beta, Max(acur, e))
    requires Clamp(e, acur, beta) == Clamp(E, acur, beta)
    requires Le(acur, Fin(100000)) && InWinRange(E)
    ensures Le(Max(best, e), Fin(100000)) && !Le(beta, Max(best, E)) && !Le(beta, Max(best, e))
    ensures Max(alpha, Max(best, e)) == Max(alpha, Max(best, E))
    ensures Max(acur, e) == Max(alpha, Max(best, e))
  {
  }

  /** A running maxEval below beta matters only through max(alpha, maxEval). */
  lemma ClampOfMax(alpha: Score, beta: Score, x: Score, y: Score, rest: Score)
    requires Max(alpha, x) == Max(alpha, y) && !Le(beta, x) && !Le(beta, y)
    ensures Clamp(Max(x, rest), alpha, beta) == Clamp(Max(y, rest), alpha, beta)
  {
  }

  lemma MinCutOff(alpha: Score, beta: Score, bcur: Score, best: Score, e: Score, E: Score, rest: Score)
    requires bcur == Min(beta, best) && !Le(bcur, alpha) && Le(Min(bcur, e), alpha)
    requires Clamp(e, alpha, bcur) == Clamp(E, alpha, bcur)
    ensures Clamp(Min(best, e), alpha, beta) == Clamp(Min(Min(best, E), rest), alpha, beta)
  {
  }

  lemma MinQuiet(alpha: Score, beta: Score, bcur: Score, best: Score, e: Score, E: Score)
    requires bcur == Min(beta, best) && !Le(Min(bcur, e), alpha)
    requires Clamp(e, alpha, bcur) == Clamp(E, alpha, bcur)
    requires Le(Fin(-100000), bcur) && InWinRange(E)
    ensures Le(Fin(-100000), Min(best, e)) && !Le(Min(best, E), alpha) && !Le(Min(best, e), alpha)
    ensures Min(beta, Min(best, e)) == Min(beta, Min(best, E))
    ensures Min(bcur, e) == Min(beta, Min(best, e))
  {
  }

  lemma ClampOfMin(alpha: Score, beta: Score, x: Score, y: Score, rest: Score)
    requires Min(beta, x) == Min(beta, y) && !Le(x, alpha) && !Le(y, alpha)
    ensures Clamp(Min(x, rest), alpha, beta) == Clamp(Min(y, rest), alpha, beta)
  {
  }

  /** With the full window (-Infinity, +Infinity) that the root loop uses,
      alphaBeta returns exactly the unpruned value, at every depth, when no
      deadline check expires and every horizon board scores within the win
      values. */
  lemma SearchIsMinimax(cands: seq<Pos>, b: Board, depth: nat, maximizing: bool, clock: nat)
    requires IsBoard(b) && AllCells(cands) && |cands| > 0
    requires HorizonInWinRange(cands, b, depth, maximizing)
    requires Search(cands, b, depth, NegInf, PosInf, maximizing, clock).clock > 0
    ensures Search(cands, b, depth, NegInf, PosInf, maximizing, clock).value == Minimax(cands, b, depth, maximizing)
  {
    SearchClampsMinimax(cands, b, depth, NegInf, PosInf, maximizing, clock);
  }

  // ---------------------------------------------------------------------
  // The method

  /** alphaBeta as written: the candidate list is recomputed from the root
      board at every node, each board evaluation goes through the cache,
      and every deadline check consumes one in-time check. */
  method AlphaBeta(root: Board, b: Board, depth: nat, alpha: Score, beta: Score, maximizing: bool,
                   cache: EvaluationCache, clock: Clock) returns (value: Score)
    requires IsBoard(root) && IsBoard(b) && cache.Valid()
    modifies cache, clock
    ensures cache.Valid()
    ensures Outcome(value, clock.left) == Search(Candidates(root), b, depth, alpha, beta, maximizing, old(clock.left))
    decreases depth, 2
  {
    var expired := clock.Expired();
    if expired {
      var score := cache.Evaluate(b);
      return Fin(score);
    }
    if depth == 0 {
      var score := cache.Evaluate(b);
      return Fin(score);
    }
    var cells := RelevantEmptyCells(root);
    if maximizing {
      value := MaximizingLoop(root, cells, b, depth, alpha, beta, cache, clock);
    } else {
      value := MinimizingLoop(root, cells, b, depth, alpha, beta, cache, clock);
    }
  }

  /** The `isMaximizing` branch of alphaBeta. */
  method MaximizingLoop(root: Board, cells: seq<Pos>, b: Board, depth: nat, alpha: Score, beta: Score,
                        cache: EvaluationCache, clock: Clock) returns (maxEval: Score)
    requires IsBoard(root) && IsBoard(b) && cache.Valid() && cells == Candidates(root) && depth >= 1
    modifies cache, clock
    ensures cache.Valid()
    ensures Outcome(maxEval, clock.left) == MaxLoop(cells, b, depth, alpha, beta, 0, NegInf, old(clock.left))
    decreases depth, 1
  {
    ghost var whole := MaxLoop(cells, b, depth, alpha, beta, 0, NegInf, clock.left);
    maxEval := NegInf;
    var a := alpha;
    var i := 0;
    while i < |cells|
      invariant 0 <= i <= |cells| && cache.Valid()
      invariant MaxLoop(cells, b, depth, a, beta, i, maxEval, clock.left) == whole
    {
      var done, m, a' := MaxStep(root, cells, b, depth, a, beta, i, maxEval, cache, clock);
      if done {
        return m;
      }
      maxEval, a := m, a';
      i := i + 1;
    }
  }

  /** One pass of the maximising loop at candidate i: stop on an expired
      deadline, return 100000 if white wins there, otherwise search the move
      and update maxEval and alpha, stopping when beta <= alpha. */
  method MaxStep(root: Board, cells: seq<Pos>, b: Board, depth: nat, alpha: Score, beta: Score, i: nat, maxEval: Score,
                 cache: EvaluationCache, clock: Clock) returns (done: bool, maxEval': Score, alpha': Score)
    requires IsBoard(root) && IsBoard(b) && cache.Valid() && cells == Candidates(root) && depth >= 1 && i < |cells|
    modifies cache, clock
    ensures cache.Valid()
    ensures done ==> Outcome(maxEval', clock.left) == MaxLoop(cells, b, depth, alpha, beta, i, maxEval, old(clock.left))
    ensures !done ==> MaxLoop(cells, b, depth, alpha', beta, i + 1, maxEval', clock.left)
                      == MaxLoop(cells, b, depth, alpha, beta, i, maxEval, old(clock.left))
    decreases depth, 0
  {
    var expired := clock.Expired();
    if expired {
      return true, maxEval, alpha;
    }
    var p := cells[i];
    var nb := Place(b, p.row, p.col, White);
    var win := CheckWin(nb, p.row, p.col, White);
    if win {
      return true, Fin(100000), alpha;
    }
    var evaluation := AlphaBeta(root, nb, depth - 1, alpha, beta, false, cache, clock);
    maxEval' := Max(maxEval, evaluation);
    alpha' := Max(alpha, evaluation);
    done := Le(beta, alpha');
  }

  /** The minimising branch of alphaBeta. */
  method MinimizingLoop(root: Board, cells: seq<Pos>, b: Board, depth: nat, alpha: Score, beta: Score,
                        cache: EvaluationCache, clock: Clock) returns (minEval: Score)
    requires IsBoard(root) && IsBoard(b) && cache.Valid() && cells == Candidates(root) && depth >= 1
    modifies cache, clock
    ensures cache.Valid()
    ensures Outcome(minEval, clock.left) == MinLoop(cells, b, depth, alpha, beta, 0, PosInf, old(clock.left))
    decreases depth, 1
  {
    ghost var whole := MinLoop(cells, b, depth, alpha, beta, 0, PosInf, clock.left);
    minEval := PosInf;
    var bt := beta;
    var i := 0;
    while i < |cells|
      invariant 0 <= i <= |cells| && cache.Valid()
      invariant MinLoop(cells, b, depth, alpha, bt, i, minEval, clock.left) == whole
    {
      var done, m, bt' := MinStep(root, cells, b, depth, alpha, bt, i, minEval, cache, clock);
      if done {
        return m;
      }
      minEval, bt := m, bt';
      i := i + 1;
    }
  }

  /** One pass of the minimising loop at candidate i, the mirror of MaxStep
      with black, -100000 and beta. */
  method MinStep(root: Board, cells: seq<Pos>, b: Board, depth: nat, alpha: Score, beta: Score, i: nat, minEval: Score,
                 cache: EvaluationCache, clock: Clock) returns (done: bool, minEval': Score, beta': Score)
    requires IsBoard(root) && IsBoard(b) && cache.Valid() && cells == Candidates(root) && depth >= 1 && i < |cells|
    modifies cache, clock
    ensures cache.Valid()
    ensures done ==> Outcome(minEval', clock.left) == MinLoop(cells, b, depth, alpha, beta, i, minEval, old(clock.left))
    ensures !done ==> MinLoop(cells, b, depth, alpha, beta', i + 1, minEval', clock.left)
                      == MinLoop(cells, b, depth, alpha, beta, i, minEval, old(clock.left))
    decreases depth, 0
  {
    var expired := clock.Expired();
    if expired {
      return true, minEval, beta;
    }
    var p := cells[i];
    var nb := Place(b, p.row, p.col, Black);
    var win := CheckWin(nb, p.row, p.col, Black);
    if win {
      return true, Fin(-100000), beta;
    }
    var evaluation := AlphaBeta(root, nb, depth - 1, alpha, beta, true, cache, clock);
    minEval' := Min(minEval, evaluation);
    beta' := Min(beta, evaluation);
    done := Le(beta', alpha);
  }
}
