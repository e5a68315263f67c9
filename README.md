# Gomoku engine and board, modelled in Dafny

This project models the two files at the heart of a browser Gomoku game on a 15x15
board. The human plays black and moves first, and the engine plays white.

- `gomoku-game/src/utils/ai.js`, the engine `makeSmartAIMove`, made of these parts:
  - the board key;
  - the candidate cells (`getRelevantEmptyCells`);
  - the difficulty table;
  - the five-in-a-row test (`checkWin`);
  - the pattern scorer (`evaluatePosition`);
  - the memoised board evaluation (`evaluateBoard` with its module-level
    `evaluationCache` of at most 10000 entries);
  - alpha-beta search with a deadline;
  - the easy tier's attack and defence blend;
  - the medium and hard root loop.
- `gomoku-game/src/components/Board.js`, the React component that holds the
  game state and runs it:
  - the cell-click handler and the engine-move handler;
  - the one-second turn clocks;
  - restart and the difficulty buttons.

Files and modules:

- `grid.dfy` (`Grid`): cells, players, boards, and the copy-and-set placement of a stone.
- `boardkey.dfy` (`BoardKey`): `getBoardKey`. Also proves that the key is injective,
  so a cache hit is always the value for the board asked about.
- `candidates.dfy` (`RelevantCells`): `getRelevantEmptyCells` as a specification
  function. Its loops are methods proved against that function.
- `lines.dfy` (`Lines`): `checkWin` and `evaluatePosition` as functions over one
  probing scan. Their loops are methods proved against those functions.
- `evaluation.dfy` (`Evaluation`): the board score, and the cache as a class whose
  invariant says every stored value is the score of the board its key decodes to.
- `search.dfy` (`AlphaBetaSearch`): `alphaBeta` as a function that threads the
  deadline checks, and the recursive method proved equal to it. An unpruned search
  with the same win shortcuts is the reference that pruning is proved against.
- `engine.dfy` (`Engine`): `makeSmartAIMove`, the tier loops and their properties.
- `game.dfy` (`Game`): the component's state, as a value with transition functions
  and as a class whose methods update its fields.

How the outside world enters the model:

- **The wall clock.** The deadline test `Date.now() - startTime > timeLimit` is a
  `Clock` object. Its field `left` counts the deadline checks that still find time
  left. The model assumes that `Date.now()` never goes backwards during one engine
  call, so a run answers some number of "no" and then "yes" for ever. Every check
  in the root loop and in `alphaBeta` consumes one answer.
- **Randomness.** `Math.random()` becomes two draws, each a numerator over 2^53:
  - `chance` decides whether the engine moves at random;
  - `pick` selects the random move or breaks the easy tier's tie.
  At most two draws happen per call.
- **Infinities.** The `-Infinity` and `Infinity` of the search are the constructors
  `NegInf` and `PosInf` of `Score`.

## Model

| member | source | states |
|---|---|---|
| Grid.PosOf | gomoku-game/src/utils/ai.js:12-13 | the row-major index k names a board cell whose index is k |
| Grid.Place | gomoku-game/src/utils/ai.js:414-415 | copying the board and setting one cell puts the stone there and leaves every other cell unchanged |
| Grid.EmptyBoard | gomoku-game/src/components/Board.js:11 | the initial board is 15x15 with every cell empty |
| Grid.IsFull | gomoku-game/src/components/Board.js:157 | the board is full when no cell is empty, the test `every(row => row.every(cell => cell !== null))` |
| Grid.HasStone | gomoku-game/src/utils/ai.js:43-50 | `hasPieces`: some cell of the board holds a stone |
| BoardKey.KeyPrefix | gomoku-game/src/utils/ai.js:11-22 | the key of the first n cells has n characters |
| BoardKey.KeyOf | gomoku-game/src/utils/ai.js:10-24 | the key has one character per cell, 225 in all |
| BoardKey.DecodeKey | gomoku-game/src/utils/ai.js:14-20 | the board a key describes: the character at row * 15 + col gives the cell (row, col) |
| BoardKey.KeyPrefixAt | gomoku-game/src/utils/ai.js:12-21 | the i-th character of the key encodes the i-th cell in row-major order |
| BoardKey.KeyShape | gomoku-game/src/utils/ai.js:10-24 | the key has 225 characters over '0', '1', '2', and the character at row * 15 + col encodes board[row][col] |
| BoardKey.DecodeKeyOf | gomoku-game/src/utils/ai.js:10-24 | decoding the key of a board gives the board back |
| BoardKey.KeyOfDecode | gomoku-game/src/utils/ai.js:10-24 | encoding a decoded key gives the key back |
| BoardKey.KeyInjective | gomoku-game/src/utils/ai.js:244-249 | two boards with the same key are equal, so a cache hit is the value for the board asked about |
| BoardKey.GetBoardKey | gomoku-game/src/utils/ai.js:10-24 | the nested loops build exactly the key of the board |
| RelevantCells.Candidates | gomoku-game/src/utils/ai.js:27-77 | every candidate is an empty cell of the board |
| RelevantCells.RowScanSound | gomoku-game/src/utils/ai.js:58-62 | every cell a row pass lists is an accepted cell of that row |
| RelevantCells.RowScanFinds | gomoku-game/src/utils/ai.js:58-62 | every accepted cell of the row is listed by the row pass |
| RelevantCells.ScanSound | gomoku-game/src/utils/ai.js:57-63 | every cell a pass lists is an accepted board cell |
| RelevantCells.ScanFinds | gomoku-game/src/utils/ai.js:57-63 | every accepted board cell is listed by the pass |
| RelevantCells.RowScanComplete | gomoku-game/src/utils/ai.js:58-62 | a row pass lists exactly the accepted cells of its row, both directions of the equivalence |
| RelevantCells.ScanComplete | gomoku-game/src/utils/ai.js:57-63 | a pass lists exactly the accepted cells of the board, both directions of the equivalence |
| RelevantCells.ScanKept | gomoku-game/src/utils/ai.js:57-74 | both passes list only empty cells |
| RelevantCells.RowScanIncreasing | gomoku-game/src/utils/ai.js:58-62 | a row pass lists cells left to right without repeats |
| RelevantCells.ScanIncreasing | gomoku-game/src/utils/ai.js:57-63 | a pass lists cells in row-major order without repeats |
| RelevantCells.IncreasingConcat | gomoku-game/src/utils/ai.js:57-63 | appending the cells of a later row keeps row-major order |
| RelevantCells.NearScanNonEmpty | gomoku-game/src/utils/ai.js:57-66 | the first pass finds something exactly when some empty cell has a stone within four rows and four columns |
| RelevantCells.CandidatesMembers | gomoku-game/src/utils/ai.js:27-77 | a cell is a candidate exactly when one of three holds: the board has no stone and the cell is the centre; or it is empty and near a stone, when some empty cell is; or it is empty and no empty cell is near a stone |
| RelevantCells.CandidatesIncreasing | gomoku-game/src/utils/ai.js:27-77 | the candidate list is in row-major order with no duplicates |
| RelevantCells.CandidatesEmptyIffFull | gomoku-game/src/utils/ai.js:27-85 | the candidate list is empty exactly when the board is full |
| RelevantCells.HasAdjacentPiece | gomoku-game/src/utils/ai.js:29-40 | the 9x9 window loop answers true exactly when some cell within four rows and four columns holds a stone |
| RelevantCells.HasPieces | gomoku-game/src/utils/ai.js:43-50 | the loop answers true exactly when the board holds a stone |
| RelevantCells.ScanCells | gomoku-game/src/utils/ai.js:57-63 | the row loop of a pass builds exactly that pass's list |
| RelevantCells.ScanRow | gomoku-game/src/utils/ai.js:58-62 | the column loop appends exactly the accepted cells of the row |
| RelevantCells.Keeps | gomoku-game/src/utils/ai.js:59-61 | a cell is kept exactly when it is empty and, in the first pass, near a stone |
| RelevantCells.RelevantEmptyCells | gomoku-game/src/utils/ai.js:27-77 | the whole procedure returns the candidate list |
| RelevantCells.Occupied | gomoku-game/src/utils/ai.js:34 | a cell holds a stone when it is on the board and not null |
| RelevantCells.NearStone | gomoku-game/src/utils/ai.js:29-40 | `hasAdjacentPiece`: some stone lies within four rows and four columns of the cell |
| RelevantCells.Eligible | gomoku-game/src/utils/ai.js:59-69 | the first pass keeps an empty cell near a stone, the fallback pass any empty cell |
| RelevantCells.Keeper | gomoku-game/src/utils/ai.js:57-72 | the test one pass applies: a board cell that the pass keeps |
| RelevantCells.RowScan | gomoku-game/src/utils/ai.js:58-62 | the inner loop over one row: the accepted cells left to right |
| RelevantCells.Scan | gomoku-game/src/utils/ai.js:57-63 | the nested loops: the accepted cells of the rows top to bottom, in row-major order |
| Lines.RunFrom | gomoku-game/src/utils/ai.js:119-131 | a run counts at most the four probes of its loop |
| Lines.ScanFrom | gomoku-game/src/utils/ai.js:170-189 | a side scan counts at most four stones and at most one blocked end |
| Lines.Points | gomoku-game/src/utils/ai.js:214-236 | the table gives 100000 exactly for five or more; otherwise at most 10000; and 0 exactly for two to four stones blocked at both ends |
| Lines.AxisPoints | gomoku-game/src/utils/ai.js:165-237 | one axis is worth at most 100000 |
| Lines.AxesPoints | gomoku-game/src/utils/ai.js:162-237 | n axes are worth at most 100000 each |
| Lines.PositionScore | gomoku-game/src/utils/ai.js:156-240 | a white stone scores between 0 and 400000, and a black stone between -400000 and 0 |
| Lines.FourAxes | gomoku-game/src/utils/ai.js:162-239 | the table score is the sum of the four axes |
| Lines.CountRun | gomoku-game/src/utils/ai.js:119-131 | the probing loop counts exactly the run of the player's stones that follows the cell |
| Lines.CheckWin | gomoku-game/src/utils/ai.js:112-153 | checkWin answers true exactly when some axis holds five or more |
| Lines.ScanSide | gomoku-game/src/utils/ai.js:170-189 | the scan loop yields exactly the run and blocked end of that side |
| Lines.ScoreAxis | gomoku-game/src/utils/ai.js:166-236 | one axis adds its table points, signed by colour |
| Lines.EvaluatePosition | gomoku-game/src/utils/ai.js:156-240 | evaluatePosition returns exactly the position score, with or without win priority |
| Lines.SumAxes | gomoku-game/src/utils/ai.js:162-239 | the loop over the four axes adds up their signed points |
| Lines.RunFromStops | gomoku-game/src/utils/ai.js:119-131 | the run covers only the player's stones and stops at a cell that is not theirs |
| Lines.RunIsLongestPrefix | gomoku-game/src/utils/ai.js:119-131 | the run is k exactly when the first k probes hold the player's stones and the next does not, for k up to four |
| Lines.RunFromOffCentre | gomoku-game/src/utils/ai.js:119-146 | the run does not depend on the centre cell |
| Lines.ScanFromOffCentre | gomoku-game/src/utils/ai.js:170-211 | the side scan does not depend on the centre cell |
| Lines.ProbeIsOffCentre | gomoku-game/src/utils/ai.js:120-121 | no probe of an axis lands on the centre |
| Lines.AxisIsStep | gomoku-game/src/utils/ai.js:113 | each of the four directions is a real step |
| Lines.AxisOffCentre | gomoku-game/src/utils/ai.js:115-237 | the line count and the points of an axis do not depend on the centre cell |
| Lines.WinsIgnoresCentre | gomoku-game/src/utils/ai.js:112-153 | checkWin gives the same answer whatever the centre cell holds |
| Lines.ScoreIgnoresCentre | gomoku-game/src/utils/ai.js:156-240 | evaluatePosition gives the same score whatever the centre cell holds |
| Lines.PlacedWinIsWin | gomoku-game/src/utils/ai.js:414-418 | checking a placed stone gives the same answer as checking the empty cell |
| Lines.ScanRunIsRun | gomoku-game/src/utils/ai.js:170-189 | the scorer's run along a side equals checkWin's run |
| Lines.BlockedMeansEdgeOrOpponent | gomoku-game/src/utils/ai.js:170-189 | a side is blocked exactly when its scan stops, within four probes, at the edge or on an opponent stone |
| Lines.AxisPointsWin | gomoku-game/src/utils/ai.js:214-215 | an axis is worth 100000 exactly when it holds five or more |
| Lines.WinPriorityScore | gomoku-game/src/utils/ai.js:158-160 | with win priority the score is exactly plus or minus 100000 if and only if the placement wins |
| Lines.SumOfFourTableValues | gomoku-game/src/utils/ai.js:214-237 | four table values add to 100000 exactly when one is 100000 and the rest are 0 |
| Lines.EasyWinScore | gomoku-game/src/utils/ai.js:365-366 | without win priority, white scores exactly 100000 if and only if one axis holds a five and the other three are worth 0 |
| Lines.AxisTable | gomoku-game/src/utils/ai.js:162-239 | the four axis values of white add to the easy score, and each is 100000 exactly for a five and at most 10000 otherwise |
| Lines.EasyWinAxis | gomoku-game/src/utils/ai.js:365-366 | an easy score of 100000 names the axis holding the five |
| Lines.EasyWinOnAxis | gomoku-game/src/utils/ai.js:365-366 | a five on one axis with the other three worth 0 scores exactly 100000 |
| Lines.Opposite | gomoku-game/src/utils/ai.js:134-136 | the backward walk steps by the negated direction |
| Lines.LineCount | gomoku-game/src/utils/ai.js:115-150 | the count of one axis: the placed stone plus the unbroken runs of the player's stones on both sides, each cut off after four probes |
| Lines.Wins | gomoku-game/src/utils/ai.js:112-153 | `checkWin`: the count on one of the four axes reaches five |
| Lines.Signed | gomoku-game/src/utils/ai.js:159 | white's points count up and black's count down |
| Evaluation.CellScore | gomoku-game/src/utils/ai.js:256-259 | an empty cell adds 0; a stone adds at most 400000 in size |
| Evaluation.CellScores | gomoku-game/src/utils/ai.js:254-261 | there is one score per cell |
| Evaluation.BoardScore | gomoku-game/src/utils/ai.js:251-261 | the board score is at most 90000000 in size |
| Evaluation.SumBound | gomoku-game/src/utils/ai.js:251-261 | n values of at most 400000 in size sum to at most 400000 * n in size |
| Evaluation.ScoresOfBoard | gomoku-game/src/utils/ai.js:254-261 | the row-major cell scores sum to the board score |
| Evaluation.SumPositions | gomoku-game/src/utils/ai.js:251-261 | the nested loops total exactly the board score |
| Evaluation.AddRow | gomoku-game/src/utils/ai.js:255-260 | the inner loop adds the scores of one row |
| Evaluation.AddCell | gomoku-game/src/utils/ai.js:256-259 | one pass adds the cell's score |
| Evaluation.ScoreCell | gomoku-game/src/utils/ai.js:256-259 | a stone is scored with its own colour and win priority; an empty cell adds 0 |
| Evaluation.Evicted | gomoku-game/src/utils/ai.js:264-268 | a full cache drops exactly its oldest key; a cache with room keeps every key |
| Evaluation.EvictKeepsInv | gomoku-game/src/utils/ai.js:264-268 | dropping the oldest key keeps the cache invariant and makes room |
| Evaluation.InsertKeepsInv | gomoku-game/src/utils/ai.js:269 | storing a new board's score under its key keeps the cache invariant |
| Evaluation.EvaluationCache.constructor | gomoku-game/src/utils/ai.js:2 | the cache starts empty and valid |
| Evaluation.EvaluationCache.Evaluate | gomoku-game/src/utils/ai.js:243-272 | on a hit, returns the stored value and changes nothing; on a miss, evicts the oldest key if full and stores the new entry last; either way the value is the uncached board score and the cache stays valid |
| Evaluation.Sum | gomoku-game/src/utils/ai.js:251-261 | `totalScore` after the first n cells: the running sum of their scores |
| Evaluation.CacheInv | gomoku-game/src/utils/ai.js:243-272 | the cache's keys in insertion order are distinct, are exactly its keys, number at most 10000, and each maps to the score of the board it encodes |
| AlphaBetaSearch.Max | gomoku-game/src/utils/ai.js:309-310 | Math.max is an upper bound of both arguments and is one of them |
| AlphaBetaSearch.Min | gomoku-game/src/utils/ai.js:339-340 | Math.min is a lower bound of both arguments and is one of them |
| AlphaBetaSearch.Clock.constructor | gomoku-game/src/utils/ai.js:401 | a new clock has the given number of in-time checks |
| AlphaBetaSearch.Clock.Expired | gomoku-game/src/utils/ai.js:277 | a check expires exactly when no in-time check is left, and otherwise uses one up |
| AlphaBetaSearch.Search | gomoku-game/src/utils/ai.js:275-350 | the search never gains deadline checks, and its value is an infinity or within the board-score range |
| AlphaBetaSearch.MaxLoop | gomoku-game/src/utils/ai.js:290-318 | the maximising loop never gains deadline checks, and its value stays within range |
| AlphaBetaSearch.MinLoop | gomoku-game/src/utils/ai.js:321-348 | the minimising loop never gains deadline checks, and its value stays within range |
| AlphaBetaSearch.SearchFiniteInTime | gomoku-game/src/utils/ai.js:275-350 | with candidates and no expired deadline check, the value is finite |
| AlphaBetaSearch.MaxLoopFiniteInTime | gomoku-game/src/utils/ai.js:290-318 | the maximising loop returns a finite value unless a deadline check expired |
| AlphaBetaSearch.MinLoopFiniteInTime | gomoku-game/src/utils/ai.js:321-348 | the minimising loop returns a finite value unless a deadline check expired |
| AlphaBetaSearch.MinReply | gomoku-game/src/utils/ai.js:321-348 | the unpruned one-ply reply is finite when it starts from a finite value |
| AlphaBetaSearch.OnePlyIsMinReply | gomoku-game/src/utils/ai.js:321-348 | one minimising ply with alpha at -Infinity and no expired check equals the unpruned reply: a black win gives -100000, and otherwise the least board score |
| AlphaBetaSearch.AlphaBeta | gomoku-game/src/utils/ai.js:275-350 | the recursive method returns the search value and leaves the clock where the search says; the cache stays valid |
| AlphaBetaSearch.MaximizingLoop | gomoku-game/src/utils/ai.js:290-318 | the loop computes the maximising loop's value |
| AlphaBetaSearch.MaxStep | gomoku-game/src/utils/ai.js:293-316 | one pass stops with the loop's value, or hands the rest of the loop the same value |
| AlphaBetaSearch.MinimizingLoop | gomoku-game/src/utils/ai.js:321-348 | the loop computes the minimising loop's value |
| AlphaBetaSearch.MinStep | gomoku-game/src/utils/ai.js:323-346 | one pass stops with the loop's value, or hands the rest of the loop the same value |
| AlphaBetaSearch.Le | gomoku-game/src/utils/ai.js:313 | `beta <= alpha` on numbers extended with the infinities |
| AlphaBetaSearch.MaxLoopQuiet | gomoku-game/src/utils/ai.js:308-315 | past a candidate where white does not win, the maximising loop searches it, then stops on `beta <= alpha` or goes on with the raised alpha and maxEval |
| AlphaBetaSearch.MinLoopQuiet | gomoku-game/src/utils/ai.js:338-345 | past a candidate where black does not win, the minimising loop searches it, then stops on `beta <= alpha` or goes on with the lowered beta and minEval |
| AlphaBetaSearch.Minimax | gomoku-game/src/utils/ai.js:275-350 | the unpruned search alphaBeta stands for: the same win shortcuts and candidate list, every candidate searched, no deadline |
| AlphaBetaSearch.MaxUnpruned | gomoku-game/src/utils/ai.js:290-318 | the maximising loop of the unpruned search: 100000 at the first white win, otherwise the largest child value |
| AlphaBetaSearch.MinUnpruned | gomoku-game/src/utils/ai.js:321-348 | the minimising loop of the unpruned search: -100000 at the first black win, otherwise the least child value |
| AlphaBetaSearch.MinimaxInWinRange | gomoku-game/src/utils/ai.js:275-350 | when every horizon board scores within plus or minus 100000, so does the unpruned value |
| AlphaBetaSearch.SearchClampsMinimax | gomoku-game/src/utils/ai.js:275-350 | with a window inside the win values and no expired deadline check, the pruned value and the unpruned value agree once clamped to the window |
| AlphaBetaSearch.MaxLoopClampsMinimax | gomoku-game/src/utils/ai.js:290-318 | the maximising loop, pruning on `beta <= alpha`, agrees with the unpruned loop once clamped to the node's window |
| AlphaBetaSearch.MinLoopClampsMinimax | gomoku-game/src/utils/ai.js:321-348 | the minimising loop, pruning on `beta <= alpha`, agrees with the unpruned loop once clamped to the node's window |
| AlphaBetaSearch.SearchIsMinimax | gomoku-game/src/utils/ai.js:275-350 | called with (-Infinity, Infinity) as the root loop calls it, alphaBeta returns exactly the unpruned value at every depth, when no deadline check expires and every horizon board scores within plus or minus 100000 |
| Engine.ProfileOf | gomoku-game/src/utils/ai.js:88-109 | every level searches at least one ply and moves at random at most 30% of the time; win priority is off exactly on easy |
| Engine.RandomIndex | gomoku-game/src/utils/ai.js:354 | Math.floor(Math.random() * n) is below n |
| Engine.RandomIndexBound | gomoku-game/src/utils/ai.js:354 | a draw below 1 scaled by n floors below n |
| Engine.EasyScores | gomoku-game/src/utils/ai.js:363-371 | there is one score pair per candidate |
| Engine.EasyScanOutcome | gomoku-game/src/utils/ai.js:363-388 | the easy loop returns the first candidate with aiScore exactly 100000, and ends with ties exactly when there is none |
| Engine.MaxBlendIsMax | gomoku-game/src/utils/ai.js:377-384 | no blend exceeds the largest blend, and some candidate attains it |
| Engine.TopMovesAreTop | gomoku-game/src/utils/ai.js:382-387 | every listed index is a candidate with the given blend |
| Engine.TopMovesNone | gomoku-game/src/utils/ai.js:382-387 | no candidate has the blend, so none is listed |
| Engine.TopMovesHas | gomoku-game/src/utils/ai.js:382-387 | every candidate with the blend is listed |
| Engine.TopMovesStep | gomoku-game/src/utils/ai.js:382-387 | a strictly larger blend restarts the list with itself; an equal one joins it |
| Engine.EasyScanTies | gomoku-game/src/utils/ai.js:382-387 | after i candidates, bestScore is the largest blend so far and bestMoves lists exactly the candidates that attain it |
| Engine.EasyTiesAreBest | gomoku-game/src/utils/ai.js:359-392 | with no outright win, bestMoves is not empty and holds exactly the candidates with the largest blend, in order |
| Engine.EasyMove | gomoku-game/src/utils/ai.js:359-393 | the easy move is one of the candidates |
| Engine.EasyMoveOfTies | gomoku-game/src/utils/ai.js:390-392 | with ties, the move is the tie picked by the draw |
| Engine.RootLoopOf | gomoku-game/src/utils/ai.js:403-441 | the loop ends on a candidate index |
| Engine.RootLoop | gomoku-game/src/utils/ai.js:396-441 | the root loop ends on a candidate index |
| Engine.RootVisitStops | gomoku-game/src/utils/ai.js:418-427 | the loop body stops at a candidate exactly when white wins there or black would |
| Engine.RootLoopOfStops | gomoku-game/src/utils/ai.js:403-436 | the loop never passes the first candidate that stops it, and stops exactly there when no deadline check has expired |
| Engine.RootStopsAtFirstTactical | gomoku-game/src/utils/ai.js:403-436 | the root loop never passes the first candidate where white wins or black would, and stops exactly there unless the deadline expires first |
| Engine.RootScoresOf | gomoku-game/src/utils/ai.js:430 | at most one value per remaining candidate |
| Engine.RootScores | gomoku-game/src/utils/ai.js:430 | at most one search value per remaining candidate |
| Engine.RootLoopOfTracks | gomoku-game/src/utils/ai.js:432-435 | bestScore and bestMove keep tracking the first largest value seen |
| Engine.ScoreOrder | gomoku-game/src/utils/ai.js:432 | the comparison of search values is total and antisymmetric |
| Engine.NotAboveBelow | gomoku-game/src/utils/ai.js:432 | a value above bestScore is above every value below it |
| Engine.RootPicksFirstBest | gomoku-game/src/utils/ai.js:396-443 | with no tactical candidate and no expired check, the move is the first candidate with the greatest search value |
| Engine.ChooseMove | gomoku-game/src/utils/ai.js:6-443 | the move is a candidate, and there is none exactly when the candidate list is empty |
| Engine.TierMove | gomoku-game/src/utils/ai.js:353-443 | every tier plays one of the candidates |
| Engine.PassesIffFull | gomoku-game/src/utils/ai.js:80-85 | the engine returns null exactly when the board is full |
| Engine.MoveIsEmptyCell | gomoku-game/src/utils/ai.js:6-443 | the engine's move is an empty cell of the board |
| Engine.HardIgnoresChance | gomoku-game/src/utils/ai.js:102-105 | on hard the random draws make no difference |
| Engine.EasyIgnoresClock | gomoku-game/src/utils/ai.js:359-393 | on easy the deadline makes no difference |
| Engine.HardPlaysFirstTactical | gomoku-game/src/utils/ai.js:403-427 | on hard the engine plays the first candidate where white wins or black would, or an earlier one if the deadline expires first |
| Engine.EasyChoice | gomoku-game/src/utils/ai.js:359-393 | the easy loop returns the easy move |
| Engine.EasyStep | gomoku-game/src/utils/ai.js:363-388 | one pass reports a winning candidate, or hands the rest of the loop the same outcome |
| Engine.RootSearch | gomoku-game/src/utils/ai.js:396-441 | the loop returns the root loop's index and leaves the clock where it says |
| Engine.RootStep | gomoku-game/src/utils/ai.js:404-435 | one pass stops with the root loop's outcome, or hands the rest of the loop the same outcome |
| Engine.CheckTactical | gomoku-game/src/utils/ai.js:414-427 | the two checkWin calls answer whether white wins at the cell or black would |
| Engine.MakeSmartAIMove | gomoku-game/src/utils/ai.js:6-443 | the engine returns the chosen move for the given draws and deadline checks, and the cache stays valid |
| Engine.TierChoice | gomoku-game/src/utils/ai.js:353-443 | the random, easy and root branches return the tier's move |
| Engine.TakesRandom | gomoku-game/src/utils/ai.js:353 | `Math.random() < randomness`, with the draw over 2^53 and randomness in tenths |
| Engine.Blend | gomoku-game/src/utils/ai.js:377-380 | `aiScore * 0.7 + playerScore * 0.5`, scaled by ten so it is exact |
| Engine.EasyScan | gomoku-game/src/utils/ai.js:363-388 | the easy loop: the first candidate whose aiScore is exactly 100000 is returned; otherwise a strictly larger blend restarts bestMoves and an equal one joins it |
| Engine.EasyScanPast | gomoku-game/src/utils/ai.js:382-387 | past a candidate that does not win outright, the easy loop updates bestScore and bestMoves and goes on |
| Engine.MaxBlend | gomoku-game/src/utils/ai.js:382-384 | the largest blend among the first n candidates |
| Engine.TopMoves | gomoku-game/src/utils/ai.js:382-387 | the indices among the first n candidates whose blend equals a given value, in order |
| Engine.Tactical | gomoku-game/src/utils/ai.js:414-427 | white wins at the cell, or black would |
| Engine.OrFirst | gomoku-game/src/utils/ai.js:439-441 | the recorded bestMove, or the first candidate when none was recorded |
| Engine.RootVisit | gomoku-game/src/utils/ai.js:413-430 | the root loop body at one candidate: stop when it is tactical, otherwise search the white move with the full window |
| Engine.RootLoopAtTactical | gomoku-game/src/utils/ai.js:418-427 | the root loop returns a tactical candidate at once |
| Engine.RootLoopPastQuiet | gomoku-game/src/utils/ai.js:430-435 | past a candidate that is not tactical, the root loop searches it and keeps it only when its value is strictly above bestScore |
| Game.Restart | gomoku-game/src/components/Board.js:205-213 | restart gives a fresh game that keeps the difficulty |
| Game.ChangeDifficulty | gomoku-game/src/components/Board.js:216-221 | a difficulty change sets the level and starts a fresh game |
| Game.Click | gomoku-game/src/components/Board.js:171-202 | a click keeps a consistent state consistent |
| Game.Answer | gomoku-game/src/components/Board.js:142-168 | the engine's move keeps a consistent state consistent |
| Game.Tick | gomoku-game/src/components/Board.js:26-66 | a tick keeps a consistent state consistent |
| Game.EngineTurn | gomoku-game/src/components/Board.js:69-90 | the engine's turn keeps a consistent state consistent |
| Game.ClickChangesIffAccepted | gomoku-game/src/components/Board.js:173-175 | a click changes the state exactly when the game runs, it is the human's turn and the cell is empty |
| Game.ClickOutcome | gomoku-game/src/components/Board.js:171-202 | an accepted click puts black on the cell and changes no other. The human wins exactly when that stone wins. The game ends exactly on a win or a full board. Otherwise the engine moves next with a full clock |
| Game.AnswerOutcome | gomoku-game/src/components/Board.js:142-168 | the engine's move puts white on the cell. The engine wins exactly when that stone wins. The game ends exactly on a win or a full board. Otherwise the human moves next with a full clock |
| Game.OverIsFinal | gomoku-game/src/components/Board.js:28-30 | a finished game ignores clicks and ticks |
| Game.EngineTurnAddsOneStone | gomoku-game/src/components/Board.js:80-86 | while the game runs the engine has a move; its turn adds one white stone on an empty cell and keeps every other cell |
| Game.Countdown | gomoku-game/src/components/Board.js:29-61 | with nobody moving, the mover's clock loses one second per tick; the tick that empties it ends the game for the other side; the other clock never moves |
| Game.CheckWin | gomoku-game/src/components/Board.js:93-139 | the component's checkWin is the engine's win test |
| Game.AxisCount | gomoku-game/src/components/Board.js:101-132 | one direction counts the centre plus both runs |
| Game.WalkForward | gomoku-game/src/components/Board.js:105-117 | the forward loop counts the run along the direction |
| Game.WalkBackward | gomoku-game/src/components/Board.js:120-132 | the backward loop counts the run along the opposite direction |
| Game.GameBoard.constructor | gomoku-game/src/components/Board.js:11-23 | the initial state is a fresh game on medium |
| Game.GameBoard.HandleCellClick | gomoku-game/src/components/Board.js:171-202 | the handler updates the fields as the click transition says and keeps them consistent |
| Game.GameBoard.HandleAIMove | gomoku-game/src/components/Board.js:142-168 | the handler updates the fields as the engine-move transition says and keeps them consistent |
| Game.GameBoard.OnTick | gomoku-game/src/components/Board.js:29-61 | the interval callback updates the fields as a tick says and keeps them consistent |
| Game.GameBoard.HandleRestart | gomoku-game/src/components/Board.js:205-213 | the fields become a fresh game with the same difficulty |
| Game.GameBoard.HandleDifficultyChange | gomoku-game/src/components/Board.js:216-221 | the fields become a fresh game at the new level |
| Game.GameBoard.PlayEngineTurn | gomoku-game/src/components/Board.js:80-86 | the timeout body applies the engine's move, if any, through handleAIMove |
| Game.ClickIgnored | gomoku-game/src/components/Board.js:173-175 | a click is ignored when the game is over, it is the engine's turn or the cell is taken |
| Game.Ticks | gomoku-game/src/components/Board.js:29-61 | n ticks of the one-second interval with no move between them |

## Left out

- Rendering, the toasts and the CSS are not modelled. The warnings at 10 seconds only show a toast.
- React's scheduling is not modelled: effects, intervals, timeouts and their cleanup.
  The 800, 1200 and 1800 ms delays are dropped. A tick is one call of `OnTick`,
  and an engine turn is one call of `PlayEngineTurn`. Interleavings between a
  pending engine move and a tick are not captured.
- The time limits of 1000 ms and 1500 ms become an arbitrary number of in-time deadline
  checks. The model proves the result for every such number. It does not relate the
  number to milliseconds.
- `Math.random()` is given as draws that are multiples of 2^-53 in [0, 1). The model
  does not capture the distribution.
- Engine.EasyScan: the blend `aiScore * 0.7 + playerScore * 0.5` is computed exactly,
  times ten, and `Math.abs(totalScore - bestScore) < 0.1` is read as equality.
  Floating-point rounding is not modelled: it could make two blends that differ by
  0.1 compare as a tie.
- Engine.EasyScan: the shortcut `playerScore === -100000 && difficulty !== 'easy'`
  (`ai.js:372-374`) is inside the `difficulty === 'easy'` branch, so it never fires
  and is not modelled.
- Engine.TierMove: in the root loop, `difficulty !== 'easy'` at `ai.js:425` is always
  true, because easy returned earlier. The block check is therefore unconditional.
- AlphaBetaSearch.Search: every node iterates the candidate list of the board the
  engine was called with, as the code does. The list is not recomputed for the
  node's own board, so a deeper ply may place a stone on a cell already taken. The
  model follows the code.
- AlphaBetaSearch.Search: its value equals the unpruned search (`SearchIsMinimax`)
  only when no deadline check expires and every board at the horizon scores within
  -100000 and 100000. Board scores can be larger. Then pruning can change the value:
  a cut-off in a maximising node (`ai.js:313-315`) returns maxEval, which may exceed
  100000, while the unpruned search could meet a winning candidate later in the same
  loop, whose shortcut (`ai.js:304-306`) returns exactly 100000. No concrete board
  showing this is constructed.
- `Date.now()` stepping backwards during a call (a system clock adjustment) is not
  modelled. The deadline checks at `ai.js:277`, `295`, `325` and `405` would then
  answer "no" again after a "yes", which the `Clock` object cannot express.
- Evaluation.BoardScore always scores with win priority. evaluateBoard reads the
  difficulty's `winPriority`, and it is reached only from alpha-beta, which runs
  only when the difficulty is not easy.
- The Map's insertion order is modelled as a sequence of keys, and its entries as a
  map. Its hashing and internals are not modelled.
- `difficulty` strings other than 'easy', 'medium' and 'hard' are one `Unrecognized`
  level, which the switch treats as medium. A real unrecognised string would still
  get the 1000 ms limit; the model's clock is abstract anyway.
- Game.GameBoard.HandleAIMove and Game.GameBoard.HandleCellClick require the cell to
  be on the board. Only in-bounds cells can be clicked or returned by the engine.
- Game.Answer has no guard of its own, as `handleAIMove` has none. It is reached
  only while the game runs and it is the engine's turn.
