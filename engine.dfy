/** `makeSmartAIMove`: the engine's move for white. It takes the candidate
    list, returns nothing when it is empty, reads the difficulty table, and
    then plays a random candidate, the easy tier's best blend of attack and
    defence, or the first candidate that wins or blocks and otherwise the
    best alpha-beta score. */
module Engine {
  import opened Grid
  import opened Lines
  import opened RelevantCells
  import opened Evaluation
  import opened AlphaBetaSearch

  /** The `difficulty` argument: the three levels, or any other string,
      which the switch's default branch treats like 'medium'. */
  datatype Difficulty = Easy | Medium | Hard | Unrecognized

  /** The switch's settings: search depth, the chance of a random move in
      tenths (0.3 is 3), and whether a winning placement scores exactly
      +-100000. */
  datatype Profile = Profile(maxDepth: nat, randomTenths: nat, winPriority: bool)

  /** The difficulty switch. */
  function ProfileOf(d: Difficulty): (p: Profile)
    ensures p.maxDepth >= 1 && p.randomTenths <= 3
    ensures p.winPriority <==> d != Easy
  {
    match d
    case Easy => Profile(1, 3, false)
    case Medium => Profile(2, 1, true)
    case Hard => Profile(3, 0, true)
    case Unrecognized => Profile(2, 1, true)
  }

  /** Math.random() returns a multiple of 2^-53 in [0, 1). */
  const RandomScale: nat := 0x20_0000_0000_0000

  /** The two values Math.random() returns during one call, as numerators
      over RandomScale: the first decides whether to move at random, the
      second picks the random move or breaks the easy tier's tie. */
  datatype Draws = Draws(chance: nat, pick: nat)

  predicate ValidDraws(d: Draws) {
    d.chance < RandomScale && d.pick < RandomScale
  }

  /** `Math.random() < randomness`. */
  predicate TakesRandom(chance: nat, randomTenths: nat) {
    10 * chance < randomTenths * RandomScale
  }

  /** `Math.floor(Math.random() * n)`. */
  function RandomIndex(draw: nat, n: nat): (k: nat)
    requires draw < RandomScale && n > 0
    ensures k < n
  {
    RandomIndexBound(draw, n);
    draw * n / RandomScale
  }

  lemma RandomIndexBound(draw: nat, n: nat)
    requires draw < RandomScale && n > 0
    ensures draw * n / RandomScale < n
  {
    var gap := RandomScale - draw;
    assert gap * n > 0;
    assert RandomScale * n == draw * n + gap * n;
    var q := draw * n / RandomScale;
    assert RandomScale * q <= draw * n;
    assert RandomScale * (n - q) == RandomScale * n - RandomScale * q;
    assert RandomScale * (n - q) > 0;
  }

  // ---------------------------------------------------------------------
  // The easy tier

  /** A candidate's `aiScore` and `playerScore`: the pattern scores of a white
      and of a black stone there, without win priority. */
  datatype EasyScore = EasyScore(attack: int, defense: int)

  /** The scores of every candidate, in candidate order. */
  function EasyScores(cands: seq<Pos>, b: Board): (s: seq<EasyScore>)
    requires IsBoard(b)
    ensures |s| == |cands|
  {
    seq(|cands|, j requires 0 <= j < |cands| =>
      EasyScore(PositionScore(b, cands[j].row, cands[j].col, White, false),
                PositionScore(b, cands[j].row, cands[j].col, Black, false)))
  }

  /** Candidate j's entry: the scores of a white and of a black stone there. */
  lemma EasyScoreAt(cands: seq<Pos>, b: Board, j: nat)
    requires IsBoard(b) && j < |cands|
    ensures EasyScores(cands, b)[j] ==
      EasyScore(PositionScore(b, cands[j].row, cands[j].col, White, false),
                PositionScore(b, cands[j].row, cands[j].col, Black, false))
  {
  }

  /** `aiScore * 0.7 + playerScore * 0.5`, times ten. */
  function Blend(e: EasyScore): int {
    7 * e.attack + 5 * e.defense
  }

  /** What the easy loop ends with: a candidate it returns at once, or the
      indices of the candidates sharing the best blend. */
  datatype EasyPick = Winning(index: nat) | Ties(moves: seq<nat>)

  /** The easy loop from candidate i on, with bestScore `best` and bestMoves
      `moves`: a candidate whose aiScore is exactly 100000 is returned at
      once; otherwise a larger blend restarts the ties and an equal one
      joins them. The defensive shortcut `playerScore === -100000 &&
      difficulty !== 'easy'` is never taken in this branch and is left out. */
  function EasyScan(s: seq<EasyScore>, i: nat, best: Score, moves: seq<nat>): EasyPick
    requires i <= |s|
    decreases |s| - i
  {
    if i == |s| then Ties(moves)
    else if s[i].attack == 100000 then Winning(i)
    else
      var total := Fin(Blend(s[i]));
      if !Le(total, best) then EasyScan(s, i + 1, total, [i])
      else if total == best then EasyScan(s, i + 1, best, moves + [i])
      else EasyScan(s, i + 1, best, moves)
  }

  /** The easy loop returns at once the first candidate whose aiScore is
      exactly 100000, and ends with the ties only when there is none. */
  lemma {:induction false} EasyScanOutcome(s: seq<EasyScore>, i: nat, best: Score, moves: seq<nat>)
    requires i <= |s|
    ensures var r := EasyScan(s, i, best, moves);
      (r.Winning? ==>
        i <= r.index < |s| && s[r.index].attack == 100000 &&
        forall j :: i <= j < r.index ==> s[j].attack != 100000) &&
      (r.Ties? <==> forall j :: i <= j < |s| ==> s[j].attack != 100000)
    decreases |s| - i
  {
    if i < |s| && s[i].attack != 100000 {
      var total := Fin(Blend(s[i]));
      if !Le(total, best) {
        EasyScanOutcome(s, i + 1, total, [i]);
      } else if total == best {
        EasyScanOutcome(s, i + 1, best, moves + [i]);
      } else {
        EasyScanOutcome(s, i + 1, best, moves);
      }
    }
  }

  /** Past a candidate that does not win outright, the easy loop goes on
      with the next one. */
  lemma EasyScanPast(s: seq<EasyScore>, i: nat, best: Score, moves: seq<nat>)
    requires i < |s| && s[i].attack != 100000
    ensures var total := Fin(Blend(s[i]));
      EasyScan(s, i, best, moves) ==
        if !Le(total, best) then EasyScan(s, i + 1, total, [i])
        else if total == best then EasyScan(s, i + 1, best, moves + [i])
        else EasyScan(s, i + 1, best, moves)
  {
  }

  /** The largest blend among the first n scores. */
  function MaxBlend(s: seq<EasyScore>, n: nat): int
    requires 1 <= n <= |s|
  {
    if n == 1 then Blend(s[0])
    else
      var m := MaxBlend(s, n - 1);
      var t := Blend(s[n - 1]);
      if t > m then t else m
  }

  /** MaxBlend is the largest blend among the first n scores: no blend
      exceeds it and some blend equals it. */
  lemma {:induction false} MaxBlendIsMax(s: seq<EasyScore>, n: nat)
    requires 1 <= n <= |s|
    ensures forall j :: 0 <= j < n ==> Blend(s[j]) <= MaxBlend(s, n)
    ensures exists j :: 0 <= j < n && Blend(s[j]) == MaxBlend(s, n)
    decreases n
  {
    if n > 1 {
      MaxBlendIsMax(s, n - 1);
      if Blend(s[n - 1]) <= MaxBlend(s, n - 1) {
        var j :| 0 <= j < n - 1 && Blend(s[j]) == MaxBlend(s, n - 1);
        assert Blend(s[j]) == MaxBlend(s, n);
      }
    } else {
      assert Blend(s[0]) == MaxBlend(s, n);
    }
  }

  /** The indices among the first n whose blend is m, in order. */
  function TopMoves(s: seq<EasyScore>, m: int, n: nat): seq<nat>
    requires n <= |s|
  {
    if n == 0 then []
    else TopMoves(s, m, n - 1) + (if Blend(s[n - 1]) == m then [n - 1] else [])
  }

  /** Every index TopMoves lists is among the first n and has blend m. */
  lemma {:induction false} TopMovesAreTop(s: seq<EasyScore>, m: int, n: nat)
    requires n <= |s|
    ensures forall k :: 0 <= k < |TopMoves(s, m, n)| ==>
      TopMoves(s, m, n)[k] < n && Blend(s[TopMoves(s, m, n)[k]]) == m
    decreases n
  {
    if n > 0 {
      TopMovesAreTop(s, m, n - 1);
    }
  }

  lemma {:induction false} TopMovesNone(s: seq<EasyScore>, m: int, n: nat)
    requires n <= |s|
    requires forall j :: 0 <= j < n ==> Blend(s[j]) < m
    ensures TopMoves(s, m, n) == []
    decreases n
  {
    if n > 0 {
      TopMovesNone(s, m, n - 1);
    }
  }

  lemma {:induction false} TopMovesHas(s: seq<EasyScore>, m: int, n: nat, j: nat)
    requires n <= |s| && j < n && Blend(s[j]) == m
    ensures j in TopMoves(s, m, n)
    decreases n
  {
    if j < n - 1 {
      TopMovesHas(s, m, n - 1, j);
    }
  }

  /** How the largest blend and its indices change with one more candidate. */
  lemma TopMovesStep(s: seq<EasyScore>, i: nat)
    requires 1 <= i < |s|
    ensures Blend(s[i]) > MaxBlend(s, i) ==>
      MaxBlend(s, i + 1) == Blend(s[i]) && TopMoves(s, Blend(s[i]), i + 1) == [i]
    ensures Blend(s[i]) <= MaxBlend(s, i) ==>
      MaxBlend(s, i + 1) == MaxBlend(s, i) &&
      TopMoves(s, MaxBlend(s, i), i + 1) ==
        TopMoves(s, MaxBlend(s, i), i) + (if Blend(s[i]) == MaxBlend(s, i) then [i] else [])
  {
    if Blend(s[i]) > MaxBlend(s, i) {
      MaxBlendIsMax(s, i);
      TopMovesNone(s, Blend(s[i]), i);
    }
  }

  /** The easy loop's bookkeeping after the first i candidates. */
  lemma {:induction false} EasyScanTies(s: seq<EasyScore>, i: nat, best: Score, moves: seq<nat>)
    requires 1 <= i <= |s|
    requires best == Fin(MaxBlend(s, i)) && moves == TopMoves(s, MaxBlend(s, i), i)
    requires forall j :: i <= j < |s| ==> s[j].attack != 100000
    ensures EasyScan(s, i, best, moves) == Ties(TopMoves(s, MaxBlend(s, |s|), |s|))
    decreases |s| - i
  {
    if i == |s| {
      assert EasyScan(s, i, best, moves) == Ties(moves);
    } else {
      EasyScanPast(s, i, best, moves);
      TopMovesStep(s, i);
      var t := Blend(s[i]);
      if t > MaxBlend(s, i) {
        assert EasyScan(s, i, best, moves) == EasyScan(s, i + 1, Fin(t), [i]);
        EasyScanTies(s, i + 1, Fin(t), [i]);
      } else {
        var moves' := if t == MaxBlend(s, i) then moves + [i] else moves;
        assert EasyScan(s, i, best, moves) == EasyScan(s, i + 1, best, moves');
        EasyScanTies(s, i + 1, best, moves');
      }
    }
  }

  /** When no candidate wins outright, bestMoves holds exactly the candidates
      whose blend is the largest, in candidate order, and is not empty. */
  lemma EasyTiesAreBest(s: seq<EasyScore>)
    requires |s| > 0
    requires EasyScan(s, 0, NegInf, []).Ties?
    ensures var moves := EasyScan(s, 0, NegInf, []).moves;
      moves == TopMoves(s, MaxBlend(s, |s|), |s|) &&
      |moves| > 0 && forall k :: 0 <= k < |moves| ==> moves[k] < |s|
  {
    EasyScanOutcome(s, 0, NegInf, []);
    assert TopMoves(s, Blend(s[0]), 1) == [0];
    EasyScanTies(s, 1, Fin(Blend(s[0])), [0]);
    var m := MaxBlend(s, |s|);
    MaxBlendIsMax(s, |s|);
    var j :| 0 <= j < |s| && Blend(s[j]) == m;
    TopMovesHas(s, m, |s|, j);
    TopMovesAreTop(s, m, |s|);
  }

  /** The easy tier's move: the winning candidate, or a tie picked at random. */
  function EasyMove(cands: seq<Pos>, b: Board, pick: nat): (p: Pos)
    requires IsBoard(b) && |cands| > 0 && pick < RandomScale
    ensures exists k :: 0 <= k < |cands| && cands[k] == p
  {
    var s := EasyScores(cands, b);
    match EasyScan(s, 0, NegInf, [])
    case Winning(k) =>
      EasyScanOutcome(s, 0, NegInf, []);
      cands[k]
    case Ties(moves) =>
      EasyTiesAreBest(s);
      cands[moves[RandomIndex(pick, |moves|)]]
  }

  /** EasyMove when the scan ends without a winning candidate. */
  lemma EasyMoveOfTies(cands: seq<Pos>, b: Board, pick: nat, moves: seq<nat>)
    requires IsBoard(b) && |cands| > 0 && pick < RandomScale
    requires EasyScan(EasyScores(cands, b), 0, NegInf, []) == Ties(moves)
    ensures |moves| > 0 && forall k :: 0 <= k < |moves| ==> moves[k] < |cands|
    ensures EasyMove(cands, b, pick) == cands[moves[RandomIndex(pick, |moves|)]]
  {
    EasyTiesAreBest(EasyScores(cands, b));
  }

  // ---------------------------------------------------------------------
  // The medium and hard tiers

  /** Placing white at p wins, or placing black there would. */
  predicate Tactical(b: Board, p: Pos)
    requires IsBoard(b) && IsCell(p)
  {
    Wins(Place(b, p.row, p.col, White), p.row, p.col, White) ||
    Wins(Place(b, p.row, p.col, Black), p.row, p.col, Black)
  }

  /** The index the root loop settles on and the in-time deadline checks left. */
  datatype RootOutcome = RootOutcome(index: nat, clock: nat)

  /** The bestMove recorded, or `emptyCells[0]` when there is none. */
  function OrFirst(bestIdx: Option<nat>): nat {
    if bestIdx.Some? then bestIdx.value else 0
  }

  /** The work of the root loop's body at candidate j, once its deadline
      check has passed with `c` checks left: None when white wins there or
      black would (the loop returns that move), otherwise the outcome of
      searching the move. */
  function RootVisit(cands: seq<Pos>, b: Board, depth: nat): (nat, nat) -> Option<Outcome>
  {
    (j: nat, c: nat) =>
      if IsBoard(b) && AllCells(cands) && j < |cands| then
        if Tactical(b, cands[j]) then None
        else Some(Search(cands, Place(b, cands[j].row, cands[j].col, White), depth, NegInf, PosInf, false, c))
      else None
  }

  /** The shape of the root loop over n candidates, whatever the body does
      at each one: stop on an expired deadline (with the move recorded, or
      the first), stop at a candidate whose visit is None, and otherwise
      keep the candidate when its value is strictly above bestScore. */
  function RootLoopOf(n: nat, visit: (nat, nat) -> Option<Outcome>, i: nat, best: Score, bestIdx: Option<nat>, clock: nat): (o: RootOutcome)
    requires i <= n
    ensures (bestIdx.Some? ==> bestIdx.value < n) && n > 0 ==> o.index < n
    decreases n - i
  {
    if i == n || clock == 0 then RootOutcome(OrFirst(bestIdx), clock)
    else
      match visit(i, clock - 1)
      case None => RootOutcome(i, clock - 1)
      case Some(r) =>
        if !Le(r.value, best) then RootLoopOf(n, visit, i + 1, r.value, Some(i), r.clock)
        else RootLoopOf(n, visit, i + 1, best, bestIdx, r.clock)
  }

  /** The root loop from candidate i on, with bestScore `best` and bestMove
      `bestIdx`; each move is searched to depth `depth` (maxDepth - 1). */
  function RootLoop(cands: seq<Pos>, b: Board, depth: nat, i: nat, best: Score, bestIdx: Option<nat>, clock: nat): (o: RootOutcome)
    requires IsBoard(b) && AllCells(cands) && i <= |cands|
    ensures (bestIdx.Some? ==> bestIdx.value < |cands|) && |cands| > 0 ==> o.index < |cands|
  {
    RootLoopOf(|cands|, RootVisit(cands, b, depth), i, best, bestIdx, clock)
  }

  /** The root loop stops at a candidate where white wins or black would. */
  lemma RootLoopAtTactical(cands: seq<Pos>, b: Board, depth: nat, i: nat, best: Score, bestIdx: Option<nat>, clock: nat)
    requires IsBoard(b) && AllCells(cands) && i < |cands| && clock > 0 && Tactical(b, cands[i])
    ensures RootLoop(cands, b, depth, i, best, bestIdx, clock) == RootOutcome(i, clock - 1)
  {
  }

  /** Past a candidate that neither wins nor blocks, the root loop searches
      it and goes on with the next one, keeping the move if it scores
      strictly higher. */
  lemma RootLoopPastQuiet(cands: seq<Pos>, b: Board, depth: nat, i: nat, best: Score, bestIdx: Option<nat>, clock: nat)
    returns (r: Outcome)
    requires IsBoard(b) && AllCells(cands) && i < |cands| && clock > 0 && !Tactical(b, cands[i])
    ensures r == Search(cands, Place(b, cands[i].row, cands[i].col, White), depth, NegInf, PosInf, false, clock - 1)
    ensures !Le(r.value, best) ==>
      RootLoop(cands, b, depth, i, best, bestIdx, clock) == RootLoop(cands, b, depth, i + 1, r.value, Some(i), r.clock)
    ensures Le(r.value, best) ==>
      RootLoop(cands, b, depth, i, best, bestIdx, clock) == RootLoop(cands, b, depth, i + 1, best, bestIdx, r.clock)
  {
    r := Search(cands, Place(b, cands[i].row, cands[i].col, White), depth, NegInf, PosInf, false, clock - 1);
  }

  /** The visit of a candidate is None exactly when it is tactical. */
  lemma RootVisitStops(cands: seq<Pos>, b: Board, depth: nat, j: nat, c: nat)
    requires IsBoard(b) && AllCells(cands) && j < |cands|
    ensures RootVisit(cands, b, depth)(j, c).None? <==> Tactical(b, cands[j])
  {
  }

  /** Whatever the visits, the loop never goes past the first candidate whose
      visit stops it, and stops exactly there when a deadline check is left. */
  lemma {:induction false} RootLoopOfStops(n: nat, visit: (nat, nat) -> Option<Outcome>, i: nat, best: Score, bestIdx: Option<nat>, clock: nat, k: nat)
    requires i <= k < n
    requires bestIdx.Some? ==> bestIdx.value < i
    requires forall c :: visit(k, c).None?
    requires forall j, c :: i <= j < k ==> visit(j, c).Some?
    ensures RootLoopOf(n, visit, i, best, bestIdx, clock).index <= k
    ensures RootLoopOf(n, visit, i, best, bestIdx, clock).clock > 0 ==>
      RootLoopOf(n, visit, i, best, bestIdx, clock).index == k
    decreases n - i
  {
    if clock != 0 && i < k {
      var r := visit(i, clock - 1).value;
      if !Le(r.value, best) {
        RootLoopOfStops(n, visit, i + 1, r.value, Some(i), r.clock, k);
      } else {
        RootLoopOfStops(n, visit, i + 1, best, bestIdx, r.clock, k);
      }
    }
  }

  /** The root loop never goes past the first candidate where white wins or
      black would win, and stops exactly there unless the deadline expires
      first. A block at an earlier candidate is therefore chosen over a win
      at a later one. */
  lemma RootStopsAtFirstTactical(cands: seq<Pos>, b: Board, depth: nat, i: nat, best: Score, bestIdx: Option<nat>, clock: nat, k: nat)
    requires IsBoard(b) && AllCells(cands) && i <= k < |cands|
    requires bestIdx.Some? ==> bestIdx.value < i
    requires Tactical(b, cands[k]) && forall j :: i <= j < k ==> !Tactical(b, cands[j])
    ensures RootLoop(cands, b, depth, i, best, bestIdx, clock).index <= k
    ensures RootLoop(cands, b, depth, i, best, bestIdx, clock).clock > 0 ==>
      RootLoop(cands, b, depth, i, best, bestIdx, clock).index == k
  {
    var visit := RootVisit(cands, b, depth);
    forall c ensures visit(k, c).None? {
      RootVisitStops(cands, b, depth, k, c);
    }
    forall j, c | i <= j < k ensures visit(j, c).Some? {
      RootVisitStops(cands, b, depth, j, c);
    }
    RootLoopOfStops(|cands|, visit, i, best, bestIdx, clock, k);
  }

  /** The values the visits yield from candidate i on, up to the first
      candidate that stops the loop or the first expired deadline check. */
  function RootScoresOf(n: nat, visit: (nat, nat) -> Option<Outcome>, i: nat, clock: nat): (s: seq<Score>)
    requires i <= n
    ensures |s| <= n - i
    decreases n - i
  {
    if i == n || clock == 0 then []
    else
      match visit(i, clock - 1)
      case None => []
      case Some(r) => [r.value] + RootScoresOf(n, visit, i + 1, r.clock)
  }

  /** The search values the root loop computes from candidate i on, when no
      candidate is tactical, up to the first expired deadline check. */
  function RootScores(cands: seq<Pos>, b: Board, depth: nat, i: nat, clock: nat): (s: seq<Score>)
    requires IsBoard(b) && AllCells(cands) && i <= |cands|
    ensures |s| <= |cands| - i
  {
    RootScoresOf(|cands|, RootVisit(cands, b, depth), i, clock)
  }

  /** k is the first index of a largest value of s. */
  predicate FirstArgMax(s: seq<Score>, k: nat) {
    k < |s| && (forall j :: 0 <= j < k ==> !Le(s[k], s[j])) && (forall j :: 0 <= j < |s| ==> Le(s[j], s[k]))
  }

  /** What bestScore and bestMove say about the scores seen so far. */
  predicate Tracks(seen: seq<Score>, best: Score, bestIdx: Option<nat>) {
    if bestIdx.None? then
      best == NegInf && forall j :: 0 <= j < |seen| ==> seen[j] == NegInf
    else
      bestIdx.value < |seen| && seen[bestIdx.value] == best &&
      (forall j :: 0 <= j < bestIdx.value ==> !Le(best, seen[j])) &&
      (forall j :: 0 <= j < |seen| ==> Le(seen[j], best))
  }

  /** Whatever the visits, when none stops the loop and every deadline check
      passes, bestScore and bestMove keep tracking the first largest value. */
  lemma {:induction false} RootLoopOfTracks(n: nat, visit: (nat, nat) -> Option<Outcome>, i: nat, best: Score, bestIdx: Option<nat>, clock: nat, seen: seq<Score>)
    requires i <= n && |seen| == i && n > 0
    requires Tracks(seen, best, bestIdx)
    requires forall j, c :: i <= j < n ==> visit(j, c).Some?
    requires |RootScoresOf(n, visit, i, clock)| == n - i
    ensures FirstArgMax(seen + RootScoresOf(n, visit, i, clock), RootLoopOf(n, visit, i, best, bestIdx, clock).index)
    decreases n - i
  {
    if i == n {
      assert seen + RootScoresOf(n, visit, i, clock) == seen;
    } else {
      var r := visit(i, clock - 1).value;
      assert seen + RootScoresOf(n, visit, i, clock) == (seen + [r.value]) + RootScoresOf(n, visit, i + 1, r.clock);
      if !Le(r.value, best) {
        ScoreOrder(r.value, best);
        forall j | 0 <= j < i ensures !Le(r.value, seen[j]) {
          NotAboveBelow(r.value, seen[j], best);
        }
        RootLoopOfTracks(n, visit, i + 1, r.value, Some(i), r.clock, seen + [r.value]);
      } else {
        RootLoopOfTracks(n, visit, i + 1, best, bestIdx, r.clock, seen + [r.value]);
      }
    }
  }

  /** Le is a total order on search values. */
  lemma ScoreOrder(a: Score, c: Score)
    ensures Le(a, c) || Le(c, a)
    ensures Le(a, c) && Le(c, a) ==> a == c
  {
  }

  /** What is above e is above anything below e. */
  lemma NotAboveBelow(a: Score, c: Score, e: Score)
    requires Le(c, e) && !Le(a, e)
    ensures !Le(a, c)
  {
  }

  /** When no candidate wins or blocks and every deadline check finds time
      left, the root loop returns the first candidate with the strictly
      greatest search value: later candidates with an equal value do not
      replace it. */
  lemma RootPicksFirstBest(cands: seq<Pos>, b: Board, depth: nat, clock: nat)
    requires IsBoard(b) && AllCells(cands) && |cands| > 0
    requires forall j :: 0 <= j < |cands| ==> !Tactical(b, cands[j])
    requires |RootScores(cands, b, depth, 0, clock)| == |cands|
    ensures FirstArgMax(RootScores(cands, b, depth, 0, clock), RootLoop(cands, b, depth, 0, NegInf, None, clock).index)
  {
    var visit := RootVisit(cands, b, depth);
    forall j, c | 0 <= j < |cands| ensures visit(j, c).Some? {
      RootVisitStops(cands, b, depth, j, c);
    }
    assert [] + RootScoresOf(|cands|, visit, 0, clock) == RootScoresOf(|cands|, visit, 0, clock);
    RootLoopOfTracks(|cands|, visit, 0, NegInf, None, clock, []);
  }

  // ---------------------------------------------------------------------
  // The whole policy

  /** makeSmartAIMove(board, difficulty) with the given random draws and
      deadline checks. */
  function ChooseMove(b: Board, d: Difficulty, draws: Draws, clock: nat): (move: Option<Pos>)
    requires IsBoard(b) && ValidDraws(draws)
    ensures move.Some? ==> exists k :: 0 <= k < |Candidates(b)| && Candidates(b)[k] == move.value
    ensures move.None? <==> Candidates(b) == []
  {
    var cands := Candidates(b);
    if |cands| == 0 then None else Some(TierMove(cands, b, d, draws, clock))
  }

  /** The move picked from a non-empty candidate list: at random with the
      difficulty's chance, else by the easy tier, else by the root loop. */
  function TierMove(cands: seq<Pos>, b: Board, d: Difficulty, draws: Draws, clock: nat): (p: Pos)
    requires IsBoard(b) && ValidDraws(draws) && AllCells(cands) && |cands| > 0
    ensures exists k :: 0 <= k < |cands| && cands[k] == p
  {
    var profile := ProfileOf(d);
    if TakesRandom(draws.chance, profile.randomTenths) then cands[RandomIndex(draws.pick, |cands|)]
    else if d == Easy then EasyMove(cands, b, draws.pick)
    else cands[RootLoop(cands, b, profile.maxDepth - 1, 0, NegInf, None, clock).index]
  }

  /** The engine passes (returns null) exactly when the board is full. */
  lemma PassesIffFull(b: Board, d: Difficulty, draws: Draws, clock: nat)
    requires IsBoard(b) && ValidDraws(draws)
    ensures ChooseMove(b, d, draws, clock).None? <==> IsFull(b)
  {
    CandidatesEmptyIffFull(b);
  }

  /** The move is an empty cell of the board. */
  lemma MoveIsEmptyCell(b: Board, d: Difficulty, draws: Draws, clock: nat)
    requires IsBoard(b) && ValidDraws(draws)
    requires ChooseMove(b, d, draws, clock).Some?
    ensures var p := ChooseMove(b, d, draws, clock).value;
      IsCell(p) && b[p.row][p.col] == Empty
  {
    var p := ChooseMove(b, d, draws, clock).value;
    var k :| 0 <= k < |Candidates(b)| && Candidates(b)[k] == p;
  }

  /** Hard never moves at random, and the easy tier never looks at the clock. */
  lemma HardIgnoresChance(b: Board, draws1: Draws, draws2: Draws, clock: nat)
    requires IsBoard(b) && ValidDraws(draws1) && ValidDraws(draws2)
    ensures ChooseMove(b, Hard, draws1, clock) == ChooseMove(b, Hard, draws2, clock)
  {
  }

  lemma EasyIgnoresClock(b: Board, draws: Draws, clock1: nat, clock2: nat)
    requires IsBoard(b) && ValidDraws(draws)
    ensures ChooseMove(b, Easy, draws, clock1) == ChooseMove(b, Easy, draws, clock2)
  {
  }

  /** On hard, the engine plays the first candidate where white wins or
      black would, or an earlier one if the deadline expires before it. */
  lemma HardPlaysFirstTactical(b: Board, draws: Draws, clock: nat, k: nat)
    requires IsBoard(b) && ValidDraws(draws)
    requires k < |Candidates(b)| && Tactical(b, Candidates(b)[k])
    requires forall j :: 0 <= j < k ==> !Tactical(b, Candidates(b)[j])
    ensures exists j :: 0 <= j <= k && ChooseMove(b, Hard, draws, clock) == Some(Candidates(b)[j])
  {
    var cands := Candidates(b);
    RootStopsAtFirstTactical(cands, b, 2, 0, NegInf, None, clock, k);
    var j := RootLoop(cands, b, 2, 0, NegInf, None, clock).index;
    assert ChooseMove(b, Hard, draws, clock) == Some(cands[j]);
  }

  // ---------------------------------------------------------------------
  // The loops

  /** The easy branch: score each candidate for both colours, return a
      winning one at once, otherwise keep the indices of the best blend. */
  method EasyChoice(cands: seq<Pos>, b: Board, pick: nat) returns (move: Pos)
    requires IsBoard(b) && |cands| > 0 && pick < RandomScale
    ensures move == EasyMove(cands, b, pick)
  {
    ghost var s := EasyScores(cands, b);
    var bestScore := NegInf;
    var bestMoves: seq<nat> := [];
    var i := 0;
    while i < |cands|
      invariant 0 <= i <= |cands|
      invariant EasyScan(s, i, bestScore, bestMoves) == EasyScan(s, 0, NegInf, [])
    {
      var won;
      won, bestScore, bestMoves := EasyStep(cands, b, i, bestScore, bestMoves);
      if won {
        return cands[i];
      }
      i := i + 1;
    }
    EasyMoveOfTies(cands, b, pick, bestMoves);
    var randomIndex := RandomIndex(pick, |bestMoves|);
    move := cands[bestMoves[randomIndex]];
  }

  /** One pass of the easy loop at candidate i: report a winning candidate,
      or fold its blend into bestScore and bestMoves. */
  method EasyStep(cands: seq<Pos>, b: Board, i: nat, bestScore: Score, bestMoves: seq<nat>)
    returns (won: bool, score': Score, moves': seq<nat>)
    requires IsBoard(b) && i < |cands|
    ensures won ==> EasyScan(EasyScores(cands, b), i, bestScore, bestMoves) == Winning(i)
    ensures !won ==>
      EasyScan(EasyScores(cands, b), i + 1, score', moves') == EasyScan(EasyScores(cands, b), i, bestScore, bestMoves)
  {
    ghost var s := EasyScores(cands, b);
    score', moves' := bestScore, bestMoves;
    var p := cands[i];
    var aiScore := EvaluatePosition(b, p.row, p.col, White, false);
    EasyScoreAt(cands, b, i);
    if aiScore == 100000 {
      return true, score', moves';
    }
    var playerScore := EvaluatePosition(b, p.row, p.col, Black, false);
    EasyScanPast(s, i, bestScore, bestMoves);
    var totalScore := Fin(7 * aiScore + 5 * playerScore);
    if !Le(totalScore, bestScore) {
      score' := totalScore;
      moves' := [i];
    } else if totalScore == bestScore {
      moves' := bestMoves + [i];
    }
    won := false;
  }

  /** The medium and hard loop over the candidates. */
  method RootSearch(b: Board, cands: seq<Pos>, depth: nat, cache: EvaluationCache, clock: Clock) returns (index: nat)
    requires IsBoard(b) && cache.Valid() && cands == Candidates(b) && |cands| > 0
    modifies cache, clock
    ensures cache.Valid()
    ensures RootOutcome(index, clock.left) == RootLoop(cands, b, depth, 0, NegInf, None, old(clock.left))
  {
    ghost var whole := RootLoop(cands, b, depth, 0, NegInf, None, clock.left);
    var bestScore := NegInf;
    var bestMove: Option<nat> := None;
    var i := 0;
    while i < |cands|
      invariant 0 <= i <= |cands| && cache.Valid()
      invariant bestMove.Some? ==> bestMove.value < i
      invariant RootLoop(cands, b, depth, i, bestScore, bestMove, clock.left) == whole
    {
      var done, score, move := RootStep(b, cands, depth, i, bestScore, bestMove, cache, clock);
      if done {
        return move.value;
      }
      bestScore, bestMove := score, move;
      i := i + 1;
    }
    index := OrFirst(bestMove);
  }

  /** One pass of the root loop at candidate i: stop on an expired deadline
      (with `emptyCells[0]` when nothing is recorded yet), on a win or on a
      block, and otherwise search the move and keep it if it scores strictly
      higher than bestScore. */
  method RootStep(b: Board, cands: seq<Pos>, depth: nat, i: nat, bestScore: Score, bestMove: Option<nat>,
                  cache: EvaluationCache, clock: Clock)
    returns (done: bool, score': Score, move': Option<nat>)
    requires IsBoard(b) && cache.Valid() && cands == Candidates(b) && i < |cands|
    requires bestMove.Some? ==> bestMove.value < i
    modifies cache, clock
    ensures cache.Valid()
    ensures done ==> move'.Some?
    ensures done ==> RootOutcome(move'.value, clock.left) == RootLoop(cands, b, depth, i, bestScore, bestMove, old(clock.left))
    ensures !done ==> move'.Some? ==> move'.value < i + 1
    ensures !done ==> RootLoop(cands, b, depth, i + 1, score', move', clock.left) == RootLoop(cands, b, depth, i, bestScore, bestMove, old(clock.left))
  {
    score', move' := bestScore, bestMove;
    ghost var left := clock.left;
    var expired := clock.Expired();
    if expired {
      if move'.None? {
        move' := Some(0);
      }
      return true, score', move';
    }
    var p := cands[i];
    var tactical := CheckTactical(b, p);
    if tactical {
      RootLoopAtTactical(cands, b, depth, i, bestScore, bestMove, left);
      return true, score', Some(i);
    }
    ghost var r := RootLoopPastQuiet(cands, b, depth, i, bestScore, bestMove, left);
    var newBoard := Place(b, p.row, p.col, White);
    var score := AlphaBeta(b, newBoard, depth, NegInf, PosInf, false, cache, clock);
    if !Le(score, bestScore) {
      score', move' := score, Some(i);
    }
    done := false;
  }

  /** The two checks at the top of the root loop's body: does white win by
      playing p (`checkWin(newBoard, …, 'white')`), or would black
      (`checkWin(blockBoard, …, 'black')`)? */
  method CheckTactical(b: Board, p: Pos) returns (t: bool)
    requires IsBoard(b) && IsCell(p)
    ensures t == Tactical(b, p)
  {
    var newBoard := Place(b, p.row, p.col, White);
    t := CheckWin(newBoard, p.row, p.col, White);
    if !t {
      var playerBoard := Place(b, p.row, p.col, Black);
      t := CheckWin(playerBoard, p.row, p.col, Black);
    }
  }

  /** makeSmartAIMove. The random draws and the deadline checks are given;
      `cache` is the module-level evaluationCache, kept between calls. */
  method MakeSmartAIMove(b: Board, d: Difficulty, draws: Draws, cache: EvaluationCache, clock: Clock) returns (move: Option<Pos>)
    requires IsBoard(b) && ValidDraws(draws) && cache.Valid()
    modifies cache, clock
    ensures cache.Valid()
    ensures move == ChooseMove(b, d, draws, old(clock.left))
  {
    var emptyCells := RelevantEmptyCells(b);
    if |emptyCells| == 0 {
      return None;
    }
    var p := TierChoice(b, emptyCells, d, draws, cache, clock);
    move := Some(p);
  }

  /** The rest of makeSmartAIMove once the candidate list is known not to be
      empty: a random move with the difficulty's chance, else the easy loop,
      else the root loop. */
  method TierChoice(b: Board, cands: seq<Pos>, d: Difficulty, draws: Draws, cache: EvaluationCache, clock: Clock)
    returns (p: Pos)
    requires IsBoard(b) && ValidDraws(draws) && cache.Valid() && cands == Candidates(b) && |cands| > 0
    modifies cache, clock
    ensures cache.Valid()
    ensures p == TierMove(cands, b, d, draws, old(clock.left))
  {
    var profile := ProfileOf(d);
    if 10 * draws.chance < profile.randomTenths * RandomScale {
      var randomIndex := RandomIndex(draws.pick, |cands|);
      return cands[randomIndex];
    }
    if d == Easy {
      p := EasyChoice(cands, b, draws.pick);
      return;
    }
    var index := RootSearch(b, cands, profile.maxDepth - 1, cache, clock);
    p := cands[index];
  }
}
