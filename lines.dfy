/** Line detection and the per-stone pattern scorer of the engine
    (`checkWin` and `evaluatePosition` in gomoku-game/src/utils/ai.js).
    Both look at most four cells each way along four axes through (row, col),
    and neither reads the cell (row, col) itself. */
module Lines {
  import opened Grid

  /** A step (dx, dy) along a line. */
  datatype Dir = Dir(dr: int, dc: int)

  /** Horizontal, vertical, diagonal and anti-diagonal, in the source's order. */
  const Axes: seq<Dir> := [Dir(0, 1), Dir(1, 0), Dir(1, 1), Dir(1, -1)]

  /** The step in the opposite direction (`row - dx * i`, `col - dy * i`). */
  function Opposite(d: Dir): Dir {
    Dir(-d.dr, -d.dc)
  }

  /** The i-th cell from (row, col) along d is on the board and holds p's stone. */
  predicate Owns(b: Board, row: int, col: int, d: Dir, p: Player, i: int) {
    var r, c := row + d.dr * i, col + d.dc * i;
    IsBoard(b) && InBounds(r, c) && b[r][c] == Stone(p)
  }

  /** Number of p's stones met from the i-th probe on, stopping at the first
      cell that is not p's and after the 4th probe. */
  function RunFrom(b: Board, row: int, col: int, d: Dir, p: Player, i: nat): (n: nat)
    requires IsBoard(b) && 1 <= i <= 5
    ensures n <= 5 - i
    decreases 5 - i, b  // b never changes: it keeps a literal i from unrolling every probe
  {
    if i == 5 || !Owns(b, row, col, d, p, i) then 0
    else 1 + RunFrom(b, row, col, d, p, i + 1)
  }

  /** `count` in checkWin for one axis: the centre plus the runs both ways. */
  function LineCount(b: Board, row: int, col: int, d: Dir, p: Player): nat
    requires IsBoard(b)
  {
    1 + RunFrom(b, row, col, d, p, 1) + RunFrom(b, row, col, Opposite(d), p, 1)
  }

  /** Placing p at (row, col) completes five or more in a row on some axis. */
  predicate Wins(b: Board, row: int, col: int, p: Player)
    requires IsBoard(b)
  {
    exists a :: 0 <= a < 4 && LineCount(b, row, col, Axes[a], p) >= 5
  }

  /** What one side of evaluatePosition's scan found: the stones of the player
      and whether it stopped on an opponent stone or the edge (1) or not (0). */
  datatype SideScan = SideScan(run: nat, blocked: nat)

  /** The scan of one side from the i-th probe on. */
  function ScanFrom(b: Board, row: int, col: int, d: Dir, p: Player, i: nat): (s: SideScan)
    requires IsBoard(b) && 1 <= i <= 5
    ensures s.run <= 5 - i && s.blocked <= 1
    decreases 5 - i, b  // b as in RunFrom
  {
    if i == 5 then SideScan(0, 0)
    else
      var r, c := row + d.dr * i, col + d.dc * i;
      if !InBounds(r, c) then SideScan(0, 1)
      else if b[r][c] == Stone(p) then
        var rest := ScanFrom(b, row, col, d, p, i + 1);
        SideScan(rest.run + 1, rest.blocked)
      else if b[r][c] != Empty then SideScan(0, 1)
      else SideScan(0, 0)
  }

  /** The points table of evaluatePosition, by count of stones and blocked ends. */
  function Points(count: nat, blocked: nat): (n: nat)
    requires count >= 1
    ensures n == 100000 <==> count >= 5
    ensures n <= 10000 || n == 100000
    ensures n == 0 <==> 2 <= count <= 4 && blocked >= 2
  {
    if count >= 5 then 100000
    else if count == 4 then (if blocked == 0 then 10000 else if blocked == 1 then 1000 else 0)
    else if count == 3 then (if blocked == 0 then 1000 else if blocked == 1 then 100 else 0)
    else if count == 2 then (if blocked == 0 then 100 else if blocked == 1 then 10 else 0)
    else 1  // a lone stone, whatever blocks it
  }

  /** Scores are from white's side: white's points count up, black's down. */
  function Signed(p: Player, n: int): int {
    if p == White then n else -n
  }

  /** The points one axis contributes. */
  function AxisPoints(b: Board, row: int, col: int, p: Player, d: Dir): (points: nat)
    requires IsBoard(b)
    ensures points <= 100000
  {
    var fwd := ScanFrom(b, row, col, d, p, 1);
    var back := ScanFrom(b, row, col, Opposite(d), p, 1);
    Points(1 + fwd.run + back.run, fwd.blocked + back.blocked)
  }

  /** The points of the first n axes. */
  function AxesPoints(b: Board, row: int, col: int, p: Player, n: nat): (points: nat)
    requires IsBoard(b) && n <= 4
    ensures points <= 100000 * n
  {
    if n == 0 then 0
    else AxesPoints(b, row, col, p, n - 1) + AxisPoints(b, row, col, p, Axes[n - 1])
  }

  /** evaluatePosition: with win priority a winning placement scores exactly
      +-100000, otherwise the table points of all four axes, signed. */
  function PositionScore(b: Board, row: int, col: int, p: Player, winPriority: bool): (score: int)
    requires IsBoard(b)
    ensures -400000 <= score <= 400000
    ensures p == White ==> score >= 0
    ensures p == Black ==> score <= 0
  {
    if winPriority && Wins(b, row, col, p) then Signed(p, 100000)
    else Signed(p, AxesPoints(b, row, col, p, 4))
  }

  /** The table points are the sum over the four axes. */
  lemma FourAxes(b: Board, row: int, col: int, p: Player)
    requires IsBoard(b)
    ensures AxesPoints(b, row, col, p, 4)
      == AxisPoints(b, row, col, p, Axes[0]) + AxisPoints(b, row, col, p, Axes[1])
       + AxisPoints(b, row, col, p, Axes[2]) + AxisPoints(b, row, col, p, Axes[3])
  {
    assert AxesPoints(b, row, col, p, 2)
      == AxisPoints(b, row, col, p, Axes[0]) + AxisPoints(b, row, col, p, Axes[1]);
    assert AxesPoints(b, row, col, p, 3) == AxesPoints(b, row, col, p, 2) + AxisPoints(b, row, col, p, Axes[2]);
  }

  // ---------------------------------------------------------------------
  // The loops of checkWin and evaluatePosition

  /** One probing loop of checkWin: the stones of p that follow (row, col) along d. */
  method CountRun(b: Board, row: int, col: int, d: Dir, p: Player) returns (run: nat)
    requires IsBoard(b)
    ensures run == RunFrom(b, row, col, d, p, 1)
  {
    run := 0;
    var i := 1;
    while i < 5
      invariant 1 <= i <= 5 && run == i - 1
      invariant RunFrom(b, row, col, d, p, 1) == run + RunFrom(b, row, col, d, p, i)
    {
      var r, c := row + d.dr * i, col + d.dc * i;
      if InBounds(r, c) && b[r][c] == Stone(p) {
        run := run + 1;
      } else {
        break;
      }
      i := i + 1;
    }
  }

  /** checkWin: some axis through (row, col) holds five or more of p's stones,
      counting (row, col) as p's whatever it holds. */
  method CheckWin(b: Board, row: int, col: int, p: Player) returns (win: bool)
    requires IsBoard(b)
    ensures win == Wins(b, row, col, p)
  {
    var a := 0;
    while a < 4
      invariant 0 <= a <= 4
      invariant forall k :: 0 <= k < a ==> LineCount(b, row, col, Axes[k], p) < 5
    {
      var d := Axes[a];
      var count := 1;
      var forward := CountRun(b, row, col, d, p);
      var backward := CountRun(b, row, col, Opposite(d), p);
      count := count + forward + backward;
      if count >= 5 {
        return true;
      }
      a := a + 1;
    }
    return false;
  }

  /** One probing loop of evaluatePosition: the stones of p along d and
      whether the scan stopped on an opponent stone or the edge. */
  method ScanSide(b: Board, row: int, col: int, d: Dir, p: Player) returns (run: nat, blocked: nat)
    requires IsBoard(b)
    ensures SideScan(run, blocked) == ScanFrom(b, row, col, d, p, 1)
  {
    run, blocked := 0, 0;
    var i := 1;
    while i < 5
      invariant 1 <= i <= 5 && run == i - 1 && blocked == 0
      invariant ScanFrom(b, row, col, d, p, 1)
                == SideScan(run + ScanFrom(b, row, col, d, p, i).run, ScanFrom(b, row, col, d, p, i).blocked)
    {
      var r, c := row + d.dr * i, col + d.dc * i;
      if InBounds(r, c) {
        if b[r][c] == Stone(p) {
          run := run + 1;
        } else if b[r][c] != Empty {
          blocked := blocked + 1;
          break;
        } else {
          break;
        }
      } else {
        blocked := blocked + 1;
        break;
      }
      i := i + 1;
    }
  }

  /** The body of evaluatePosition's loop for one axis: count p's stones
      through (row, col) and the blocked ends, and look up the table. */
  method ScoreAxis(b: Board, row: int, col: int, p: Player, d: Dir) returns (points: int)
    requires IsBoard(b)
    ensures points == Signed(p, AxisPoints(b, row, col, p, d))
  {
    var forwardRun, forwardBlocked := ScanSide(b, row, col, d, p);
    var backRun, backBlocked := ScanSide(b, row, col, Opposite(d), p);
    var count := 1 + forwardRun + backRun;
    var blocked := forwardBlocked + backBlocked;
    points := 0;
    if count >= 5 {
      points := if p == White then 100000 else -100000;
    } else if count == 4 {
      if blocked == 0 {
        points := if p == White then 10000 else -10000;
      } else if blocked == 1 {
        points := if p == White then 1000 else -1000;
      }
    } else if count == 3 {
      if blocked == 0 {
        points := if p == White then 1000 else -1000;
      } else if blocked == 1 {
        points := if p == White then 100 else -100;
      }
    } else if count == 2 {
      if blocked == 0 {
        points := if p == White then 100 else -100;
      } else if blocked == 1 {
        points := if p == White then 10 else -10;
      }
    } else if count == 1 {
      points := if p == White then 1 else -1;
    }
  }

  /** evaluatePosition: the signed pattern score of p's stone at (row, col). */
  method EvaluatePosition(b: Board, row: int, col: int, p: Player, winPriority: bool) returns (score: int)
    requires IsBoard(b)
    ensures score == PositionScore(b, row, col, p, winPriority)
  {
    if winPriority {
      var win := CheckWin(b, row, col, p);
      if win {
        return if p == White then 100000 else -100000;
      }
    }
    score := SumAxes(b, row, col, p);
  }

  /** The loop of evaluatePosition over the four axes, adding the points. */
  method SumAxes(b: Board, row: int, col: int, p: Player) returns (score: int)
    requires IsBoard(b)
    ensures score == Signed(p, AxesPoints(b, row, col, p, 4))
  {
    score := 0;
    var a := 0;
    while a < 4
      invariant 0 <= a <= 4
      invariant score == Signed(p, AxesPoints(b, row, col, p, a))
    {
      var points := ScoreAxis(b, row, col, p, Axes[a]);
      score := score + points;
      a := a + 1;
    }
  }

  // ---------------------------------------------------------------------
  // Properties

  lemma {:induction false} RunFromStops(b: Board, row: int, col: int, d: Dir, p: Player, i: nat)
    requires IsBoard(b) && 1 <= i <= 5
    ensures var n := RunFrom(b, row, col, d, p, i);
      (forall j :: i <= j < i + n ==> Owns(b, row, col, d, p, j)) &&
      (i + n < 5 ==> !Owns(b, row, col, d, p, i + n))
    decreases 5 - i
  {
    if i < 5 && Owns(b, row, col, d, p, i) {
      RunFromStops(b, row, col, d, p, i + 1);
    }
  }

  /** The run checkWin counts is exactly the longest prefix of p's stones among
      the first four cells along d. */
  lemma RunIsLongestPrefix(b: Board, row: int, col: int, d: Dir, p: Player, k: nat)
    requires IsBoard(b)
    ensures RunFrom(b, row, col, d, p, 1) == k <==>
      k <= 4 &&
      (forall j :: 1 <= j <= k ==> Owns(b, row, col, d, p, j)) &&
      (k < 4 ==> !Owns(b, row, col, d, p, k + 1))
  {
    var n := RunFrom(b, row, col, d, p, 1);
    RunFromStops(b, row, col, d, p, 1);
    if k <= 4 && (forall j :: 1 <= j <= k ==> Owns(b, row, col, d, p, j)) && (k < 4 ==> !Owns(b, row, col, d, p, k + 1)) {
      assert k < n ==> Owns(b, row, col, d, p, k + 1);
      assert n < k ==> Owns(b, row, col, d, p, n + 1);
    }
  }

  /** b and b' agree everywhere except possibly at (row, col). */
  ghost predicate AgreeOffCentre(b: Board, b': Board, row: int, col: int)
    requires IsBoard(b) && IsBoard(b')
  {
    forall r, c {:trigger b'[r][c]} :: InBounds(r, c) && (r != row || c != col) ==> b'[r][c] == b[r][c]
  }

  lemma {:induction false} RunFromOffCentre(b: Board, b': Board, row: int, col: int, d: Dir, p: Player, i: nat)
    requires IsBoard(b) && IsBoard(b') && AgreeOffCentre(b, b', row, col)
    requires d.dr != 0 || d.dc != 0
    requires 1 <= i <= 5
    ensures RunFrom(b', row, col, d, p, i) == RunFrom(b, row, col, d, p, i)
    decreases 5 - i
  {
    if i < 5 {
      ProbeIsOffCentre(row, col, d, i);
      RunFromOffCentre(b, b', row, col, d, p, i + 1);
    }
  }

  lemma {:induction false} ScanFromOffCentre(b: Board, b': Board, row: int, col: int, d: Dir, p: Player, i: nat)
    requires IsBoard(b) && IsBoard(b') && AgreeOffCentre(b, b', row, col)
    requires d.dr != 0 || d.dc != 0
    requires 1 <= i <= 5
    ensures ScanFrom(b', row, col, d, p, i) == ScanFrom(b, row, col, d, p, i)
    decreases 5 - i
  {
    if i < 5 {
      ProbeIsOffCentre(row, col, d, i);
      ScanFromOffCentre(b, b', row, col, d, p, i + 1);
    }
  }

  lemma ProbeIsOffCentre(row: int, col: int, d: Dir, i: int)
    requires d.dr != 0 || d.dc != 0
    requires i >= 1
    ensures row + d.dr * i != row || col + d.dc * i != col
  {
    if d.dr != 0 {
      assert d.dr * i != 0;
    } else {
      assert d.dc * i != 0;
    }
  }

  /** Every axis is a real step. */
  lemma AxisIsStep(a: int)
    requires 0 <= a < 4
    ensures Axes[a].dr != 0 || Axes[a].dc != 0
  {
    assert a == 0 || a == 1 || a == 2 || a == 3;
  }

  lemma AxisOffCentre(b: Board, b': Board, row: int, col: int, p: Player, d: Dir)
    requires IsBoard(b) && IsBoard(b') && AgreeOffCentre(b, b', row, col)
    requires d.dr != 0 || d.dc != 0
    ensures LineCount(b', row, col, d, p) == LineCount(b, row, col, d, p)
    ensures AxisPoints(b', row, col, p, d) == AxisPoints(b, row, col, p, d)
  {
    RunFromOffCentre(b, b', row, col, d, p, 1);
    RunFromOffCentre(b, b', row, col, Opposite(d), p, 1);
    ScanFromOffCentre(b, b', row, col, d, p, 1);
    ScanFromOffCentre(b, b', row, col, Opposite(d), p, 1);
  }

  /** checkWin does not read the centre cell: whatever it holds, the answer
      is the same. */
  lemma WinsIgnoresCentre(b: Board, b': Board, row: int, col: int, p: Player)
    requires IsBoard(b) && IsBoard(b') && AgreeOffCentre(b, b', row, col)
    ensures Wins(b', row, col, p) == Wins(b, row, col, p)
  {
    forall a | 0 <= a < 4
      ensures LineCount(b', row, col, Axes[a], p) == LineCount(b, row, col, Axes[a], p)
    {
      AxisIsStep(a);
      AxisOffCentre(b, b', row, col, p, Axes[a]);
    }
  }

  /** Nor does evaluatePosition, with or without win priority. */
  lemma ScoreIgnoresCentre(b: Board, b': Board, row: int, col: int, p: Player, winPriority: bool)
    requires IsBoard(b) && IsBoard(b') && AgreeOffCentre(b, b', row, col)
    ensures PositionScore(b', row, col, p, winPriority) == PositionScore(b, row, col, p, winPriority)
  {
    WinsIgnoresCentre(b, b', row, col, p);
    forall a | 0 <= a < 4
      ensures AxisPoints(b', row, col, p, Axes[a]) == AxisPoints(b, row, col, p, Axes[a])
    {
      AxisIsStep(a);
      AxisOffCentre(b, b', row, col, p, Axes[a]);
    }
    FourAxes(b, row, col, p);
    FourAxes(b', row, col, p);
  }

  /** Checking a placed stone is checking the unplaced cell. */
  lemma PlacedWinIsWin(b: Board, row: int, col: int, p: Player, q: Player)
    requires IsBoard(b) && InBounds(row, col)
    ensures Wins(Place(b, row, col, q), row, col, p) == Wins(b, row, col, p)
  {
    WinsIgnoresCentre(b, Place(b, row, col, q), row, col, p);
  }

  /** evaluatePosition's run along one side is checkWin's run. */
  lemma {:induction false} ScanRunIsRun(b: Board, row: int, col: int, d: Dir, p: Player, i: nat)
    requires IsBoard(b) && 1 <= i <= 5
    ensures ScanFrom(b, row, col, d, p, i).run == RunFrom(b, row, col, d, p, i)
    decreases 5 - i
  {
    if i < 5 {
      ScanRunIsRun(b, row, col, d, p, i + 1);
    }
  }

  /** A side counts as blocked exactly when its scan stops, before the fourth
      probe is used up, on the edge of the board or on an opponent stone;
      stopping on an empty cell or after four stones does not block. */
  lemma {:induction false} BlockedMeansEdgeOrOpponent(b: Board, row: int, col: int, d: Dir, p: Player, i: nat)
    requires IsBoard(b) && 1 <= i <= 5
    ensures var s := ScanFrom(b, row, col, d, p, i);
      var j := i + s.run;
      var r, c := row + d.dr * j, col + d.dc * j;
      s.blocked == 1 <==> j < 5 && (!InBounds(r, c) || (b[r][c] != Empty && b[r][c] != Stone(p)))
    decreases 5 - i
  {
    if i < 5 {
      var r, c := row + d.dr * i, col + d.dc * i;
      if InBounds(r, c) && b[r][c] == Stone(p) {
        var rest := ScanFrom(b, row, col, d, p, i + 1);
        assert ScanFrom(b, row, col, d, p, i) == SideScan(rest.run + 1, rest.blocked);
        BlockedMeansEdgeOrOpponent(b, row, col, d, p, i + 1);
      } else {
        assert ScanFrom(b, row, col, d, p, i).run == 0;
      }
    }
  }

  /** An axis is worth 100000 exactly when it holds five or more. */
  lemma AxisPointsWin(b: Board, row: int, col: int, p: Player, d: Dir)
    requires IsBoard(b)
    ensures AxisPoints(b, row, col, p, d) == 100000 <==> LineCount(b, row, col, d, p) >= 5
  {
    ScanRunIsRun(b, row, col, d, p, 1);
    ScanRunIsRun(b, row, col, Opposite(d), p, 1);
  }

  /** With win priority, evaluatePosition returns exactly +-100000 if and only
      if the placement wins: no pattern sum without a five reaches it. */
  lemma WinPriorityScore(b: Board, row: int, col: int, p: Player)
    requires IsBoard(b)
    ensures PositionScore(b, row, col, p, true) == Signed(p, 100000) <==> Wins(b, row, col, p)
  {
    if !Wins(b, row, col, p) {
      forall a | 0 <= a < 4 ensures AxisPoints(b, row, col, p, Axes[a]) <= 10000 {
        AxisPointsWin(b, row, col, p, Axes[a]);
      }
      FourAxes(b, row, col, p);
    }
  }

  /** Four table values, each at most 10000 or exactly 100000, add up to
      100000 exactly when one of them is 100000 and the others are 0. */
  lemma SumOfFourTableValues(P: seq<nat>)
    requires |P| == 4
    requires forall k :: 0 <= k < 4 ==> P[k] <= 10000 || P[k] == 100000
    ensures P[0] + P[1] + P[2] + P[3] == 100000 <==>
      exists a :: 0 <= a < 4 && P[a] == 100000 && forall k :: 0 <= k < 4 && k != a ==> P[k] == 0
  {
    if P[0] + P[1] + P[2] + P[3] == 100000 {
      var a := if P[0] == 100000 then 0 else if P[1] == 100000 then 1 else if P[2] == 100000 then 2 else 3;
      assert P[a] == 100000 && forall k :: 0 <= k < 4 && k != a ==> P[k] == 0;
    }
  }

  /** Without win priority (the easy tier), white's score is exactly 100000
      if and only if one axis holds a five and each of the other three is
      worth nothing: two to four stones closed at both ends. A lone stone on
      an axis already scores 1, so a five usually scores above 100000. */
  lemma EasyWinScore(b: Board, row: int, col: int)
    requires IsBoard(b)
    ensures PositionScore(b, row, col, White, false) == 100000 <==>
      exists a :: 0 <= a < 4 && LineCount(b, row, col, Axes[a], White) >= 5 &&
        forall k :: 0 <= k < 4 && k != a ==> AxisPoints(b, row, col, White, Axes[k]) == 0
  {
    if PositionScore(b, row, col, White, false) == 100000 {
      var a := EasyWinAxis(b, row, col);
    }
    if exists a :: 0 <= a < 4 && LineCount(b, row, col, Axes[a], White) >= 5 &&
        forall k :: 0 <= k < 4 && k != a ==> AxisPoints(b, row, col, White, Axes[k]) == 0 {
      var a :| 0 <= a < 4 && LineCount(b, row, col, Axes[a], White) >= 5 &&
        forall k :: 0 <= k < 4 && k != a ==> AxisPoints(b, row, col, White, Axes[k]) == 0;
      EasyWinOnAxis(b, row, col, a);
    }
  }

  /** The four axis points of white at (row, col), in the order of Axes:
      they add up to the easy-tier score, and each is 100000 exactly when its
      axis holds a five and at most 10000 otherwise. */
  lemma AxisTable(b: Board, row: int, col: int) returns (P: seq<nat>)
    requires IsBoard(b)
    ensures |P| == 4 && forall k :: 0 <= k < 4 ==> P[k] == AxisPoints(b, row, col, White, Axes[k])
    ensures PositionScore(b, row, col, White, false) == P[0] + P[1] + P[2] + P[3]
    ensures forall k :: 0 <= k < 4 ==> (P[k] == 100000 <==> LineCount(b, row, col, Axes[k], White) >= 5)
    ensures forall k :: 0 <= k < 4 ==> P[k] <= 10000 || P[k] == 100000
  {
    P := [AxisPoints(b, row, col, White, Axes[0]), AxisPoints(b, row, col, White, Axes[1]),
          AxisPoints(b, row, col, White, Axes[2]), AxisPoints(b, row, col, White, Axes[3])];
    FourAxes(b, row, col, White);
    forall k | 0 <= k < 4
      ensures P[k] == AxisPoints(b, row, col, White, Axes[k])
      ensures P[k] == 100000 <==> LineCount(b, row, col, Axes[k], White) >= 5
    {
      AxisPointsWin(b, row, col, White, Axes[k]);
    }
  }

  /** An easy-tier score of exactly 100000 names the axis holding the five. */
  lemma EasyWinAxis(b: Board, row: int, col: int) returns (a: int)
    requires IsBoard(b) && PositionScore(b, row, col, White, false) == 100000
    ensures 0 <= a < 4 && LineCount(b, row, col, Axes[a], White) >= 5
    ensures forall k :: 0 <= k < 4 && k != a ==> AxisPoints(b, row, col, White, Axes[k]) == 0
  {
    var P := AxisTable(b, row, col);
    SumOfFourTableValues(P);
    a :| 0 <= a < 4 && P[a] == 100000 && forall k :: 0 <= k < 4 && k != a ==> P[k] == 0;
  }

  /** A five on one axis with the other three worth nothing scores exactly 100000. */
  lemma EasyWinOnAxis(b: Board, row: int, col: int, a: int)
    requires IsBoard(b) && 0 <= a < 4 && LineCount(b, row, col, Axes[a], White) >= 5
    requires forall k :: 0 <= k < 4 && k != a ==> AxisPoints(b, row, col, White, Axes[k]) == 0
    ensures PositionScore(b, row, col, White, false) == 100000
  {
    var P := AxisTable(b, row, col);
    assert P[a] == 100000 && forall k :: 0 <= k < 4 && k != a ==> P[k] == 0;
    SumOfFourTableValues(P);
  }
}
