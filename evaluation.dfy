/** `evaluateBoard` and the `evaluationCache` it fills: the whole-board score
    is the sum of evaluatePosition over the occupied cells, memoised by board
    key in a map of at most 10000 entries that drops its oldest entry when
    full. evaluateBoard is reached only from alphaBeta, which runs only when
    the difficulty is not 'easy', so it always scores with win priority. */
module Evaluation {
  import opened Grid
  import opened Lines
  import opened BoardKey

  /** CACHE_MAX_SIZE. */
  const CacheMaxSize: int := 10000

  /** What one cell adds to the board score. */
  function CellScore(b: Board, p: Pos): (score: int)
    requires IsBoard(b) && IsCell(p)
    ensures -400000 <= score <= 400000
    ensures b[p.row][p.col] == Empty ==> score == 0
  {
    match b[p.row][p.col]
    case Empty => 0
    case Stone(owner) => PositionScore(b, p.row, p.col, owner, true)
  }

  /** The score of every cell, in row-major order. */
  function CellScores(b: Board): (scores: seq<int>)
    requires IsBoard(b)
    ensures |scores| == CellCount
  {
    seq(CellCount, k requires 0 <= k < CellCount => CellScore(b, PosOf(k)))
  }

  /** The sum of the first n values. */
  function Sum(values: seq<int>, n: nat): int
    requires n <= |values|
    decreases n, values  // values never changes: it keeps a literal n from unrolling the sum
  {
    if n == 0 then 0 else Sum(values, n - 1) + values[n - 1]
  }

  /** The uncached value of evaluateBoard: the sum of the cell scores, at
      most 400000 per cell in size. */
  function BoardScore(b: Board): (total: int)
    requires IsBoard(b)
    ensures -90000000 <= total <= 90000000
  {
    SumBound(CellScores(b), CellCount);
    Sum(CellScores(b), CellCount)
  }

  /** Values of at most 400000 in size add up to at most 400000 each. */
  lemma {:induction false} SumBound(values: seq<int>, n: nat)
    requires n <= |values| && forall k :: 0 <= k < |values| ==> -400000 <= values[k] <= 400000
    ensures -400000 * n <= Sum(values, n) <= 400000 * n
    decreases n
  {
    if n > 0 {
      SumBound(values, n - 1);
    }
  }

  /** `scores` holds the score of each cell at its row-major index. */
  ghost predicate ScoresOf(b: Board, scores: seq<int>)
    requires IsBoard(b)
  {
    |scores| == CellCount &&
    forall k {:trigger CellScore(b, PosOf(k))} :: 0 <= k < CellCount ==> scores[k] == CellScore(b, PosOf(k))
  }

  /** The cell scores of a board, as ScoresOf describes them. */
  lemma ScoresOfBoard(b: Board) returns (scores: seq<int>)
    requires IsBoard(b)
    ensures ScoresOf(b, scores) && Sum(scores, CellCount) == BoardScore(b)
  {
    scores := CellScores(b);
  }

  /** The loops of evaluateBoard on a cache miss. */
  method SumPositions(b: Board) returns (total: int)
    requires IsBoard(b)
    ensures total == BoardScore(b)
  {
    ghost var scores := ScoresOfBoard(b);
    total := 0;
    var row := 0;
    while row < Size
      invariant 0 <= row <= Size
      invariant total == Sum(scores, row * Size)
    {
      total := AddRow(b, scores, row, total);
      assert (row + 1) * Size == row * Size + Size;
      row := row + 1;
    }
  }

  /** One pass of evaluateBoard's inner loop, adding row `row` to the total. */
  method AddRow(b: Board, ghost scores: seq<int>, row: int, before: int) returns (total: int)
    requires IsBoard(b) && ScoresOf(b, scores) && 0 <= row < Size
    requires before == Sum(scores, row * Size)
    ensures total == Sum(scores, row * Size + Size)
  {
    total := before;
    var col := 0;
    while col < Size
      invariant 0 <= col <= Size
      invariant total == Sum(scores, row * Size + col)
    {
      total := AddCell(b, scores, row, col, total);
      col := col + 1;
    }
  }

  /** The body of evaluateBoard's inner loop: add the score of the stone at
      (row, col), if any, to the total of the cells before it. */
  method AddCell(b: Board, ghost scores: seq<int>, row: int, col: int, before: int) returns (total: int)
    requires IsBoard(b) && ScoresOf(b, scores) && InBounds(row, col)
    requires before == Sum(scores, row * Size + col)
    ensures total == Sum(scores, row * Size + col + 1)
  {
    var score := ScoreCell(b, row, col);
    PosOfIndex(Pos(row, col));
    total := before + score;
  }

  /** The score of the stone at (row, col), if any. */
  method ScoreCell(b: Board, row: int, col: int) returns (score: int)
    requires IsBoard(b) && InBounds(row, col)
    ensures score == CellScore(b, Pos(row, col))
  {
    score := 0;
    if b[row][col] != Empty {
      score := EvaluatePosition(b, row, col, b[row][col].owner, true);
    }
  }

  /** The keys left after making room: the oldest one goes when the map is full. */
  function Evicted(order: seq<string>): (rest: seq<string>)
    ensures |order| >= CacheMaxSize ==> |rest| == |order| - 1 && rest == order[1..]
    ensures |order| < CacheMaxSize ==> rest == order
  {
    if |order| >= CacheMaxSize && |order| > 0 then order[1..] else order
  }

  /** The keys of a map in insertion order are distinct and are exactly its
      keys; there are at most CACHE_MAX_SIZE of them; each is a board key
      whose value is the uncached score of that board. */
  ghost predicate CacheInv(order: seq<string>, table: map<string, int>) {
    |order| <= CacheMaxSize &&
    (forall i, j :: 0 <= i < j < |order| ==> order[i] != order[j]) &&
    (forall k :: k in table <==> k in order) &&
    (forall k :: k in table ==> IsKey(k) && table[k] == BoardScore(DecodeKey(k)))
  }

  /** Dropping the oldest key keeps the invariant and leaves room for one more. */
  lemma EvictKeepsInv(order: seq<string>, table: map<string, int>)
    requires CacheInv(order, table) && |order| >= CacheMaxSize
    ensures CacheInv(order[1..], table - {order[0]}) && |order[1..]| < CacheMaxSize
  {
    forall k ensures k in table - {order[0]} <==> k in order[1..] {
      if k in order[1..] {
        var j :| 0 <= j < |order[1..]| && order[1..][j] == k;
        assert order[j + 1] == k;
      }
      if k in order && k != order[0] {
        var j :| 0 <= j < |order| && order[j] == k;
        assert order[1..][j - 1] == k;
      }
    }
  }

  /** Storing the score of a board under its new key keeps the invariant. */
  lemma InsertKeepsInv(order: seq<string>, table: map<string, int>, b: Board)
    requires IsBoard(b) && CacheInv(order, table) && |order| < CacheMaxSize && KeyOf(b) !in table
    ensures CacheInv(order + [KeyOf(b)], table[KeyOf(b) := BoardScore(b)])
  {
    KeyShape(b);
    DecodeKeyOf(b);
    var o := order + [KeyOf(b)];
    forall i, j | 0 <= i < j < |o| ensures o[i] != o[j] {
      assert o[i] == order[i];
      if j == |order| {
        assert order[i] in order;
      }
    }
  }

  /** The module-level `evaluationCache` Map: its keys in insertion order and
      its entries. */
  class EvaluationCache {
    var order: seq<string>
    var table: map<string, int>

    ghost predicate Valid()
      reads this
    {
      CacheInv(order, table)
    }

    /** `new Map()`. */
    constructor ()
      ensures Valid() && order == [] && table == map[]
    {
      order := [];
      table := map[];
    }

    /** evaluateBoard: a hit returns the stored value and changes nothing; a
        miss computes the score, drops the oldest key if the map is full, and
        stores the new entry last. Either way the value is the uncached score. */
    method Evaluate(b: Board) returns (score: int)
      requires Valid() && IsBoard(b)
      modifies this
      ensures Valid()
      ensures score == BoardScore(b)
      ensures KeyOf(b) in old(table) ==>
        score == old(table)[KeyOf(b)] && order == old(order) && table == old(table)
      ensures KeyOf(b) !in old(table) ==>
        order == Evicted(old(order)) + [KeyOf(b)] &&
        table == (if |old(order)| >= CacheMaxSize then old(table) - {old(order)[0]} else old(table))[KeyOf(b) := score]
    {
      var key := GetBoardKey(b);
      KeyShape(b);
      DecodeKeyOf(b);
      if key in table {
        return table[key];
      }
      score := SumPositions(b);
      if |order| >= CacheMaxSize {
        EvictKeepsInv(order, table);
        var first := order[0];
        table := table - {first};
        order := order[1..];
      }
      InsertKeepsInv(order, table, b);
      table := table[key := score];
      order := order + [key];
    }
  }
}
