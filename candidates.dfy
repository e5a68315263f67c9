/** `getRelevantEmptyCells`: the cells the engine considers. On a board
    without stones it is the centre alone; otherwise the empty cells with a
    stone within four rows and four columns, in row-major order, or every
    empty cell when no empty cell has such a neighbour. */
module RelevantCells {
  import opened Grid

  /** (r, c) is on the board and holds a stone. */
  predicate Occupied(b: Board, r: int, c: int)
    requires IsBoard(b)
  {
    InBounds(r, c) && b[r][c] != Empty
  }

  /** `hasAdjacentPiece`: some stone within Chebyshev distance 4 of (r, c). */
  predicate NearStone(b: Board, r: int, c: int)
    requires IsBoard(b)
  {
    exists nr, nc :: r - 4 <= nr <= r + 4 && c - 4 <= nc <= c + 4 && Occupied(b, nr, nc)
  }

  /** A cell a scan keeps: empty, and near a stone when `near` is asked for. */
  predicate Eligible(b: Board, p: Pos, near: bool)
    requires IsBoard(b) && IsCell(p)
  {
    b[p.row][p.col] == Empty && (near ==> NearStone(b, p.row, p.col))
  }

  /** What a pass of the scan keeps: on the board and eligible. */
  function Keeper(b: Board, near: bool): Pos -> bool
    requires IsBoard(b)
  {
    q => IsCell(q) && Eligible(b, q, near)
  }

  /** The cells of row r among its first n columns that `keep` accepts,
      left to right. */
  function RowScan(keep: Pos -> bool, r: int, n: nat): seq<Pos>
    decreases n, keep  // keep never changes: it keeps a literal n from unrolling the scan
  {
    if n == 0 then []
    else RowScan(keep, r, n - 1) + (if keep(Pos(r, n - 1)) then [Pos(r, n - 1)] else [])
  }

  /** The cells of the first n rows, each w columns wide, that `keep`
      accepts, in row-major order (the board passes its width, Size). */
  function Scan(keep: Pos -> bool, n: nat, w: nat): seq<Pos>
    decreases n, keep  // keep as in RowScan
  {
    if n == 0 then [] else Scan(keep, n - 1, w) + RowScan(keep, n - 1, w)
  }

  /** The candidate list of getRelevantEmptyCells for a board. */
  function Candidates(b: Board): (cands: seq<Pos>)
    requires IsBoard(b)
    ensures forall i :: 0 <= i < |cands| ==> IsCell(cands[i]) && b[cands[i].row][cands[i].col] == Empty
  {
    if !HasStone(b) then [Pos(Center, Center)]
    else if Scan(Keeper(b, true), Size, Size) != [] then
      ScanKept(Keeper(b, true), b, true);
      Scan(Keeper(b, true), Size, Size)
    else
      ScanKept(Keeper(b, false), b, false);
      Scan(Keeper(b, false), Size, Size)
  }

  // ---------------------------------------------------------------------
  // Properties

  /** Every cell a row scan lists is an accepted cell of its row among the
      first n columns. */
  lemma {:induction false} RowScanSound(keep: Pos -> bool, r: int, n: nat, i: int)
    requires 0 <= i < |RowScan(keep, r, n)|
    ensures keep(RowScan(keep, r, n)[i]) && RowScan(keep, r, n)[i].row == r && 0 <= RowScan(keep, r, n)[i].col < n
    decreases n
  {
    var s := RowScan(keep, r, n - 1);
    if i < |s| {
      RowScanSound(keep, r, n - 1, i);
    }
  }

  /** Every accepted cell of the row among the first n columns is in the row scan. */
  lemma {:induction false} RowScanFinds(keep: Pos -> bool, r: int, n: nat, p: Pos) returns (i: nat)
    requires p.row == r && 0 <= p.col < n && keep(p)
    ensures i < |RowScan(keep, r, n)| && RowScan(keep, r, n)[i] == p
    decreases n
  {
    var s := RowScan(keep, r, n - 1);
    if p.col < n - 1 {
      i := RowScanFinds(keep, r, n - 1, p);
    } else {
      i := |s|;
    }
  }

  /** Every cell a scan lists is an accepted cell of the first n rows. */
  lemma {:induction false} ScanSound(keep: Pos -> bool, n: nat, w: nat, i: int)
    requires 0 <= i < |Scan(keep, n, w)|
    ensures keep(Scan(keep, n, w)[i]) && 0 <= Scan(keep, n, w)[i].row < n && 0 <= Scan(keep, n, w)[i].col < w
    decreases n
  {
    var s, t := Scan(keep, n - 1, w), RowScan(keep, n - 1, w);
    if i < |s| {
      ScanSound(keep, n - 1, w, i);
    } else {
      RowScanSound(keep, n - 1, w, i - |s|);
    }
  }

  /** Every accepted cell of the first n rows is in the scan. */
  lemma {:induction false} ScanFinds(keep: Pos -> bool, n: nat, w: nat, p: Pos) returns (i: nat)
    requires 0 <= p.row < n && 0 <= p.col < w && keep(p)
    ensures i < |Scan(keep, n, w)| && Scan(keep, n, w)[i] == p
    decreases n
  {
    var s := Scan(keep, n - 1, w);
    if p.row < n - 1 {
      i := ScanFinds(keep, n - 1, w, p);
    } else {
      var j := RowScanFinds(keep, n - 1, w, p);
      i := |s| + j;
    }
  }

  /** A row scan holds exactly the accepted cells of its row among the first n columns. */
  lemma RowScanComplete(keep: Pos -> bool, r: int, n: nat, p: Pos)
    ensures p in RowScan(keep, r, n) <==> p.row == r && 0 <= p.col < n && keep(p)
  {
    var s := RowScan(keep, r, n);
    if p in s {
      var i :| 0 <= i < |s| && s[i] == p;
      RowScanSound(keep, r, n, i);
    }
    if p.row == r && 0 <= p.col < n && keep(p) {
      var i := RowScanFinds(keep, r, n, p);
    }
  }

  /** A scan holds exactly the accepted cells of the first n rows. */
  lemma ScanComplete(keep: Pos -> bool, n: nat, w: nat, p: Pos)
    ensures p in Scan(keep, n, w) <==> 0 <= p.row < n && 0 <= p.col < w && keep(p)
  {
    var s := Scan(keep, n, w);
    if p in s {
      var i :| 0 <= i < |s| && s[i] == p;
      ScanSound(keep, n, w, i);
    }
    if 0 <= p.row < n && 0 <= p.col < w && keep(p) {
      var i := ScanFinds(keep, n, w, p);
    }
  }

  /** Every cell a full scan with Keeper(b, near) lists is an eligible cell. */
  lemma ScanKept(keep: Pos -> bool, b: Board, near: bool)
    requires IsBoard(b) && keep == Keeper(b, near)
    ensures forall i :: 0 <= i < |Scan(keep, Size, Size)| ==>
      IsCell(Scan(keep, Size, Size)[i]) && b[Scan(keep, Size, Size)[i].row][Scan(keep, Size, Size)[i].col] == Empty
  {
    var s := Scan(keep, Size, Size);
    forall i | 0 <= i < |s| ensures IsCell(s[i]) && b[s[i].row][s[i].col] == Empty {
      ScanComplete(keep, Size, Size, s[i]);
    }
  }

  /** p comes strictly before q in row-major order. */
  predicate Before(p: Pos, q: Pos) {
    p.row < q.row || (p.row == q.row && p.col < q.col)
  }

  /** Cells in strictly increasing row-major order, hence without duplicates. */
  predicate Increasing(s: seq<Pos>) {
    forall i, j :: 0 <= i < j < |s| ==> Before(s[i], s[j])
  }

  /** A row scan lists its cells left to right. */
  lemma {:induction false} RowScanIncreasing(keep: Pos -> bool, r: int, n: nat)
    ensures Increasing(RowScan(keep, r, n))
    decreases n
  {
    if n > 0 {
      RowScanIncreasing(keep, r, n - 1);
      var s := RowScan(keep, r, n - 1);
      forall i | 0 <= i < |s| ensures Before(s[i], Pos(r, n - 1)) {
        RowScanSound(keep, r, n - 1, i);
      }
      IncreasingConcat(s, if keep(Pos(r, n - 1)) then [Pos(r, n - 1)] else []);
    }
  }

  /** A scan lists its cells in row-major order. */
  lemma {:induction false} ScanIncreasing(keep: Pos -> bool, n: nat, w: nat)
    ensures Increasing(Scan(keep, n, w))
    decreases n
  {
    if n > 0 {
      ScanIncreasing(keep, n - 1, w);
      RowScanIncreasing(keep, n - 1, w);
      var s, t := Scan(keep, n - 1, w), RowScan(keep, n - 1, w);
      forall i, j | 0 <= i < |s| && 0 <= j < |t| ensures Before(s[i], t[j]) {
        ScanSound(keep, n - 1, w, i);
        RowScanSound(keep, n - 1, w, j);
      }
      IncreasingConcat(s, t);
    }
  }

  /** Two increasing lists, the first wholly before the second, join into one. */
  lemma IncreasingConcat(s: seq<Pos>, t: seq<Pos>)
    requires Increasing(s) && Increasing(t)
    requires forall i, j :: 0 <= i < |s| && 0 <= j < |t| ==> Before(s[i], t[j])
    ensures Increasing(s + t)
  {
    var u := s + t;
    forall i, j | 0 <= i < j < |u| ensures Before(u[i], u[j]) {
      if j < |s| {
        assert u[i] == s[i] && u[j] == s[j];
      } else if i < |s| {
        assert u[i] == s[i] && u[j] == t[j - |s|];
      } else {
        assert u[i] == t[i - |s|] && u[j] == t[j - |s|];
      }
    }
  }

  /** Some empty cell has a stone within distance 4. */
  ghost predicate SomeNearEmpty(b: Board)
    requires IsBoard(b)
  {
    exists q: Pos :: IsCell(q) && Eligible(b, q, true)
  }

  /** The first pass finds something exactly when some empty cell is near a stone. */
  lemma NearScanNonEmpty(b: Board)
    requires IsBoard(b)
    ensures Scan(Keeper(b, true), Size, Size) != [] <==> SomeNearEmpty(b)
  {
    var s := Scan(Keeper(b, true), Size, Size);
    if s != [] {
      ScanComplete(Keeper(b, true), Size, Size, s[0]);
    } else {
      forall q: Pos | IsCell(q) ensures !Eligible(b, q, true) {
        ScanComplete(Keeper(b, true), Size, Size, q);
      }
    }
  }

  /** Membership in the candidate list: the centre on a stone-free board;
      otherwise an empty cell that is near a stone, when some empty cell is,
      and any empty cell when none is. */
  lemma CandidatesMembers(b: Board, p: Pos)
    requires IsBoard(b)
    ensures p in Candidates(b) <==>
      if !HasStone(b) then p == Pos(Center, Center)
      else if SomeNearEmpty(b) then IsCell(p) && Eligible(b, p, true)
      else IsCell(p) && b[p.row][p.col] == Empty
  {
    if HasStone(b) {
      NearScanNonEmpty(b);
      if SomeNearEmpty(b) {
        ScanComplete(Keeper(b, true), Size, Size, p);
      } else {
        ScanComplete(Keeper(b, false), Size, Size, p);
      }
    }
  }

  /** The list is in row-major order without duplicates. */
  lemma CandidatesIncreasing(b: Board)
    requires IsBoard(b)
    ensures Increasing(Candidates(b))
  {
    if !HasStone(b) {
    } else if Scan(Keeper(b, true), Size, Size) != [] {
      ScanIncreasing(Keeper(b, true), Size, Size);
      assert Candidates(b) == Scan(Keeper(b, true), Size, Size);
    } else {
      ScanIncreasing(Keeper(b, false), Size, Size);
      assert Candidates(b) == Scan(Keeper(b, false), Size, Size);
    }
  }

  /** The candidate list is empty exactly when the board is full. */
  lemma CandidatesEmptyIffFull(b: Board)
    requires IsBoard(b)
    ensures Candidates(b) == [] <==> IsFull(b)
  {
    if IsFull(b) {
      assert b[0][0] != Empty;
      forall p ensures p !in Candidates(b) {
        CandidatesMembers(b, p);
      }
    } else {
      var r, c :| 0 <= r < Size && 0 <= c < Size && b[r][c] == Empty;
      CandidatesMembers(b, Pos(r, c));
      if HasStone(b) && SomeNearEmpty(b) {
        var q: Pos :| IsCell(q) && Eligible(b, q, true);
        CandidatesMembers(b, q);
      }
    }
  }

  // ---------------------------------------------------------------------
  // The loops of getRelevantEmptyCells

  /** `hasAdjacentPiece`: scans the 9x9 window around (r, c). */
  method HasAdjacentPiece(b: Board, r: int, c: int) returns (found: bool)
    requires IsBoard(b)
    ensures found == NearStone(b, r, c)
  {
    var dr := -4;
    while dr <= 4
      invariant -4 <= dr <= 5
      invariant forall nr, nc :: r - 4 <= nr < r + dr && c - 4 <= nc <= c + 4 ==> !Occupied(b, nr, nc)
    {
      var nr := r + dr;
      var dc := -4;
      while dc <= 4
        invariant -4 <= dc <= 5
        invariant forall nr, nc :: r - 4 <= nr < r + dr && c - 4 <= nc <= c + 4 ==> !Occupied(b, nr, nc)
        invariant forall nc :: c - 4 <= nc < c + dc ==> !Occupied(b, nr, nc)
      {
        var nc := c + dc;
        if 0 <= nr < Size && 0 <= nc < Size && b[nr][nc] != Empty {
          assert Occupied(b, nr, nc);
          return true;
        }
        dc := dc + 1;
      }
      dr := dr + 1;
    }
    return false;
  }

  /** The `hasPieces` loop: stops at the first stone. */
  method HasPieces(b: Board) returns (hasPieces: bool)
    requires IsBoard(b)
    ensures hasPieces == HasStone(b)
  {
    hasPieces := false;
    var r := 0;
    while r < Size && !hasPieces
      invariant 0 <= r <= Size
      invariant !hasPieces ==> forall r', c' :: 0 <= r' < r && 0 <= c' < Size ==> b[r'][c'] == Empty
      invariant hasPieces ==> HasStone(b)
    {
      var c := 0;
      while c < Size && !hasPieces
        invariant 0 <= c <= Size
        invariant !hasPieces ==> forall c' :: 0 <= c' < c ==> b[r][c'] == Empty
        invariant hasPieces ==> HasStone(b)
      {
        if b[r][c] != Empty {
          hasPieces := true;
        }
        c := c + 1;
      }
      r := r + 1;
    }
  }

  /** One row-major pass pushing the eligible cells. */
  method ScanCells(b: Board, near: bool) returns (cells: seq<Pos>)
    requires IsBoard(b)
    ensures cells == Scan(Keeper(b, near), Size, Size)
  {
    ghost var keep, width := Keeper(b, near), Size;
    cells := [];
    var row := 0;
    while row < Size
      invariant 0 <= row <= Size
      invariant cells == Scan(keep, row, width)
    {
      cells := ScanRow(b, near, row, cells);
      assert Scan(keep, row + 1, width) == Scan(keep, row, width) + RowScan(keep, row, width);
      row := row + 1;
    }
  }

  /** The inner loop of a pass: the eligible cells of row `row`, appended. */
  method ScanRow(b: Board, near: bool, row: int, before: seq<Pos>) returns (cells: seq<Pos>)
    requires IsBoard(b) && 0 <= row < Size
    ensures cells == before + RowScan(Keeper(b, near), row, Size)
  {
    ghost var accepts := Keeper(b, near);
    cells := before;
    var col := 0;
    while col < Size
      invariant 0 <= col <= Size
      invariant cells == before + RowScan(accepts, row, col)
    {
      var keep := Keeps(b, near, row, col);
      assert keep == accepts(Pos(row, col));
      if keep {
        cells := cells + [Pos(row, col)];
      }
      col := col + 1;
    }
  }

  /** Whether a pass keeps (row, col): empty, and near a stone when asked. */
  method Keeps(b: Board, near: bool, row: int, col: int) returns (keep: bool)
    requires IsBoard(b) && InBounds(row, col)
    ensures keep == Eligible(b, Pos(row, col), near)
  {
    keep := b[row][col] == Empty;
    if keep && near {
      keep := HasAdjacentPiece(b, row, col);
    }
  }

  /** getRelevantEmptyCells on the board the engine was called with. */
  method RelevantEmptyCells(b: Board) returns (cells: seq<Pos>)
    requires IsBoard(b)
    ensures cells == Candidates(b)
  {
    var hasPieces := HasPieces(b);
    if !hasPieces {
      return [Pos(Size / 2, Size / 2)];
    }
    cells := ScanCells(b, true);
    if |cells| == 0 {
      cells := ScanCells(b, false);
    }
  }
}
