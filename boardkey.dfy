/** `getBoardKey`: the cache key of a board, one character per cell in
    row-major order ('0' empty, '1' black, '2' white). */
module BoardKey {
  import opened Grid

  /** The character a cell contributes to the key. */
  function CellChar(c: Cell): char {
    match c
    case Empty => '0'
    case Stone(Black) => '1'
    case Stone(White) => '2'
  }

  /** The cell a key character stands for; anything but '0' and '1' reads
      as white, as anything but null and 'black' is written as '2'. */
  function CharCell(ch: char): Cell {
    if ch == '0' then Empty else if ch == '1' then Stone(Black) else Stone(White)
  }

  /** The key of the first n cells in row-major order. */
  function KeyPrefix(b: Board, n: nat): (k: string)
    requires IsBoard(b) && n <= CellCount
    ensures |k| == n
  {
    if n == 0 then ""
    else
      var p := PosOf(n - 1);
      KeyPrefix(b, n - 1) + [CellChar(b[p.row][p.col])]
  }

  /** The key of the whole board. */
  function KeyOf(b: Board): (k: string)
    requires IsBoard(b)
    ensures |k| == CellCount
  {
    KeyPrefix(b, CellCount)
  }

  /** A string of the shape getBoardKey produces. */
  predicate IsKey(k: string) {
    |k| == CellCount && forall i :: 0 <= i < |k| ==> k[i] == '0' || k[i] == '1' || k[i] == '2'
  }

  /** The board a key describes. */
  function DecodeKey(k: string): (b: Board)
    requires |k| == CellCount
    ensures IsBoard(b)
    ensures forall r, c {:trigger b[r][c]} :: InBounds(r, c) ==> b[r][c] == CharCell(k[Index(Pos(r, c))])
  {
    seq(Size, r requires 0 <= r < Size => seq(Size, c requires 0 <= c < Size => CharCell(k[r * Size + c])))
  }

  /** The n-character prefix has one character per cell, in row-major order. */
  lemma {:induction false} KeyPrefixAt(b: Board, n: nat)
    requires IsBoard(b) && n <= CellCount
    ensures forall i :: 0 <= i < n ==> KeyPrefix(b, n)[i] == CellChar(b[PosOf(i).row][PosOf(i).col])
    decreases n
  {
    if n > 0 {
      KeyPrefixAt(b, n - 1);
    }
  }

  /** getBoardKey yields a 225-character string over '0', '1', '2' whose
      character at row * 15 + col encodes board[row][col]. */
  lemma KeyShape(b: Board)
    requires IsBoard(b)
    ensures IsKey(KeyOf(b))
    ensures forall r, c {:trigger b[r][c]} :: InBounds(r, c) ==> KeyOf(b)[Index(Pos(r, c))] == CellChar(b[r][c])
  {
    KeyPrefixAt(b, CellCount);
    forall r, c | InBounds(r, c) ensures KeyOf(b)[Index(Pos(r, c))] == CellChar(b[r][c]) {
      PosOfIndex(Pos(r, c));
    }
  }

  /** Decoding the key of a board gives the board back. */
  lemma DecodeKeyOf(b: Board)
    requires IsBoard(b)
    ensures DecodeKey(KeyOf(b)) == b
  {
    KeyShape(b);
    var b' := DecodeKey(KeyOf(b));
    forall r | 0 <= r < Size ensures b'[r] == b[r] {
      assert forall c :: 0 <= c < Size ==> b'[r][c] == b[r][c];
    }
  }

  /** Encoding a decoded key gives the key back. */
  lemma KeyOfDecode(k: string)
    requires IsKey(k)
    ensures KeyOf(DecodeKey(k)) == k
  {
    var b := DecodeKey(k);
    KeyPrefixAt(b, CellCount);
    forall i | 0 <= i < CellCount ensures KeyOf(b)[i] == k[i] {
      var p := PosOf(i);
      assert b[p.row][p.col] == CharCell(k[Index(p)]);
    }
  }

  /** Two boards with the same key are the same board, so a cache hit is
      always the value for the board asked about. */
  lemma KeyInjective(b1: Board, b2: Board)
    requires IsBoard(b1) && IsBoard(b2) && KeyOf(b1) == KeyOf(b2)
    ensures b1 == b2
  {
    DecodeKeyOf(b1);
    DecodeKeyOf(b2);
  }

  /** getBoardKey's nested loops append one character per cell. */
  method GetBoardKey(b: Board) returns (key: string)
    requires IsBoard(b)
    ensures key == KeyOf(b)
  {
    key := "";
    var row := 0;
    while row < Size
      invariant 0 <= row <= Size
      invariant key == KeyPrefix(b, row * Size)
    {
      var col := 0;
      while col < Size
        invariant 0 <= col <= Size
        invariant key == KeyPrefix(b, row * Size + col)
      {
        PosOfIndex(Pos(row, col));
        if b[row][col] == Empty {
          key := key + "0";
        } else if b[row][col] == Stone(Black) {
          key := key + "1";
        } else {
          key := key + "2";
        }
        col := col + 1;
      }
      row := row + 1;
    }
  }
}
