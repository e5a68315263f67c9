/** The 15x15 Gomoku grid shared by the engine and the game component:
    cells are empty or hold a black (human) or white (engine) stone. */
module Grid {

  /** The side length of the square board (BOARD_SIZE). */
  const Size: int := 15
  /** Number of cells, Size * Size. */
  const CellCount: int := 225
  /** Math.floor(BOARD_SIZE / 2): the row and column of the centre cell. */
  const Center: int := 7

  datatype Option<T> = None | Some(value: T)

  /** 'black' is the human player, 'white' the engine. */
  datatype Player = Black | White

  /** A cell is null or holds one player's stone. */
  datatype Cell = Empty | Stone(owner: Player)

  /** A board coordinate; `{ row, col }` in the source. */
  datatype Pos = Pos(row: int, col: int)

  type Board = seq<seq<Cell>>

  /** A well-formed board: 15 rows of 15 cells. */
  predicate IsBoard(b: Board) {
    |b| == Size && forall r :: 0 <= r < Size ==> |b[r]| == Size
  }

  predicate InBounds(r: int, c: int) {
    0 <= r < Size && 0 <= c < Size
  }

  predicate IsCell(p: Pos) {
    InBounds(p.row, p.col)
  }

  /** Row-major index of a cell. */
  function Index(p: Pos): int {
    p.row * Size + p.col
  }

  /** The cell with row-major index k. */
  function PosOf(k: int): (p: Pos)
    requires 0 <= k < CellCount
    ensures IsCell(p) && Index(p) == k
  {
    Pos(k / Size, k % Size)
  }

  lemma PosOfIndex(p: Pos)
    requires IsCell(p)
    ensures 0 <= Index(p) < CellCount && PosOf(Index(p)) == p
  {
  }

  /** `const newBoard = board.map(r => [...r]); newBoard[row][col] = stone`:
      a copy of the board with one cell overwritten, whatever it held. */
  function Place(b: Board, row: int, col: int, p: Player): (b': Board)
    requires IsBoard(b) && InBounds(row, col)
    ensures IsBoard(b')
    ensures b'[row][col] == Stone(p)
    ensures forall r, c {:trigger b'[r][c]} :: InBounds(r, c) && (r != row || c != col) ==> b'[r][c] == b[r][c]
  {
    b[row := b[row][col := Stone(p)]]
  }

  /** `Array(BOARD_SIZE).fill(null).map(() => Array(BOARD_SIZE).fill(null))`. */
  function EmptyBoard(): (b: Board)
    ensures IsBoard(b)
    ensures forall r, c {:trigger b[r][c]} :: InBounds(r, c) ==> b[r][c] == Empty
  {
    seq(Size, _ => seq(Size, _ => Empty))
  }

  /** `board.every(row => row.every(cell => cell !== null))`. */
  predicate IsFull(b: Board)
    requires IsBoard(b)
  {
    forall r, c :: 0 <= r < Size && 0 <= c < Size ==> b[r][c] != Empty
  }

  /** Some cell of the board holds a stone. */
  predicate HasStone(b: Board)
    requires IsBoard(b)
  {
    exists r, c :: 0 <= r < Size && 0 <= c < Size && b[r][c] != Empty
  }
}
