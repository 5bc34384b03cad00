/** The value of a board: what a `Board` holds at one moment (include/chess/board.h).
    The 8x8 array of pieces is flattened rank by rank into 64 cells, the cell
    of square (file, rank) being `8 * rank + file`. The legality filter copies
    whole boards, so every read-only question about a board is asked of this
    value. */
module Grids {
  import opened Pieces
  import opened Notation

  type Grid = g: seq<Piece> | |g| == 64 witness seq(64, _ => Piece(Empty, NoColor))

  datatype BoardState = BoardState(
    grid: Grid,
    side: Color,
    whiteKingside: bool,
    whiteQueenside: bool,
    blackKingside: bool,
    blackQueenside: bool,
    enPassant: Position,
    halfMove: int,
    fullMove: int)

  /** The cell that holds an on-board square. */
  function Index(p: Position): (i: nat)
    requires IsValid(p)
    ensures i < 64
  {
    8 * p.rank + p.file
  }

  /** `getPiece`: the piece on an on-board square, the default piece elsewhere. */
  function PieceAt(b: BoardState, p: Position): (piece: Piece)
    ensures !IsValid(p) ==> piece == NoPiece
  {
    if IsValid(p) then b.grid[Index(p)] else NoPiece
  }

  /** `setPiece` on a copy: an on-board square now holds `piece`; an off-board
      square changes nothing. Every other square and every other field keeps its
      value. */
  function WithPiece(b: BoardState, p: Position, piece: Piece): (r: BoardState)
    ensures IsValid(p) ==> PieceAt(r, p) == piece
    ensures forall q :: q != p ==> PieceAt(r, q) == PieceAt(b, q)
    ensures !IsValid(p) ==> r == b
    ensures r == b.(grid := r.grid)
  {
    assert forall q | IsValid(q) && IsValid(p) && q != p :: Index(q) != Index(p);
    if IsValid(p) then b.(grid := b.grid[Index(p) := piece]) else b
  }

  /** `Board()`: 64 default pieces, White to move, no castling rights, en-passant
      target a1 (the default position, never assigned), clocks 0 and 1. */
  function EmptyBoard(): (b: BoardState)
    ensures forall p :: PieceAt(b, p) == NoPiece
    ensures b.side == White && !b.whiteKingside && !b.whiteQueenside
    ensures !b.blackKingside && !b.blackQueenside
    ensures b.enPassant == Origin && IsValid(b.enPassant)
    ensures b.halfMove == 0 && b.fullMove == 1
  {
    BoardState(seq(64, _ => NoPiece), White, false, false, false, false, Origin, 0, 1)
  }

  /** The square whose cell is `i`. Whole-board scans visit the cells in
      increasing order, which is rank-major order: a1, b1, ..., h1, a2, ..., h8. */
  function SquareOf(i: nat): (p: Position)
    requires i < 64
    ensures IsValid(p) && Index(p) == i
  {
    Position(i % 8, i / 8)
  }

  lemma SquareOfIndex(p: Position)
    requires IsValid(p)
    ensures SquareOf(Index(p)) == p
  {
  }

  // ---------------------------------------------------------------------------
  // Geometry shared by attack detection and move generation.

  type Offset = (int, int)

  const KnightJumps: seq<Offset> := [(-2, -1), (-2, 1), (-1, -2), (-1, 2), (1, -2), (1, 2), (2, -1), (2, 1)]

  /** The eight neighbours, in the order of the king table; also the queen's directions. */
  const KingSteps: seq<Offset> := [(-1, -1), (-1, 0), (-1, 1), (0, -1), (0, 1), (1, -1), (1, 0), (1, 1)]

  const Diagonals: seq<Offset> := [(-1, -1), (-1, 1), (1, -1), (1, 1)]

  const Orthogonals: seq<Offset> := [(-1, 0), (1, 0), (0, -1), (0, 1)]

  function Shift(p: Position, d: Offset): Position {
    Position(p.file + d.0, p.rank + d.1)
  }

  /** The square `i` steps from `p` along direction `d`. */
  function RayStep(p: Position, d: Offset, i: int): Position {
    Position(p.file + i * d.0, p.rank + i * d.1)
  }

  /** A piece of colour `c` and kind `k` stands on the on-board square `q`. */
  predicate Holds(b: BoardState, q: Position, c: Color, k: PieceType) {
    IsValid(q) && !IsEmpty(PieceAt(b, q)) && PieceAt(b, q).color == c && PieceAt(b, q).kind == k
  }
}
