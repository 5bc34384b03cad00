/** The mutable board (include/chess/board.h, src/chess/board.cpp and the
    `makeMove` of src/chess/board_moves.cpp). The 8x8 array of pieces is held
    as one array of 64 cells, cell `8 * rank + file` being square (file, rank);
    `State()` is the value the read-only questions are asked of. */
module Boards {
  import opened Options
  import opened Pieces
  import opened Notation
  import opened Grids
  import opened Text
  import opened Fen
  import Attacks
  import MoveGen
  import Legality

  class Board {
    var squares: array<Piece>
    var sideToMove: Color
    var whiteCanCastleKingside: bool
    var whiteCanCastleQueenside: bool
    var blackCanCastleKingside: bool
    var blackCanCastleQueenside: bool
    var enPassantTarget: Position
    var halfMoveClock: int
    var fullMoveNumber: int

    ghost predicate Valid()
      reads this
    {
      squares.Length == 64
    }

    /** The board as a value. */
    function State(): BoardState
      requires Valid()
      reads this, squares
    {
      BoardState(squares[..], sideToMove, whiteCanCastleKingside, whiteCanCastleQueenside,
                 blackCanCastleKingside, blackCanCastleQueenside, enPassantTarget,
                 halfMoveClock, fullMoveNumber)
    }

    /** `Board()`: every square holds the default piece, White to move, no
        castling rights, en-passant target a1, clocks 0 and 1. */
    constructor()
      ensures Valid() && fresh(squares)
      ensures State() == EmptyBoard()
    {
      sideToMove := White;
      whiteCanCastleKingside, whiteCanCastleQueenside := false, false;
      blackCanCastleKingside, blackCanCastleQueenside := false, false;
      enPassantTarget := Origin;
      halfMoveClock, fullMoveNumber := 0, 1;
      var cells := new Piece[64];
      for rank := 0 to 8
        invariant forall i :: 0 <= i < 8 * rank ==> cells[i] == NoPiece
      {
        for file := 0 to 8
          invariant forall i :: 0 <= i < 8 * rank + file ==> cells[i] == NoPiece
        {
          cells[8 * rank + file] := NoPiece;
        }
      }
      squares := cells;
      new;
      assert squares[..] == EmptyBoard().grid;
    }

    /** `Board(fen)`: the placement characters are read one by one onto an
        empty board, then the other five fields; `None` stands for the
        exception `std::stoi` throws on a clock that is not a number. */
    static method FromFen(fen: string) returns (r: Option<Board>)
      requires Fits(Start, Field(fen, 0))
      ensures r.Some? <==> ParseFen(fen).Some?
      ensures r.Some? ==> fresh(r.value) && fresh(r.value.squares) && r.value.Valid()
      ensures r.Some? ==> r.value.State() == ParseFen(fen).value
    {
      var board := new Board();
      board.PlacePieces(Field(fen, 0));
      var ok := board.ReadFields(Field(fen, 1), Field(fen, 2), Field(fen, 3), Field(fen, 4), Field(fen, 5));
      if !ok {
        return None;
      }
      return Some(board);
    }

    /** The five fields after the placement: the side to move is White exactly
        when `activeColor` is "w"; each castling right is present when its
        letter occurs in `castling`; the en-passant target is read unless
        `enPassant` is "-"; `false` stands for the exception `std::stoi`
        throws on a clock that is not a number. */
    method ReadFields(activeColor: string, castling: string, enPassant: string, halfMove: string, fullMove: string)
      returns (ok: bool)
      requires Valid()
      modifies this
      ensures Valid() && squares == old(squares)
      ensures ok <==> StoI(halfMove).Some? && StoI(fullMove).Some?
      ensures ok ==> State() == old(State()).(
        side := if activeColor == "w" then White else Black,
        whiteKingside := 'K' in castling, whiteQueenside := 'Q' in castling,
        blackKingside := 'k' in castling, blackQueenside := 'q' in castling,
        enPassant := if enPassant != "-" then FromAlgebraic(enPassant) else old(State()).enPassant,
        halfMove := StoI(halfMove).value, fullMove := StoI(fullMove).value)
    {
      sideToMove := if activeColor == "w" then White else Black;
      whiteCanCastleKingside := 'K' in castling;
      whiteCanCastleQueenside := 'Q' in castling;
      blackCanCastleKingside := 'k' in castling;
      blackCanCastleQueenside := 'q' in castling;
      if enPassant != "-" {
        enPassantTarget := FromAlgebraic(enPassant);
      }
      var half := StoI(halfMove);
      var full := StoI(fullMove);
      if half.None? || full.None? {
        return false;
      }
      halfMoveClock := half.value;
      fullMoveNumber := full.value;
      return true;
    }

    /** The placement loop of `Board(fen)` on a fresh board: `/` moves to file
        a of the next rank down, a digit skips that many files, any other
        character writes its piece and moves one file on. */
    method PlacePieces(placement: string)
      requires Valid() && Fits(Start, placement) && squares[..] == Start.grid
      modifies squares
      ensures Valid() && squares[..] == Run(Start, placement).grid
    {
      var rank, file := 7, 0;
      for i := 0 to |placement|
        invariant Valid() && Fits(Start, placement[..i])
        invariant Run(Start, placement[..i]) == Cursor(squares[..], rank, file)
      {
        FitsPrefix(Start, placement, i + 1);
        RunSnoc(Start, placement, i);
        var c := placement[i];
        if c == '/' {
          rank := rank - 1;
          file := 0;
        } else if IsDigit(c) {
          file := file + (c as int - '0' as int);
        } else {
          squares[8 * rank + file] := Pieces.FromFen(c);
          file := file + 1;
        }
      }
      assert placement[..|placement|] == placement;
    }

    /** `getPiece`. */
    method GetPiece(pos: Position) returns (piece: Piece)
      requires Valid()
      ensures piece == PieceAt(State(), pos)
    {
      if !IsValid(pos) {
        return NoPiece;
      }
      return squares[8 * pos.rank + pos.file];
    }

    /** `setPiece`: an off-board square changes nothing. */
    method SetPiece(pos: Position, piece: Piece)
      requires Valid()
      modifies squares
      ensures Valid()
      ensures State() == WithPiece(old(State()), pos, piece)
    {
      if !IsValid(pos) {
        return;
      }
      squares[8 * pos.rank + pos.file] := piece;
    }

    function GetSideToMove(): (c: Color)
      requires Valid()
      reads this, squares
      ensures c == State().side
    {
      sideToMove
    }

    method SetSideToMove(c: Color)
      requires Valid()
      modifies this
      ensures Valid() && squares == old(squares)
      ensures State() == old(State()).(side := c)
    {
      sideToMove := c;
    }

    /** `toggleSideToMove`: White becomes Black and any other colour White. */
    method ToggleSideToMove()
      requires Valid()
      modifies this
      ensures Valid() && squares == old(squares)
      ensures State() == old(State()).(side := Other(old(State()).side))
    {
      sideToMove := if sideToMove == White then Black else White;
    }

    /** `toFEN`. */
    method ToFen() returns (fen: string)
      requires Valid()
      ensures fen == FenText(State())
    {
      fen := WriteFen(State());
    }

    method IsUnderAttack(pos: Position, attackingColor: Color) returns (attacked: bool)
      requires Valid()
      ensures attacked == Attacks.Attacked(State(), pos, attackingColor)
    {
      attacked := Attacks.IsUnderAttack(State(), pos, attackingColor);
    }

    method IsInCheck() returns (check: bool)
      requires Valid()
      ensures check == Attacks.InCheck(State())
    {
      check := Attacks.IsInCheck(State());
    }

    method GeneratePseudoLegalMoves(pos: Position) returns (moves: seq<Move>)
      requires Valid()
      ensures moves == MoveGen.PseudoLegalMoves(State(), pos)
    {
      moves := MoveGen.GeneratePseudoLegalMoves(State(), pos);
    }

    method GenerateLegalMoves() returns (moves: seq<Move>)
      requires Valid()
      ensures moves == Legality.LegalMoves(State())
    {
      moves := Legality.GenerateLegalMoves(State());
    }

    method IsLegalMove(m: Move) returns (ok: bool)
      requires Valid()
      ensures ok == Legality.IsLegal(State(), m)
    {
      ok := Legality.IsLegalMove(State(), m);
    }

    /** The board changes of `makeMove`: the piece moves and a promoting pawn
        is replaced. */
    method MovePiece(piece: Piece, m: Move)
      requires Valid() && IsValid(m.from) && IsValid(m.to)
      modifies squares
      ensures Valid()
      ensures State() == Legality.AfterMove(old(State()), piece, m)
    {
      SetPiece(m.to, piece);
      SetPiece(m.from, NoPiece);
      if piece.kind == Pawn && ((sideToMove == White && m.to.rank == 7) || (sideToMove == Black && m.to.rank == 0)) {
        if m.promotion != Empty {
          SetPiece(m.to, Piece(m.promotion, sideToMove));
        } else {
          SetPiece(m.to, Piece(Queen, sideToMove));
        }
      }
    }

    /** `makeMove`: a move is made exactly when it is legal; then the piece
        moves, a pawn reaching the last rank of the side to move becomes the
        named piece or a queen, and the side to move is toggled. Castling
        rights, en-passant target and clocks are left as they were. A move
        that is not legal changes nothing. */
    method MakeMove(m: Move) returns (ok: bool)
      requires Valid()
      modifies this, squares
      ensures Valid() && squares == old(squares)
      ensures ok == Legality.IsLegal(old(State()), m)
      ensures ok ==> State() == Legality.Played(old(State()), m)
      ensures !ok ==> State() == old(State())
    {
      if !IsValid(m.from) || !IsValid(m.to) {
        return false;
      }
      var piece := GetPiece(m.from);
      if IsEmpty(piece) || piece.color != sideToMove {
        return false;
      }
      var legal := IsLegalMove(m);
      if !legal {
        return false;
      }
      ghost var before := State();
      ghost var moved := Legality.AfterMove(before, piece, m);
      Legality.AfterMoveKeepsSide(before, piece, m);
      MovePiece(piece, m);
      ToggleSideToMove();
      assert Legality.Played(before, m) == moved.(side := Other(before.side));
      return true;
    }
  }
}
