/** The legality filter and the legal-move query (src/chess/board_moves.cpp,
    `generateLegalMoves` and `isLegalMove`). A pseudo-legal move is legal when,
    on a copy of the board with the move made, the first king of the side to
    move in rank-major order is missing or not attacked by the other side. */
module Legality {
  import opened Pieces
  import opened Notation
  import opened Grids
  import opened Attacks
  import opened MoveGen
  import opened Seqs

  /** The move lands a pawn on the last rank of the side to move; the side to
      move, not the pawn's colour, decides which rank that is. */
  predicate Promotes(b: BoardState, piece: Piece, m: Move) {
    piece.kind == Pawn && ((b.side == White && m.to.rank == 7) || (b.side == Black && m.to.rank == 0))
  }

  /** The kind a promoting pawn becomes: the move's promotion, or a queen when it names none. */
  function PromotedKind(m: Move): (k: PieceType)
    ensures k != Empty
    ensures m.promotion != Empty ==> k == m.promotion
  {
    if m.promotion != Empty then m.promotion else Queen
  }

  /** The board copy after `piece` moves along `m` (`testBoard` in the filter):
      `setPiece(to, piece)`, `setPiece(from, Piece())`, then the promotion. */
  function AfterMove(b: BoardState, piece: Piece, m: Move): BoardState {
    var moved := WithPiece(WithPiece(b, m.to, piece), m.from, NoPiece);
    if Promotes(b, piece, m) then WithPiece(moved, m.to, Piece(PromotedKind(m), b.side)) else moved
  }

  /** What the copy holds: on the target square the piece, or the promoted
      piece in the side to move's colour; the start square empty; every other
      square, the side to move, castling rights, en-passant target and clocks
      as they were. */
  lemma AfterMoveEffect(b: BoardState, piece: Piece, m: Move)
    requires IsValid(m.from) && IsValid(m.to) && m.from != m.to
    ensures var r := AfterMove(b, piece, m);
      && r == b.(grid := r.grid)
      && PieceAt(r, m.from) == NoPiece
      && PieceAt(r, m.to) == (if Promotes(b, piece, m) then Piece(PromotedKind(m), b.side) else piece)
      && forall q :: q != m.from && q != m.to ==> PieceAt(r, q) == PieceAt(b, q)
  {
  }

  /** The copy keeps every field other than the grid. */
  lemma AfterMoveKeepsSide(b: BoardState, piece: Piece, m: Move)
    ensures AfterMove(b, piece, m) == b.(grid := AfterMove(b, piece, m).grid)
  {
  }

  /** On board `t`, the first king of colour `c` in rank-major order is
      missing or not attacked by the other colour. */
  predicate KingSafeOn(t: BoardState, c: Color) {
    var k := FirstKing(t, c);
    !IsValid(k) || !Attacked(t, k, Other(c))
  }

  /** After `piece` moves along `m`, the king of the side to move is safe. */
  predicate KeepsKingSafe(b: BoardState, piece: Piece, m: Move) {
    KingSafeOn(AfterMove(b, piece, m), b.side)
  }

  /** The moves of `ms` that `keep` accepts, in their order. */
  function Filter(ms: seq<Move>, keep: Move -> bool): (r: seq<Move>)
    ensures |r| <= |ms|
  {
    if |ms| == 0 then []
    else
      var last := ms[|ms| - 1];
      Filter(ms[..|ms| - 1], keep) + (if keep(last) then [last] else [])
  }

  lemma {:induction false} FilterIff(ms: seq<Move>, keep: Move -> bool, m: Move)
    ensures m in Filter(ms, keep) <==> m in ms && keep(m)
  {
    if |ms| > 0 {
      FilterIff(ms[..|ms| - 1], keep, m);
      assert ms == ms[..|ms| - 1] + [ms[|ms| - 1]];
    }
  }

  /** The moves of `ms` that keep the king safe, in their order. */
  function SafeMoves(b: BoardState, piece: Piece, ms: seq<Move>): seq<Move> {
    Filter(ms, SafetyTest(b, piece))
  }

  function SafetyTest(b: BoardState, piece: Piece): Move -> bool {
    m => KeepsKingSafe(b, piece, m)
  }

  /** The legal moves of the piece on `p`: none unless it belongs to the side
      to move, else its pseudo-legal moves that keep the king safe. */
  function LegalAt(b: BoardState, p: Position): seq<Move> {
    var piece := PieceAt(b, p);
    if !IsEmpty(piece) && piece.color == b.side then SafeMoves(b, piece, PseudoLegalMoves(b, p)) else []
  }

  /** The moves `at` lists for the first `f` squares of rank `r`, file by file. */
  function RankMoves(at: Position -> seq<Move>, r: int, f: nat): seq<Move> {
    if f == 0 then [] else RankMoves(at, r, f - 1) + at(Position(f - 1, r))
  }

  /** The moves `at` lists for the first `r` ranks, rank by rank. */
  function RanksMoves(at: Position -> seq<Move>, r: nat): seq<Move> {
    if r == 0 then [] else RanksMoves(at, r - 1) + RankMoves(at, r - 1, 8)
  }

  /** `at` lists, for each square, only moves from that square. */
  ghost predicate FromOwnSquare(at: Position -> seq<Move>) {
    forall p, m :: m in at(p) ==> m.from == p
  }

  lemma {:induction false} RankMovesIff(at: Position -> seq<Move>, r: int, f: nat, m: Move)
    requires FromOwnSquare(at)
    ensures m in RankMoves(at, r, f) <==> m.from.rank == r && 0 <= m.from.file < f && m in at(m.from)
  {
    if f > 0 {
      RankMovesIff(at, r, f - 1, m);
    }
  }

  lemma {:induction false} RanksMovesIff(at: Position -> seq<Move>, r: nat, m: Move)
    requires FromOwnSquare(at)
    ensures m in RanksMoves(at, r) <==> 0 <= m.from.rank < r && 0 <= m.from.file < 8 && m in at(m.from)
  {
    if r > 0 {
      RanksMovesIff(at, r - 1, m);
      RankMovesIff(at, r - 1, 8, m);
    }
  }

  /** `generateLegalMoves`: squares in rank-major order (a1, b1, ..., h8), and
      each piece's moves in its generator's order. The eight ranks are counted
      as `|b.grid| / 8`. */
  function LegalMoves(b: BoardState): seq<Move> {
    RanksMoves(LegalOf(b), |b.grid| / 8)
  }

  function LegalOf(b: BoardState): Position -> seq<Move> {
    p => LegalAt(b, p)
  }

  lemma LegalAtIff(b: BoardState, p: Position, m: Move)
    ensures m in LegalAt(b, p) <==> m in PseudoLegalMoves(b, p) && KeepsKingSafe(b, PieceAt(b, p), m)
    ensures m in LegalAt(b, p) ==> m.from == p && IsValid(p)
  {
    var piece := PieceAt(b, p);
    if m in PseudoLegalMoves(b, p) {
      PseudoLegalWellFormed(b, p, m);
    }
    if !IsEmpty(piece) && piece.color == b.side {
      FilterIff(PseudoLegalMoves(b, p), SafetyTest(b, piece), m);
    }
  }

  /** The legal moves are exactly the pseudo-legal moves, from any square, that
      leave the mover's king safe. */
  lemma LegalMovesIff(b: BoardState, m: Move)
    ensures m in LegalMoves(b) <==>
      IsValid(m.from) && m in PseudoLegalMoves(b, m.from) && KeepsKingSafe(b, PieceAt(b, m.from), m)
  {
    var at := LegalOf(b);
    forall p, m' | m' in at(p)
      ensures m'.from == p
    {
      LegalAtIff(b, p, m');
    }
    RanksMovesIff(at, |b.grid| / 8, m);
    LegalAtIff(b, m.from, m);
  }

  /** Every legal move is well formed and moves a piece of the side to move. */
  lemma LegalMovesWellFormed(b: BoardState, m: Move)
    requires m in LegalMoves(b)
    ensures IsValid(m.from) && WellFormed(b, m.from, m)
    ensures !IsEmpty(PieceAt(b, m.from)) && PieceAt(b, m.from).color == b.side
  {
    LegalMovesIff(b, m);
    PseudoLegalWellFormed(b, m.from, m);
  }

  /** Some move of `ms` goes from `from` to `to`. */
  predicate HasSquares(ms: seq<Move>, from: Position, to: Position) {
    exists lm :: lm in ms && lm.from == from && lm.to == to
  }

  /** `isLegalMove`: both squares on the board, a piece of the side to move on
      the start square, and some legal move with the same two squares; the
      promotion of `m` is not compared. */
  predicate IsLegal(b: BoardState, m: Move) {
    && IsValid(m.from) && IsValid(m.to)
    && !IsEmpty(PieceAt(b, m.from)) && PieceAt(b, m.from).color == b.side
    && HasSquares(LegalMoves(b), m.from, m.to)
  }

  lemma IsLegalSound(b: BoardState, m: Move) returns (k: PieceType)
    requires IsLegal(b, m)
    ensures Move(m.from, m.to, k) in PseudoLegalMoves(b, m.from)
    ensures KeepsKingSafe(b, PieceAt(b, m.from), Move(m.from, m.to, k))
  {
    var lm :| lm in LegalMoves(b) && lm.from == m.from && lm.to == m.to;
    LegalMovesIff(b, lm);
    k := lm.promotion;
    assert lm == Move(m.from, m.to, k);
  }

  lemma IsLegalComplete(b: BoardState, m: Move, k: PieceType)
    requires Move(m.from, m.to, k) in PseudoLegalMoves(b, m.from)
    requires KeepsKingSafe(b, PieceAt(b, m.from), Move(m.from, m.to, k))
    ensures IsLegal(b, m)
  {
    var lm := Move(m.from, m.to, k);
    PseudoLegalWellFormed(b, m.from, lm);
    LegalMovesIff(b, lm);
    assert lm in LegalMoves(b) && lm.from == m.from && lm.to == m.to;
  }

  /** Legality in reference form: some promotion choice with the same two
      squares is pseudo-legal and keeps the king safe. */
  lemma IsLegalIff(b: BoardState, m: Move)
    ensures IsLegal(b, m) <==>
      exists k :: Move(m.from, m.to, k) in PseudoLegalMoves(b, m.from) && KeepsKingSafe(b, PieceAt(b, m.from), Move(m.from, m.to, k))
  {
    if IsLegal(b, m) {
      var k := IsLegalSound(b, m);
    }
    forall k | Move(m.from, m.to, k) in PseudoLegalMoves(b, m.from) && KeepsKingSafe(b, PieceAt(b, m.from), Move(m.from, m.to, k))
      ensures IsLegal(b, m)
    {
      IsLegalComplete(b, m, k);
    }
  }

  /** Whatever promotion a move names, it is legal exactly when the same two
      squares are. */
  lemma IsLegalIgnoresPromotion(b: BoardState, m: Move, k: PieceType)
    ensures IsLegal(b, m) <==> IsLegal(b, m.(promotion := k))
  {
  }

  /** The copy made for a move that does not promote depends only on its two squares. */
  lemma AfterMoveIgnoresPromotion(b: BoardState, piece: Piece, m: Move, k: PieceType)
    requires !Promotes(b, piece, m)
    ensures AfterMove(b, piece, m.(promotion := k)) == AfterMove(b, piece, m)
  {
  }

  /** A legal move leaves the mover's king safe on the board it produces,
      unless it names a king as its promotion. */
  lemma LegalMoveKeepsKingSafe(b: BoardState, m: Move)
    requires IsLegal(b, m) && (!Promotes(b, PieceAt(b, m.from), m) || PromotedKind(m) != King)
    ensures KeepsKingSafe(b, PieceAt(b, m.from), m)
  {
    var k := IsLegalSound(b, m);
    var piece := PieceAt(b, m.from);
    if !Promotes(b, piece, m) {
      AfterMoveIgnoresPromotion(b, piece, m, k);
      assert m.(promotion := k) == Move(m.from, m.to, k);
    } else {
      PromotionChoiceKeepsKingSafe(b, m, k);
    }
  }

  /** Two promoting versions of one move, neither to a king, leave the mover's
      king equally safe: the promoted piece is the mover's own and occupies the
      target square either way. */
  lemma PromotionChoiceKeepsKingSafe(b: BoardState, m: Move, k: PieceType)
    requires Move(m.from, m.to, k) in PseudoLegalMoves(b, m.from)
    requires KeepsKingSafe(b, PieceAt(b, m.from), Move(m.from, m.to, k))
    requires Promotes(b, PieceAt(b, m.from), m) && PromotedKind(m) != King
    ensures KeepsKingSafe(b, PieceAt(b, m.from), m)
  {
    var piece := PieceAt(b, m.from);
    var mk := Move(m.from, m.to, k);
    PseudoLegalWellFormed(b, m.from, mk);
    assert PromotedKind(mk) != King;
    var t1 := AfterMove(b, piece, m);
    var t2 := AfterMove(b, piece, mk);
    AfterMoveEffect(b, piece, m);
    AfterMoveEffect(b, piece, mk);
    var c := b.side;
    assert forall q :: q != m.to ==> PieceAt(t1, q) == PieceAt(t2, q);
    forall j | 0 <= j < 64
      ensures IsKingOf(t1.grid[j], c) == IsKingOf(t2.grid[j], c)
    {
      assert PieceAt(t1, SquareOf(j)) == t1.grid[j] && PieceAt(t2, SquareOf(j)) == t2.grid[j];
    }
    KingSearchAgree(t1, t2, c, 0);
    var king := FirstKing(t1, c);
    if IsValid(king) {
      AttackedAgree(t1, t2, king, Other(c));
    }
  }

  /** The board after `makeMove` accepts `m`: the move made as on the filter's
      copy, then the side to move toggled. */
  function Played(b: BoardState, m: Move): (r: BoardState)
    ensures r.side == Other(b.side)
    ensures r.whiteKingside == b.whiteKingside && r.whiteQueenside == b.whiteQueenside
    ensures r.blackKingside == b.blackKingside && r.blackQueenside == b.blackQueenside
    ensures r.enPassant == b.enPassant && r.halfMove == b.halfMove && r.fullMove == b.fullMove
  {
    AfterMove(b, PieceAt(b, m.from), m).(side := Other(b.side))
  }

  /** What `makeMove` does to the squares of a legal move: the target holds the
      moving piece, or its promotion in the mover's colour; the start square is
      empty; every other square keeps its piece. */
  lemma PlayedEffect(b: BoardState, m: Move)
    requires IsLegal(b, m)
    ensures var r := Played(b, m);
      && PieceAt(r, m.from) == NoPiece
      && PieceAt(r, m.to) == (if Promotes(b, PieceAt(b, m.from), m) then Piece(PromotedKind(m), b.side) else PieceAt(b, m.from))
      && forall q :: q != m.from && q != m.to ==> PieceAt(r, q) == PieceAt(b, q)
  {
    var k := IsLegalSound(b, m);
    PseudoLegalWellFormed(b, m.from, Move(m.from, m.to, k));
    AfterMoveEffect(b, PieceAt(b, m.from), m);
  }

  // ---------------------------------------------------------------------------
  // The methods.

  /** The test of one candidate in `generateLegalMoves`: make it on a copy,
      find the king of the side to move, and accept when there is no king or
      it is not attacked. */
  method IsSafe(b: BoardState, piece: Piece, move: Move) returns (safe: bool)
    ensures safe == KeepsKingSafe(b, piece, move)
  {
    var testBoard := AfterMove(b, piece, move);
    var kingPos := FindKing(testBoard, b.side);
    safe := true;
    if IsValid(kingPos) {
      var attacked := IsUnderAttack(testBoard, kingPos, Other(b.side));
      safe := !attacked;
    }
  }

  /** One more candidate adds itself to the safe moves exactly when it is safe. */
  lemma SafeMovesSnoc(b: BoardState, piece: Piece, ms: seq<Move>, m: Move, safe: bool)
    requires safe == KeepsKingSafe(b, piece, m)
    ensures SafeMoves(b, piece, ms + [m]) == SafeMoves(b, piece, ms) + (if safe then [m] else [])
  {
    assert (ms + [m])[..|ms|] == ms;
  }

  /** The inner loop of `generateLegalMoves`: keep each candidate that is safe. */
  method AppendSafe(b: BoardState, piece: Piece, candidates: seq<Move>, legal: seq<Move>) returns (out: seq<Move>)
    ensures out == legal + SafeMoves(b, piece, candidates)
  {
    out := legal;
    for j := 0 to |candidates|
      invariant out == legal + SafeMoves(b, piece, candidates[..j])
    {
      var move := candidates[j];
      assert candidates[..j + 1] == candidates[..j] + [move];
      var safe := IsSafe(b, piece, move);
      SafeMovesSnoc(b, piece, candidates[..j], move, safe);
      var kept := if safe then [move] else [];
      AppendAssoc(legal, SafeMoves(b, piece, candidates[..j]), kept);
      out := out + kept;
    }
    assert candidates[..|candidates|] == candidates;
  }

  /** One square of `generateLegalMoves`. */
  method AppendLegalAt(b: BoardState, pos: Position, legal: seq<Move>) returns (out: seq<Move>)
    ensures out == legal + LegalAt(b, pos)
  {
    var piece := PieceAt(b, pos);
    if !IsEmpty(piece) && piece.color == b.side {
      var pieceMoves := GeneratePseudoLegalMoves(b, pos);
      out := AppendSafe(b, piece, pieceMoves, legal);
    } else {
      out := legal;
    }
  }

  /** `generateLegalMoves`. */
  method GenerateLegalMoves(b: BoardState) returns (legal: seq<Move>)
    ensures legal == LegalMoves(b)
  {
    legal := [];
    for rank := 0 to 8
      invariant legal == RanksMoves(LegalOf(b), rank)
    {
      for file := 0 to 8
        invariant legal == RanksMoves(LegalOf(b), rank) + RankMoves(LegalOf(b), rank, file)
      {
        AppendAssoc(RanksMoves(LegalOf(b), rank), RankMoves(LegalOf(b), rank, file), LegalAt(b, Position(file, rank)));
        legal := AppendLegalAt(b, Position(file, rank), legal);
      }
    }
  }

  /** The scan at the end of `isLegalMove`: is there a move with these two squares? */
  method FindSquares(ms: seq<Move>, from: Position, to: Position) returns (found: bool)
    ensures found == HasSquares(ms, from, to)
  {
    for i := 0 to |ms|
      invariant forall i' :: 0 <= i' < i ==> !(ms[i'].from == from && ms[i'].to == to)
    {
      if ms[i].from == from && ms[i].to == to {
        assert ms[i] in ms;
        return true;
      }
    }
    return false;
  }

  /** `isLegalMove`. */
  method IsLegalMove(b: BoardState, m: Move) returns (ok: bool)
    ensures ok == IsLegal(b, m)
  {
    if !IsValid(m.from) || !IsValid(m.to) {
      return false;
    }
    var piece := PieceAt(b, m.from);
    if IsEmpty(piece) || piece.color != b.side {
      return false;
    }
    var legalMoves := GenerateLegalMoves(b);
    ok := FindSquares(legalMoves, m.from, m.to);
  }
}
