/** Pseudo-legal move generation (src/chess/board_moves.cpp): the moves each
    piece could make by its own movement rules, before the check filter.
    Castling and en passant are never generated. Each generator appends to
    the caller's list; the list it returns is the old one followed by the
    moves that the matching specification function lists. */
module MoveGen {
  import opened Pieces
  import opened Notation
  import opened Grids
  import opened Attacks
  import opened Seqs

  // ---------------------------------------------------------------------------
  // Specification.

  function StartRank(c: Color): int {
    if c == White then 1 else 6
  }

  function PromotionRank(c: Color): int {
    if c == White then 7 else 0
  }

  /** The moves a pawn adds for one target square: the four promotions in the
      order queen, rook, bishop, knight on the promotion rank, else one plain move. */
  function PawnTargetMoves(from: Position, to: Position, promotionRank: int): seq<Move> {
    if to.rank == promotionRank then
      [Move(from, to, Queen), Move(from, to, Rook), Move(from, to, Bishop), Move(from, to, Knight)]
    else [Move(from, to, Empty)]
  }

  /** Forward moves of a pawn of colour `c`: one step onto an empty square and,
      only then and only from the start rank, two steps onto an empty square. */
  function PawnPushes(b: BoardState, pos: Position, c: Color): seq<Move> {
    var dir := PawnDirection(c);
    var forward := Position(pos.file, pos.rank + dir);
    var double := Position(pos.file, pos.rank + 2 * dir);
    if IsValid(forward) && IsEmpty(PieceAt(b, forward)) then
      PawnTargetMoves(pos, forward, PromotionRank(c))
      + (if pos.rank == StartRank(c) && IsValid(double) && IsEmpty(PieceAt(b, double))
         then [Move(pos, double, Empty)] else [])
    else []
  }

  /** The diagonal capture towards file offset `df`: onto a non-empty square
      whose colour differs from the pawn's. */
  function PawnCapture(b: BoardState, pos: Position, c: Color, df: int): seq<Move> {
    var target := Position(pos.file + df, pos.rank + PawnDirection(c));
    if IsValid(target) && !IsEmpty(PieceAt(b, target)) && PieceAt(b, target).color != c
    then PawnTargetMoves(pos, target, PromotionRank(c))
    else []
  }

  /** The file offsets of the two captures, in the order they are tried. */
  const CaptureOffsets: seq<int> := [-1, 1]

  /** The captures towards the first `n` offsets. */
  function PawnCaptures(b: BoardState, pos: Position, c: Color, n: nat): seq<Move>
    requires n <= |CaptureOffsets|
  {
    if n == 0 then [] else PawnCaptures(b, pos, c, n - 1) + PawnCapture(b, pos, c, CaptureOffsets[n - 1])
  }

  /** `generatePawnMoves`: nothing unless a pawn stands on `pos`; then pushes,
      then the capture to the lower file, then the one to the higher file. */
  function PawnMoves(b: BoardState, pos: Position): seq<Move> {
    var pawn := PieceAt(b, pos);
    if IsEmpty(pawn) || pawn.kind != Pawn then []
    else PawnPushes(b, pos, pawn.color) + PawnCaptures(b, pos, pawn.color, 2)
  }

  /** A piece of colour `c` may end its move on `q`: `q` is empty or holds a
      piece of another colour. */
  predicate CanLandOn(b: BoardState, q: Position, c: Color) {
    IsEmpty(PieceAt(b, q)) || PieceAt(b, q).color != c
  }

  /** The single-step moves to the first `n` offsets of the table, in table order. */
  function JumpTargets(b: BoardState, pos: Position, c: Color, offsets: seq<Offset>, n: nat): seq<Move>
    requires n <= |offsets|
  {
    if n == 0 then []
    else
      var q := Shift(pos, offsets[n - 1]);
      JumpTargets(b, pos, c, offsets, n - 1) + (if IsValid(q) && CanLandOn(b, q, c) then [Move(pos, q, Empty)] else [])
  }

  /** `generateKnightMoves` and `generateKingMoves`: nothing unless a piece of
      kind `k` stands on `pos`. */
  function JumpMoves(b: BoardState, pos: Position, offsets: seq<Offset>, k: PieceType): seq<Move> {
    var piece := PieceAt(b, pos);
    if IsEmpty(piece) || piece.kind != k then [] else JumpTargets(b, pos, piece.color, offsets, |offsets|)
  }

  /** The moves along one ray from step `i` on: every empty square, then the
      first occupied square if its colour differs from `c`; the edge of the
      board or step 8 ends the ray. */
  function RayMoves(b: BoardState, pos: Position, c: Color, d: Offset, i: int): seq<Move>
    decreases |b.grid| - i
  {
    if i >= 8 then []
    else
      var q := RayStep(pos, d, i);
      if !IsValid(q) then []
      else if IsEmpty(PieceAt(b, q)) then [Move(pos, q, Empty)] + RayMoves(b, pos, c, d, i + 1)
      else if PieceAt(b, q).color != c then [Move(pos, q, Empty)]
      else []
  }

  /** The rays along the first `n` directions, in table order. */
  function SlideTargets(b: BoardState, pos: Position, c: Color, dirs: seq<Offset>, n: nat): seq<Move>
    requires n <= |dirs|
  {
    if n == 0 then [] else SlideTargets(b, pos, c, dirs, n - 1) + RayMoves(b, pos, c, dirs[n - 1], 1)
  }

  /** `generateSlidingMoves`: nothing when `pos` is empty; the piece's kind is
      not looked at, its colour decides what it may capture. */
  function SlidingMoves(b: BoardState, pos: Position, dirs: seq<Offset>): seq<Move> {
    var piece := PieceAt(b, pos);
    if IsEmpty(piece) then [] else SlideTargets(b, pos, piece.color, dirs, |dirs|)
  }

  /** `generatePseudoLegalMoves`: nothing unless `pos` holds a piece of the side
      to move; otherwise the generator for its kind. The queen slides along the
      eight king directions. */
  function PseudoLegalMoves(b: BoardState, pos: Position): seq<Move> {
    var piece := PieceAt(b, pos);
    if IsEmpty(piece) || piece.color != b.side then []
    else
      match piece.kind
      case Pawn => PawnMoves(b, pos)
      case Knight => JumpMoves(b, pos, KnightJumps, Knight)
      case Bishop => SlidingMoves(b, pos, Diagonals)
      case Rook => SlidingMoves(b, pos, Orthogonals)
      case Queen => SlidingMoves(b, pos, KingSteps)
      case King => JumpMoves(b, pos, KingSteps, King)
      case Empty => []
  }

  // ---------------------------------------------------------------------------
  // What the generated moves are.

  /** The shape every generated move has: it starts on `pos`, ends on another
      on-board square that is empty or holds a piece of another colour, and it
      names a promotion exactly when a pawn reaches its last rank. */
  predicate WellFormed(b: BoardState, pos: Position, m: Move) {
    var piece := PieceAt(b, pos);
    && m.from == pos
    && IsValid(m.to)
    && m.to != pos
    && CanLandOn(b, m.to, piece.color)
    && IsPromotionChoice(m.promotion)
    && (m.promotion != Empty <==> piece.kind == Pawn && m.to.rank == PromotionRank(piece.color))
  }

  lemma {:induction false} JumpTargetsIff(b: BoardState, pos: Position, c: Color, offsets: seq<Offset>, n: nat, m: Move)
    requires n <= |offsets|
    ensures m in JumpTargets(b, pos, c, offsets, n) <==>
      m.from == pos && m.promotion == Empty && IsValid(m.to) && CanLandOn(b, m.to, c)
      && exists j :: 0 <= j < n && m.to == Shift(pos, offsets[j])
  {
    if n > 0 {
      JumpTargetsIff(b, pos, c, offsets, n - 1, m);
      if m.from == pos && m.promotion == Empty && m.to == Shift(pos, offsets[n - 1]) && IsValid(m.to) && CanLandOn(b, m.to, c) {
        assert m == Move(pos, Shift(pos, offsets[n - 1]), Empty);
      }
    }
  }

  /** Knight and king moves: exactly the table offsets that stay on the board
      and do not land on a piece of the mover's colour. */
  lemma JumpMovesIff(b: BoardState, pos: Position, offsets: seq<Offset>, k: PieceType, m: Move)
    ensures m in JumpMoves(b, pos, offsets, k) <==>
      k != Empty && PieceAt(b, pos).kind == k
      && m.from == pos && m.promotion == Empty && IsValid(m.to) && CanLandOn(b, m.to, PieceAt(b, pos).color)
      && exists j :: 0 <= j < |offsets| && m.to == Shift(pos, offsets[j])
  {
    JumpTargetsIff(b, pos, PieceAt(b, pos).color, offsets, |offsets|, m);
  }

  /** Ray moves from step `i`: exactly the squares `k` steps out, for `k` from
      `i` to 7, that are on the board, that the mover may land on, and that are
      reached over empty squares only. */
  lemma {:induction false} RayMovesIff(b: BoardState, pos: Position, c: Color, d: Offset, i: int, m: Move)
    requires i >= 1
    ensures m in RayMoves(b, pos, c, d, i) <==>
      m.from == pos && m.promotion == Empty
      && exists k :: i <= k < 8 && m.to == RayStep(pos, d, k) && IsValid(m.to) && CanLandOn(b, m.to, c) && Clear(b, pos, d, i, k)
    decreases 8 - i
  {
    if i < 8 {
      var q := RayStep(pos, d, i);
      RayMovesIff(b, pos, c, d, i + 1, m);
      if m.from == pos && m.promotion == Empty {
        if exists k :: i <= k < 8 && m.to == RayStep(pos, d, k) && IsValid(m.to) && CanLandOn(b, m.to, c) && Clear(b, pos, d, i, k) {
          var k :| i <= k < 8 && m.to == RayStep(pos, d, k) && IsValid(m.to) && CanLandOn(b, m.to, c) && Clear(b, pos, d, i, k);
          if k == i {
            assert m == Move(pos, q, Empty);
          } else {
            assert IsValid(q) && IsEmpty(PieceAt(b, q));
            assert Clear(b, pos, d, i + 1, k);
          }
        }
        if m in RayMoves(b, pos, c, d, i) && m != Move(pos, q, Empty) {
          var k :| i + 1 <= k < 8 && m.to == RayStep(pos, d, k) && IsValid(m.to) && CanLandOn(b, m.to, c) && Clear(b, pos, d, i + 1, k);
          assert Clear(b, pos, d, i, k);
        }
      }
    }
  }

  lemma {:induction false} SlideTargetsIff(b: BoardState, pos: Position, c: Color, dirs: seq<Offset>, n: nat, m: Move)
    requires n <= |dirs|
    ensures m in SlideTargets(b, pos, c, dirs, n) <==> exists j :: 0 <= j < n && m in RayMoves(b, pos, c, dirs[j], 1)
  {
    if n > 0 {
      SlideTargetsIff(b, pos, c, dirs, n - 1, m);
      assert SlideTargets(b, pos, c, dirs, n) == SlideTargets(b, pos, c, dirs, n - 1) + RayMoves(b, pos, c, dirs[n - 1], 1);
    }
  }

  /** Sliding moves: along one of the directions, any number of steps over
      empty squares, ending on a square the mover may land on. */
  lemma SlidingMovesIff(b: BoardState, pos: Position, dirs: seq<Offset>, m: Move)
    ensures m in SlidingMoves(b, pos, dirs) <==>
      !IsEmpty(PieceAt(b, pos)) && m.from == pos && m.promotion == Empty
      && (exists j, k :: 0 <= j < |dirs| && 1 <= k < 8 && m.to == RayStep(pos, dirs[j], k) && IsValid(m.to)
            && CanLandOn(b, m.to, PieceAt(b, pos).color) && Clear(b, pos, dirs[j], 1, k))
  {
    var c := PieceAt(b, pos).color;
    SlideTargetsIff(b, pos, c, dirs, |dirs|, m);
    forall j | 0 <= j < |dirs| {
      RayMovesIff(b, pos, c, dirs[j], 1, m);
    }
  }

  /** The promotion a pawn move to `to` carries: one of the four choices on
      the last rank, none elsewhere. */
  predicate PromotionFits(m: Move, c: Color) {
    if m.to.rank == PromotionRank(c) then m.promotion in {Queen, Rook, Bishop, Knight} else m.promotion == Empty
  }

  /** A single push of a pawn of colour `c` from `pos` onto the empty square ahead. */
  predicate IsPush(b: BoardState, pos: Position, c: Color, to: Position) {
    to == Position(pos.file, pos.rank + PawnDirection(c)) && IsValid(to) && IsEmpty(PieceAt(b, to))
  }

  /** A double push from the start rank, over an empty square onto an empty square. */
  predicate IsDoublePush(b: BoardState, pos: Position, c: Color, to: Position) {
    && pos.rank == StartRank(c)
    && IsPush(b, pos, c, Position(pos.file, pos.rank + PawnDirection(c)))
    && to == Position(pos.file, pos.rank + 2 * PawnDirection(c)) && IsValid(to) && IsEmpty(PieceAt(b, to))
  }

  /** A diagonal step forward onto a piece of another colour. */
  predicate IsPawnCapture(b: BoardState, pos: Position, c: Color, to: Position) {
    && (to == Position(pos.file - 1, pos.rank + PawnDirection(c)) || to == Position(pos.file + 1, pos.rank + PawnDirection(c)))
    && IsValid(to) && !IsEmpty(PieceAt(b, to)) && PieceAt(b, to).color != c
  }

  lemma PawnTargetMovesIff(from: Position, to: Position, c: Color, m: Move)
    ensures m in PawnTargetMoves(from, to, PromotionRank(c)) <==> m.from == from && m.to == to && PromotionFits(m, c)
  {
  }

  lemma PawnPushesIff(b: BoardState, pos: Position, c: Color, m: Move)
    ensures m in PawnPushes(b, pos, c) <==>
      m.from == pos && (IsPush(b, pos, c, m.to) || IsDoublePush(b, pos, c, m.to)) && PromotionFits(m, c)
  {
    var forward := Position(pos.file, pos.rank + PawnDirection(c));
    PawnTargetMovesIff(pos, forward, c, m);
  }

  lemma PawnCapturesIff(b: BoardState, pos: Position, c: Color, m: Move)
    ensures m in PawnCaptures(b, pos, c, 2) <==> m.from == pos && IsPawnCapture(b, pos, c, m.to) && PromotionFits(m, c)
  {
    var dir := PawnDirection(c);
    PawnTargetMovesIff(pos, Position(pos.file - 1, pos.rank + dir), c, m);
    PawnTargetMovesIff(pos, Position(pos.file + 1, pos.rank + dir), c, m);
    assert PawnCaptures(b, pos, c, 1) == [] + PawnCapture(b, pos, c, -1);
    assert PawnCaptures(b, pos, c, 2) == PawnCaptures(b, pos, c, 1) + PawnCapture(b, pos, c, 1);
  }

  /** Pawn moves: a push onto the empty square ahead; a double push from the
      start rank when both squares ahead are empty; a diagonal capture of a
      piece of another colour. A move to the last rank comes once per
      promotion choice, any other move once with no promotion. */
  lemma PawnMovesIff(b: BoardState, pos: Position, m: Move)
    ensures m in PawnMoves(b, pos) <==>
      var pawn := PieceAt(b, pos);
      && !IsEmpty(pawn) && pawn.kind == Pawn && m.from == pos
      && (IsPush(b, pos, pawn.color, m.to) || IsDoublePush(b, pos, pawn.color, m.to) || IsPawnCapture(b, pos, pawn.color, m.to))
      && PromotionFits(m, pawn.color)
  {
    var c := PieceAt(b, pos).color;
    PawnPushesIff(b, pos, c, m);
    PawnCapturesIff(b, pos, c, m);
  }

  /** Every pseudo-legal move is well formed, and only a piece of the side to
      move has any. */
  lemma PseudoLegalWellFormed(b: BoardState, pos: Position, m: Move)
    requires m in PseudoLegalMoves(b, pos)
    ensures IsValid(pos) && WellFormed(b, pos, m)
    ensures !IsEmpty(PieceAt(b, pos)) && PieceAt(b, pos).color == b.side
  {
    var piece := PieceAt(b, pos);
    match piece.kind {
      case Pawn =>
        PawnMovesIff(b, pos, m);
      case Knight =>
        JumpMovesIff(b, pos, KnightJumps, Knight, m);
      case King =>
        JumpMovesIff(b, pos, KingSteps, King, m);
      case Bishop =>
        SlidingMovesIff(b, pos, Diagonals, m);
      case Rook =>
        SlidingMovesIff(b, pos, Orthogonals, m);
      case Queen =>
        SlidingMovesIff(b, pos, KingSteps, m);
    }
  }

  // ---------------------------------------------------------------------------
  // The generators.

  /** `generatePawnMoves`. */
  method GeneratePawnMoves(b: BoardState, pos: Position, moves: seq<Move>) returns (out: seq<Move>)
    ensures out == moves + PawnMoves(b, pos)
  {
    var pawn := PieceAt(b, pos);
    if IsEmpty(pawn) || pawn.kind != Pawn {
      return moves;
    }
    var pushed := AppendPawnPushes(b, pos, pawn.color, moves);
    out := AppendPawnCaptures(b, pos, pawn.color, pushed);
    AppendAssoc(moves, PawnPushes(b, pos, pawn.color), PawnCaptures(b, pos, pawn.color, |CaptureOffsets|));
  }

  /** The forward part of `generatePawnMoves`: the single push, then the
      double push from the start rank. */
  method AppendPawnPushes(b: BoardState, pos: Position, c: Color, moves: seq<Move>) returns (out: seq<Move>)
    ensures out == moves + PawnPushes(b, pos, c)
  {
    out := moves;
    var direction := PawnDirection(c);
    var forward := Position(pos.file, pos.rank + direction);
    if IsValid(forward) && IsEmpty(PieceAt(b, forward)) {
      var single := PawnTargetMoves(pos, forward, PromotionRank(c));
      out := out + single;
      if pos.rank == StartRank(c) {
        var doubleForward := Position(pos.file, pos.rank + 2 * direction);
        if IsValid(doubleForward) && IsEmpty(PieceAt(b, doubleForward)) {
          AppendAssoc(moves, single, [Move(pos, doubleForward, Empty)]);
          out := out + [Move(pos, doubleForward, Empty)];
        }
      }
    }
  }

  /** The capture loop of `generatePawnMoves`, over both diagonals. */
  method AppendPawnCaptures(b: BoardState, pos: Position, c: Color, moves: seq<Move>) returns (out: seq<Move>)
    ensures out == moves + PawnCaptures(b, pos, c, |CaptureOffsets|)
  {
    out := moves;
    for j := 0 to |CaptureOffsets|
      invariant out == moves + PawnCaptures(b, pos, c, j)
    {
      var next := AppendPawnCapture(b, pos, c, CaptureOffsets[j], out);
      AppendAssoc(moves, PawnCaptures(b, pos, c, j), PawnCapture(b, pos, c, CaptureOffsets[j]));
      out := next;
    }
  }

  /** One pass of the capture loop: the diagonal towards file offset `df`. */
  method AppendPawnCapture(b: BoardState, pos: Position, c: Color, df: int, moves: seq<Move>) returns (out: seq<Move>)
    ensures out == moves + PawnCapture(b, pos, c, df)
  {
    out := moves;
    var capture := Position(pos.file + df, pos.rank + PawnDirection(c));
    if IsValid(capture) {
      var target := PieceAt(b, capture);
      if !IsEmpty(target) && target.color != c {
        out := out + PawnTargetMoves(pos, capture, PromotionRank(c));
      }
    }
  }

  /** The loop shared by `generateKnightMoves` and `generateKingMoves`. */
  method AppendJumps(b: BoardState, pos: Position, c: Color, offsets: seq<Offset>, moves: seq<Move>) returns (out: seq<Move>)
    ensures out == moves + JumpTargets(b, pos, c, offsets, |offsets|)
  {
    out := moves;
    for j := 0 to |offsets|
      invariant out == moves + JumpTargets(b, pos, c, offsets, j)
    {
      var target := Shift(pos, offsets[j]);
      if IsValid(target) {
        var targetPiece := PieceAt(b, target);
        if IsEmpty(targetPiece) || targetPiece.color != c {
          AppendAssoc(moves, JumpTargets(b, pos, c, offsets, j), [Move(pos, target, Empty)]);
          out := out + [Move(pos, target, Empty)];
        }
      }
    }
  }

  /** `generateKnightMoves` and `generateKingMoves`, for `k` Knight or King. */
  method GenerateJumpMoves(b: BoardState, pos: Position, offsets: seq<Offset>, k: PieceType, moves: seq<Move>)
    returns (out: seq<Move>)
    ensures out == moves + JumpMoves(b, pos, offsets, k)
  {
    var piece := PieceAt(b, pos);
    if IsEmpty(piece) || piece.kind != k {
      return moves;
    }
    out := AppendJumps(b, pos, piece.color, offsets, moves);
  }

  /** The inner loop of `generateSlidingMoves`: one ray. */
  method AppendRay(b: BoardState, pos: Position, c: Color, d: Offset, moves: seq<Move>) returns (out: seq<Move>)
    ensures out == moves + RayMoves(b, pos, c, d, 1)
  {
    out := moves;
    var i := 1;
    while i < 8
      invariant 1 <= i <= 8
      invariant out + RayMoves(b, pos, c, d, i) == moves + RayMoves(b, pos, c, d, 1)
    {
      var target := RayStep(pos, d, i);
      if !IsValid(target) {
        break;
      }
      var targetPiece := PieceAt(b, target);
      if IsEmpty(targetPiece) {
        AppendAssoc(out, [Move(pos, target, Empty)], RayMoves(b, pos, c, d, i + 1));
        out := out + [Move(pos, target, Empty)];
      } else {
        if targetPiece.color != c {
          out := out + [Move(pos, target, Empty)];
        }
        break;
      }
      i := i + 1;
    }
  }

  /** `generateSlidingMoves` (and `generateBishopMoves`, `generateRookMoves`,
      `generateQueenMoves` with their direction tables). */
  method GenerateSlidingMoves(b: BoardState, pos: Position, dirs: seq<Offset>, moves: seq<Move>) returns (out: seq<Move>)
    ensures out == moves + SlidingMoves(b, pos, dirs)
  {
    var piece := PieceAt(b, pos);
    if IsEmpty(piece) {
      return moves;
    }
    out := moves;
    for j := 0 to |dirs|
      invariant out == moves + SlideTargets(b, pos, piece.color, dirs, j)
    {
      AppendAssoc(moves, SlideTargets(b, pos, piece.color, dirs, j), RayMoves(b, pos, piece.color, dirs[j], 1));
      out := AppendRay(b, pos, piece.color, dirs[j], out);
    }
  }

  /** `generatePseudoLegalMoves`. */
  method GeneratePseudoLegalMoves(b: BoardState, pos: Position) returns (moves: seq<Move>)
    ensures moves == PseudoLegalMoves(b, pos)
    ensures forall m :: m in moves ==> WellFormed(b, pos, m)
  {
    moves := [];
    var piece := PieceAt(b, pos);
    if IsEmpty(piece) || piece.color != b.side {
      return;
    }
    match piece.kind {
      case Pawn => moves := GeneratePawnMoves(b, pos, moves);
      case Knight => moves := GenerateJumpMoves(b, pos, KnightJumps, Knight, moves);
      case Bishop => moves := GenerateSlidingMoves(b, pos, Diagonals, moves);
      case Rook => moves := GenerateSlidingMoves(b, pos, Orthogonals, moves);
      case Queen => moves := GenerateSlidingMoves(b, pos, KingSteps, moves);
      case King => moves := GenerateJumpMoves(b, pos, KingSteps, King, moves);
      case Empty =>
    }
    assert moves == PseudoLegalMoves(b, pos);
    forall m | m in moves
      ensures WellFormed(b, pos, m)
    {
      PseudoLegalWellFormed(b, pos, m);
    }
  }
}
