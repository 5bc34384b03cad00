/** Colour and rank mirroring of a board: every piece changes colour and
    moves from rank `r` to rank `7 - r`. Attacks are mirrored with it, which
    is what makes the evaluator's terms antisymmetric (src/chess/evaluate.cpp
    lists its White and Black squares as reflections of each other). */
module Mirrors {
  import opened Pieces
  import opened Notation
  import opened Grids
  import opened Attacks

  /** White and Black trade places; no colour stays no colour. */
  function SwapColor(c: Color): (r: Color)
    ensures (r == NoColor) == (c == NoColor)
    ensures c == White <==> r == Black
    ensures c == Black <==> r == White
  {
    match c
    case White => Black
    case Black => White
    case NoColor => NoColor
  }

  function SwapPiece(p: Piece): (r: Piece)
    ensures r.kind == p.kind && r.color == SwapColor(p.color)
  {
    p.(color := SwapColor(p.color))
  }

  /** The square on the same file and the opposite rank. */
  function Reflect(p: Position): (q: Position)
    ensures q.file == p.file && q.rank == 7 - p.rank
    ensures IsValid(q) == IsValid(p)
  {
    Position(p.file, 7 - p.rank)
  }

  /** The direction that `Reflect` turns `d` into. */
  function Flip(d: Offset): Offset {
    (d.0, -d.1)
  }

  /** The cell of the reflected square. */
  function MirrorCell(i: nat): (j: nat)
    requires i < 64
    ensures j < 64 && SquareOf(j) == Reflect(SquareOf(i))
  {
    8 * (7 - i / 8) + i % 8
  }

  /** The board with every piece reflected and recoloured; the side to move,
      castling rights, en-passant target and clocks are kept, since the
      evaluator reads none of them. */
  function Mirror(b: BoardState): (m: BoardState)
    ensures m == b.(grid := m.grid)
  {
    b.(grid := seq(64, i requires 0 <= i < 64 => SwapPiece(b.grid[MirrorCell(i)])))
  }

  lemma MirrorPieceAt(b: BoardState, q: Position)
    ensures PieceAt(Mirror(b), Reflect(q)) == SwapPiece(PieceAt(b, q))
  {
    if IsValid(q) {
      var i := Index(Reflect(q));
      SquareOfIndex(q);
      SquareOfIndex(Reflect(q));
      assert SquareOf(MirrorCell(i)) == q;
      assert MirrorCell(i) == Index(q);
    }
  }

  /** `m` is `b` mirrored, as far as the pieces on the squares go. */
  ghost predicate IsMirror(b: BoardState, m: BoardState) {
    forall q :: PieceAt(m, Reflect(q)) == SwapPiece(PieceAt(b, q))
  }

  lemma MirrorIsMirror(b: BoardState)
    ensures IsMirror(b, Mirror(b))
  {
    forall q {
      MirrorPieceAt(b, q);
    }
  }

  lemma MirrorHolds(b: BoardState, m: BoardState, q: Position, c: Color, k: PieceType)
    requires IsMirror(b, m)
    ensures Holds(m, Reflect(q), SwapColor(c), k) == Holds(b, q, c, k)
  {
    assert PieceAt(m, Reflect(q)) == SwapPiece(PieceAt(b, q));
  }

  /** Each offset table is closed under `Flip`. */
  ghost predicate FlipClosed(ds: seq<Offset>) {
    forall d :: d in ds ==> Flip(d) in ds
  }

  lemma TablesFlipClosed()
    ensures FlipClosed(KnightJumps) && FlipClosed(KingSteps)
    ensures FlipClosed(Diagonals) && FlipClosed(Orthogonals)
  {
  }

  lemma PawnAttackMirror(b: BoardState, m: BoardState, pos: Position, c: Color)
    requires IsMirror(b, m) && c != NoColor
    ensures PawnAttack(m, Reflect(pos), SwapColor(c)) == PawnAttack(b, pos, c)
  {
    var dir := PawnDirection(c);
    assert PawnDirection(SwapColor(c)) == -dir;
    MirrorHolds(b, m, Position(pos.file - 1, pos.rank - dir), c, Pawn);
    MirrorHolds(b, m, Position(pos.file + 1, pos.rank - dir), c, Pawn);
  }

  lemma MirrorSymmetric(b: BoardState, m: BoardState)
    requires IsMirror(b, m)
    ensures IsMirror(m, b)
  {
    forall q
      ensures PieceAt(b, Reflect(q)) == SwapPiece(PieceAt(m, q))
    {
      assert Reflect(Reflect(q)) == q;
      assert PieceAt(m, Reflect(Reflect(q))) == SwapPiece(PieceAt(b, Reflect(q)));
    }
  }

  /** A jumping piece found by table entry `j` on `b` is found on `m` by the
      entry that is its flip. */
  lemma JumpHitMirror(b: BoardState, m: BoardState, pos: Position, c: Color, offsets: seq<Offset>, k: PieceType, j: nat)
    requires IsMirror(b, m) && FlipClosed(offsets)
    requires j < |offsets| && Holds(b, Shift(pos, offsets[j]), c, k)
    ensures JumpAttack(m, Reflect(pos), SwapColor(c), offsets, k)
  {
    assert offsets[j] in offsets;
    var j' :| 0 <= j' < |offsets| && offsets[j'] == Flip(offsets[j]);
    assert Shift(Reflect(pos), offsets[j']) == Reflect(Shift(pos, offsets[j]));
    MirrorHolds(b, m, Shift(pos, offsets[j]), c, k);
    JumpAttackFromIff(m, Reflect(pos), SwapColor(c), offsets, 0, k);
  }

  lemma JumpAttackMirrorOneWay(b: BoardState, m: BoardState, pos: Position, c: Color, offsets: seq<Offset>, k: PieceType)
    requires IsMirror(b, m) && FlipClosed(offsets)
    ensures JumpAttack(b, pos, c, offsets, k) ==> JumpAttack(m, Reflect(pos), SwapColor(c), offsets, k)
  {
    if JumpAttack(b, pos, c, offsets, k) {
      JumpAttackFromIff(b, pos, c, offsets, 0, k);
      var j :| 0 <= j < |offsets| && Holds(b, Shift(pos, offsets[j]), c, k);
      JumpHitMirror(b, m, pos, c, offsets, k, j);
    }
  }

  lemma JumpAttackMirror(b: BoardState, m: BoardState, pos: Position, c: Color, offsets: seq<Offset>, k: PieceType)
    requires IsMirror(b, m) && FlipClosed(offsets)
    ensures JumpAttack(m, Reflect(pos), SwapColor(c), offsets, k) == JumpAttack(b, pos, c, offsets, k)
  {
    JumpAttackMirrorOneWay(b, m, pos, c, offsets, k);
    MirrorSymmetric(b, m);
    JumpAttackMirrorOneWay(m, b, Reflect(pos), SwapColor(c), offsets, k);
    assert Reflect(Reflect(pos)) == pos && SwapColor(SwapColor(c)) == c;
  }

  lemma RayStepReflect(pos: Position, d: Offset, i: int)
    ensures RayStep(Reflect(pos), Flip(d), i) == Reflect(RayStep(pos, d, i))
  {
    assert i * -d.1 == -(i * d.1);
  }

  /** A recoloured piece attacks for the swapped colour. */
  lemma AttackerMirror(p: Piece, c: Color, k1: PieceType, k2: PieceType)
    ensures IsAttacker(SwapPiece(p), SwapColor(c), k1, k2) == IsAttacker(p, c, k1, k2)
  {
    match c
    case White =>
    case Black =>
    case NoColor =>
  }

  /** `RayAttackFrom` at step `i` in terms of the square there and of the rest of the ray. */
  lemma RayAttackFromUnfold(b: BoardState, pos: Position, c: Color, d: Offset, i: int, k1: PieceType, k2: PieceType, q: Position, rest: bool)
    requires q == RayStep(pos, d, i) && rest == RayAttackFrom(b, pos, c, d, i + 1, k1, k2)
    ensures RayAttackFrom(b, pos, c, d, i, k1, k2)
      == (i < 8 && IsValid(q) && if IsEmpty(PieceAt(b, q)) then rest else IsAttacker(PieceAt(b, q), c, k1, k2))
  {
  }

  /** The decision a ray takes at one square is the same for a piece and
      for its recoloured copy, given that the rest of the ray agrees. */
  lemma RayDecisionMirror(pb: Piece, pm: Piece, c: Color, onBoard: bool, rb: bool, rm: bool, k1: PieceType, k2: PieceType)
    requires pm == SwapPiece(pb) && rb == rm
    ensures (onBoard && if IsEmpty(pb) then rb else IsAttacker(pb, c, k1, k2))
         == (onBoard && if IsEmpty(pm) then rm else IsAttacker(pm, SwapColor(c), k1, k2))
  {
    assert IsEmpty(pm) == IsEmpty(pb);
    AttackerMirror(pb, c, k1, k2);
  }

  /** One step of the ray: the mirrored square holds the mirrored piece, and
      the rest of the ray already agrees. */
  lemma RayAttackStepMirror(b: BoardState, m: BoardState, pos: Position, c: Color, d: Offset, i: int, k1: PieceType, k2: PieceType)
    requires PieceAt(m, Reflect(RayStep(pos, d, i))) == SwapPiece(PieceAt(b, RayStep(pos, d, i)))
    requires RayAttackFrom(m, Reflect(pos), SwapColor(c), Flip(d), i + 1, k1, k2) == RayAttackFrom(b, pos, c, d, i + 1, k1, k2)
    ensures RayAttackFrom(m, Reflect(pos), SwapColor(c), Flip(d), i, k1, k2) == RayAttackFrom(b, pos, c, d, i, k1, k2)
  {
    var q := RayStep(pos, d, i);
    var q' := RayStep(Reflect(pos), Flip(d), i);
    RayStepReflect(pos, d, i);
    RayAttackFromUnfold(b, pos, c, d, i, k1, k2, q, RayAttackFrom(b, pos, c, d, i + 1, k1, k2));
    RayAttackFromUnfold(m, Reflect(pos), SwapColor(c), Flip(d), i, k1, k2, q', RayAttackFrom(m, Reflect(pos), SwapColor(c), Flip(d), i + 1, k1, k2));
    RayDecisionMirror(PieceAt(b, q), PieceAt(m, q'), c, i < 8 && IsValid(q), RayAttackFrom(b, pos, c, d, i + 1, k1, k2), RayAttackFrom(m, Reflect(pos), SwapColor(c), Flip(d), i + 1, k1, k2), k1, k2);
  }

  lemma {:induction false} RayAttackFromMirror(b: BoardState, m: BoardState, pos: Position, c: Color, d: Offset, i: int, k1: PieceType, k2: PieceType)
    requires IsMirror(b, m)
    ensures RayAttackFrom(m, Reflect(pos), SwapColor(c), Flip(d), i, k1, k2) == RayAttackFrom(b, pos, c, d, i, k1, k2)
    decreases 8 - i
  {
    if i < 8 {
      RayAttackFromMirror(b, m, pos, c, d, i + 1, k1, k2);
      RayAttackStepMirror(b, m, pos, c, d, i, k1, k2);
    }
  }

  /** An attacker found along entry `j` of `dirs` on `b` is found on `m`
      along the entry that is its flip. */
  lemma RayHitMirror(b: BoardState, m: BoardState, pos: Position, c: Color, dirs: seq<Offset>, k1: PieceType, k2: PieceType, j: nat)
    requires IsMirror(b, m) && FlipClosed(dirs)
    requires j < |dirs| && RayAttack(b, pos, c, dirs[j], k1, k2)
    ensures SlideAttack(m, Reflect(pos), SwapColor(c), dirs, k1, k2)
  {
    assert dirs[j] in dirs;
    var j' :| 0 <= j' < |dirs| && dirs[j'] == Flip(dirs[j]);
    RayAttackFromMirror(b, m, pos, c, dirs[j], 1, k1, k2);
    SlideAttackFromIff(m, Reflect(pos), SwapColor(c), dirs, 0, k1, k2);
  }

  lemma SlideAttackMirrorOneWay(b: BoardState, m: BoardState, pos: Position, c: Color, dirs: seq<Offset>, k1: PieceType, k2: PieceType)
    requires IsMirror(b, m) && FlipClosed(dirs)
    ensures SlideAttack(b, pos, c, dirs, k1, k2) ==> SlideAttack(m, Reflect(pos), SwapColor(c), dirs, k1, k2)
  {
    if SlideAttack(b, pos, c, dirs, k1, k2) {
      SlideAttackFromIff(b, pos, c, dirs, 0, k1, k2);
      var j :| 0 <= j < |dirs| && RayAttack(b, pos, c, dirs[j], k1, k2);
      RayHitMirror(b, m, pos, c, dirs, k1, k2, j);
    }
  }

  lemma SlideAttackMirror(b: BoardState, m: BoardState, pos: Position, c: Color, dirs: seq<Offset>, k1: PieceType, k2: PieceType)
    requires IsMirror(b, m) && FlipClosed(dirs)
    ensures SlideAttack(m, Reflect(pos), SwapColor(c), dirs, k1, k2) == SlideAttack(b, pos, c, dirs, k1, k2)
  {
    SlideAttackMirrorOneWay(b, m, pos, c, dirs, k1, k2);
    MirrorSymmetric(b, m);
    SlideAttackMirrorOneWay(m, b, Reflect(pos), SwapColor(c), dirs, k1, k2);
    assert Reflect(Reflect(pos)) == pos && SwapColor(SwapColor(c)) == c;
  }

  /** A square is attacked by White (Black) exactly when its reflection on
      the mirrored board is attacked by Black (White). */
  lemma AttackedMirror(b: BoardState, m: BoardState, pos: Position, c: Color)
    requires IsMirror(b, m) && c != NoColor
    ensures Attacked(m, Reflect(pos), SwapColor(c)) == Attacked(b, pos, c)
  {
    TablesFlipClosed();
    PawnAttackMirror(b, m, pos, c);
    JumpAttackMirror(b, m, pos, c, KnightJumps, Knight);
    SlideAttackMirror(b, m, pos, c, Diagonals, Bishop, Queen);
    SlideAttackMirror(b, m, pos, c, Orthogonals, Rook, Queen);
    JumpAttackMirror(b, m, pos, c, KingSteps, King);
  }
}
