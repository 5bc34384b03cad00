/** Attack and check detection (src/chess/board_moves.cpp, `isUnderAttack`
    and `isInCheck`). A square is attacked by a colour when a piece of that
    colour could capture on it, whoever is to move. */
module Attacks {
  import opened Pieces
  import opened Notation
  import opened Grids

  /** The rank step of a pawn of colour `c`: +1 for White, -1 for any other colour. */
  function PawnDirection(c: Color): int {
    if c == White then 1 else -1
  }

  /** A pawn of `c` stands one file to either side of `pos`, one rank behind it
      as seen from `c`. */
  predicate PawnAttack(b: BoardState, pos: Position, c: Color) {
    var dir := PawnDirection(c);
    Holds(b, Position(pos.file - 1, pos.rank - dir), c, Pawn)
    || Holds(b, Position(pos.file + 1, pos.rank - dir), c, Pawn)
  }

  /** The table scan of `isUnderAttack` from entry `j` on: a piece of colour
      `c` and kind `k` stands on one of the remaining `offsets` from `pos`. */
  predicate JumpAttackFrom(b: BoardState, pos: Position, c: Color, offsets: seq<Offset>, j: nat, k: PieceType)
    decreases |b.grid| + |offsets| - j
  {
    j < |offsets| && (Holds(b, Shift(pos, offsets[j]), c, k) || JumpAttackFrom(b, pos, c, offsets, j + 1, k))
  }

  predicate JumpAttack(b: BoardState, pos: Position, c: Color, offsets: seq<Offset>, k: PieceType) {
    JumpAttackFrom(b, pos, c, offsets, 0, k)
  }

  lemma {:induction false} JumpAttackFromIff(b: BoardState, pos: Position, c: Color, offsets: seq<Offset>, j: nat, k: PieceType)
    ensures JumpAttackFrom(b, pos, c, offsets, j, k) <==>
      exists j' :: j <= j' < |offsets| && Holds(b, Shift(pos, offsets[j']), c, k)
    decreases |offsets| - j
  {
    if j < |offsets| {
      JumpAttackFromIff(b, pos, c, offsets, j + 1, k);
    }
  }

  /** The squares at steps `i` up to `k` (excluded) along `d` are on the board and empty. */
  predicate Clear(b: BoardState, pos: Position, d: Offset, i: int, k: int) {
    forall j :: i <= j < k ==> IsValid(RayStep(pos, d, j)) && IsEmpty(PieceAt(b, RayStep(pos, d, j)))
  }

  /** A piece of colour `c` and of kind `k1` or `k2`. */
  predicate IsAttacker(p: Piece, c: Color, k1: PieceType, k2: PieceType) {
    p.color == c && (p.kind == k1 || p.kind == k2)
  }

  /** The ray scan of `isUnderAttack` from step `i` (at most to step 7): walk
      over empty squares; the edge of the board or step 8 ends it with no
      attacker; the first occupied square decides. */
  predicate RayAttackFrom(b: BoardState, pos: Position, c: Color, d: Offset, i: int, k1: PieceType, k2: PieceType)
    decreases |b.grid| - i
  {
    var q := RayStep(pos, d, i);
    && i < 8
    && IsValid(q)
    && if IsEmpty(PieceAt(b, q)) then RayAttackFrom(b, pos, c, d, i + 1, k1, k2) else IsAttacker(PieceAt(b, q), c, k1, k2)
  }

  /** The first piece along `d` from `pos` is of colour `c` and of kind `k1` or `k2`. */
  predicate RayAttack(b: BoardState, pos: Position, c: Color, d: Offset, k1: PieceType, k2: PieceType) {
    RayAttackFrom(b, pos, c, d, 1, k1, k2)
  }

  /** An attacker `k` steps out, reached over empty squares only. */
  predicate AttackerAt(b: BoardState, pos: Position, c: Color, d: Offset, i: int, k: int, k1: PieceType, k2: PieceType) {
    i <= k < 8 && Clear(b, pos, d, i, k) && (Holds(b, RayStep(pos, d, k), c, k1) || Holds(b, RayStep(pos, d, k), c, k2))
  }

  lemma {:induction false} RayAttackFromSound(b: BoardState, pos: Position, c: Color, d: Offset, i: int, k1: PieceType, k2: PieceType)
    requires RayAttackFrom(b, pos, c, d, i, k1, k2)
    ensures exists k :: AttackerAt(b, pos, c, d, i, k, k1, k2)
    decreases 8 - i
  {
    if IsEmpty(PieceAt(b, RayStep(pos, d, i))) {
      RayAttackFromSound(b, pos, c, d, i + 1, k1, k2);
      var k :| AttackerAt(b, pos, c, d, i + 1, k, k1, k2);
      assert AttackerAt(b, pos, c, d, i, k, k1, k2);
    } else {
      assert AttackerAt(b, pos, c, d, i, i, k1, k2);
    }
  }

  lemma {:induction false} RayAttackFromComplete(b: BoardState, pos: Position, c: Color, d: Offset, i: int, k: int, k1: PieceType, k2: PieceType)
    requires AttackerAt(b, pos, c, d, i, k, k1, k2)
    ensures RayAttackFrom(b, pos, c, d, i, k1, k2)
    decreases k - i
  {
    if i < k {
      assert IsValid(RayStep(pos, d, i)) && IsEmpty(PieceAt(b, RayStep(pos, d, i)));
      assert AttackerAt(b, pos, c, d, i + 1, k, k1, k2);
      RayAttackFromComplete(b, pos, c, d, i + 1, k, k1, k2);
    }
  }

  /** Ray attack in reference form: some step holds an attacker and every
      square before it is on the board and empty. */
  lemma RayAttackIff(b: BoardState, pos: Position, c: Color, d: Offset, k1: PieceType, k2: PieceType)
    ensures RayAttack(b, pos, c, d, k1, k2) <==> exists k :: AttackerAt(b, pos, c, d, 1, k, k1, k2)
  {
    if RayAttack(b, pos, c, d, k1, k2) {
      RayAttackFromSound(b, pos, c, d, 1, k1, k2);
    }
    if exists k :: AttackerAt(b, pos, c, d, 1, k, k1, k2) {
      var k :| AttackerAt(b, pos, c, d, 1, k, k1, k2);
      RayAttackFromComplete(b, pos, c, d, 1, k, k1, k2);
    }
  }

  /** The direction scan of `isUnderAttack` from entry `j` of `dirs` on. */
  predicate SlideAttackFrom(b: BoardState, pos: Position, c: Color, dirs: seq<Offset>, j: nat, k1: PieceType, k2: PieceType)
    decreases |b.grid| + |dirs| - j
  {
    j < |dirs| && (RayAttack(b, pos, c, dirs[j], k1, k2) || SlideAttackFrom(b, pos, c, dirs, j + 1, k1, k2))
  }

  predicate SlideAttack(b: BoardState, pos: Position, c: Color, dirs: seq<Offset>, k1: PieceType, k2: PieceType) {
    SlideAttackFrom(b, pos, c, dirs, 0, k1, k2)
  }

  lemma {:induction false} SlideAttackFromIff(b: BoardState, pos: Position, c: Color, dirs: seq<Offset>, j: nat, k1: PieceType, k2: PieceType)
    ensures SlideAttackFrom(b, pos, c, dirs, j, k1, k2) <==>
      exists j' :: j <= j' < |dirs| && RayAttack(b, pos, c, dirs[j'], k1, k2)
    decreases |dirs| - j
  {
    if j < |dirs| {
      SlideAttackFromIff(b, pos, c, dirs, j + 1, k1, k2);
    }
  }

  /** Sliding attack in reference form: along one of the directions, an
      attacker reached over empty squares only. */
  lemma SlideAttackIff(b: BoardState, pos: Position, c: Color, dirs: seq<Offset>, k1: PieceType, k2: PieceType)
    ensures SlideAttack(b, pos, c, dirs, k1, k2) <==>
      exists j, k :: 0 <= j < |dirs| && AttackerAt(b, pos, c, dirs[j], 1, k, k1, k2)
  {
    SlideAttackFromIff(b, pos, c, dirs, 0, k1, k2);
    forall j | 0 <= j < |dirs| {
      RayAttackIff(b, pos, c, dirs[j], k1, k2);
    }
  }

  /** `pos` is attacked by colour `c`: by a pawn, a knight, a bishop or queen
      along a diagonal, a rook or queen along a rank or file, or a king. */
  predicate Attacked(b: BoardState, pos: Position, c: Color) {
    || PawnAttack(b, pos, c)
    || JumpAttack(b, pos, c, KnightJumps, Knight)
    || SlideAttack(b, pos, c, Diagonals, Bishop, Queen)
    || SlideAttack(b, pos, c, Orthogonals, Rook, Queen)
    || JumpAttack(b, pos, c, KingSteps, King)
  }

  /** Attack in reference form: a pawn of `c` one rank behind `pos` on an
      adjacent file; a knight of `c` a knight's jump away; a bishop or queen of
      `c` along a diagonal, or a rook or queen of `c` along a rank or file, with
      only empty squares between; or a king of `c` on a neighbouring square. */
  lemma AttackedIff(b: BoardState, pos: Position, c: Color)
    ensures Attacked(b, pos, c) <==>
      || PawnAttack(b, pos, c)
      || (exists j :: 0 <= j < |KnightJumps| && Holds(b, Shift(pos, KnightJumps[j]), c, Knight))
      || (exists j, k :: 0 <= j < |Diagonals| && AttackerAt(b, pos, c, Diagonals[j], 1, k, Bishop, Queen))
      || (exists j, k :: 0 <= j < |Orthogonals| && AttackerAt(b, pos, c, Orthogonals[j], 1, k, Rook, Queen))
      || (exists j :: 0 <= j < |KingSteps| && Holds(b, Shift(pos, KingSteps[j]), c, King))
  {
    JumpAttackFromIff(b, pos, c, KnightJumps, 0, Knight);
    JumpAttackFromIff(b, pos, c, KingSteps, 0, King);
    SlideAttackIff(b, pos, c, Diagonals, Bishop, Queen);
    SlideAttackIff(b, pos, c, Orthogonals, Rook, Queen);
  }

  /** `isUnderAttack`: the checks in the source's order, each returning as soon
      as an attacker is found. */
  method IsUnderAttack(b: BoardState, pos: Position, c: Color) returns (attacked: bool)
    ensures attacked == Attacked(b, pos, c)
  {
    attacked := ScanPawns(b, pos, c);
    if attacked {
      return;
    }
    attacked := ScanJumps(b, pos, c, KnightJumps, Knight);
    if attacked {
      return;
    }
    attacked := ScanSlides(b, pos, c, Diagonals, Bishop, Queen);
    if attacked {
      return;
    }
    attacked := ScanSlides(b, pos, c, Orthogonals, Rook, Queen);
    if attacked {
      return;
    }
    attacked := ScanJumps(b, pos, c, KingSteps, King);
  }

  /** The pawn checks of `isUnderAttack`: the two squares from which a pawn of
      `c` would capture on `pos`. */
  method ScanPawns(b: BoardState, pos: Position, c: Color) returns (hit: bool)
    ensures hit == PawnAttack(b, pos, c)
  {
    var dir := PawnDirection(c);
    hit := Probe(b, Position(pos.file - 1, pos.rank - dir), c, Pawn);
    if !hit {
      hit := Probe(b, Position(pos.file + 1, pos.rank - dir), c, Pawn);
    }
  }

  /** One square looked at by `isUnderAttack`: on the board, and holding a
      piece of colour `c` and kind `k`. */
  method Probe(b: BoardState, q: Position, c: Color, k: PieceType) returns (hit: bool)
    ensures hit == Holds(b, q, c, k)
  {
    if !IsValid(q) {
      return false;
    }
    var attacker := PieceAt(b, q);
    hit := !IsEmpty(attacker) && attacker.color == c && attacker.kind == k;
  }

  /** The knight and king loops of `isUnderAttack`: each on-board target square
      is looked at in table order until one holds an attacker. */
  method ScanJumps(b: BoardState, pos: Position, c: Color, offsets: seq<Offset>, k: PieceType) returns (hit: bool)
    ensures hit == JumpAttack(b, pos, c, offsets, k)
  {
    for j := 0 to |offsets|
      invariant JumpAttackFrom(b, pos, c, offsets, j, k) == JumpAttack(b, pos, c, offsets, k)
    {
      var q := Shift(pos, offsets[j]);
      if IsValid(q) {
        var attacker := PieceAt(b, q);
        if !IsEmpty(attacker) && attacker.color == c && attacker.kind == k {
          return true;
        }
      }
    }
    return false;
  }

  /** The two sliding loops of `isUnderAttack`: one ray scan per direction,
      in table order, until one finds an attacker. */
  method ScanSlides(b: BoardState, pos: Position, c: Color, dirs: seq<Offset>, k1: PieceType, k2: PieceType)
    returns (hit: bool)
    ensures hit == SlideAttack(b, pos, c, dirs, k1, k2)
  {
    for j := 0 to |dirs|
      invariant SlideAttackFrom(b, pos, c, dirs, j, k1, k2) == SlideAttack(b, pos, c, dirs, k1, k2)
    {
      hit := ScanRay(b, pos, c, dirs[j], k1, k2);
      if hit {
        return;
      }
    }
    return false;
  }

  /** The inner loop of a sliding check: walk out from `pos` along `d` until
      the edge or the first piece, which attacks when it has colour `c` and
      kind `k1` or `k2`. */
  method ScanRay(b: BoardState, pos: Position, c: Color, d: Offset, k1: PieceType, k2: PieceType)
    returns (hit: bool)
    ensures hit == RayAttack(b, pos, c, d, k1, k2)
  {
    var i := 1;
    while i < 8
      invariant 1 <= i <= 8
      invariant RayAttackFrom(b, pos, c, d, i, k1, k2) == RayAttack(b, pos, c, d, k1, k2)
    {
      var q := RayStep(pos, d, i);
      if !IsValid(q) {
        return false;
      }
      var piece := PieceAt(b, q);
      if !IsEmpty(piece) {
        return IsAttacker(piece, c, k1, k2);
      }
      i := i + 1;
    }
    return false;
  }

  /** Whether colour `c` attacks a square depends only on which squares are
      occupied and on where the pieces of colour `c` stand. */
  lemma AttackedAgree(t1: BoardState, t2: BoardState, pos: Position, c: Color)
    requires forall q :: IsEmpty(PieceAt(t1, q)) == IsEmpty(PieceAt(t2, q))
    requires forall q, k :: Holds(t1, q, c, k) == Holds(t2, q, c, k)
    ensures Attacked(t1, pos, c) == Attacked(t2, pos, c)
  {
    AttackedIff(t1, pos, c);
    AttackedIff(t2, pos, c);
    forall d, k, k1, k2
      ensures AttackerAt(t1, pos, c, d, 1, k, k1, k2) == AttackerAt(t2, pos, c, d, 1, k, k1, k2)
    {
      assert Clear(t1, pos, d, 1, k) == Clear(t2, pos, d, 1, k);
    }
  }

  // ---------------------------------------------------------------------------
  // Finding the king.

  predicate IsKingOf(p: Piece, c: Color) {
    !IsEmpty(p) && p.kind == King && p.color == c
  }

  /** The first cell from `i` on that holds a king of colour `c`, as a
      square, or the sentinel when none does. */
  function KingSearch(b: BoardState, c: Color, i: nat): (k: Position)
    ensures k == NoSquare || (IsValid(k) && i <= Index(k))
    decreases |b.grid| - i
  {
    if i >= |b.grid| then NoSquare
    else if IsKingOf(b.grid[i], c) then SquareOf(i)
    else KingSearch(b, c, i + 1)
  }

  /** The first king of colour `c` in rank-major order (a1, b1, ..., h8). */
  function FirstKing(b: BoardState, c: Color): Position {
    KingSearch(b, c, 0)
  }

  lemma {:induction false} KingSearchFinds(b: BoardState, c: Color, i: nat)
    ensures IsValid(KingSearch(b, c, i)) ==> IsKingOf(PieceAt(b, KingSearch(b, c, i)), c)
    ensures IsValid(KingSearch(b, c, i)) ==>
      forall j :: i <= j < Index(KingSearch(b, c, i)) ==> !IsKingOf(b.grid[j], c)
    ensures !IsValid(KingSearch(b, c, i)) ==> forall j :: i <= j < 64 ==> !IsKingOf(b.grid[j], c)
    decreases |b.grid| - i
  {
    if i < |b.grid| && !IsKingOf(b.grid[i], c) {
      KingSearchFinds(b, c, i + 1);
    }
  }

  /** The king search reads only which cells hold a king of colour `c`. */
  lemma {:induction false} KingSearchAgree(t1: BoardState, t2: BoardState, c: Color, i: nat)
    requires forall j :: 0 <= j < 64 ==> IsKingOf(t1.grid[j], c) == IsKingOf(t2.grid[j], c)
    ensures KingSearch(t1, c, i) == KingSearch(t2, c, i)
    decreases |t1.grid| - i
  {
    if i < |t1.grid| {
      KingSearchAgree(t1, t2, c, i + 1);
    }
  }

  /** The first king is a king of colour `c` and every square scanned before it
      holds none; it is the sentinel exactly when there is no king of colour
      `c` on the board. */
  lemma FirstKingIff(b: BoardState, c: Color)
    ensures IsValid(FirstKing(b, c)) ==> IsKingOf(PieceAt(b, FirstKing(b, c)), c)
    ensures IsValid(FirstKing(b, c)) ==>
      forall q :: IsValid(q) && Index(q) < Index(FirstKing(b, c)) ==> !IsKingOf(PieceAt(b, q), c)
    ensures !IsValid(FirstKing(b, c)) <==> forall q :: IsValid(q) ==> !IsKingOf(PieceAt(b, q), c)
    ensures !IsValid(FirstKing(b, c)) ==> FirstKing(b, c) == NoSquare
  {
    KingSearchFinds(b, c, 0);
    var k := FirstKing(b, c);
    if IsValid(k) {
      assert PieceAt(b, k) == b.grid[Index(k)];
    }
  }

  /** The king scan of `isInCheck` and of the legality filter: rank by rank,
      file by file, stopping at the first king of colour `c`. */
  method FindKing(b: BoardState, c: Color) returns (kingPos: Position)
    ensures kingPos == FirstKing(b, c)
  {
    kingPos := NoSquare;
    for rank := 0 to 8
      invariant kingPos == NoSquare
      invariant KingSearch(b, c, 8 * rank) == FirstKing(b, c)
    {
      for file := 0 to 8
        invariant kingPos == NoSquare
        invariant KingSearch(b, c, 8 * rank + file) == FirstKing(b, c)
      {
        if IsKingOf(PieceAt(b, Position(file, rank)), c) {
          kingPos := Position(file, rank);
          break;
        }
      }
      if IsValid(kingPos) {
        break;
      }
    }
  }

  /** `isInCheck`: the first king of the side to move, if there is one, is
      attacked by the other colour. */
  predicate InCheck(b: BoardState) {
    var k := FirstKing(b, b.side);
    IsValid(k) && Attacked(b, k, Other(b.side))
  }

  method IsInCheck(b: BoardState) returns (check: bool)
    ensures check == InCheck(b)
  {
    var kingPos := FindKing(b, b.side);
    if !IsValid(kingPos) {
      return false;
    }
    check := IsUnderAttack(b, kingPos, Other(b.side));
  }

  /** A side without a king is never in check. */
  lemma NoKingNoCheck(b: BoardState)
    requires forall q :: IsValid(q) ==> !IsKingOf(PieceAt(b, q), b.side)
    ensures !InCheck(b)
  {
    FirstKingIff(b, b.side);
  }
}
