/** The static evaluator (src/chess/evaluate.cpp): a signed score, positive
    when White stands better, made of five independent sums over a board.
    Every term is written twice: as a function that says what it adds up, and
    as the method that adds it up the way the evaluator does, rank by rank and
    file by file. */
module Evaluation {
  import opened Pieces
  import opened Notation
  import opened Grids
  import opened Attacks
  import opened Mirrors

  function Abs(x: int): (r: nat)
    ensures r == x || r == -x
  {
    if x < 0 then -x else x
  }

  function Min(x: int, y: int): (r: int)
    ensures r <= x && r <= y && (r == x || r == y)
  {
    if x <= y then x else y
  }

  /** A White amount counts for White, any other colour's against. */
  function Signed(white: bool, x: int): int {
    if white then x else -x
  }

  /** The distance in files plus ranks between two squares. */
  function Manhattan(p: Position, q: Position): nat {
    Abs(p.file - q.file) + Abs(p.rank - q.rank)
  }

  // ---------------------------------------------------------------------------
  // Material (evaluate.cpp:23-41)

  /** The piece's value, counted against White only when the piece is Black:
      a piece of no colour counts for White. */
  function MaterialOf(p: Piece): (v: int)
    ensures Abs(v) == Value(p)
    ensures p.color == Black ==> v <= 0
    ensures p.color != Black ==> v >= 0
  {
    if IsEmpty(p) then 0 else if p.color == Black then -Value(p) else Value(p)
  }

  // ---------------------------------------------------------------------------
  // Knight placement (evaluate.cpp:43-79)

  /** d4, d5, e4 and e5, in the evaluator's order. */
  const CenterSquares: seq<Position> := [Position(3, 3), Position(3, 4), Position(4, 3), Position(4, 4)]

  /** Files plus ranks to the nearest of the four centre squares. */
  function CenterDistance(pos: Position): nat {
    Min(Abs(pos.file - 3), Abs(pos.file - 4)) + Min(Abs(pos.rank - 3), Abs(pos.rank - 4))
  }

  /** Three points on the centre, one fewer for each step away, never below zero. */
  function KnightBonus(pos: Position): (bonus: int)
    ensures 0 <= bonus <= 3
    ensures bonus == 3 <==> pos in CenterSquares
    ensures bonus == 0 <==> CenterDistance(pos) >= 3
  {
    if 3 - CenterDistance(pos) < 0 then 0 else 3 - CenterDistance(pos)
  }

  /** A knight of any colour earns its bonus, for White when White and
      against White otherwise; every other square scores nothing. */
  function KnightScore(b: BoardState, pos: Position): (s: int)
    ensures PieceAt(b, pos).kind != Knight ==> s == 0
    ensures PieceAt(b, pos).kind == Knight ==> Abs(s) == KnightBonus(pos)
    ensures PieceAt(b, pos).color == White ==> s >= 0
    ensures PieceAt(b, pos).color != White ==> s <= 0
  {
    var piece := PieceAt(b, pos);
    if piece.kind == Knight then Signed(piece.color == White, KnightBonus(pos)) else 0
  }

  // ---------------------------------------------------------------------------
  // Early queen development (evaluate.cpp:148-204)

  const WhiteQueenHome: Position := Position(3, 0)
  const BlackQueenHome: Position := Position(3, 7)

  /** A queen away from its home square costs 15 plus twice its distance from
      home: against White for a White queen, for White for any other queen. */
  function QueenScore(b: BoardState, pos: Position): (s: int)
    ensures PieceAt(b, pos).kind != Queen ==> s == 0
    ensures PieceAt(b, pos).kind == Queen && PieceAt(b, pos).color == White ==>
      (s == 0 <==> pos == WhiteQueenHome) && (pos != WhiteQueenHome ==> s == -15 - 2 * Manhattan(pos, WhiteQueenHome))
    ensures PieceAt(b, pos).kind == Queen && PieceAt(b, pos).color != White ==>
      (s == 0 <==> pos == BlackQueenHome) && (pos != BlackQueenHome ==> s == 15 + 2 * Manhattan(pos, BlackQueenHome))
    ensures PieceAt(b, pos).color == White ==> s <= 0
    ensures PieceAt(b, pos).color != White ==> s >= 0
  {
    var piece := PieceAt(b, pos);
    if piece.kind != Queen then 0
    else if piece.color == White then
      if pos != WhiteQueenHome then -15 - 2 * Manhattan(pos, WhiteQueenHome) else 0
    else
      if pos != BlackQueenHome then 15 + 2 * Manhattan(pos, BlackQueenHome) else 0
  }

  // ---------------------------------------------------------------------------
  // Piece development (evaluate.cpp:206-384)

  function KnightStarts(white: bool): seq<Position> {
    if white then [Position(1, 0), Position(6, 0)] else [Position(1, 7), Position(6, 7)]
  }

  function BishopStarts(white: bool): seq<Position> {
    if white then [Position(2, 0), Position(5, 0)] else [Position(2, 7), Position(5, 7)]
  }

  function RookStarts(white: bool): seq<Position> {
    if white then [Position(0, 0), Position(7, 0)] else [Position(0, 7), Position(7, 7)]
  }

  /** c3, f3, d3, e3 for White; c6, f6, d6, e6 for Black. */
  function KnightSquares(white: bool): seq<Position> {
    if white then [Position(2, 2), Position(5, 2), Position(3, 2), Position(4, 2)]
    else [Position(2, 5), Position(5, 5), Position(3, 5), Position(4, 5)]
  }

  /** c3, f3, d2, e2, b3, g3 for White; c6, f6, d7, e7, b6, g6 for Black. */
  function BishopSquares(white: bool): seq<Position> {
    if white then [Position(2, 2), Position(5, 2), Position(3, 1), Position(4, 1), Position(1, 2), Position(6, 2)]
    else [Position(2, 5), Position(5, 5), Position(3, 6), Position(4, 6), Position(1, 5), Position(6, 5)]
  }

  /** A knight, bishop or rook that has left its start squares, is on none of
      the good squares for its kind and is not attacked by the other colour
      costs 8 (knight, bishop) or 10 (rook): against White when White, for
      White otherwise. The other colour of a piece that is not White is White. */
  function DevelopmentScore(b: BoardState, pos: Position): (s: int)
    ensures s != 0 ==> !IsEmpty(PieceAt(b, pos)) && !Attacked(b, pos, Other(PieceAt(b, pos).color))
    ensures s != 0 ==> PieceAt(b, pos).kind in {Knight, Bishop, Rook}
    ensures s != 0 && PieceAt(b, pos).kind == Knight ==>
      var white := PieceAt(b, pos).color == White;
      pos !in KnightStarts(white) && pos !in KnightSquares(white) && s == Signed(white, -8)
    ensures s != 0 && PieceAt(b, pos).kind == Bishop ==>
      var white := PieceAt(b, pos).color == White;
      pos !in BishopStarts(white) && pos !in BishopSquares(white) && s == Signed(white, -8)
    ensures s != 0 && PieceAt(b, pos).kind == Rook ==>
      var white := PieceAt(b, pos).color == White;
      pos !in RookStarts(white) && s == Signed(white, -10)
    ensures !IsEmpty(PieceAt(b, pos)) && !Attacked(b, pos, Other(PieceAt(b, pos).color)) ==>
      var white := PieceAt(b, pos).color == White;
      && (PieceAt(b, pos).kind == Knight && pos !in KnightStarts(white) && pos !in KnightSquares(white) ==> s == Signed(white, -8))
      && (PieceAt(b, pos).kind == Bishop && pos !in BishopStarts(white) && pos !in BishopSquares(white) ==> s == Signed(white, -8))
      && (PieceAt(b, pos).kind == Rook && pos !in RookStarts(white) ==> s == Signed(white, -10))
  {
    var piece := PieceAt(b, pos);
    if IsEmpty(piece) then 0
    else DevelopmentRule(piece.kind, piece.color == White, pos, Attacked(b, pos, Other(piece.color)))
  }

  /** The development penalty of a piece of kind `k` on `pos`, given its
      colour and whether the other colour attacks it. */
  function DevelopmentRule(k: PieceType, white: bool, pos: Position, attacked: bool): int {
    if k == Knight then
      if pos !in KnightStarts(white) && pos !in KnightSquares(white) && !attacked then Signed(white, -8) else 0
    else if k == Bishop then
      if pos !in BishopStarts(white) && pos !in BishopSquares(white) && !attacked then Signed(white, -8) else 0
    else if k == Rook then
      if pos !in RookStarts(white) && !attacked then Signed(white, -10) else 0
    else 0
  }

  // ---------------------------------------------------------------------------
  // Centre control (evaluate.cpp:81-131)

  /** The centre term's two passes over the four squares. */
  datatype CenterPass = Occupancy | Control

  /** Occupancy: 20 for a pawn and 10 for any other piece, less 5 when the
      other colour attacks it, signed by the piece's colour. Control: 5 when
      White attacks the square, less 5 when Black does. */
  function CenterScore(pass: CenterPass, b: BoardState, pos: Position): (s: int)
    ensures pass == Occupancy && IsEmpty(PieceAt(b, pos)) ==> s == 0
    ensures pass == Occupancy && !IsEmpty(PieceAt(b, pos)) ==>
      var white := PieceAt(b, pos).color == White;
      var attacked := Attacked(b, pos, Other(PieceAt(b, pos).color));
      Signed(white, s) == (if PieceAt(b, pos).kind == Pawn then 20 else 10) - (if attacked then 5 else 0)
    ensures pass == Occupancy ==> -20 <= s <= 20
    ensures pass == Control ==> -5 <= s <= 5
    ensures pass == Control ==> (s > 0 <==> Attacked(b, pos, White) && !Attacked(b, pos, Black))
    ensures pass == Control ==> (s < 0 <==> Attacked(b, pos, Black) && !Attacked(b, pos, White))
    ensures pass == Control ==> (s == 5 <==> Attacked(b, pos, White) && !Attacked(b, pos, Black))
    ensures pass == Control ==> (s == -5 <==> Attacked(b, pos, Black) && !Attacked(b, pos, White))
    ensures pass == Control ==> (s == 0 <==> (Attacked(b, pos, White) <==> Attacked(b, pos, Black)))
  {
    match pass
    case Occupancy =>
      var piece := PieceAt(b, pos);
      if IsEmpty(piece) then 0
      else
        var white := piece.color == White;
        Signed(white, if piece.kind == Pawn then 20 else 10)
          + (if Attacked(b, pos, Other(piece.color)) then Signed(white, -5) else 0)
    case Control =>
      (if Attacked(b, pos, White) then 5 else 0) - (if Attacked(b, pos, Black) then 5 else 0)
  }

  /** One pass summed over the first squares of a list. */
  function PassSum(pass: CenterPass, b: BoardState, squares: seq<Position>): int {
    if |squares| == 0 then 0
    else PassSum(pass, b, squares[..|squares| - 1]) + CenterScore(pass, b, squares[|squares| - 1])
  }

  lemma {:induction false} PassSumBound(pass: CenterPass, b: BoardState, squares: seq<Position>)
    ensures pass == Occupancy ==> -20 * |squares| <= PassSum(pass, b, squares) <= 20 * |squares|
    ensures pass == Control ==> -5 * |squares| <= PassSum(pass, b, squares) <= 5 * |squares|
  {
    if |squares| > 0 {
      PassSumBound(pass, b, squares[..|squares| - 1]);
    }
  }

  /** The four centre squares written out. */
  lemma PassSumCenter(pass: CenterPass, b: BoardState)
    ensures PassSum(pass, b, CenterSquares)
         == CenterScore(pass, b, Position(3, 3)) + CenterScore(pass, b, Position(3, 4))
          + CenterScore(pass, b, Position(4, 3)) + CenterScore(pass, b, Position(4, 4))
  {
    var s := CenterSquares;
    assert s[..3] == [Position(3, 3), Position(3, 4), Position(4, 3)];
    assert s[..3][..2] == [Position(3, 3), Position(3, 4)];
    assert s[..3][..2][..1] == [Position(3, 3)];
    assert s[..3][..2][..1][..0] == [];
    assert PassSum(pass, b, [Position(3, 3)]) == CenterScore(pass, b, Position(3, 3));
    assert PassSum(pass, b, [Position(3, 3), Position(3, 4)])
        == PassSum(pass, b, [Position(3, 3)]) + CenterScore(pass, b, Position(3, 4));
    assert PassSum(pass, b, [Position(3, 3), Position(3, 4), Position(4, 3)])
        == PassSum(pass, b, [Position(3, 3), Position(3, 4)]) + CenterScore(pass, b, Position(4, 3));
  }

  function CenterControl(b: BoardState): int {
    PassSum(Occupancy, b, CenterSquares) + PassSum(Control, b, CenterSquares)
  }

  /** At most 25 points a square either way: the centre term lies within 100 of zero. */
  lemma CenterControlBound(b: BoardState)
    ensures -100 <= CenterControl(b) <= 100
  {
    PassSumBound(Occupancy, b, CenterSquares);
    PassSumBound(Control, b, CenterSquares);
  }

  // ---------------------------------------------------------------------------
  // Sums over the whole board, in rank-major order.

  /** The four terms that visit every square. */
  datatype Term = Material | KnightPlacement | EarlyQueen | Development

  function SquareScore(t: Term, b: BoardState, pos: Position): int {
    match t
    case Material => MaterialOf(PieceAt(b, pos))
    case KnightPlacement => KnightScore(b, pos)
    case EarlyQueen => QueenScore(b, pos)
    case Development => DevelopmentScore(b, pos)
  }

  /** A per-square score, as a value, for the generic sums below. */
  type SquareTerm = (BoardState, Position) -> int

  function Scores(t: Term): SquareTerm {
    (b, pos) => SquareScore(t, b, pos)
  }

  /** The squares of `rank` from `file` to the h-file. */
  function RowSum(score: SquareTerm, b: BoardState, rank: int, file: nat): int
    decreases |b.grid| - file
  {
    if file >= 8 then 0 else score(b, Position(file, rank)) + RowSum(score, b, rank, file + 1)
  }

  /** The first `n` ranks. */
  function RanksSum(score: SquareTerm, b: BoardState, n: nat): int {
    if n == 0 then 0 else RanksSum(score, b, n - 1) + RowSum(score, b, n - 1, 0)
  }

  /** The whole board; its eight ranks are counted as `|b.grid| / 8`. */
  function GridSum(score: SquareTerm, b: BoardState): int {
    RanksSum(score, b, |b.grid| / 8)
  }

  /** `evaluate`: material, centre control, knight placement, early queen
      development and piece development. */
  function Score(b: BoardState): int {
    GridSum(Scores(Material), b) + CenterControl(b) + GridSum(Scores(KnightPlacement), b)
      + GridSum(Scores(EarlyQueen), b) + GridSum(Scores(Development), b)
  }

  lemma {:induction false} RowSumZero(score: SquareTerm, b: BoardState, rank: int, file: nat)
    requires forall f :: 0 <= f < 8 ==> score(b, Position(f, rank)) == 0
    ensures RowSum(score, b, rank, file) == 0
    decreases 8 - file
  {
    if file < 8 {
      RowSumZero(score, b, rank, file + 1);
    }
  }

  lemma {:induction false} RanksSumZero(score: SquareTerm, b: BoardState, n: nat)
    requires forall p :: IsValid(p) ==> score(b, p) == 0
    requires n <= 8
    ensures RanksSum(score, b, n) == 0
  {
    if n > 0 {
      RowSumZero(score, b, n - 1, 0);
      RanksSumZero(score, b, n - 1);
    }
  }

  /** A score that is zero on every square sums to zero. */
  lemma GridSumZero(score: SquareTerm, b: BoardState)
    requires forall p :: IsValid(p) ==> score(b, p) == 0
    ensures GridSum(score, b) == 0
  {
    RanksSumZero(score, b, 8);
  }

  /** An empty board is level in material, knight placement, queen
      development and piece development. */
  lemma EmptyBoardScoresNothing(t: Term)
    ensures GridSum(Scores(t), EmptyBoard()) == 0
  {
    GridSumZero(Scores(t), EmptyBoard());
  }

  /** A score that `m` gives to every reflected square negated sums to the
      negated total, rank by rank. */
  lemma {:induction false} RowSumMirror(score: SquareTerm, b: BoardState, m: BoardState, rank: int, file: nat)
    requires forall p :: score(m, Reflect(p)) == -score(b, p)
    ensures RowSum(score, m, 7 - rank, file) == -RowSum(score, b, rank, file)
    decreases 8 - file
  {
    if file < 8 {
      assert Reflect(Position(file, rank)) == Position(file, 7 - rank);
      RowSumMirror(score, b, m, rank, file + 1);
    }
  }

  /** The first `n` ranks of `m` are the last `n` ranks of `b`, negated. */
  lemma {:induction false} RanksSumMirror(score: SquareTerm, b: BoardState, m: BoardState, n: nat)
    requires forall p :: score(m, Reflect(p)) == -score(b, p)
    requires n <= 8
    ensures RanksSum(score, m, n) == RanksSum(score, b, 8 - n) - RanksSum(score, b, 8)
  {
    if n > 0 {
      RanksSumMirror(score, b, m, n - 1);
      RowSumMirror(score, b, m, 8 - n, 0);
    }
  }

  lemma GridSumMirror(score: SquareTerm, b: BoardState, m: BoardState)
    requires forall p :: score(m, Reflect(p)) == -score(b, p)
    ensures GridSum(score, m) == -GridSum(score, b)
  {
    RanksSumMirror(score, b, m, 8);
  }

  // ---------------------------------------------------------------------------
  // Colour and rank symmetry. The square tables of the evaluator are
  // reflections of each other and its Black amounts carry the opposite sign,
  // so on a board whose pieces are all White or Black, swapping the colours
  // and reflecting the ranks negates every term.

  /** Every piece on the board is White or Black. */
  ghost predicate TwoColored(b: BoardState) {
    forall q :: !IsEmpty(PieceAt(b, q)) ==> PieceAt(b, q).color != NoColor
  }

  /** Black's square tables are White's reflected: a square is on one
      colour's table exactly when its reflection is on the other's. */
  lemma StartTablesMirror(pos: Position, white: bool)
    ensures (Reflect(pos) in KnightStarts(!white)) == (pos in KnightStarts(white))
    ensures (Reflect(pos) in BishopStarts(!white)) == (pos in BishopStarts(white))
    ensures (Reflect(pos) in RookStarts(!white)) == (pos in RookStarts(white))
  {
  }

  lemma GoodTablesMirror(pos: Position, white: bool)
    ensures (Reflect(pos) in KnightSquares(!white)) == (pos in KnightSquares(white))
    ensures (Reflect(pos) in BishopSquares(!white)) == (pos in BishopSquares(white))
  {
  }

  lemma MaterialMirror(p: Piece)
    requires !IsEmpty(p) ==> p.color != NoColor
    ensures MaterialOf(SwapPiece(p)) == -MaterialOf(p)
  {
  }

  lemma KnightMirror(b: BoardState, m: BoardState, pos: Position)
    requires IsMirror(b, m) && TwoColored(b)
    ensures KnightScore(m, Reflect(pos)) == -KnightScore(b, pos)
  {
    assert PieceAt(m, Reflect(pos)) == SwapPiece(PieceAt(b, pos));
    assert CenterDistance(Reflect(pos)) == CenterDistance(pos);
  }

  lemma QueenMirror(b: BoardState, m: BoardState, pos: Position)
    requires IsMirror(b, m) && TwoColored(b)
    ensures QueenScore(m, Reflect(pos)) == -QueenScore(b, pos)
  {
    assert PieceAt(m, Reflect(pos)) == SwapPiece(PieceAt(b, pos));
    assert Manhattan(Reflect(pos), BlackQueenHome) == Manhattan(pos, WhiteQueenHome);
    assert Manhattan(Reflect(pos), WhiteQueenHome) == Manhattan(pos, BlackQueenHome);
    assert Reflect(pos) == BlackQueenHome <==> pos == WhiteQueenHome;
    assert Reflect(pos) == WhiteQueenHome <==> pos == BlackQueenHome;
  }

  /** The piece on a reflected square is attacked by the swapped colour
      exactly when the original piece is attacked. */
  lemma OpponentAttackMirror(b: BoardState, m: BoardState, pos: Position)
    requires IsMirror(b, m) && TwoColored(b) && !IsEmpty(PieceAt(b, pos))
    ensures PieceAt(m, Reflect(pos)) == SwapPiece(PieceAt(b, pos))
    ensures Attacked(m, Reflect(pos), Other(PieceAt(m, Reflect(pos)).color))
         == Attacked(b, pos, Other(PieceAt(b, pos).color))
  {
    var c := PieceAt(b, pos).color;
    assert PieceAt(m, Reflect(pos)) == SwapPiece(PieceAt(b, pos));
    assert Other(SwapColor(c)) == SwapColor(Other(c));
    AttackedMirror(b, m, pos, Other(c));
  }

  lemma DevelopmentMirror(b: BoardState, m: BoardState, pos: Position)
    requires IsMirror(b, m) && TwoColored(b)
    ensures DevelopmentScore(m, Reflect(pos)) == -DevelopmentScore(b, pos)
  {
    var piece := PieceAt(b, pos);
    if !IsEmpty(piece) {
      OpponentAttackMirror(b, m, pos);
      StartTablesMirror(pos, piece.color == White);
      GoodTablesMirror(pos, piece.color == White);
      assert (SwapColor(piece.color) == White) == !(piece.color == White);
    } else {
      assert PieceAt(m, Reflect(pos)) == SwapPiece(piece);
    }
  }

  lemma SquareScoreMirror(t: Term, b: BoardState, m: BoardState, pos: Position)
    requires IsMirror(b, m) && TwoColored(b)
    ensures SquareScore(t, m, Reflect(pos)) == -SquareScore(t, b, pos)
  {
    match t
    case Material =>
      assert PieceAt(m, Reflect(pos)) == SwapPiece(PieceAt(b, pos));
      MaterialMirror(PieceAt(b, pos));
    case KnightPlacement => KnightMirror(b, m, pos);
    case EarlyQueen => QueenMirror(b, m, pos);
    case Development => DevelopmentMirror(b, m, pos);
  }

  lemma TermMirror(t: Term, b: BoardState, m: BoardState)
    requires IsMirror(b, m) && TwoColored(b)
    ensures GridSum(Scores(t), m) == -GridSum(Scores(t), b)
  {
    forall p
      ensures Scores(t)(m, Reflect(p)) == -Scores(t)(b, p)
    {
      SquareScoreMirror(t, b, m, p);
    }
    GridSumMirror(Scores(t), b, m);
  }

  lemma OccupancyMirror(b: BoardState, m: BoardState, pos: Position)
    requires IsMirror(b, m) && TwoColored(b)
    ensures CenterScore(Occupancy, m, Reflect(pos)) == -CenterScore(Occupancy, b, pos)
  {
    assert PieceAt(m, Reflect(pos)) == SwapPiece(PieceAt(b, pos));
    if !IsEmpty(PieceAt(b, pos)) {
      OpponentAttackMirror(b, m, pos);
    }
  }

  lemma ControlMirror(b: BoardState, m: BoardState, pos: Position)
    requires IsMirror(b, m)
    ensures CenterScore(Control, m, Reflect(pos)) == -CenterScore(Control, b, pos)
  {
    AttackedMirror(b, m, pos, White);
    AttackedMirror(b, m, pos, Black);
  }

  lemma PassMirror(pass: CenterPass, b: BoardState, m: BoardState, pos: Position)
    requires IsMirror(b, m) && TwoColored(b)
    ensures CenterScore(pass, m, Reflect(pos)) == -CenterScore(pass, b, pos)
  {
    if pass == Occupancy {
      OccupancyMirror(b, m, pos);
    } else {
      ControlMirror(b, m, pos);
    }
  }

  /** Reflection swaps d4 with d5 and e4 with e5. */
  lemma PassSumMirror(pass: CenterPass, b: BoardState, m: BoardState)
    requires IsMirror(b, m) && TwoColored(b)
    ensures PassSum(pass, m, CenterSquares) == -PassSum(pass, b, CenterSquares)
  {
    PassSumCenter(pass, b);
    PassSumCenter(pass, m);
    PassMirror(pass, b, m, Position(3, 3));
    PassMirror(pass, b, m, Position(3, 4));
    PassMirror(pass, b, m, Position(4, 3));
    PassMirror(pass, b, m, Position(4, 4));
  }

  /** Swapping colours and reflecting ranks negates the evaluation. */
  lemma ScoreMirror(b: BoardState, m: BoardState)
    requires IsMirror(b, m) && TwoColored(b)
    ensures Score(m) == -Score(b)
  {
    TermMirror(Material, b, m);
    TermMirror(KnightPlacement, b, m);
    TermMirror(EarlyQueen, b, m);
    TermMirror(Development, b, m);
    PassSumMirror(Occupancy, b, m);
    PassSumMirror(Control, b, m);
  }

  lemma MirrorNegatesScore(b: BoardState)
    requires TwoColored(b)
    ensures Score(Mirror(b)) == -Score(b)
  {
    MirrorIsMirror(b);
    ScoreMirror(b, Mirror(b));
  }

  // ---------------------------------------------------------------------------
  // The starting position

  /** The kind the starting arrangement puts on a back-rank file. */
  function BackRank(file: int): PieceType {
    if file == 0 || file == 7 then Rook
    else if file == 1 || file == 6 then Knight
    else if file == 2 || file == 5 then Bishop
    else if file == 3 then Queen
    else King
  }

  /** The piece the standard starting arrangement puts on a square. */
  function StartPiece(pos: Position): Piece {
    if !IsValid(pos) then NoPiece
    else if pos.rank == 0 then Piece(BackRank(pos.file), White)
    else if pos.rank == 1 then Piece(Pawn, White)
    else if pos.rank == 6 then Piece(Pawn, Black)
    else if pos.rank == 7 then Piece(BackRank(pos.file), Black)
    else NoPiece
  }

  /** The starting position, White to move with every castling right. */
  function StartBoard(): BoardState {
    EmptyBoard().(grid := seq(64, i requires 0 <= i < 64 => StartPiece(SquareOf(i))),
                  whiteKingside := true, whiteQueenside := true,
                  blackKingside := true, blackQueenside := true)
  }

  lemma StartPieceAt(q: Position)
    ensures PieceAt(StartBoard(), q) == StartPiece(q)
  {
    if IsValid(q) {
      SquareOfIndex(q);
    }
  }

  lemma StartPieceMirror(q: Position)
    ensures StartPiece(Reflect(q)) == SwapPiece(StartPiece(q))
    ensures !IsEmpty(StartPiece(q)) ==> StartPiece(q).color != NoColor
  {
  }

  lemma StartIsOwnMirror()
    ensures IsMirror(StartBoard(), StartBoard()) && TwoColored(StartBoard())
  {
    forall q
      ensures PieceAt(StartBoard(), Reflect(q)) == SwapPiece(PieceAt(StartBoard(), q))
      ensures !IsEmpty(PieceAt(StartBoard(), q)) ==> PieceAt(StartBoard(), q).color != NoColor
    {
      StartPieceAt(q);
      StartPieceAt(Reflect(q));
      StartPieceMirror(q);
    }
  }

  /** The starting position is level. */
  lemma StartScoresZero()
    ensures Score(StartBoard()) == 0
  {
    StartIsOwnMirror();
    ScoreMirror(StartBoard(), StartBoard());
  }

  // ---------------------------------------------------------------------------
  // The evaluator's loops

  /** The scan for a good development square: stops at the first match. */
  method OnSquareList(pos: Position, squares: seq<Position>) returns (found: bool)
    ensures found <==> pos in squares
  {
    found := false;
    var i := 0;
    while i < |squares|
      invariant 0 <= i <= |squares|
      invariant !found && pos !in squares[..i]
    {
      if pos == squares[i] {
        found := true;
        break;
      }
      i := i + 1;
    }
  }

  /** One square of `evaluatePieceDevelopment`: the attack test comes first,
      for every non-empty square, as in the evaluator. */
  method DevelopmentAt(b: BoardState, pos: Position) returns (s: int)
    ensures s == DevelopmentScore(b, pos)
  {
    var piece := PieceAt(b, pos);
    if IsEmpty(piece) {
      return 0;
    }
    var underAttack := IsUnderAttack(b, pos, if piece.color == White then Black else White);
    s := DevelopmentOf(piece.kind, piece.color == White, pos, underAttack);
  }

  /** The branches of `evaluatePieceDevelopment` once the attack test is done. */
  method DevelopmentOf(k: PieceType, white: bool, pos: Position, underAttack: bool) returns (s: int)
    ensures s == DevelopmentRule(k, white, pos, underAttack)
  {
    s := 0;
    if k == Knight {
      if pos != KnightStarts(white)[0] && pos != KnightStarts(white)[1] {
        var onGoodSquare := OnSquareList(pos, KnightSquares(white));
        if !onGoodSquare && !underAttack {
          s := if white then -8 else 8;
        }
      }
    } else if k == Bishop {
      if pos != BishopStarts(white)[0] && pos != BishopStarts(white)[1] {
        var onGoodSquare := OnSquareList(pos, BishopSquares(white));
        if !onGoodSquare && !underAttack {
          s := if white then -8 else 8;
        }
      }
    } else if k == Rook {
      if pos != RookStarts(white)[0] && pos != RookStarts(white)[1] && !underAttack {
        s := if white then -10 else 10;
      }
    }
  }

  method ScoreAt(t: Term, b: BoardState, pos: Position) returns (s: int)
    ensures s == SquareScore(t, b, pos)
  {
    match t
    case Material => s := MaterialOf(PieceAt(b, pos));
    case KnightPlacement => s := KnightScore(b, pos);
    case EarlyQueen => s := QueenScore(b, pos);
    case Development => s := DevelopmentAt(b, pos);
  }

  /** One rank of a whole-board scan, file by file. */
  method SumRow(t: Term, b: BoardState, rank: int) returns (score: int)
    ensures score == RowSum(Scores(t), b, rank, 0)
  {
    score := 0;
    var file := 0;
    while file < 8
      invariant 0 <= file <= 8
      invariant score + RowSum(Scores(t), b, rank, file) == RowSum(Scores(t), b, rank, 0)
    {
      var s := ScoreAt(t, b, Position(file, rank));
      score := score + s;
      file := file + 1;
    }
  }

  /** The rank-by-rank scan shared by the four whole-board terms. */
  method SumGrid(t: Term, b: BoardState) returns (score: int)
    ensures score == GridSum(Scores(t), b)
  {
    score := 0;
    var rank := 0;
    while rank < 8
      invariant 0 <= rank <= 8
      invariant score == RanksSum(Scores(t), b, rank)
    {
      var row := SumRow(t, b, rank);
      score := score + row;
      rank := rank + 1;
    }
  }

  /** `evaluateCenterControl`: the occupancy pass, then the control pass. */
  method EvaluateCenterControl(b: BoardState) returns (score: int)
    ensures score == CenterControl(b)
  {
    score := 0;
    for i := 0 to |CenterSquares|
      invariant score == PassSum(Occupancy, b, CenterSquares[..i])
    {
      var s := OccupancyAt(b, CenterSquares[i]);
      assert CenterSquares[..i + 1][..i] == CenterSquares[..i];
      score := score + s;
    }
    assert CenterSquares[..4] == CenterSquares;
    var occupancy := score;
    for i := 0 to |CenterSquares|
      invariant score == occupancy + PassSum(Control, b, CenterSquares[..i])
    {
      var s := ControlAt(b, CenterSquares[i]);
      assert CenterSquares[..i + 1][..i] == CenterSquares[..i];
      score := score + s;
    }
  }

  /** One square of the occupancy pass. */
  method OccupancyAt(b: BoardState, pos: Position) returns (s: int)
    ensures s == CenterScore(Occupancy, b, pos)
  {
    var piece := PieceAt(b, pos);
    s := 0;
    if !IsEmpty(piece) {
      var bonus := if piece.kind == Pawn then 20 else 10;
      s := if piece.color == White then bonus else -bonus;
      var attacked := IsUnderAttack(b, pos, if piece.color == White then Black else White);
      if attacked {
        s := if piece.color == White then s - 5 else s + 5;
      }
    }
  }

  /** One square of the control pass. */
  method ControlAt(b: BoardState, pos: Position) returns (s: int)
    ensures s == CenterScore(Control, b, pos)
  {
    var white := IsUnderAttack(b, pos, White);
    s := if white then 5 else 0;
    var black := IsUnderAttack(b, pos, Black);
    if black {
      s := s - 5;
    }
  }

  /** `evaluate`. */
  method Evaluate(b: BoardState) returns (score: int)
    ensures score == Score(b)
  {
    score := SumGrid(Material, b);
    var center := EvaluateCenterControl(b);
    score := score + center;
    var knights := SumGrid(KnightPlacement, b);
    score := score + knights;
    var queens := SumGrid(EarlyQueen, b);
    score := score + queens;
    var development := SumGrid(Development, b);
    score := score + development;
  }
}
