/** Squares and moves, and their algebraic text ("e4", "e7e8q")
    (include/chess/board.h, src/chess/board.cpp). Both are immutable values;
    `==` on them is Dafny's structural equality, which compares every field,
    and `!=` is its negation, as the C++ operators do. */
module Notation {
  import opened Pieces

  /** A (file, rank) coordinate; file 0 is 'a' and rank 0 is '1'. Any pair of
      integers is representable, including off-board ones. */
  datatype Position = Position(file: int, rank: int)

  /** The default-constructed position `Position()`: a1, which is on the board. */
  const Origin: Position := Position(0, 0)

  /** The sentinel returned for text of the wrong length, and used for "no king found". */
  const NoSquare: Position := Position(-1, -1)

  predicate IsValid(p: Position) {
    0 <= p.file < 8 && 0 <= p.rank < 8
  }

  lemma DefaultPositions()
    ensures IsValid(Origin) && !IsValid(NoSquare)
  {
  }

  predicate IsFileChar(c: char) {
    'a' <= c <= 'h'
  }

  predicate IsRankChar(c: char) {
    '1' <= c <= '8'
  }

  /** `Position::toAlgebraic`: two characters for an on-board square, "" otherwise. */
  function ToAlgebraic(p: Position): (s: string)
    ensures IsValid(p) ==> |s| == 2 && IsFileChar(s[0]) && IsRankChar(s[1])
    ensures !IsValid(p) ==> s == ""
  {
    if !IsValid(p) then ""
    else [('a' as int + p.file) as char, ('1' as int + p.rank) as char]
  }

  /** `Position::fromAlgebraic`: text that is not exactly two characters gives
      the sentinel; otherwise the character offsets from 'a' and '1', with no
      range check, so the result is on the board exactly for "a1".."h8". */
  function FromAlgebraic(s: string): (p: Position)
    ensures |s| != 2 ==> p == NoSquare
    ensures |s| == 2 ==> (IsValid(p) <==> IsFileChar(s[0]) && IsRankChar(s[1]))
  {
    if |s| != 2 then NoSquare
    else Position(s[0] as int - 'a' as int, s[1] as int - '1' as int)
  }

  lemma SquareRoundTrip(p: Position)
    requires IsValid(p)
    ensures FromAlgebraic(ToAlgebraic(p)) == p
  {
  }

  lemma SquareTextRoundTrip(s: string)
    requires |s| == 2 && IsFileChar(s[0]) && IsRankChar(s[1])
    ensures ToAlgebraic(FromAlgebraic(s)) == s
  {
  }

  /** A move; `promotion` is Empty unless the move promotes a pawn. */
  datatype Move = Move(from: Position, to: Position, promotion: PieceType)

  /** The default-constructed move `Move()`: a1 to a1, no promotion. */
  const NullMove: Move := Move(Origin, Origin, Empty)

  /** The promotion suffix letter; a promotion kind other than Q, R, B, N
      (Pawn or King) is written as a space. */
  function PromotionChar(k: PieceType): char
    requires k != Empty
  {
    match k
    case Queen => 'q'
    case Rook => 'r'
    case Bishop => 'b'
    case Knight => 'n'
    case _ => ' '
  }

  /** The promotion read from a fifth character; any other character means none. */
  function PromotionOfChar(c: char): (k: PieceType)
    ensures k != Empty <==> c in "qrbn"
    ensures k != Empty ==> PromotionChar(k) == c
  {
    match c
    case 'q' => Queen
    case 'r' => Rook
    case 'b' => Bishop
    case 'n' => Knight
    case _ => Empty
  }

  predicate IsPromotionChoice(k: PieceType) {
    k in {Empty, Queen, Rook, Bishop, Knight}
  }

  /** `Move::toAlgebraic`: both squares' text, then one promotion character when
      the promotion is not Empty. */
  function MoveToAlgebraic(m: Move): (s: string)
    ensures |s| == |ToAlgebraic(m.from)| + |ToAlgebraic(m.to)| + (if m.promotion == Empty then 0 else 1)
    ensures IsValid(m.from) && IsValid(m.to) ==> s[..2] == ToAlgebraic(m.from) && s[2..4] == ToAlgebraic(m.to)
  {
    var squares := ToAlgebraic(m.from) + ToAlgebraic(m.to);
    if m.promotion != Empty then squares + [PromotionChar(m.promotion)] else squares
  }

  /** `Move::fromAlgebraic`: fewer than four characters give the default move;
      otherwise the two squares are read from characters 0-1 and 2-3, and a fifth
      character, if present, is read as the promotion; later characters are ignored. */
  function MoveFromAlgebraic(s: string): (m: Move)
    ensures |s| < 4 ==> m == NullMove
    ensures |s| >= 4 ==> m.from == FromAlgebraic(s[..2]) && m.to == FromAlgebraic(s[2..4])
    ensures |s| >= 4 ==> (m.promotion != Empty <==> |s| > 4 && s[4] in "qrbn")
  {
    if |s| < 4 then NullMove
    else
      var from := FromAlgebraic(s[0..2]);
      var to := FromAlgebraic(s[2..4]);
      var promotion := if |s| > 4 then PromotionOfChar(s[4]) else Empty;
      Move(from, to, promotion)
  }

  /** Writing then reading a move with on-board squares and a promotion that
      can be written gives the same move back. */
  lemma MoveRoundTrip(m: Move)
    requires IsValid(m.from) && IsValid(m.to) && IsPromotionChoice(m.promotion)
    ensures MoveFromAlgebraic(MoveToAlgebraic(m)) == m
  {
    var s := MoveToAlgebraic(m);
    SquareRoundTrip(m.from);
    SquareRoundTrip(m.to);
    assert s[..2] == ToAlgebraic(m.from) && s[2..4] == ToAlgebraic(m.to);
  }

  /** Reading then writing well-formed move text gives the same text back. */
  lemma MoveTextRoundTrip(s: string)
    requires |s| == 4 || (|s| == 5 && s[4] in "qrbn")
    requires IsFileChar(s[0]) && IsRankChar(s[1]) && IsFileChar(s[2]) && IsRankChar(s[3])
    ensures MoveToAlgebraic(MoveFromAlgebraic(s)) == s
  {
    var m := MoveFromAlgebraic(s);
    SquareTextRoundTrip(s[..2]);
    SquareTextRoundTrip(s[2..4]);
    assert ToAlgebraic(m.from) + ToAlgebraic(m.to) == s[..4];
    if |s| == 5 {
      assert s == s[..4] + [s[4]];
    } else {
      assert s == s[..4];
    }
  }

  /** A Pawn or King promotion is written as a space and read back as none. */
  lemma OddPromotionIsLost(m: Move)
    requires IsValid(m.from) && IsValid(m.to) && m.promotion in {Pawn, King}
    ensures MoveFromAlgebraic(MoveToAlgebraic(m)) == m.(promotion := Empty)
  {
    SquareRoundTrip(m.from);
    SquareRoundTrip(m.to);
  }
}
