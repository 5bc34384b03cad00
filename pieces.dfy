/** Chess pieces: a kind and a colour, with their material value and their
    one-character glyphs (include/chess/piece.h, src/chess/piece.cpp).
    A piece is an immutable value; the constructor arguments are its fields. */
module Pieces {

  datatype PieceType = Empty | Pawn | Knight | Bishop | Rook | Queen | King

  datatype Color = NoColor | White | Black

  datatype Piece = Piece(kind: PieceType, color: Color)

  /** The default-constructed piece `Piece()`: no kind and no colour. */
  const NoPiece: Piece := Piece(Empty, NoColor)

  /** `isEmpty` looks at the kind only: an Empty piece may still carry a colour. */
  predicate IsEmpty(p: Piece) {
    p.kind == Empty
  }

  /** The colour that moves after `c` (`toggleSideToMove`), also used as "the
      opponent of `c`": White gives Black and every other colour gives White. */
  function Other(c: Color): (r: Color)
    ensures r != c && r != NoColor
    ensures c == White <==> r == Black
  {
    if c == White then Black else White
  }

  lemma OtherTwice(c: Color)
    ensures c != NoColor ==> Other(Other(c)) == c
    ensures Other(Other(NoColor)) == Black
  {
  }

  /** The "C" locale's `islower`, `isupper`, `tolower` and `toupper`. */
  predicate IsLowerAscii(c: char) {
    'a' <= c <= 'z'
  }

  predicate IsUpperAscii(c: char) {
    'A' <= c <= 'Z'
  }

  function Lower(c: char): (r: char)
    ensures IsUpperAscii(c) ==> IsLowerAscii(r)
    ensures !IsUpperAscii(c) ==> r == c
  {
    if IsUpperAscii(c) then (c as int + 32) as char else c
  }

  function Upper(c: char): (r: char)
    ensures IsLowerAscii(c) ==> IsUpperAscii(r) && Lower(r) == c
    ensures !IsLowerAscii(c) ==> r == c
  {
    if IsLowerAscii(c) then (c as int - 32) as char else c
  }

  /** The lower-case letter of a kind, from `pnbrqk`. */
  function Letter(k: PieceType): (c: char)
    requires k != Empty
    ensures IsLowerAscii(c) && c in "pnbrqk"
  {
    match k
    case Pawn => 'p'
    case Knight => 'n'
    case Bishop => 'b'
    case Rook => 'r'
    case Queen => 'q'
    case King => 'k'
  }

  /** The kind whose letter is the lower-case `c`, Empty for any other character. */
  function KindOfLetter(c: char): (k: PieceType)
    ensures k != Empty <==> c in "pnbrqk"
    ensures k != Empty ==> Letter(k) == c
  {
    match c
    case 'p' => Pawn
    case 'n' => Knight
    case 'b' => Bishop
    case 'r' => Rook
    case 'q' => Queen
    case 'k' => King
    case _ => Empty
  }

  /** Material value used by the evaluator (`getValue`); the colour plays no part. */
  function Value(p: Piece): (v: int)
    ensures 0 <= v <= 20000
    ensures v == 0 <==> IsEmpty(p)
    ensures p.kind != King ==> v <= 900
  {
    match p.kind
    case Pawn => 100
    case Knight => 320
    case Bishop => 330
    case Rook => 500
    case Queen => 900
    case King => 20000
    case Empty => 0
  }

  lemma ValueIgnoresColor(p: Piece, c: Color)
    ensures Value(Piece(p.kind, c)) == Value(p)
  {
  }

  /** The FEN glyph (`toFEN`): a space for an Empty piece, otherwise the kind's
      letter, upper-case exactly when the colour is White. */
  function ToFen(p: Piece): (c: char)
    ensures c == ' ' <==> IsEmpty(p)
    ensures !IsEmpty(p) ==> Lower(c) == Letter(p.kind)
    ensures !IsEmpty(p) ==> (IsUpperAscii(c) <==> p.color == White)
    ensures !IsEmpty(p) ==> (IsLowerAscii(c) <==> p.color != White)
  {
    if p.kind == Empty then ' '
    else if p.color == White then Upper(Letter(p.kind))
    else Letter(p.kind)
  }

  /** The display glyph (`toChar`): written from the upper-case letters, it gives
      the same character as the FEN glyph for every piece. */
  function ToChar(p: Piece): (c: char)
    ensures c == ToFen(p)
  {
    if p.kind == Empty then ' '
    else
      var upper := match p.kind
        case Pawn => 'P'
        case Knight => 'N'
        case Bishop => 'B'
        case Rook => 'R'
        case Queen => 'Q'
        case King => 'K';
      if p.color == White then upper else Lower(upper)
  }

  /** Decodes a FEN glyph (`fromFEN`). A space or a dot is the default piece;
      any other character gets colour Black if it is a lower-case letter and
      White otherwise, and kind Empty unless it is one of `pnbrqkPNBRQK`. */
  function FromFen(c: char): (p: Piece)
    ensures c == ' ' || c == '.' ==> p == NoPiece
    ensures c != ' ' && c != '.' ==> p.color == (if IsLowerAscii(c) then Black else White)
    ensures !IsEmpty(p) <==> c in "pnbrqkPNBRQK"
    ensures !IsEmpty(p) ==> ToFen(p) == c
  {
    if c == ' ' || c == '.' then NoPiece
    else
      var color := if IsLowerAscii(c) then Black else White;
      Piece(KindOfLetter(Lower(c)), color)
  }

  /** Encoding then decoding gives back every non-empty piece of a real colour. */
  lemma FenGlyphRoundTrip(p: Piece)
    requires !IsEmpty(p) && p.color != NoColor
    ensures FromFen(ToFen(p)) == p
  {
  }

  /** An unrecognised glyph yields an Empty piece that still has a colour. */
  lemma UnknownGlyphKeepsColor(c: char)
    requires c != ' ' && c != '.' && c !in "pnbrqkPNBRQK"
    ensures IsEmpty(FromFen(c)) && FromFen(c).color != NoColor
  {
  }
}
