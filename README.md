# BrothFish chess core in Dafny

This project models the core of BrothFish, a small C++ chess engine. The model covers:

- **Pieces.** Seven kinds (including `Empty`) and three colours (including `NoColor`), their values and their FEN letters.
- **Positions and moves.** Squares and their algebraic text (`e4`), and moves with their text (`e2e4`, `e7e8q`).
- **The board.** An 8x8 grid of pieces, with the side to move, four castling rights, an en-passant target and two clocks. It is built empty or from a FEN string and written back to FEN.
- **Attack detection.** `isUnderAttack` and `isInCheck`.
- **Move generation.**
  - Pseudo-legal moves per piece kind.
  - The legality filter, which plays each candidate on a copy of the board and keeps it if the mover's king is then not attacked.
  - `isLegalMove` and `makeMove`.
- **The evaluator.** Five terms, scored from White's point of view: material, centre control, knight placement, early queen development and piece development.

## How the model is organised

- `pieces.dfy` (`Pieces`): `Piece`, `PieceType` and `Color`, with `getValue`, `toChar`, `toFEN` and `fromFEN`.
- `notation.dfy` (`Notation`): `Position` and `Move` with their algebraic text.
- `text.dfy` (`Text`): two pieces of standard-library behaviour that the FEN code relies on.
  - Reading whitespace-separated words, as `operator>>` on an `std::istringstream` does. A missing word reads as `""`.
  - `std::stoi`. It returns `None` where the library throws: no digits, or a value outside the 32-bit range.
- `grid.dfy` (`Grids`):
  - `BoardState` is the board as a value. Its 64 cells are indexed `8 * rank + file`.
  - `getPiece` and `setPiece` become `PieceAt` and `WithPiece`.
  - The empty board.
- `fen.dfy` (`Fen`):
  - The placement reader is a cursor machine, `Step` and `Run`.
  - Parsing FEN is `ParseFen` and writing it is `FenText`. Both round trips are proved. Writing a board and reading the text back gives the board up to normalisation. Reading the written text and writing it again gives the same text, except that a `-` en-passant field comes back as `a1`.
  - The writer's loops are methods proved equal to `FenText`.
- `attacks.dfy` (`Attacks`):
  - The five attack tests, as early-exit scan predicates (`Attacked`), each with a reference "there exists an attacker" form.
  - The king search of `isInCheck`.
  - The scanning methods, proved equal to the predicates.
- `movegen.dfy` (`MoveGen`): the per-kind generators as functions that list moves in the source's order, with one membership lemma per kind. The appending methods are proved equal to those functions.
- `legality.dfy` (`Legality`):
  - The board copy a candidate move is played on (`AfterMove`), and the filter that keeps king-safe moves.
  - `generateLegalMoves`, `isLegalMove` and the board that `makeMove` produces (`Played`).
- `mirror.dfy` (`Mirrors`): reflecting the board top to bottom while swapping colours. Attack detection commutes with this reflection.
- `evaluate.dfy` (`Evaluation`):
  - The five terms as per-square scores summed over the grid.
  - The evaluator loops, as methods proved equal to those sums.
  - The mirror and starting-position results: a mirrored board scores the negation, and the starting position scores zero.
- `board.dfy` (`Boards`): the mutable `Board` class, holding a 64-cell array plus the scalar fields.
  - The constructors, `setPiece`, the side setters and `makeMove` update it in place.
  - Its read-only operations delegate to the modules above on `State()`.
- `start_fen.dfy` (`StartFen`): the standard starting FEN. It is written, read back, and written again as the same text with `a1` in place of `-`.
- `options.dfy` and `seqs.dfy` hold an `Option` type and a sequence-associativity lemma.

## What the source does, modelled as written

- `Position()` is `(0, 0)`, which is a valid square (a1). So a FEN whose en-passant field is `-` leaves the target at a1, and `toFEN` then writes `a1`. `Fen.DashEnPassantWritesA1` states this.
- `Piece::fromFEN` gives an unknown letter the kind `Empty` but a colour. `Pieces.UnknownGlyphKeepsColor` states this.
- `isLegalMove` compares only the two squares, never the promotion. `Legality.IsLegalIgnoresPromotion` states this.
- `makeMove` promotes a pawn on the last rank to whatever non-empty kind the move names, even `King` or `Pawn`, and to a queen when the move names none.
- `Move::toAlgebraic` writes a space for a promotion to a pawn or a king. Reading the text back therefore drops the promotion (`Notation.OddPromotionIsLost`).
- No castling or en-passant moves are generated.
- `makeMove` changes only the two squares and the side to move. It does not update castling rights, the en-passant target or the clocks.

## Model

| member | source | states |
|---|---|---|
| Pieces.Other | include/chess/board.h:92 | the side after `toggleSideToMove`: never the same colour and never `NONE`; White gives Black, and every other colour gives White |
| Pieces.OtherTwice | include/chess/board.h:92 | toggling twice restores White or Black; starting from `NONE` it ends at Black |
| Pieces.Value | src/chess/piece.cpp:25-35 | values lie in 0..20000; zero exactly for the empty piece; at most 900 for every kind except the king |
| Pieces.ValueIgnoresColor | src/chess/piece.cpp:25-35 | a piece's value depends only on its kind |
| Pieces.ToFen | src/chess/piece.cpp:37-54 | a space exactly for the empty piece; otherwise the kind's letter, upper case exactly when the piece is White |
| Pieces.ToChar | src/chess/piece.cpp:6-23 | `toChar` gives the same character as `toFEN` for every piece |
| Pieces.FromFen | src/chess/piece.cpp:56-76 | a space or `.` reads as the default piece; any other character is Black when lower case and White otherwise; the kind is non-empty exactly for the twelve piece letters, and those read back to the same character |
| Pieces.FenGlyphRoundTrip | src/chess/piece.cpp:37-76 | `fromFEN(toFEN(p)) == p` for every non-empty piece of a real colour |
| Pieces.UnknownGlyphKeepsColor | src/chess/piece.cpp:61-75 | a character that is not a piece letter gives an `Empty` piece that still has a colour |
| Notation.DefaultPositions | include/chess/board.h:16-21 | the default position a1 is valid; the sentinel (-1, -1) is not |
| Notation.ToAlgebraic | src/chess/board.cpp:8-11 | two characters, a file letter then a rank digit, for an on-board square; `""` otherwise |
| Notation.FromAlgebraic | src/chess/board.cpp:13-18 | text that is not two characters long gives (-1, -1); two characters give a valid square exactly when they are a file letter and a rank digit |
| Notation.SquareRoundTrip | src/chess/board.cpp:8-18 | reading back the text of a valid square gives the square |
| Notation.SquareTextRoundTrip | src/chess/board.cpp:8-18 | writing a well-formed square text back gives the same text |
| Notation.PromotionOfChar | src/chess/board.cpp:44-53 | `q`, `r`, `b` and `n`, and only these, name a promotion, which writes back as the same letter |
| Notation.MoveToAlgebraic | src/chess/board.cpp:21-35 | the text is the two squares' text, plus one character when the promotion is not Empty |
| Notation.MoveFromAlgebraic | src/chess/board.cpp:37-56 | text shorter than 4 gives the default move; otherwise the squares are read from characters 0-1 and 2-3, and there is a promotion exactly when a fifth character is one of `qrbn` |
| Notation.MoveRoundTrip | src/chess/board.cpp:21-56 | a move between valid squares whose promotion is Empty, Queen, Rook, Bishop or Knight reads back unchanged from its text |
| Notation.MoveTextRoundTrip | src/chess/board.cpp:21-56 | a well-formed 4- or 5-character move text writes back unchanged |
| Notation.OddPromotionIsLost | src/chess/board.cpp:24-32 | a move naming a pawn or king promotion reads back from its text with no promotion |
| Text.Tokens | src/chess/board.cpp:72-76 | the words read by `>>` contain no whitespace and are not empty |
| Text.TokensOfJoin | src/chess/board.cpp:72-110 | reading words back from words joined by single spaces gives the same words |
| Text.StoI | src/chess/board.cpp:111-112 | a successful `std::stoi` yields a 32-bit value; empty text fails |
| Text.IntStringRoundTrip | src/chess/board.cpp:111-112 | every 32-bit integer written in decimal reads back as itself |
| Text.StoIRejectsNonNumber | src/chess/board.cpp:111-112 | text that starts with neither a digit nor a sign makes `std::stoi` fail |
| Grids.PieceAt | src/chess/board.cpp:115-118 | `getPiece` of an off-board position is the default piece |
| Grids.WithPiece | src/chess/board.cpp:120-123 | `setPiece` places the piece on a valid square and changes nothing else; off the board it changes nothing |
| Grids.EmptyBoard | src/chess/board.cpp:59-69 | every square holds the default piece, White to move, no castling rights, en-passant target a1, clocks 0 and 1 |
| Fen.Step | src/chess/board.cpp:80-90 | `/` moves to file a of the next rank down; a digit skips that many files; any other character writes `fromFEN` of itself on the current square, moves one file on and leaves every other square alone |
| Fen.RunAppend | src/chess/board.cpp:80-90 | reading two texts in turn is the same as reading them joined |
| Fen.ParseFen | src/chess/board.cpp:71-113 | parsing fails exactly when either clock field is not a number. On success the grid is the placement reader's result. The side is White exactly for `w`, and never colourless. Each of the four castling rights is set exactly when its letter `K`, `Q`, `k` or `q` occurs in the field. `-` leaves the en-passant target at a1, any other text gives the square it names, and text that is neither `-` nor two characters long makes it invalid. The clocks are the numbers read |
| Fen.EmptyRun | src/chess/board.cpp:138-148 | no empty squares write nothing; 1 to 9 write one digit |
| Fen.RowsDown | src/chess/board.cpp:129 | `toFEN` visits the ranks from 8 down to 1 |
| Fen.ReadFullRank | src/chess/board.cpp:80-148 | reading the text `toFEN` writes for one rank restores that rank's pieces and ends at file h |
| Fen.ReadRanks | src/chess/board.cpp:80-153 | reading the written ranks r down to 1 restores them all |
| Fen.FieldsAreWords | src/chess/board.cpp:125-182 | every field `toFEN` writes is one non-empty word without whitespace |
| Fen.FenTextFields | src/chess/board.cpp:125-182 | reading the words of `toFEN`'s output gives back its six fields |
| Fen.PlacementRoundTrip | src/chess/board.cpp:80-153 | the placement that `toFEN` writes, read by the constructor's loop from an empty board, stays on the board and restores the grid |
| Fen.CastlingRoundTrip | src/chess/board.cpp:97-168 | each castling right reads back as it was written, including the case with no rights (`-`) |
| Fen.EnPassantRoundTrip | src/chess/board.cpp:104-176 | a valid en-passant target reads back as itself; an invalid one reads back as a1 |
| Fen.ParseWrittenFields | src/chess/board.cpp:71-113 | a FEN whose six fields are those written for a board parses to that board, up to side and en-passant normalisation |
| Fen.FenRoundTrip | src/chess/board.cpp:71-182 | `Board(b.toFEN())` equals `b` up to normalisation for every board whose cells are default or coloured pieces and whose clocks fit in 32 bits |
| Fen.ParseThenWrite | src/chess/board.cpp:71-182 | for every board whose cells are default or coloured pieces and whose clocks fit in 32 bits, reading its FEN text and writing the result gives the same text, except that an off-board en-passant target (written `-`) comes back as `a1` |
| StartFen.StartFenRewritten | src/chess/board.cpp:71-182 | the starting position with no en-passant target is written as `rnbqkbnr/pppppppp/8/8/8/8/PPPPPPPP/RNBQKBNR w KQkq - 0 1`; reading that text gives the starting position, which is written back as `... KQkq a1 0 1` |
| StartFen.StartPlacement | src/chess/board.cpp:125-152 | the placement field written for the starting grid is `rnbqkbnr/pppppppp/8/8/8/8/PPPPPPPP/RNBQKBNR` |
| Fen.DashEnPassantWritesA1 | src/chess/board.cpp:104-176 | after reading `-` as the en-passant field, `toFEN` writes `a1` |
| Fen.Normalized | src/chess/board.cpp:94-107 | a parsed-back board keeps the grid, the castling rights and the clocks; its side is White exactly when the written side was White, and Black otherwise; its en-passant target is valid: the written one when that was valid, a1 otherwise |
| Fen.WriteRank | src/chess/board.cpp:130-148 | the per-rank loop appends exactly that rank's placement text |
| Fen.WritePlacement | src/chess/board.cpp:129-153 | the rank loop writes the placement text |
| Fen.WriteCastling | src/chess/board.cpp:159-168 | the castling branch writes the castling field |
| Fen.WriteFen | src/chess/board.cpp:125-182 | `toFEN` writes the six fields joined by single spaces |
| Attacks.JumpAttackFromIff | src/chess/board_moves.cpp:73-150 | the knight and king table scans find an attacker exactly when some remaining table entry holds a piece of that kind and colour |
| Attacks.RayAttackFromSound | src/chess/board_moves.cpp:90-134 | when a ray scan reports an attack, there is a matching attacker with only empty squares before it |
| Attacks.RayAttackFromComplete | src/chess/board_moves.cpp:90-134 | a matching attacker reached over empty squares makes the ray scan report an attack |
| Attacks.RayAttackIff | src/chess/board_moves.cpp:90-134 | a ray scan reports an attack exactly when the first occupied square on the ray holds a matching attacker |
| Attacks.SlideAttackFromIff | src/chess/board_moves.cpp:90-134 | the scan over a set of directions is true exactly when one of the remaining rays is |
| Attacks.SlideAttackIff | src/chess/board_moves.cpp:90-134 | a diagonal or straight-line attack exists exactly when some direction has an unobstructed matching attacker |
| Attacks.AttackedIff | src/chess/board_moves.cpp:51-153 | a square is attacked exactly when it has a pawn attacker, a knight a jump away, an unobstructed bishop, queen or rook, or a neighbouring king |
| Attacks.IsUnderAttack | src/chess/board_moves.cpp:51-153 | `isUnderAttack` returns exactly the attack predicate |
| Attacks.ScanPawns | src/chess/board_moves.cpp:53-71 | the pawn check tests the two squares one rank behind, as seen from the attacker |
| Attacks.ScanJumps | src/chess/board_moves.cpp:73-87 | the knight and king loops find exactly the table attacks |
| Attacks.ScanSlides | src/chess/board_moves.cpp:90-134 | the direction loops find exactly the slide attacks |
| Attacks.ScanRay | src/chess/board_moves.cpp:95-113 | the walk along one ray stops at the edge or the first piece and reports exactly the ray attack |
| Attacks.AttackedAgree | src/chess/board_moves.cpp:51-153 | whether a colour attacks a square depends only on which squares are occupied and where that colour's pieces stand |
| Attacks.KingSearchAgree | src/chess/board_moves.cpp:157-170 | the king search depends only on which cells hold a king of the colour searched for |
| Attacks.KingSearch | src/chess/board_moves.cpp:157-170 | the king search returns the sentinel or a valid square at or after its starting cell |
| Attacks.KingSearchFinds | src/chess/board_moves.cpp:157-170 | a found square holds a king of that colour and is the first one in rank-then-file order; not finding one means there is none |
| Attacks.FirstKingIff | src/chess/board_moves.cpp:157-170 | the king search finds the first king of the colour, and returns (-1, -1) exactly when the board has none |
| Attacks.FindKing | src/chess/board_moves.cpp:157-170 | the nested loop with its two breaks finds that first king |
| Attacks.IsInCheck | src/chess/board_moves.cpp:155-179 | `isInCheck` is true exactly when the mover's first king exists and the other colour attacks it |
| Attacks.NoKingNoCheck | src/chess/board_moves.cpp:172-175 | with no king of the side to move, the side is never in check |
| MoveGen.JumpTargetsIff | src/chess/board_moves.cpp:356-420 | a knight or king move is listed exactly when it goes to an on-board table target that is empty or holds the other colour, with no promotion |
| MoveGen.JumpMovesIff | src/chess/board_moves.cpp:356-420 | knight and king moves exist only for a piece of that kind, and are exactly the legal table targets |
| MoveGen.RayMovesIff | src/chess/board_moves.cpp:422-447 | a sliding move along one ray lands on an on-board square reached over empty squares, which is itself empty or holds the other colour |
| MoveGen.SlideTargetsIff | src/chess/board_moves.cpp:422-447 | the sliding moves are the union of the moves along each direction |
| MoveGen.SlidingMovesIff | src/chess/board_moves.cpp:377-447 | bishop, rook and queen moves are exactly the unobstructed landings along their directions |
| MoveGen.PawnTargetMovesIff | src/chess/board_moves.cpp:314-353 | a pawn move to a target carries one of the four promotions on the last rank, and none elsewhere |
| MoveGen.PawnPushesIff | src/chess/board_moves.cpp:314-334 | pushes are a single step onto an empty square, or a double step from the start rank over two empty squares |
| MoveGen.PawnCapturesIff | src/chess/board_moves.cpp:336-353 | captures are diagonal steps forward onto a piece of the other colour |
| MoveGen.PawnMovesIff | src/chess/board_moves.cpp:304-354 | pawn moves are exactly the pushes, double pushes and captures, with the right promotions |
| MoveGen.PseudoLegalWellFormed | src/chess/board_moves.cpp:243-447 | every generated move starts on the piece's square, which holds a piece of the side to move; it ends on another on-board square that is empty or hostile, and names a promotion exactly when a pawn reaches its last rank |
| MoveGen.GeneratePawnMoves | src/chess/board_moves.cpp:304-354 | the pawn generator appends exactly the pawn moves, in order |
| MoveGen.AppendPawnPushes | src/chess/board_moves.cpp:314-334 | the push branch appends exactly the pushes |
| MoveGen.AppendPawnCaptures | src/chess/board_moves.cpp:336-353 | the capture loop appends the captures for file offsets -1 then +1 |
| MoveGen.AppendPawnCapture | src/chess/board_moves.cpp:338-352 | one capture direction appends that capture's moves |
| MoveGen.AppendJumps | src/chess/board_moves.cpp:356-420 | the table loop appends the table moves, in table order |
| MoveGen.GenerateJumpMoves | src/chess/board_moves.cpp:356-420 | the knight and king generators append exactly their moves |
| MoveGen.AppendRay | src/chess/board_moves.cpp:428-445 | the walk along one ray appends that ray's moves |
| MoveGen.GenerateSlidingMoves | src/chess/board_moves.cpp:422-447 | `generateSlidingMoves` appends the moves along each direction, in order |
| MoveGen.GeneratePseudoLegalMoves | src/chess/board_moves.cpp:243-275 | `generatePseudoLegalMoves` returns the dispatched generator's moves, all well formed |
| Legality.PromotedKind | src/chess/board_moves.cpp:37-42 | a promoting pawn becomes the move's promotion, or a queen when the move names none |
| Legality.AfterMoveEffect | src/chess/board_moves.cpp:196-212 | on the test board the start square is empty and the target holds the piece, or the promoted piece in the mover's colour; every other square and every other field is as it was |
| Legality.AfterMoveKeepsSide | src/chess/board_moves.cpp:196-212 | playing a move on the copy changes only the grid |
| Legality.FilterIff | src/chess/board_moves.cpp:194-235 | a move survives the filter exactly when it was a candidate and passes the test |
| Legality.RanksMovesIff | src/chess/board_moves.cpp:185-238 | the rank and file loops list a move exactly when its start square is on the board and the square's own list has it |
| Legality.LegalAtIff | src/chess/board_moves.cpp:188-236 | a square's legal moves are its pseudo-legal moves after which the mover's king is not attacked |
| Legality.LegalMovesIff | src/chess/board_moves.cpp:181-241 | a move is in `generateLegalMoves` exactly when it is pseudo-legal from its start square and keeps the king safe |
| Legality.LegalMovesWellFormed | src/chess/board_moves.cpp:181-241 | every legal move is well formed and moves a piece of the side to move |
| Legality.IsLegalSound | src/chess/board_moves.cpp:277-302 | an accepted move has a pseudo-legal, king-safe move with the same squares |
| Legality.IsLegalComplete | src/chess/board_moves.cpp:277-302 | a pseudo-legal, king-safe move with the same squares makes `isLegalMove` accept |
| Legality.IsLegalIff | src/chess/board_moves.cpp:277-302 | `isLegalMove` accepts exactly when some promotion makes the move pseudo-legal and king-safe |
| Legality.IsLegalIgnoresPromotion | src/chess/board_moves.cpp:295-299 | changing a move's promotion never changes whether `isLegalMove` accepts it |
| Legality.AfterMoveIgnoresPromotion | src/chess/board_moves.cpp:196-212 | a move that does not promote plays the same whatever promotion it names |
| Legality.LegalMoveKeepsKingSafe | src/chess/board_moves.cpp:6-49 | a move that `makeMove` accepts never leaves the mover's king attacked, unless it promotes to a king |
| Legality.PromotionChoiceKeepsKingSafe | src/chess/board_moves.cpp:6-49 | promoting to one non-king piece rather than another does not change whether the mover's king is attacked afterwards |
| Legality.Played | src/chess/board_moves.cpp:25-46 | after `makeMove` the other side is to move; castling rights, en-passant target and clocks are unchanged |
| Legality.PlayedEffect | src/chess/board_moves.cpp:25-46 | after a legal move the start square is empty; the target holds the moving piece, or, for a promoting pawn, the promoted piece in the mover's colour; every other square keeps its piece |
| Legality.IsSafe | src/chess/board_moves.cpp:214-234 | the king search and attack test on the copy accept exactly the king-safe moves |
| Legality.SafeMovesSnoc | src/chess/board_moves.cpp:194-235 | filtering one more candidate appends it exactly when it is safe |
| Legality.AppendSafe | src/chess/board_moves.cpp:194-235 | the inner loop appends exactly the safe candidates, in order |
| Legality.AppendLegalAt | src/chess/board_moves.cpp:187-236 | one square appends exactly its legal moves |
| Legality.GenerateLegalMoves | src/chess/board_moves.cpp:181-241 | `generateLegalMoves` returns the legal moves in rank-then-file order |
| Legality.FindSquares | src/chess/board_moves.cpp:295-301 | the search loop reports exactly whether some listed move has both squares |
| Legality.IsLegalMove | src/chess/board_moves.cpp:277-302 | `isLegalMove` returns exactly the legality predicate |
| Mirrors.PawnAttackMirror | src/chess/board_moves.cpp:53-71 | a pawn attack on a square becomes the swapped colour's pawn attack on the reflected square |
| Mirrors.JumpAttackMirror | src/chess/board_moves.cpp:73-150 | knight and king attacks are invariant under mirroring |
| Mirrors.RayAttackFromMirror | src/chess/board_moves.cpp:90-134 | a ray attack becomes the swapped colour's attack along the reflected ray |
| Mirrors.SlideAttackMirror | src/chess/board_moves.cpp:90-134 | diagonal and straight-line attacks are invariant under mirroring |
| Mirrors.AttackedMirror | src/chess/board_moves.cpp:51-153 | `isUnderAttack(reflected square, swapped colour)` on the mirrored board equals `isUnderAttack(square, colour)` on the original |
| Evaluation.MaterialOf | src/chess/evaluate.cpp:29-35 | a square's material is the piece's value, negative exactly for a Black piece |
| Evaluation.KnightBonus | src/chess/evaluate.cpp:56-66 | the knight bonus lies in 0..3; it is 3 exactly on d4, d5, e4 and e5, and 0 exactly three or more steps from the centre |
| Evaluation.KnightScore | src/chess/evaluate.cpp:47-76 | only knights score; the score's size is the bonus; it is non-negative for White and non-positive otherwise |
| Evaluation.QueenScore | src/chess/evaluate.cpp:148-204 | only queens score; a queen off its home square (d1 for White, d8 for the other colour) costs 15 plus twice its Manhattan distance from home, against its own side; at home it costs nothing |
| Evaluation.DevelopmentScore | src/chess/evaluate.cpp:206-384 | a square scores exactly when it holds a knight or bishop off its start squares and off its good squares (cost 8), or a rook off its start squares (cost 10), and the other colour does not attack it. In that case the cost counts against the piece's own side; otherwise the square scores 0 |
| Evaluation.CenterScore | src/chess/evaluate.cpp:91-128 | occupancy gives an empty square 0, and otherwise 20 for a pawn or 10 for another piece, less 5 when attacked, signed by colour, within 20 either way. Control gives +5 exactly when only White attacks the square, -5 exactly when only Black does, and 0 when both or neither do |
| Evaluation.PassSumBound | src/chess/evaluate.cpp:91-128 | one pass over n squares lies within 20n (occupancy) or 5n (control) of zero |
| Evaluation.PassSumCenter | src/chess/evaluate.cpp:84-89 | a pass sums d4, d5, e4 and e5 |
| Evaluation.CenterControlBound | src/chess/evaluate.cpp:81-131 | the centre term lies within 100 of zero |
| Evaluation.GridSumZero | src/chess/evaluate.cpp:27-38 | a board-wide sum of a per-square score that is zero everywhere is zero |
| Evaluation.EmptyBoardScoresNothing | src/chess/evaluate.cpp:23-384 | the material, knight, queen and development terms are all zero on the empty board |
| Evaluation.GridSumMirror | src/chess/evaluate.cpp:27-38 | a per-square score that mirroring negates has a board-wide sum that mirroring negates |
| Evaluation.StartTablesMirror | src/chess/evaluate.cpp:211-218 | Black's start squares are White's, reflected |
| Evaluation.GoodTablesMirror | src/chess/evaluate.cpp:222-253 | Black's good development squares are White's, reflected |
| Evaluation.MaterialMirror | src/chess/evaluate.cpp:29-35 | swapping a piece's colour negates its material |
| Evaluation.KnightMirror | src/chess/evaluate.cpp:47-76 | mirroring the board negates each square's knight score |
| Evaluation.QueenMirror | src/chess/evaluate.cpp:148-204 | mirroring the board negates each square's queen score |
| Evaluation.DevelopmentMirror | src/chess/evaluate.cpp:206-384 | mirroring the board negates each square's development score |
| Evaluation.OccupancyMirror | src/chess/evaluate.cpp:91-115 | mirroring negates each centre square's occupancy score |
| Evaluation.ControlMirror | src/chess/evaluate.cpp:117-128 | mirroring negates each centre square's control score |
| Evaluation.PassSumMirror | src/chess/evaluate.cpp:81-131 | mirroring negates each centre pass |
| Evaluation.TermMirror | src/chess/evaluate.cpp:23-384 | mirroring negates each board-wide term |
| Evaluation.ScoreMirror | src/chess/evaluate.cpp:5-21 | a board and its mirror image evaluate to opposite scores |
| Evaluation.MirrorNegatesScore | src/chess/evaluate.cpp:5-21 | `evaluate` of the colour-swapped, rank-reflected board is minus `evaluate` of the board, for boards whose pieces are White or Black |
| Evaluation.StartIsOwnMirror | src/chess/evaluate.cpp:5-21 | the standard starting position is its own mirror image |
| Evaluation.StartScoresZero | src/chess/evaluate.cpp:5-21 | the starting position evaluates to 0 |
| Evaluation.OnSquareList | src/chess/evaluate.cpp:281-286 | the good-square loop with its break finds exactly whether the square is on the list |
| Evaluation.DevelopmentAt | src/chess/evaluate.cpp:258-380 | the body of the development loop adds exactly the development score |
| Evaluation.DevelopmentOf | src/chess/evaluate.cpp:273-379 | the per-kind branches apply the development rule |
| Evaluation.ScoreAt | src/chess/evaluate.cpp:29-199 | one square's contribution to a term, as the loop bodies compute it |
| Evaluation.SumRow | src/chess/evaluate.cpp:28-37 | the file loop sums one rank's scores |
| Evaluation.SumGrid | src/chess/evaluate.cpp:27-38 | the rank loop sums the whole board |
| Evaluation.EvaluateCenterControl | src/chess/evaluate.cpp:81-131 | `evaluateCenterControl` returns occupancy plus control over the four centre squares |
| Evaluation.OccupancyAt | src/chess/evaluate.cpp:93-114 | one occupancy step adds the square's occupancy score |
| Evaluation.ControlAt | src/chess/evaluate.cpp:119-127 | one control step adds the square's control score |
| Evaluation.Evaluate | src/chess/evaluate.cpp:5-21 | `evaluate` returns the sum of the five terms |
| Boards.Board.constructor | src/chess/board.cpp:59-69 | `Board()` gives the empty board: default pieces, White to move, no castling, en passant a1, clocks 0 and 1 |
| Boards.Board.FromFen | src/chess/board.cpp:71-113 | `Board(fen)` fails exactly when `ParseFen` does, and otherwise holds exactly the parsed board |
| Boards.Board.ReadFields | src/chess/board.cpp:92-112 | the five fields after the placement set side, castling rights, en passant (unless `-`) and both clocks; it fails exactly when a clock is not a number |
| Boards.Board.PlacePieces | src/chess/board.cpp:76-90 | the placement loop leaves the array equal to the cursor machine's grid |
| Boards.Board.GetPiece | src/chess/board.cpp:115-118 | `getPiece` returns the piece on the square, or the default piece off the board |
| Boards.Board.SetPiece | src/chess/board.cpp:120-123 | `setPiece` changes only that square, and only when it is on the board |
| Boards.Board.GetSideToMove | include/chess/board.h:86 | returns the side to move |
| Boards.Board.SetSideToMove | include/chess/board.h:89 | changes only the side to move |
| Boards.Board.ToggleSideToMove | include/chess/board.h:92 | changes only the side to move, to the other colour |
| Boards.Board.ToFen | src/chess/board.cpp:125-182 | `toFEN` writes the board's FEN text |
| Boards.Board.IsUnderAttack | src/chess/board_moves.cpp:51-153 | the board's attack test |
| Boards.Board.IsInCheck | src/chess/board_moves.cpp:155-179 | the board's check test |
| Boards.Board.GeneratePseudoLegalMoves | src/chess/board_moves.cpp:243-275 | the board's pseudo-legal moves for a square |
| Boards.Board.GenerateLegalMoves | src/chess/board_moves.cpp:181-241 | the board's legal moves |
| Boards.Board.IsLegalMove | src/chess/board_moves.cpp:277-302 | the board's legality test |
| Boards.Board.MovePiece | src/chess/board_moves.cpp:26-43 | moving the piece leaves the array as the test-board copy would be: start square emptied, target holding the piece or its promotion |
| Boards.Board.MakeMove | src/chess/board_moves.cpp:6-49 | `makeMove` succeeds exactly when `isLegalMove` accepts. On success the board becomes the played board: squares moved, promotion applied, side toggled. On failure nothing changes |

## Left out

- `Board::print` (src/chess/board.cpp:184-201) writes to the console. Console output is not modelled.
- main.cpp and the Python bindings and scripts are front ends over the core. They are not part of this model.
- evaluate.h declares four terms that the source never defines (evaluateEarlyKingMovement, evaluateCastling, evaluateRepeatedMoves, evaluatePawnDoubleMoves, include/chess/evaluate.h:41-51). They are not modelled.
- The three stubs evaluateMobility, evaluatePawnStructure and evaluateKingSafety (src/chess/evaluate.cpp:133-146) are not modelled. They return 0, and `evaluate` does not call them.
- Boards.Board.FromFen: the model requires the placement field to stay on the board. For a malformed placement the source writes outside its array, which is undefined behaviour.
- Fen.ParseFen: the same precondition applies. Apart from that, a malformed FEN is modelled: a missing field reads as `""`, and a clock that is not a number fails.
- Evaluation.Evaluate: scores are unbounded integers. The terms stay far below 2^31, so the 32-bit `int` sums cannot overflow.
- The queen term's `whiteQueenFound` and `blackQueenFound` flags (src/chess/evaluate.cpp:153-157) are set but never read, so the model leaves them out.
- The evaluator is modelled as functions of a board value rather than an `Evaluator` object, because the object has no state.
- The board's 8x8 array is modelled as one array of 64 cells, cell `8 * rank + file`.
- The legality filter and `isLegalMove` copy the board by value. The model therefore plays the move on a value (`Legality.AfterMove`), which shares nothing with the mutable board.
- Legality.LegalMoveKeepsKingSafe: not stated for a pawn move that promotes to a king. `isLegalMove` ignores the promotion, and such a move puts a second king on the board, which the king search may find first.
- Evaluation.MirrorNegatesScore is stated only for boards whose pieces are White or Black. The terms treat a non-empty piece with no colour inconsistently. Material counts it for White, because only Black values are negated (src/chess/evaluate.cpp:32-34). The knight, queen, development and centre-occupancy terms count it as a non-White piece. Mirroring leaves such a piece colourless, so its score is not negated.
- Text is modelled as sequences of characters, while the source reads FEN one byte at a time. The placement loop (src/chess/board.cpp:80-90) and its `isdigit`, `islower` and `isspace` tests are modelled on characters. So the model agrees with the source on ASCII text only.
