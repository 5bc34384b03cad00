/** Forsyth-Edwards Notation as the board reads and writes it
    (src/chess/board.cpp, `Board(const std::string&)` and `toFEN`). */
module Fen {
  import opened Options
  import opened Pieces
  import opened Notation
  import opened Grids
  import opened Text
  import opened Seqs

  // ---------------------------------------------------------------------------
  // Reading the piece placement.

  /** Where the placement reader stands: the cells written so far and the
      rank and file of the next square. */
  datatype Cursor = Cursor(grid: Grid, rank: int, file: int)

  /** Before the first character: an empty board, at a8. */
  const Start: Cursor := Cursor(EmptyBoard().grid, 7, 0)

  /** Reading `c` at `cur` does not write outside the 8x8 array (a write
      there is undefined behaviour in the C++, so callers must avoid it). */
  predicate StepFits(cur: Cursor, c: char) {
    c == '/' || IsDigit(c) || (0 <= cur.rank < 8 && 0 <= cur.file < 8)
  }

  /** One character of the placement: `/` starts the next rank down at file a,
      a digit skips that many files, any other character writes
      `Piece::fromFEN` of itself on the current square and moves one file on. */
  function Step(cur: Cursor, c: char): (r: Cursor)
    requires StepFits(cur, c)
    ensures c == '/' ==> r == Cursor(cur.grid, cur.rank - 1, 0)
    ensures IsDigit(c) ==> r.grid == cur.grid && r.rank == cur.rank && r.file == cur.file + (c as int - '0' as int)
    ensures c != '/' && !IsDigit(c) ==>
      && r.rank == cur.rank && r.file == cur.file + 1
      && r.grid[Index(Position(cur.file, cur.rank))] == FromFen(c)
      && forall i :: 0 <= i < 64 && i != Index(Position(cur.file, cur.rank)) ==> r.grid[i] == cur.grid[i]
  {
    if c == '/' then Cursor(cur.grid, cur.rank - 1, 0)
    else if IsDigit(c) then cur.(file := cur.file + (c as int - '0' as int))
    else Cursor(cur.grid[Index(Position(cur.file, cur.rank)) := FromFen(c)], cur.rank, cur.file + 1)
  }

  /** Every character of `s`, read from `cur` on, writes on the board. */
  predicate Fits(cur: Cursor, s: string)
    decreases |s|, 0
  {
    |s| == 0 || (Fits(cur, s[..|s| - 1]) && StepFits(Run(cur, s[..|s| - 1]), s[|s| - 1]))
  }

  /** The cursor after reading all of `s` from `cur`. */
  function Run(cur: Cursor, s: string): Cursor
    requires Fits(cur, s)
    decreases |s|, 1
  {
    if |s| == 0 then cur else Step(Run(cur, s[..|s| - 1]), s[|s| - 1])
  }

  /** Reading `s + t` is reading `s`, then `t` from where `s` left off. */
  lemma {:induction false} RunAppend(cur: Cursor, s: string, t: string)
    requires Fits(cur, s) && Fits(Run(cur, s), t)
    ensures Fits(cur, s + t) && Run(cur, s + t) == Run(Run(cur, s), t)
    decreases |t|
  {
    if |t| == 0 {
      assert s + t == s;
    } else {
      var t' := t[..|t| - 1];
      RunAppend(cur, s, t');
      assert (s + t)[..|s + t| - 1] == s + t';
    }
  }

  lemma RunOne(cur: Cursor, c: char)
    requires StepFits(cur, c)
    ensures Fits(cur, [c]) && Run(cur, [c]) == Step(cur, c)
  {
    assert [c][..0] == [];
    assert Fits(cur, []) && Run(cur, []) == cur;
  }

  /** Every prefix of a text that fits fits. */
  lemma {:induction false} FitsPrefix(cur: Cursor, s: string, i: nat)
    requires Fits(cur, s) && i <= |s|
    ensures Fits(cur, s[..i])
    decreases |s|
  {
    if i < |s| {
      assert s[..|s| - 1][..i] == s[..i];
      FitsPrefix(cur, s[..|s| - 1], i);
    } else {
      assert s[..i] == s;
    }
  }

  /** Reading one more character of `s` is one more step. */
  lemma RunSnoc(cur: Cursor, s: string, i: nat)
    requires i < |s| && Fits(cur, s[..i + 1])
    ensures Fits(cur, s[..i]) && StepFits(Run(cur, s[..i]), s[i])
    ensures Run(cur, s[..i + 1]) == Step(Run(cur, s[..i]), s[i])
  {
    assert s[..i + 1][..i] == s[..i];
  }

  // ---------------------------------------------------------------------------
  // Reading a whole record.

  /** `Board(fen)`: the six whitespace-separated fields, in order. The side to
      move is White exactly when the second field is "w"; each castling right
      is present when its letter occurs anywhere in the third field; the
      en-passant target is read with `fromAlgebraic` unless the field is "-",
      in which case it keeps its default a1; the two clocks go through
      `std::stoi`, whose exception is the `None` result. */
  function ParseFen(fen: string): (r: Option<BoardState>)
    requires Fits(Start, Field(fen, 0))
    ensures r.Some? <==> StoI(Field(fen, 4)).Some? && StoI(Field(fen, 5)).Some?
    ensures r.Some? ==> r.value.side != NoColor
    ensures r.Some? ==> (r.value.side == White <==> Field(fen, 1) == "w")
    ensures r.Some? ==> r.value.grid == Run(Start, Field(fen, 0)).grid
    ensures r.Some? ==> (r.value.whiteKingside <==> 'K' in Field(fen, 2)) && (r.value.whiteQueenside <==> 'Q' in Field(fen, 2))
    ensures r.Some? ==> (r.value.blackKingside <==> 'k' in Field(fen, 2)) && (r.value.blackQueenside <==> 'q' in Field(fen, 2))
    ensures r.Some? && Field(fen, 3) == "-" ==> r.value.enPassant == Origin
    ensures r.Some? && Field(fen, 3) != "-" ==> r.value.enPassant == FromAlgebraic(Field(fen, 3))
    ensures r.Some? ==> r.value.halfMove == StoI(Field(fen, 4)).value && r.value.fullMove == StoI(Field(fen, 5)).value
    ensures r.Some? && |Field(fen, 3)| != 2 && Field(fen, 3) != "-" ==> !IsValid(r.value.enPassant)
  {
    var grid := Run(Start, Field(fen, 0)).grid;
    var side := if Field(fen, 1) == "w" then White else Black;
    var castling := Field(fen, 2);
    var enPassant := if Field(fen, 3) != "-" then FromAlgebraic(Field(fen, 3)) else Origin;
    var halfMove := StoI(Field(fen, 4));
    var fullMove := StoI(Field(fen, 5));
    if halfMove.None? || fullMove.None? then None
    else
      Some(BoardState(grid, side, 'K' in castling, 'Q' in castling, 'k' in castling, 'q' in castling,
                      enPassant, halfMove.value, fullMove.value))
  }

  // ---------------------------------------------------------------------------
  // Writing a record.

  /** A run of `n` empty squares: its count, or nothing when there is none. */
  function EmptyRun(n: nat): (s: string)
    ensures n == 0 ==> s == ""
    ensures 0 < n < 10 ==> s == [DigitChar(n)]
  {
    if n > 0 then IntToString(n) else ""
  }

  /** The pieces of rank `r`, files a to h. */
  function Row(g: Grid, r: int): (row: seq<Piece>)
    requires 0 <= r < 8
    ensures |row| == 8 && forall f :: 0 <= f < 8 ==> row[f] == g[Index(Position(f, r))]
  {
    g[8 * r..8 * r + 8]
  }

  /** The rest `row` of a rank, `empties` empty squares having been counted
      just before it: pieces as their FEN letters, each run of empty squares
      as its length. */
  function RowText(row: seq<Piece>, empties: nat): string
    decreases |row|
  {
    if |row| == 0 then EmptyRun(empties)
    else if IsEmpty(row[0]) then RowText(row[1..], empties + 1)
    else EmptyRun(empties) + [ToFen(row[0])] + RowText(row[1..], 0)
  }

  /** The ranks of `g` from 8 down to 1, the order in which FEN lists them. */
  function RowsDown(g: Grid): (rows: seq<seq<Piece>>)
    ensures |rows| == 8 && forall k :: 0 <= k < 8 ==> rows[k] == Row(g, 7 - k)
  {
    seq(8, k requires 0 <= k < 8 => Row(g, 7 - k))
  }

  /** Rows written one after another, separated by `/`. */
  function RowsText(rows: seq<seq<Piece>>): string
    requires |rows| > 0
    decreases |rows|
  {
    if |rows| == 1 then RowText(rows[0], 0) else RowText(rows[0], 0) + "/" + RowsText(rows[1..])
  }

  /** The piece-placement field. */
  function PlacementText(g: Grid): string {
    RowsText(RowsDown(g))
  }

  function SideText(c: Color): string {
    if c == White then "w" else "b"
  }

  function CastlingText(b: BoardState): string {
    if b.whiteKingside || b.whiteQueenside || b.blackKingside || b.blackQueenside then
      (if b.whiteKingside then "K" else "") + (if b.whiteQueenside then "Q" else "")
      + (if b.blackKingside then "k" else "") + (if b.blackQueenside then "q" else "")
    else "-"
  }

  function EnPassantText(p: Position): string {
    if IsValid(p) then ToAlgebraic(p) else "-"
  }

  /** The six fields `toFEN` writes. */
  function FenFields(b: BoardState): seq<string> {
    [PlacementText(b.grid), SideText(b.side), CastlingText(b), EnPassantText(b.enPassant),
     IntToString(b.halfMove), IntToString(b.fullMove)]
  }

  /** `toFEN`: the six fields separated by single spaces. */
  function FenText(b: BoardState): string {
    Join(FenFields(b))
  }

  // ---------------------------------------------------------------------------
  // The round trip.

  /** Every cell is the default piece or a real piece of a real colour. */
  predicate CellsCanonical(g: Grid) {
    forall i :: 0 <= i < 64 ==> g[i] == NoPiece || (!IsEmpty(g[i]) && g[i].color != NoColor)
  }

  /** Every cell is the default piece or a real piece of a real colour, and the
      clocks fit in an `int`: the boards whose FEN reads back unchanged up to
      side and en-passant normalisation. */
  predicate Canonical(b: BoardState) {
    && CellsCanonical(b.grid)
    && IntMin <= b.halfMove <= IntMax && IntMin <= b.fullMove <= IntMax
  }

  /** What reading back a written board gives: a side other than White reads
      as Black, and a missing en-passant target ("-") as the default a1. */
  function Normalized(b: BoardState): (r: BoardState)
    ensures r.grid == b.grid
    ensures r.side != NoColor && (r.side == White <==> b.side == White)
    ensures IsValid(r.enPassant) && (IsValid(b.enPassant) ==> r.enPassant == b.enPassant)
    ensures r == b.(side := r.side, enPassant := r.enPassant)
  {
    b.(side := if b.side == White then White else Black,
       enPassant := if IsValid(b.enPassant) then b.enPassant else Origin)
  }

  /** The grid `h` with the cells of rank `r` from file `x` on taken from `g`. */
  function CopyRank(h: Grid, g: Grid, r: int, x: int): (c: Grid)
    ensures forall i :: 0 <= i < 64 ==> c[i] == if i / 8 == r && i % 8 >= x then g[i] else h[i]
  {
    seq(64, i requires 0 <= i < 64 => if i / 8 == r && i % 8 >= x then g[i] else h[i])
  }

  /** The grid `h` with the cells of ranks 0 to `r` taken from `g`. */
  function CopyRanks(h: Grid, g: Grid, r: int): (c: Grid)
    ensures forall i :: 0 <= i < 64 ==> c[i] == if i / 8 <= r then g[i] else h[i]
  {
    seq(64, i requires 0 <= i < 64 => if i / 8 <= r then g[i] else h[i])
  }

  lemma ToFenIsLetter(p: Piece)
    requires !IsEmpty(p)
    ensures ToFen(p) != '/' && !IsDigit(ToFen(p)) && !IsSpace(ToFen(p))
  {
  }

  /** Rank `r` of `h` holds the default piece from file `x` on. */
  predicate RankClearFrom(h: Grid, r: int, x: int)
    requires 0 <= r < 8
  {
    forall f :: 0 <= f < 8 && x <= f ==> h[Index(Position(f, r))] == NoPiece
  }

  /** Reading `text` from file `x` of rank `r` of `h` copies the cells of rank
      `r` from file `x` on out of `g`, and ends past file h. */
  predicate ReadsRank(h: Grid, g: Grid, r: int, x: int, text: string) {
    && Fits(Cursor(h, r, x), text)
    && Run(Cursor(h, r, x), text) == Cursor(CopyRank(h, g, r, x), r, 8)
  }

  /** The end of a rank: the pending run of empty squares from file `x` to
      file h is written as one digit, and reading it skips those files. */
  lemma ReadRankEnd(h: Grid, g: Grid, r: int, x: nat, f: nat)
    requires 0 <= r < 8 && x <= f == 8 && CellsCanonical(g)
    requires forall y :: x <= y < f ==> IsEmpty(g[Index(Position(y, r))])
    requires RankClearFrom(h, r, x)
    ensures ReadsRank(h, g, r, x, EmptyRun(f - x))
  {
    var cur := Cursor(h, r, x);
    if x == f {
      assert CopyRank(h, g, r, 8) == h;
      assert Fits(cur, []) && Run(cur, []) == cur;
    } else {
      RunOne(cur, DigitChar(f - x));
      assert CopyRank(h, g, r, x) == h by {
        forall i | 0 <= i < 64 && i / 8 == r && i % 8 >= x
          ensures g[i] == h[i]
        {
          assert i == Index(Position(i % 8, r));
        }
      }
    }
  }

  /** Reading the pending digit for files `x` to `f - 1` and the letter of
      the piece on file `f` writes that piece, giving `h1`, and moves on to
      file `f1 = f + 1`. */
  lemma ReadRankLetter(h: Grid, g: Grid, r: int, x: nat, f: nat, h1: Grid, f1: nat)
    requires 0 <= r < 8 && x <= f < 8 && CellsCanonical(g)
    requires !IsEmpty(g[Index(Position(f, r))])
    requires h1 == h[Index(Position(f, r)) := g[Index(Position(f, r))]] && f1 == f + 1
    ensures
      var cur := Cursor(h, r, x);
      var text := EmptyRun(f - x) + [ToFen(g[Index(Position(f, r))])];
      Fits(cur, text) && Run(cur, text) == Cursor(h1, r, f1)
  {
    var p := g[Index(Position(f, r))];
    var c := ToFen(p);
    ToFenIsLetter(p);
    FenGlyphRoundTrip(p);
    var cur := Cursor(h, r, x);
    var mid := Cursor(h, r, f);
    if x == f {
      assert Fits(cur, []) && Run(cur, []) == cur;
    } else {
      RunOne(cur, DigitChar(f - x));
    }
    RunOne(mid, c);
    RunAppend(cur, EmptyRun(f - x), [c]);
  }

  /** Writing the piece on file `f`, giving `h1`, and then copying the rest
      of the rank from file `f1 = f + 1` on is copying it from file `x` on,
      when files `x` to `f - 1` are empty in `g` and default in `h`. */
  lemma CopyRankLetter(h: Grid, g: Grid, r: int, x: nat, f: nat, h1: Grid, f1: nat)
    requires 0 <= r < 8 && x <= f < 8
    requires forall y :: x <= y < f ==> IsEmpty(g[Index(Position(y, r))])
    requires RankClearFrom(h, r, x) && CellsCanonical(g)
    requires h1 == h[Index(Position(f, r)) := g[Index(Position(f, r))]] && f1 == f + 1
    ensures CopyRank(h1, g, r, f1) == CopyRank(h, g, r, x)
  {
    forall i | 0 <= i < 64 && i / 8 == r && x <= i % 8 <= f
      ensures CopyRank(h1, g, r, f1)[i] == g[i]
    {
      assert i == Index(Position(i % 8, r));
    }
  }

  /** The text of rank `r` from an empty file `f` on, with the pending run
      starting at file `x`, is the text from file `f1 = f + 1` on. */
  lemma RowTextGap(g: Grid, r: int, x: nat, f: nat, f1: nat)
    requires 0 <= r < 8 && x <= f < 8 && f1 == f + 1
    requires IsEmpty(g[Index(Position(f, r))])
    ensures RowText(Row(g, r)[f..], f - x) == RowText(Row(g, r)[f1..], f1 - x)
  {
    var row := Row(g, r)[f..];
    assert row[0] == g[Index(Position(f, r))] && row[1..] == Row(g, r)[f1..];
  }

  /** The text of rank `r` from a file `f` holding a piece: the pending
      digit, the piece's letter, then the text from file `f1 = f + 1` on
      with no pending run. */
  lemma RowTextPiece(g: Grid, r: int, x: nat, f: nat, f1: nat)
    requires 0 <= r < 8 && x <= f < 8 && f1 == f + 1
    requires !IsEmpty(g[Index(Position(f, r))])
    ensures RowText(Row(g, r)[f..], f - x)
         == EmptyRun(f - x) + [ToFen(g[Index(Position(f, r))])] + RowText(Row(g, r)[f1..], f1 - f1)
  {
    var row := Row(g, r)[f..];
    assert row[0] == g[Index(Position(f, r))] && row[1..] == Row(g, r)[f1..];
  }

  /** Reading one written rank, from file `x` where its pending run of empty
      squares began, with file `f` next: fills that rank from `g` from file
      `x` on and ends past file h. */
  lemma {:induction false} ReadRank(h: Grid, g: Grid, r: int, x: nat, f: nat)
    requires 0 <= r < 8 && x <= f <= 8 && CellsCanonical(g)
    requires forall y :: x <= y < f ==> IsEmpty(g[Index(Position(y, r))])
    requires RankClearFrom(h, r, x)
    ensures ReadsRank(h, g, r, x, RowText(Row(g, r)[f..], f - x))
    decreases 8 - f, 1
  {
    if f == 8 {
      ReadRankEnd(h, g, r, x, f);
      assert Row(g, r)[f..] == [];
    } else if IsEmpty(g[Index(Position(f, r))]) {
      ReadRankGapCase(h, g, r, x, f);
    } else {
      ReadRankPieceCase(h, g, r, x, f);
    }
  }

  /** The empty-square case of `ReadRank`: the run grows by one and the rest
      of the rank is read with it. */
  lemma {:induction false} ReadRankGapCase(h: Grid, g: Grid, r: int, x: nat, f: nat)
    requires 0 <= r < 8 && x <= f < 8 && CellsCanonical(g)
    requires IsEmpty(g[Index(Position(f, r))])
    requires forall y :: x <= y < f ==> IsEmpty(g[Index(Position(y, r))])
    requires RankClearFrom(h, r, x)
    ensures ReadsRank(h, g, r, x, RowText(Row(g, r)[f..], f - x))
    decreases 8 - f, 0
  {
    var f1 := f + 1;
    EmptyGapGrows(g, r, x, f, f1);
    ReadRank(h, g, r, x, f1);
    RowTextGap(g, r, x, f, f1);
  }

  /** The piece case of `ReadRank`: write the piece, read the rest of the
      rank after it, and join the two. */
  lemma {:induction false} ReadRankPieceCase(h: Grid, g: Grid, r: int, x: nat, f: nat)
    requires 0 <= r < 8 && x <= f < 8 && CellsCanonical(g)
    requires !IsEmpty(g[Index(Position(f, r))])
    requires forall y :: x <= y < f ==> IsEmpty(g[Index(Position(y, r))])
    requires RankClearFrom(h, r, x)
    ensures ReadsRank(h, g, r, x, RowText(Row(g, r)[f..], f - x))
    decreases 8 - f, 0
  {
    var h1, f1 := h[Index(Position(f, r)) := g[Index(Position(f, r))]], f + 1;
    ClearAfterWrite(h, g, r, x, f, h1, f1);
    ReadRank(h1, g, r, f1, f1);
    ReadRankJoin(h, g, r, x, f, h1, f1);
    RowTextPiece(g, r, x, f, f1);
  }

  /** An empty square on file `f` extends the run of empty squares from
      file `x` to file `f1 = f + 1`. */
  lemma EmptyGapGrows(g: Grid, r: int, x: nat, f: nat, f1: nat)
    requires 0 <= r < 8 && x <= f < 8 && f1 == f + 1
    requires IsEmpty(g[Index(Position(f, r))])
    requires forall y :: x <= y < f ==> IsEmpty(g[Index(Position(y, r))])
    ensures forall y :: x <= y < f1 ==> IsEmpty(g[Index(Position(y, r))])
  {
  }

  /** Writing the piece on file `f`, giving `h1`, keeps the rest of the rank
      clear from file `f1 = f + 1` on. */
  lemma ClearAfterWrite(h: Grid, g: Grid, r: int, x: nat, f: nat, h1: Grid, f1: nat)
    requires 0 <= r < 8 && x <= f < 8 && RankClearFrom(h, r, x)
    requires h1 == h[Index(Position(f, r)) := g[Index(Position(f, r))]] && f1 == f + 1
    ensures RankClearFrom(h1, r, f1)
  {
    forall y | 0 <= y < 8 && f1 <= y
      ensures h1[Index(Position(y, r))] == NoPiece
    {
      assert Index(Position(y, r)) != Index(Position(f, r));
    }
  }

  /** The piece on file `f` and the rest of the rank after it: reading the
      pending digit and the letter, then the rest from `h1` at file `f1`,
      copies the rank from file `x` on. */
  lemma ReadRankJoin(h: Grid, g: Grid, r: int, x: nat, f: nat, h1: Grid, f1: nat)
    requires 0 <= r < 8 && x <= f < 8 && CellsCanonical(g)
    requires !IsEmpty(g[Index(Position(f, r))])
    requires forall y :: x <= y < f ==> IsEmpty(g[Index(Position(y, r))])
    requires RankClearFrom(h, r, x)
    requires h1 == h[Index(Position(f, r)) := g[Index(Position(f, r))]] && f1 == f + 1
    requires ReadsRank(h1, g, r, f1, RowText(Row(g, r)[f1..], f1 - f1))
    ensures ReadsRank(h, g, r, x, EmptyRun(f - x) + [ToFen(g[Index(Position(f, r))])] + RowText(Row(g, r)[f1..], f1 - f1))
  {
    var text := EmptyRun(f - x) + [ToFen(g[Index(Position(f, r))])];
    ReadRankLetter(h, g, r, x, f, h1, f1);
    RunAppend(Cursor(h, r, x), text, RowText(Row(g, r)[f1..], f1 - f1));
    CopyRankLetter(h, g, r, x, f, h1, f1);
  }

  /** Ranks 0 to `r` of `h` hold the default piece. */
  predicate RanksClear(h: Grid, r: int) {
    forall i :: 0 <= i < 64 && i / 8 <= r ==> h[i] == NoPiece
  }

  /** Copying rank `r` and then ranks 0 to `r - 1` is copying ranks 0 to `r`;
      the ranks below `r` are still clear after rank `r` is copied. */
  lemma CopyRanksStep(h: Grid, g: Grid, r: int, h1: Grid, r1: int)
    requires 0 < r < 8 && RanksClear(h, r)
    requires h1 == CopyRank(h, g, r, 0) && r1 == r - 1
    ensures RanksClear(h1, r1)
    ensures CopyRanks(h1, g, r1) == CopyRanks(h, g, r)
  {
  }

  /** A rank below a clear rank is clear from file a on. */
  lemma RanksClearRank(h: Grid, r: int, q: int)
    requires 0 <= q <= r < 8 && RanksClear(h, r)
    ensures RankClearFrom(h, q, 0)
  {
    forall f | 0 <= f < 8
      ensures h[Index(Position(f, q))] == NoPiece
    {
      assert Index(Position(f, q)) / 8 == q;
    }
  }

  /** Reading a whole written rank from file a of a clear rank. */
  lemma ReadFullRank(h: Grid, g: Grid, r: int)
    requires 0 <= r < 8 && CellsCanonical(g) && RankClearFrom(h, r, 0)
    ensures ReadsRank(h, g, r, 0, RowText(Row(g, r), 0))
  {
    ReadRank(h, g, r, 0, 0);
    assert Row(g, r)[0..] == Row(g, r);
  }

  /** Reading rank `r` and the `/` after it ends at file a of rank `r - 1`. */
  lemma ReadRankSlash(h: Grid, g: Grid, r: int, h1: Grid, r1: int)
    requires 0 < r < 8 && CellsCanonical(g) && RanksClear(h, r)
    requires h1 == CopyRank(h, g, r, 0) && r1 == r - 1
    ensures
      var text := RowText(Row(g, r), 0) + "/";
      Fits(Cursor(h, r, 0), text) && Run(Cursor(h, r, 0), text) == Cursor(h1, r1, 0)
  {
    RanksClearRank(h, r, r);
    ReadFullRank(h, g, r);
    RunOne(Cursor(CopyRank(h, g, r, 0), r, 8), '/');
    RunAppend(Cursor(h, r, 0), RowText(Row(g, r), 0), "/");
  }

  lemma CopyRanksFirst(h: Grid, g: Grid)
    ensures CopyRanks(h, g, 0) == CopyRank(h, g, 0, 0)
  {
  }

  /** Reading the last rank written, rank 1. */
  lemma ReadLastRank(h: Grid, g: Grid)
    requires CellsCanonical(g) && RanksClear(h, 0)
    ensures Fits(Cursor(h, 0, 0), RowText(Row(g, 0), 0))
    ensures Run(Cursor(h, 0, 0), RowText(Row(g, 0), 0)).grid == CopyRanks(h, g, 0)
  {
    RanksClearRank(h, 0, 0);
    ReadFullRank(h, g, 0);
    CopyRanksFirst(h, g);
  }

  /** The rows written from rank `r` down: rank `r`, then a `/` and the
      rows from rank `r1 = r - 1` down. */
  lemma RowsTextFrom(g: Grid, r: int, r1: int)
    requires 0 < r < 8 && r1 == r - 1
    ensures RowsText(RowsDown(g)[7 - r..]) == RowText(Row(g, r), 0) + "/" + RowsText(RowsDown(g)[7 - r1..])
  {
    var all := RowsDown(g);
    var rows := all[7 - r..];
    assert rows[0] == all[7 - r] == Row(g, r);
    assert rows[1..] == all[7 - r1..];
    RowsTextFirst(rows);
  }

  /** The last row written is rank 1 alone. */
  lemma RowsTextLast(g: Grid)
    ensures RowsText(RowsDown(g)[7..]) == RowText(Row(g, 0), 0)
  {
    var all := RowsDown(g);
    var rows := all[7..];
    assert rows[0] == all[7] == Row(g, 0);
    RowsTextFirst(rows);
  }

  /** The first row, then a `/` and the rest when there is more than one. */
  lemma RowsTextFirst(rows: seq<seq<Piece>>)
    requires |rows| > 0
    ensures |rows| == 1 ==> RowsText(rows) == RowText(rows[0], 0)
    ensures |rows| > 1 ==> RowsText(rows) == RowText(rows[0], 0) + "/" + RowsText(rows[1..])
  {
  }

  /** Rank `r` and the `/` after it, followed by the ranks below once read
      from `h1`, the grid with rank `r` copied, at rank `r1 = r - 1`. */
  lemma ReadRanksStep(h: Grid, g: Grid, r: int, h1: Grid, r1: int)
    requires 0 < r < 8 && CellsCanonical(g) && RanksClear(h, r)
    requires h1 == CopyRank(h, g, r, 0) && r1 == r - 1
    requires Fits(Cursor(h1, r1, 0), RowsText(RowsDown(g)[7 - r1..]))
    requires Run(Cursor(h1, r1, 0), RowsText(RowsDown(g)[7 - r1..])).grid == CopyRanks(h1, g, r1)
    ensures Fits(Cursor(h, r, 0), RowsText(RowsDown(g)[7 - r..]))
    ensures Run(Cursor(h, r, 0), RowsText(RowsDown(g)[7 - r..])).grid == CopyRanks(h, g, r)
  {
    RowsTextFrom(g, r, r1);
    ReadRankSlash(h, g, r, h1, r1);
    CopyRanksStep(h, g, r, h1, r1);
    RunAppend(Cursor(h, r, 0), RowText(Row(g, r), 0) + "/", RowsText(RowsDown(g)[7 - r1..]));
  }

  /** Reading the written rows from rank `r` (row `7 - r` of `RowsDown`) down
      to rank 1 fills those ranks from `g`. */
  lemma {:induction false} ReadRanks(h: Grid, g: Grid, r: int)
    requires 0 <= r < 8 && CellsCanonical(g) && RanksClear(h, r)
    ensures Fits(Cursor(h, r, 0), RowsText(RowsDown(g)[7 - r..]))
    ensures Run(Cursor(h, r, 0), RowsText(RowsDown(g)[7 - r..])).grid == CopyRanks(h, g, r)
    decreases r, 1
  {
    if r == 0 {
      RowsTextLast(g);
      ReadLastRank(h, g);
    } else {
      ReadRanksAbove(h, g, r);
    }
  }

  /** The case of `ReadRanks` with a rank below `r`: copy rank `r`, read the
      ranks below it, and join the two. */
  lemma {:induction false} ReadRanksAbove(h: Grid, g: Grid, r: int)
    requires 0 < r < 8 && CellsCanonical(g) && RanksClear(h, r)
    ensures Fits(Cursor(h, r, 0), RowsText(RowsDown(g)[7 - r..]))
    ensures Run(Cursor(h, r, 0), RowsText(RowsDown(g)[7 - r..])).grid == CopyRanks(h, g, r)
    decreases r, 0
  {
    var h1, r1 := CopyRank(h, g, r, 0), r - 1;
    CopyRanksStep(h, g, r, h1, r1);
    ReadRanks(h1, g, r1);
    ReadRanksStep(h, g, r, h1, r1);
  }

  predicate NoSpace(s: string) {
    forall i :: 0 <= i < |s| ==> !IsSpace(s[i])
  }

  lemma NoSpaceAppend(s: string, t: string)
    requires NoSpace(s) && NoSpace(t)
    ensures NoSpace(s + t)
  {
    forall i | 0 <= i < |s + t|
      ensures !IsSpace((s + t)[i])
    {
      if i >= |s| {
        assert (s + t)[i] == t[i - |s|];
      }
    }
  }

  lemma EmptyRunNoSpace(n: nat)
    ensures NoSpace(EmptyRun(n))
    ensures n > 0 ==> |EmptyRun(n)| > 0
  {
  }

  lemma {:induction false} RowTextIsWord(row: seq<Piece>, e: nat)
    requires forall f :: 0 <= f < |row| ==> row[f] == NoPiece || !IsEmpty(row[f])
    requires e > 0 || |row| > 0
    ensures NoSpace(RowText(row, e)) && |RowText(row, e)| > 0
    decreases |row|
  {
    EmptyRunNoSpace(e);
    if |row| > 0 {
      var p := row[0];
      var rest := row[1..];
      if IsEmpty(p) {
        RowTextIsWord(rest, e + 1);
      } else {
        ToFenIsLetter(p);
        var text := RowText(rest, 0);
        if |rest| > 0 {
          RowTextIsWord(rest, 0);
        } else {
          assert text == "";
        }
        NoSpaceAppend(EmptyRun(e), [ToFen(p)]);
        NoSpaceAppend(EmptyRun(e) + [ToFen(p)], text);
      }
    }
  }

  lemma {:induction false} RowsTextIsWord(rows: seq<seq<Piece>>)
    requires |rows| > 0
    requires forall k, f :: 0 <= k < |rows| && 0 <= f < |rows[k]| ==> rows[k][f] == NoPiece || !IsEmpty(rows[k][f])
    requires forall k :: 0 <= k < |rows| ==> |rows[k]| > 0
    ensures NoSpace(RowsText(rows)) && |RowsText(rows)| > 0
    decreases |rows|
  {
    var rank := RowText(rows[0], 0);
    RowTextIsWord(rows[0], 0);
    if |rows| > 1 {
      RowsTextIsWord(rows[1..]);
      NoSpaceAppend(rank, "/");
      NoSpaceAppend(rank + "/", RowsText(rows[1..]));
    }
  }

  lemma CastlingIsWord(b: BoardState)
    ensures IsWord(CastlingText(b))
  {
  }

  lemma EnPassantIsWord(p: Position)
    ensures IsWord(EnPassantText(p))
  {
  }

  lemma FieldsAreWords(b: BoardState)
    requires CellsCanonical(b.grid)
    ensures forall k :: 0 <= k < |FenFields(b)| ==> IsWord(FenFields(b)[k])
  {
    RowsTextIsWord(RowsDown(b.grid));
    CastlingIsWord(b);
    EnPassantIsWord(b.enPassant);
  }

  /** Reading back the written fields: field `k` of the text is the `k`-th
      field written. */
  lemma FenTextFields(b: BoardState)
    requires CellsCanonical(b.grid)
    ensures forall k :: 0 <= k < 6 ==> Field(FenText(b), k) == FenFields(b)[k]
  {
    FieldsAreWords(b);
    TokensOfJoin(FenFields(b));
  }

  /** The written placement reads back as the grid it was written from. */
  lemma PlacementRoundTrip(g: Grid)
    requires CellsCanonical(g)
    ensures Fits(Start, PlacementText(g)) && Run(Start, PlacementText(g)).grid == g
  {
    ReadRanks(Start.grid, g, 7);
    assert RowsDown(g)[0..] == RowsDown(g);
    assert CopyRanks(Start.grid, g, 7) == g;
  }

  /** Each castling right is written exactly when it is held. */
  lemma CastlingRoundTrip(b: BoardState)
    ensures 'K' in CastlingText(b) <==> b.whiteKingside
    ensures 'Q' in CastlingText(b) <==> b.whiteQueenside
    ensures 'k' in CastlingText(b) <==> b.blackKingside
    ensures 'q' in CastlingText(b) <==> b.blackQueenside
  {
  }

  /** The written en-passant field reads back as the target, or as a1 when
      there is none. */
  lemma EnPassantRoundTrip(p: Position)
    ensures (if EnPassantText(p) != "-" then FromAlgebraic(EnPassantText(p)) else Origin)
      == (if IsValid(p) then p else Origin)
  {
    if IsValid(p) {
      SquareRoundTrip(p);
      assert ToAlgebraic(p)[0] != '-';
    }
  }

  /** Reading a record whose fields are those written for `b`. */
  lemma ParseWrittenFields(fen: string, b: BoardState)
    requires Canonical(b)
    requires Fits(Start, Field(fen, 0)) && Run(Start, Field(fen, 0)).grid == b.grid
    requires Field(fen, 1) == SideText(b.side) && Field(fen, 2) == CastlingText(b)
    requires Field(fen, 3) == EnPassantText(b.enPassant)
    requires Field(fen, 4) == IntToString(b.halfMove) && Field(fen, 5) == IntToString(b.fullMove)
    ensures ParseFen(fen) == Some(Normalized(b))
  {
    CastlingRoundTrip(b);
    EnPassantRoundTrip(b.enPassant);
    IntStringRoundTrip(b.halfMove);
    IntStringRoundTrip(b.fullMove);
  }

  /** Writing a canonical board and reading the text back gives the same board,
      except that a side other than White comes back as Black and a missing
      en-passant target comes back as a1. */
  lemma FenRoundTrip(b: BoardState)
    requires Canonical(b)
    ensures Fits(Start, Field(FenText(b), 0))
    ensures ParseFen(FenText(b)) == Some(Normalized(b))
  {
    var fen := FenText(b);
    FenTextFields(b);
    assert Field(fen, 0) == PlacementText(b.grid) && Field(fen, 1) == SideText(b.side);
    assert Field(fen, 2) == CastlingText(b) && Field(fen, 3) == EnPassantText(b.enPassant);
    assert Field(fen, 4) == IntToString(b.halfMove) && Field(fen, 5) == IntToString(b.fullMove);
    PlacementRoundTrip(b.grid);
    ParseWrittenFields(fen, b);
  }

  /** The other direction: parsing the text written for a canonical board and
      writing the result again gives the same text, except that a missing
      en-passant target ("-") is written back as "a1". */
  lemma ParseThenWrite(b: BoardState)
    requires Canonical(b)
    ensures Fits(Start, Field(FenText(b), 0)) && ParseFen(FenText(b)).Some?
    ensures FenText(ParseFen(FenText(b)).value) == FenText(b.(enPassant := if IsValid(b.enPassant) then b.enPassant else Origin))
    ensures IsValid(b.enPassant) ==> FenText(ParseFen(FenText(b)).value) == FenText(b)
  {
    FenRoundTrip(b);
    var n := Normalized(b);
    assert SideText(n.side) == SideText(b.side);
    assert FenFields(n) == FenFields(b.(enPassant := if IsValid(b.enPassant) then b.enPassant else Origin));
  }

    /** A record whose en-passant field is "-" writes that square back as "a1". */
  lemma DashEnPassantWritesA1(fen: string)
    requires Fits(Start, Field(fen, 0)) && ParseFen(fen).Some? && Field(fen, 3) == "-"
    ensures EnPassantText(ParseFen(fen).value.enPassant) == "a1"
  {
  }

  // ---------------------------------------------------------------------------
  // `toFEN` as a loop.

  /** The file loop of `toFEN` for rank `r`, appending to `out0`. */
  method WriteRank(g: Grid, r: int, out0: string) returns (out: string)
    requires 0 <= r < 8
    ensures out == out0 + RowText(Row(g, r), 0)
  {
    var row := Row(g, r);
    out := out0;
    var emptyCount: nat := 0;
    for file := 0 to 8
      invariant out + RowText(row[file..], emptyCount) == out0 + RowText(row, 0)
    {
      var piece := g[Index(Position(file, r))];
      assert row[file..][0] == piece && row[file..][1..] == row[file + 1..];
      if IsEmpty(piece) {
        emptyCount := emptyCount + 1;
      } else {
        var run := EmptyRun(emptyCount);
        AppendAssoc(out, run + [ToFen(piece)], RowText(row[file + 1..], 0));
        out := out + (run + [ToFen(piece)]);
        emptyCount := 0;
      }
    }
    assert row[8..] == [];
    out := out + EmptyRun(emptyCount);
  }

  /** The rank loop of `toFEN`: ranks 8 down to 1, `/` between them. */
  method WritePlacement(g: Grid) returns (out: string)
    ensures out == PlacementText(g)
  {
    var rows := RowsDown(g);
    out := "";
    var rank := 7;
    while rank >= 0
      invariant -1 <= rank < 8
      invariant rank >= 0 ==> out + RowsText(rows[7 - rank..]) == PlacementText(g)
      invariant rank < 0 ==> out == PlacementText(g)
      decreases rank + 1
    {
      var rest := rows[7 - rank..];
      assert rest[0] == Row(g, rank);
      var before := out;
      out := WriteRank(g, rank, out);
      if rank > 0 {
        assert rest[1..] == rows[7 - (rank - 1)..];
        AppendAssoc(before, RowText(rest[0], 0) + "/", RowsText(rest[1..]));
        AppendAssoc(before, RowText(rest[0], 0), "/");
        out := out + "/";
      }
      rank := rank - 1;
    }
  }

  /** The castling field of `toFEN`. */
  method WriteCastling(b: BoardState) returns (castling: string)
    ensures castling == CastlingText(b)
  {
    castling := "";
    if b.whiteKingside || b.whiteQueenside || b.blackKingside || b.blackQueenside {
      if b.whiteKingside { castling := castling + "K"; }
      if b.whiteQueenside { castling := castling + "Q"; }
      if b.blackKingside { castling := castling + "k"; }
      if b.blackQueenside { castling := castling + "q"; }
    } else {
      castling := "-";
    }
  }

  /** `toFEN`. */
  method WriteFen(b: BoardState) returns (fen: string)
    ensures fen == FenText(b)
  {
    var placement := WritePlacement(b.grid);
    var castling := WriteCastling(b);
    var enPassant := if IsValid(b.enPassant) then ToAlgebraic(b.enPassant) else "-";
    fen := Join([placement, SideText(b.side), castling, enPassant, IntToString(b.halfMove), IntToString(b.fullMove)]);
  }
}
