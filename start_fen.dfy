/** The standard starting position written as FEN, read back and written again.
    Reading "-" as the en-passant field leaves the target at its default, a1,
    and the writer prints every on-board target, so the text written the second
    time differs from the first in that field (src/chess/board.cpp). */
module StartFen {
  import opened Pieces
  import opened Notation
  import opened Grids
  import opened Fen
  import opened Text
  import opened Options
  import Evaluation

  /** A run of empty squares is written as one count. */
  lemma {:induction false} RowTextEmpties(row: seq<Piece>, e: nat)
    requires forall i :: 0 <= i < |row| ==> IsEmpty(row[i])
    ensures RowText(row, e) == EmptyRun(e + |row|)
    decreases |row|
  {
    if |row| > 0 {
      RowTextEmpties(row[1..], e + 1);
    }
  }

  /** A rank with no empty square is written as its letters. */
  lemma {:induction false} RowTextPieces(row: seq<Piece>, text: string)
    requires |row| == |text|
    requires forall i :: 0 <= i < |row| ==> !IsEmpty(row[i]) && ToFen(row[i]) == text[i]
    ensures RowText(row, 0) == text
    decreases |row|
  {
    if |row| > 0 {
      RowTextPieces(row[1..], text[1..]);
      assert text == [text[0]] + text[1..];
    }
  }

  /** Rank `r` of the starting grid, square by square. */
  lemma StartRow(r: int)
    requires 0 <= r < 8
    ensures forall f :: 0 <= f < 8 ==> Row(Evaluation.StartBoard().grid, r)[f] == Evaluation.StartPiece(Position(f, r))
  {
    forall f | 0 <= f < 8
      ensures Row(Evaluation.StartBoard().grid, r)[f] == Evaluation.StartPiece(Position(f, r))
    {
      SquareOfIndex(Position(f, r));
    }
  }

  /** A rank of the starting grid whose every square holds a piece, `text[f]`
      being the letter of the piece on file `f`. */
  lemma RankLetters(r: int, text: string)
    requires 0 <= r < 8 && |text| == 8
    requires forall f :: 0 <= f < 8 ==> !IsEmpty(Evaluation.StartPiece(Position(f, r))) && ToFen(Evaluation.StartPiece(Position(f, r))) == text[f]
    ensures RowText(Row(Evaluation.StartBoard().grid, r), 0) == text
  {
    StartRow(r);
    RowTextPieces(Row(Evaluation.StartBoard().grid, r), text);
  }

  lemma EmptyRankText(r: int)
    requires 2 <= r < 6
    ensures RowText(Row(Evaluation.StartBoard().grid, r), 0) == "8"
  {
    StartRow(r);
    RowTextEmpties(Row(Evaluation.StartBoard().grid, r), 0);
  }

  lemma BackRankLetters(c: Color, text: string)
    requires c == White ==> text == "RNBQKBNR"
    requires c != White ==> text == "rnbqkbnr"
    ensures forall f :: 0 <= f < 8 ==> ToFen(Piece(Evaluation.BackRank(f), c)) == text[f]
  {
  }

  lemma WhiteBackText()
    ensures RowText(Row(Evaluation.StartBoard().grid, 0), 0) == "RNBQKBNR"
  {
    BackRankLetters(White, "RNBQKBNR");
    RankLetters(0, "RNBQKBNR");
  }

  lemma BlackBackText()
    ensures RowText(Row(Evaluation.StartBoard().grid, 7), 0) == "rnbqkbnr"
  {
    BackRankLetters(Black, "rnbqkbnr");
    RankLetters(7, "rnbqkbnr");
  }

  lemma WhitePawnText()
    ensures RowText(Row(Evaluation.StartBoard().grid, 1), 0) == "PPPPPPPP"
  {
    RankLetters(1, "PPPPPPPP");
  }

  lemma BlackPawnText()
    ensures RowText(Row(Evaluation.StartBoard().grid, 6), 0) == "pppppppp"
  {
    RankLetters(6, "pppppppp");
  }

  lemma RowsTextCons(rows: seq<seq<Piece>>, k: nat)
    requires k + 1 < |rows|
    ensures RowsText(rows[k..]) == RowText(rows[k], 0) + "/" + RowsText(rows[k + 1..])
  {
    assert rows[k..][0] == rows[k];
    assert rows[k..][1..] == rows[k + 1..];
  }

  /** The placement field of a grid, from the texts of its eight ranks, rank 8
      first. */
  lemma PlacementOfRanks(g: Grid, r8: string, r7: string, r6: string, r5: string,
                                  r4: string, r3: string, r2: string, r1: string)
    requires RowText(Row(g, 7), 0) == r8 && RowText(Row(g, 6), 0) == r7
    requires RowText(Row(g, 5), 0) == r6 && RowText(Row(g, 4), 0) == r5
    requires RowText(Row(g, 3), 0) == r4 && RowText(Row(g, 2), 0) == r3
    requires RowText(Row(g, 1), 0) == r2 && RowText(Row(g, 0), 0) == r1
    ensures PlacementText(g) == r8 + "/" + (r7 + "/" + (r6 + "/" + (r5 + "/" + (r4 + "/" + (r3 + "/" + (r2 + "/" + r1))))))
  {
    var rows := RowsDown(g);
    assert rows[7..] == [rows[7]];
    RowsTextCons(rows, 6);
    RowsTextCons(rows, 5);
    RowsTextCons(rows, 4);
    RowsTextCons(rows, 3);
    RowsTextCons(rows, 2);
    RowsTextCons(rows, 1);
    RowsTextCons(rows, 0);
    assert rows[0..] == rows;
  }

  /** The eight ranks of the starting position joined into its placement field. */
  lemma StartRanksJoined(r8: string, r7: string, e: string, r2: string, r1: string)
    requires r8 == "rnbqkbnr" && r7 == "pppppppp" && e == "8" && r2 == "PPPPPPPP" && r1 == "RNBQKBNR"
    ensures r8 + "/" + (r7 + "/" + (e + "/" + (e + "/" + (e + "/" + (e + "/" + (r2 + "/" + r1))))))
      == "rnbqkbnr/pppppppp/8/8/8/8/PPPPPPPP/RNBQKBNR"
  {
  }

  lemma StartPlacement()
    ensures PlacementText(Evaluation.StartBoard().grid) == "rnbqkbnr/pppppppp/8/8/8/8/PPPPPPPP/RNBQKBNR"
  {
    var g := Evaluation.StartBoard().grid;
    BlackBackText();
    BlackPawnText();
    EmptyRankText(5);
    EmptyRankText(4);
    EmptyRankText(3);
    EmptyRankText(2);
    WhitePawnText();
    WhiteBackText();
    PlacementOfRanks(g, "rnbqkbnr", "pppppppp", "8", "8", "8", "8", "PPPPPPPP", "RNBQKBNR");
    StartRanksJoined("rnbqkbnr", "pppppppp", "8", "PPPPPPPP", "RNBQKBNR");
  }

  lemma JoinCons(ws: seq<string>, k: nat)
    requires k + 1 < |ws|
    ensures Join(ws[k..]) == ws[k] + " " + Join(ws[k + 1..])
  {
    assert ws[k..][0] == ws[k];
    assert ws[k..][1..] == ws[k + 1..];
  }

  /** Six fields joined by single spaces. */
  lemma JoinSix(ws: seq<string>)
    requires |ws| == 6
    ensures Join(ws) == ws[0] + " " + (ws[1] + " " + (ws[2] + " " + (ws[3] + " " + (ws[4] + " " + ws[5]))))
  {
    assert ws[5..] == [ws[5]];
    JoinCons(ws, 4);
    JoinCons(ws, 3);
    JoinCons(ws, 2);
    JoinCons(ws, 1);
    JoinCons(ws, 0);
    assert ws[0..] == ws;
  }

  /** The starting position as a FEN string, and as it is written again after
      being read: the missing en-passant target comes back as "a1". */
  const StartText := "rnbqkbnr/pppppppp/8/8/8/8/PPPPPPPP/RNBQKBNR w KQkq - 0 1"
  const StartTextRewritten := "rnbqkbnr/pppppppp/8/8/8/8/PPPPPPPP/RNBQKBNR w KQkq a1 0 1"

  lemma StartFieldsJoined(p: string, ep: string)
    requires p == "rnbqkbnr/pppppppp/8/8/8/8/PPPPPPPP/RNBQKBNR"
    ensures ep == "-" ==> p + " " + ("w" + " " + ("KQkq" + " " + (ep + " " + ("0" + " " + "1")))) == StartText
    ensures ep == "a1" ==> p + " " + ("w" + " " + ("KQkq" + " " + (ep + " " + ("0" + " " + "1")))) == StartTextRewritten
  {
  }

  /** The text written for a board with White to move, every castling right and
      clocks 0 and 1, from the texts of its placement and en-passant fields. */
  lemma StartFields(b: BoardState, p: string, ep: string)
    requires b.side == White && b.whiteKingside && b.whiteQueenside && b.blackKingside && b.blackQueenside
    requires b.halfMove == 0 && b.fullMove == 1
    requires PlacementText(b.grid) == p && EnPassantText(b.enPassant) == ep
    ensures FenText(b) == p + " " + ("w" + " " + ("KQkq" + " " + (ep + " " + ("0" + " " + "1"))))
  {
    JoinSix(FenFields(b));
  }

  lemma StartBoardFields()
    ensures var b := Evaluation.StartBoard();
      && b.side == White && b.whiteKingside && b.whiteQueenside && b.blackKingside && b.blackQueenside
      && b.halfMove == 0 && b.fullMove == 1 && b.enPassant == Origin
  {
  }

  lemma StartCanonical()
    ensures Canonical(Evaluation.StartBoard())
  {
    var g := Evaluation.StartBoard().grid;
    forall i | 0 <= i < 64
      ensures g[i] == NoPiece || (!IsEmpty(g[i]) && g[i].color != NoColor)
    {
      Evaluation.StartPieceAt(SquareOf(i));
      Evaluation.StartPieceMirror(SquareOf(i));
    }
  }

  /** Writing the starting position with no en-passant target gives the usual
      starting FEN; reading that text gives the starting position with the
      target at a1, which is then written as "a1" rather than "-". */
  lemma StartFenRewritten()
    ensures FenText(Evaluation.StartBoard().(enPassant := NoSquare)) == StartText
    ensures Fits(Start, Field(StartText, 0))
    ensures ParseFen(StartText) == Some(Evaluation.StartBoard())
    ensures FenText(ParseFen(StartText).value) == StartTextRewritten
  {
    var b := Evaluation.StartBoard();
    var b0 := b.(enPassant := NoSquare);
    var p := PlacementText(b.grid);
    StartPlacement();
    StartBoardFields();
    StartFields(b0, p, "-");
    StartFieldsJoined(p, "-");
    assert ToAlgebraic(Origin) == "a1";
    StartFields(b, p, "a1");
    StartFieldsJoined(p, "a1");
    StartCanonical();
    FenRoundTrip(b0);
    assert Normalized(b0) == b;
  }
}
