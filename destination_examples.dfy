/** The destinations of a rook and a bishop placed on c4 of the starting
    position, and the field tests on that position (chess/game.py). */
module DestinationExamples {
  import opened Colors
  import opened Fields
  import opened Figures
  import opened FigureMoves
  import opened Boards
  import opened Games

  /** Empty fields in front of an occupied one (or of nothing) are the
      line's empty prefix. */
  lemma {:induction false} EmptyPrefixOfSplit(board: Board, empty: seq<Field>, rest: seq<Field>)
    requires forall i | 0 <= i < |empty| :: IsFieldEmpty(board, empty[i])
    requires rest != [] ==> !IsFieldEmpty(board, rest[0])
    ensures EmptyPrefix(board, empty + rest) == empty
  {
    if empty == [] {
      assert empty + rest == rest;
    } else {
      assert (empty + rest)[1..] == empty[1..] + rest;
      EmptyPrefixOfSplit(board, empty[1..], rest);
    }
  }

  /** A line made of empty fields followed by an occupied one (or by nothing)
      has a capture exactly when that field holds an enemy figure. */
  lemma SplitCapture(board: Board, color: Color, empty: seq<Field>, rest: seq<Field>)
    requires forall i | 0 <= i < |empty| :: IsFieldEmpty(board, empty[i])
    requires rest != [] ==> !IsFieldEmpty(board, rest[0])
    ensures CaptureOnLine(board, color, empty + rest) ==
      if rest != [] && HasEnemyFigure(board, color, rest[0]) then [rest[0]] else []
  {
    EmptyPrefixOfSplit(board, empty, rest);
    if rest != [] {
      assert (empty + rest)[|empty|] == rest[0];
      var capture := CaptureOnLine(board, color, empty + rest);
      if capture != [] {
        assert capture == [rest[0]];
      }
    }
  }

  /** Such a line has a defended field exactly when that field holds a figure
      of the same color. */
  lemma SplitDefended(board: Board, color: Color, empty: seq<Field>, rest: seq<Field>)
    requires forall i | 0 <= i < |empty| :: IsFieldEmpty(board, empty[i])
    requires rest != [] ==> !IsFieldEmpty(board, rest[0])
    ensures DefendedOnLine(board, color, empty + rest) ==
      if rest != [] && HasSameColorFigure(board, color, rest[0]) then [rest[0]] else []
  {
    EmptyPrefixOfSplit(board, empty, rest);
    if rest != [] {
      assert (empty + rest)[|empty|] == rest[0];
      var defended := DefendedOnLine(board, color, empty + rest);
      if defended != [] {
        assert defended == [rest[0]];
      }
    }
  }

  /** A line made of empty fields followed by an occupied one (or by nothing):
      the empty fields are its free fields, and the occupied field is the one
      tested for a capture and for a defended figure. */
  lemma SplitLine(board: Board, color: Color, empty: seq<Field>, rest: seq<Field>)
    requires forall i | 0 <= i < |empty| :: IsFieldEmpty(board, empty[i])
    requires rest != [] ==> !IsFieldEmpty(board, rest[0])
    ensures EmptyPrefix(board, empty + rest) == empty
    ensures CaptureOnLine(board, color, empty + rest) ==
      if rest != [] && HasEnemyFigure(board, color, rest[0]) then [rest[0]] else []
    ensures DefendedOnLine(board, color, empty + rest) ==
      if rest != [] && HasSameColorFigure(board, color, rest[0]) then [rest[0]] else []
  {
    EmptyPrefixOfSplit(board, empty, rest);
    SplitCapture(board, color, empty, rest);
    SplitDefended(board, color, empty, rest);
  }


  /** The free destinations of four lines, line after line. */
  lemma FourLinesFree(board: Board, a: seq<Field>, b: seq<Field>, c: seq<Field>, d: seq<Field>)
    ensures FreeDestinations(board, [a, b, c, d]) ==
      EmptyPrefix(board, a) + (EmptyPrefix(board, b) + (EmptyPrefix(board, c) + EmptyPrefix(board, d)))
  {
    var s1 := [a, b, c, d][1..];
    var s2 := s1[1..];
    var s3 := s2[1..];
    assert s3[1..] == [];
    assert FreeDestinations(board, s3) == EmptyPrefix(board, d);
    assert FreeDestinations(board, s2) == EmptyPrefix(board, c) + FreeDestinations(board, s3);
    assert FreeDestinations(board, s1) == EmptyPrefix(board, b) + FreeDestinations(board, s2);
  }

  /** The capture destinations of four lines, line after line. */
  lemma FourLinesCapture(board: Board, color: Color, a: seq<Field>, b: seq<Field>, c: seq<Field>, d: seq<Field>)
    ensures CaptureDestinations(board, color, [a, b, c, d]) ==
      CaptureOnLine(board, color, a) + (CaptureOnLine(board, color, b) + (CaptureOnLine(board, color, c) + CaptureOnLine(board, color, d)))
  {
    var s1 := [a, b, c, d][1..];
    var s2 := s1[1..];
    var s3 := s2[1..];
    assert s3[1..] == [];
    assert CaptureDestinations(board, color, s3) == CaptureOnLine(board, color, d);
    assert CaptureDestinations(board, color, s2) == CaptureOnLine(board, color, c) + CaptureDestinations(board, color, s3);
    assert CaptureDestinations(board, color, s1) == CaptureOnLine(board, color, b) + CaptureDestinations(board, color, s2);
  }

  /** The defended destinations of four lines, line after line. */
  lemma FourLinesDefended(board: Board, color: Color, a: seq<Field>, b: seq<Field>, c: seq<Field>, d: seq<Field>)
    ensures DefendedDestinations(board, color, [a, b, c, d]) ==
      DefendedOnLine(board, color, a) + (DefendedOnLine(board, color, b) + (DefendedOnLine(board, color, c) + DefendedOnLine(board, color, d)))
  {
    var s1 := [a, b, c, d][1..];
    var s2 := s1[1..];
    var s3 := s2[1..];
    assert s3[1..] == [];
    assert DefendedDestinations(board, color, s3) == DefendedOnLine(board, color, d);
    assert DefendedDestinations(board, color, s2) == DefendedOnLine(board, color, c) + DefendedDestinations(board, color, s3);
    assert DefendedDestinations(board, color, s1) == DefendedOnLine(board, color, b) + DefendedDestinations(board, color, s2);
  }

  /** The rows of the starting position that the examples look at. */
  lemma StartingRows()
    ensures forall c, r | 1 <= c <= 8 && 3 <= r <= 6 :: IsFieldEmpty(StartingBoard(), Field(c, r))
    ensures forall c | 1 <= c <= 8 :: HasSameColorFigure(StartingBoard(), White, Field(c, 1))
    ensures forall c | 1 <= c <= 8 :: HasSameColorFigure(StartingBoard(), White, Field(c, 2))
    ensures forall c | 1 <= c <= 8 :: HasEnemyFigure(StartingBoard(), White, Field(c, 7))
    ensures forall c | 1 <= c <= 8 :: HasEnemyFigure(StartingBoard(), White, Field(c, 8))
  {
    StartingBoardLayout();
    forall c | 1 <= c <= 8
      ensures (c, 1) in StartingKeys() && (c, 2) in StartingKeys() && (c, 7) in StartingKeys() && (c, 8) in StartingKeys()
    {
    }
  }

  /** The field tests on the starting position, from White's side: b2 holds
      a White figure, b3 and c4 are empty, b7 holds a Black figure. */
  lemma FieldTestExamples()
    ensures !IsFieldEmpty(StartingBoard(), Field(2, 2)) && IsFieldEmpty(StartingBoard(), Field(2, 3))
    ensures !HasEnemyFigure(StartingBoard(), White, Field(3, 4))
    ensures HasEnemyFigure(StartingBoard(), White, Field(2, 7))
    ensures !HasEnemyFigure(StartingBoard(), White, Field(2, 2))
    ensures !HasSameColorFigure(StartingBoard(), White, Field(3, 4))
    ensures !HasSameColorFigure(StartingBoard(), White, Field(2, 7))
    ensures HasSameColorFigure(StartingBoard(), White, Field(2, 2))
  {
    StartingRows();
  }

  /** The rook on c4, line 0: right to h4. */
  lemma RookOnC4Line0()
    ensures RelativeFields(Field(3, 4), RookLines()[0]) == [Field(4, 4), Field(5, 4), Field(6, 4), Field(7, 4), Field(8, 4)]
  {
    RookLinesShape();
    ProjectStepsUnique(Field(3, 4), Steps(RookLines()[0]), [Field(4, 4), Field(5, 4), Field(6, 4), Field(7, 4), Field(8, 4)]);
  }

  /** The rook on c4, line 1: left to a4. */
  lemma RookOnC4Line1()
    ensures RelativeFields(Field(3, 4), RookLines()[1]) == [Field(2, 4), Field(1, 4)]
  {
    RookLinesShape();
    ProjectStepsUnique(Field(3, 4), Steps(RookLines()[1]), [Field(2, 4), Field(1, 4)]);
  }

  /** The rook on c4, line 2: up to c8. */
  lemma RookOnC4Line2()
    ensures RelativeFields(Field(3, 4), RookLines()[2]) == [Field(3, 5), Field(3, 6), Field(3, 7), Field(3, 8)]
  {
    RookLinesShape();
    ProjectStepsUnique(Field(3, 4), Steps(RookLines()[2]), [Field(3, 5), Field(3, 6), Field(3, 7), Field(3, 8)]);
  }

  /** The rook on c4, line 3: down to c1. */
  lemma RookOnC4Line3()
    ensures RelativeFields(Field(3, 4), RookLines()[3]) == [Field(3, 3), Field(3, 2), Field(3, 1)]
  {
    RookLinesShape();
    ProjectStepsUnique(Field(3, 4), Steps(RookLines()[3]), [Field(3, 3), Field(3, 2), Field(3, 1)]);
  }

  /** The lines of a rook on c4. */
  lemma RookOnC4Lines()
    ensures FigureMoves.FigureMoves(Figure(Rook, White), Field(3, 4), false) ==
      [[Field(4, 4), Field(5, 4), Field(6, 4), Field(7, 4), Field(8, 4)],
       [Field(2, 4), Field(1, 4)],
       [Field(3, 5), Field(3, 6), Field(3, 7), Field(3, 8)],
       [Field(3, 3), Field(3, 2), Field(3, 1)]]
  {
    var fieldss := [[Field(4, 4), Field(5, 4), Field(6, 4), Field(7, 4), Field(8, 4)],
      [Field(2, 4), Field(1, 4)],
      [Field(3, 5), Field(3, 6), Field(3, 7), Field(3, 8)],
      [Field(3, 3), Field(3, 2), Field(3, 1)]];
    forall i | 0 <= i < 4
      ensures RelativeFields(Field(3, 4), RookLines()[i]) == fieldss[i]
    {
      if i == 0 { RookOnC4Line0(); }
      else if i == 1 { RookOnC4Line1(); }
      else if i == 2 { RookOnC4Line2(); }
      else { RookOnC4Line3(); }
    }
    FigureMovesAre(Figure(Rook, White), Field(3, 4), false, fieldss);
  }

  /** The bishop on c4, line 0: up and right to g8. */
  lemma BishopOnC4Line0()
    ensures RelativeFields(Field(3, 4), BishopLines()[0]) == [Field(4, 5), Field(5, 6), Field(6, 7), Field(7, 8)]
  {
    BishopLinesShape();
    ProjectStepsUnique(Field(3, 4), Steps(BishopLines()[0]), [Field(4, 5), Field(5, 6), Field(6, 7), Field(7, 8)]);
  }

  /** The bishop on c4, line 1: up and left to a6. */
  lemma BishopOnC4Line1()
    ensures RelativeFields(Field(3, 4), BishopLines()[1]) == [Field(2, 5), Field(1, 6)]
  {
    BishopLinesShape();
    ProjectStepsUnique(Field(3, 4), Steps(BishopLines()[1]), [Field(2, 5), Field(1, 6)]);
  }

  /** The bishop on c4, line 2: down and right to f1. */
  lemma BishopOnC4Line2()
    ensures RelativeFields(Field(3, 4), BishopLines()[2]) == [Field(4, 3), Field(5, 2), Field(6, 1)]
  {
    BishopLinesShape();
    ProjectStepsUnique(Field(3, 4), Steps(BishopLines()[2]), [Field(4, 3), Field(5, 2), Field(6, 1)]);
  }

  /** The bishop on c4, line 3: down and left to a2. */
  lemma BishopOnC4Line3()
    ensures RelativeFields(Field(3, 4), BishopLines()[3]) == [Field(2, 3), Field(1, 2)]
  {
    BishopLinesShape();
    ProjectStepsUnique(Field(3, 4), Steps(BishopLines()[3]), [Field(2, 3), Field(1, 2)]);
  }

  /** The lines of a bishop on c4. */
  lemma BishopOnC4Lines()
    ensures FigureMoves.FigureMoves(Figure(Bishop, White), Field(3, 4), false) ==
      [[Field(4, 5), Field(5, 6), Field(6, 7), Field(7, 8)],
       [Field(2, 5), Field(1, 6)],
       [Field(4, 3), Field(5, 2), Field(6, 1)],
       [Field(2, 3), Field(1, 2)]]
  {
    var fieldss := [[Field(4, 5), Field(5, 6), Field(6, 7), Field(7, 8)],
      [Field(2, 5), Field(1, 6)],
      [Field(4, 3), Field(5, 2), Field(6, 1)],
      [Field(2, 3), Field(1, 2)]];
    forall i | 0 <= i < 4
      ensures RelativeFields(Field(3, 4), BishopLines()[i]) == fieldss[i]
    {
      if i == 0 { BishopOnC4Line0(); }
      else if i == 1 { BishopOnC4Line1(); }
      else if i == 2 { BishopOnC4Line2(); }
      else { BishopOnC4Line3(); }
    }
    FigureMovesAre(Figure(Bishop, White), Field(3, 4), false, fieldss);
  }

  /** The fields around c4 that the examples reach: the fields a rook or a
      bishop passes over are empty, the pawns on a2, c2 and e2 belong to the
      side to move, and the pawns on c7 and f7 to its opponent. */
  predicate AroundC4(board: Board) {
    IsFieldEmpty(board, Field(4, 4)) && IsFieldEmpty(board, Field(5, 4)) && IsFieldEmpty(board, Field(6, 4)) &&
    IsFieldEmpty(board, Field(7, 4)) && IsFieldEmpty(board, Field(8, 4)) && IsFieldEmpty(board, Field(2, 4)) &&
    IsFieldEmpty(board, Field(1, 4)) && IsFieldEmpty(board, Field(3, 5)) && IsFieldEmpty(board, Field(3, 6)) &&
    IsFieldEmpty(board, Field(3, 3)) && IsFieldEmpty(board, Field(4, 5)) && IsFieldEmpty(board, Field(5, 6)) &&
    IsFieldEmpty(board, Field(2, 5)) && IsFieldEmpty(board, Field(1, 6)) && IsFieldEmpty(board, Field(4, 3)) &&
    IsFieldEmpty(board, Field(2, 3)) &&
    HasSameColorFigure(board, White, Field(1, 2)) && HasSameColorFigure(board, White, Field(3, 2)) &&
    HasSameColorFigure(board, White, Field(5, 2)) &&
    HasEnemyFigure(board, White, Field(3, 7)) && HasEnemyFigure(board, White, Field(6, 7))
  }

  /** The starting position has those fields as described. */
  lemma StartingAroundC4()
    ensures AroundC4(StartingBoard())
  {
    StartingRows();
  }

  /** On such a board, every field of line 0 of a rook on c4 is free. */
  lemma RookOnC4Line0Classes(board: Board)
    requires AroundC4(board)
    ensures EmptyPrefix(board, [Field(4, 4), Field(5, 4), Field(6, 4), Field(7, 4), Field(8, 4)]) == [Field(4, 4), Field(5, 4), Field(6, 4), Field(7, 4), Field(8, 4)]
    ensures CaptureOnLine(board, White, [Field(4, 4), Field(5, 4), Field(6, 4), Field(7, 4), Field(8, 4)]) == []
    ensures DefendedOnLine(board, White, [Field(4, 4), Field(5, 4), Field(6, 4), Field(7, 4), Field(8, 4)]) == []
  {
    SplitLine(board, White, [Field(4, 4), Field(5, 4), Field(6, 4), Field(7, 4), Field(8, 4)], []);
    assert [Field(4, 4), Field(5, 4), Field(6, 4), Field(7, 4), Field(8, 4)] + [] == [Field(4, 4), Field(5, 4), Field(6, 4), Field(7, 4), Field(8, 4)];
  }

  /** On such a board, every field of line 1 of a rook on c4 is free. */
  lemma RookOnC4Line1Classes(board: Board)
    requires AroundC4(board)
    ensures EmptyPrefix(board, [Field(2, 4), Field(1, 4)]) == [Field(2, 4), Field(1, 4)]
    ensures CaptureOnLine(board, White, [Field(2, 4), Field(1, 4)]) == []
    ensures DefendedOnLine(board, White, [Field(2, 4), Field(1, 4)]) == []
  {
    SplitLine(board, White, [Field(2, 4), Field(1, 4)], []);
    assert [Field(2, 4), Field(1, 4)] + [] == [Field(2, 4), Field(1, 4)];
  }

  /** On such a board, line 2 of a rook on c4 is free up to c7, where it captures. */
  lemma RookOnC4Line2Classes(board: Board)
    requires AroundC4(board)
    ensures EmptyPrefix(board, [Field(3, 5), Field(3, 6), Field(3, 7), Field(3, 8)]) == [Field(3, 5), Field(3, 6)]
    ensures CaptureOnLine(board, White, [Field(3, 5), Field(3, 6), Field(3, 7), Field(3, 8)]) == [Field(3, 7)]
    ensures DefendedOnLine(board, White, [Field(3, 5), Field(3, 6), Field(3, 7), Field(3, 8)]) == []
  {
    SplitLine(board, White, [Field(3, 5), Field(3, 6)], [Field(3, 7), Field(3, 8)]);
    assert [Field(3, 5), Field(3, 6)] + [Field(3, 7), Field(3, 8)] == [Field(3, 5), Field(3, 6), Field(3, 7), Field(3, 8)];
  }

  /** On such a board, line 3 of a rook on c4 is free up to c2, which it defends. */
  lemma RookOnC4Line3Classes(board: Board)
    requires AroundC4(board)
    ensures EmptyPrefix(board, [Field(3, 3), Field(3, 2), Field(3, 1)]) == [Field(3, 3)]
    ensures CaptureOnLine(board, White, [Field(3, 3), Field(3, 2), Field(3, 1)]) == []
    ensures DefendedOnLine(board, White, [Field(3, 3), Field(3, 2), Field(3, 1)]) == [Field(3, 2)]
  {
    SplitLine(board, White, [Field(3, 3)], [Field(3, 2), Field(3, 1)]);
    assert [Field(3, 3)] + [Field(3, 2), Field(3, 1)] == [Field(3, 3), Field(3, 2), Field(3, 1)];
  }

  /** On such a board, the free destinations of a rook on c4. */
  lemma RookOnC4Free(board: Board)
    requires AroundC4(board)
    ensures FreeDestinations(board, FigureMoves.FigureMoves(Figure(Rook, White), Field(3, 4), false)) == [Field(4, 4), Field(5, 4), Field(6, 4), Field(7, 4), Field(8, 4), Field(2, 4), Field(1, 4), Field(3, 5), Field(3, 6), Field(3, 3)]
  {
    assert FreeDestinations(board, [[Field(4, 4), Field(5, 4), Field(6, 4), Field(7, 4), Field(8, 4)], [Field(2, 4), Field(1, 4)], [Field(3, 5), Field(3, 6), Field(3, 7), Field(3, 8)], [Field(3, 3), Field(3, 2), Field(3, 1)]]) == [Field(4, 4), Field(5, 4), Field(6, 4), Field(7, 4), Field(8, 4)] + ([Field(2, 4), Field(1, 4)] + ([Field(3, 5), Field(3, 6)] + [Field(3, 3)])) by {
      RookOnC4Line0Classes(board);
      RookOnC4Line1Classes(board);
      RookOnC4Line2Classes(board);
      RookOnC4Line3Classes(board);
      FourLinesFree(board, [Field(4, 4), Field(5, 4), Field(6, 4), Field(7, 4), Field(8, 4)], [Field(2, 4), Field(1, 4)], [Field(3, 5), Field(3, 6), Field(3, 7), Field(3, 8)], [Field(3, 3), Field(3, 2), Field(3, 1)]);
    }
    assert [Field(4, 4), Field(5, 4), Field(6, 4), Field(7, 4), Field(8, 4)] + ([Field(2, 4), Field(1, 4)] + ([Field(3, 5), Field(3, 6)] + [Field(3, 3)])) == [Field(4, 4), Field(5, 4), Field(6, 4), Field(7, 4), Field(8, 4), Field(2, 4), Field(1, 4), Field(3, 5), Field(3, 6), Field(3, 3)];
    RookOnC4Lines();
  }

  /** On such a board, the capture destinations of a rook on c4. */
  lemma RookOnC4Captures(board: Board)
    requires AroundC4(board)
    ensures CaptureDestinations(board, White, FigureMoves.FigureMoves(Figure(Rook, White), Field(3, 4), false)) == [Field(3, 7)]
  {
    RookOnC4Lines();
    RookOnC4Line0Classes(board);
    RookOnC4Line1Classes(board);
    RookOnC4Line2Classes(board);
    RookOnC4Line3Classes(board);
    FourLinesCapture(board, White, [Field(4, 4), Field(5, 4), Field(6, 4), Field(7, 4), Field(8, 4)], [Field(2, 4), Field(1, 4)], [Field(3, 5), Field(3, 6), Field(3, 7), Field(3, 8)], [Field(3, 3), Field(3, 2), Field(3, 1)]);
  }

  /** On such a board, the defended fields of a rook on c4. */
  lemma RookOnC4Defended(board: Board)
    requires AroundC4(board)
    ensures DefendedDestinations(board, White, FigureMoves.FigureMoves(Figure(Rook, White), Field(3, 4), false)) == [Field(3, 2)]
  {
    RookOnC4Lines();
    RookOnC4Line0Classes(board);
    RookOnC4Line1Classes(board);
    RookOnC4Line2Classes(board);
    RookOnC4Line3Classes(board);
    FourLinesDefended(board, White, [Field(4, 4), Field(5, 4), Field(6, 4), Field(7, 4), Field(8, 4)], [Field(2, 4), Field(1, 4)], [Field(3, 5), Field(3, 6), Field(3, 7), Field(3, 8)], [Field(3, 3), Field(3, 2), Field(3, 1)]);
  }

  /** A rook on c4 of the starting position may move to d4, e4, f4, g4, h4,
      b4, a4, c5, c6 and c3, captures on c7, and defends c2. */
  lemma RookOnC4()
    ensures var fieldss := FigureMoves.FigureMoves(Figure(Rook, White), Field(3, 4), false);
      FreeDestinations(StartingBoard(), fieldss) == [Field(4, 4), Field(5, 4), Field(6, 4), Field(7, 4), Field(8, 4), Field(2, 4), Field(1, 4), Field(3, 5), Field(3, 6), Field(3, 3)] &&
      CaptureDestinations(StartingBoard(), White, fieldss) == [Field(3, 7)] &&
      DefendedDestinations(StartingBoard(), White, fieldss) == [Field(3, 2)]
  {
    StartingAroundC4();
    RookOnC4Free(StartingBoard());
    RookOnC4Captures(StartingBoard());
    RookOnC4Defended(StartingBoard());
  }

  /** On such a board, line 0 of a bishop on c4 is free up to f7, where it captures. */
  lemma BishopOnC4Line0Classes(board: Board)
    requires AroundC4(board)
    ensures EmptyPrefix(board, [Field(4, 5), Field(5, 6), Field(6, 7), Field(7, 8)]) == [Field(4, 5), Field(5, 6)]
    ensures CaptureOnLine(board, White, [Field(4, 5), Field(5, 6), Field(6, 7), Field(7, 8)]) == [Field(6, 7)]
    ensures DefendedOnLine(board, White, [Field(4, 5), Field(5, 6), Field(6, 7), Field(7, 8)]) == []
  {
    SplitLine(board, White, [Field(4, 5), Field(5, 6)], [Field(6, 7), Field(7, 8)]);
    assert [Field(4, 5), Field(5, 6)] + [Field(6, 7), Field(7, 8)] == [Field(4, 5), Field(5, 6), Field(6, 7), Field(7, 8)];
  }

  /** On such a board, every field of line 1 of a bishop on c4 is free. */
  lemma BishopOnC4Line1Classes(board: Board)
    requires AroundC4(board)
    ensures EmptyPrefix(board, [Field(2, 5), Field(1, 6)]) == [Field(2, 5), Field(1, 6)]
    ensures CaptureOnLine(board, White, [Field(2, 5), Field(1, 6)]) == []
    ensures DefendedOnLine(board, White, [Field(2, 5), Field(1, 6)]) == []
  {
    SplitLine(board, White, [Field(2, 5), Field(1, 6)], []);
    assert [Field(2, 5), Field(1, 6)] + [] == [Field(2, 5), Field(1, 6)];
  }

  /** On such a board, line 2 of a bishop on c4 is free up to e2, which it defends. */
  lemma BishopOnC4Line2Classes(board: Board)
    requires AroundC4(board)
    ensures EmptyPrefix(board, [Field(4, 3), Field(5, 2), Field(6, 1)]) == [Field(4, 3)]
    ensures CaptureOnLine(board, White, [Field(4, 3), Field(5, 2), Field(6, 1)]) == []
    ensures DefendedOnLine(board, White, [Field(4, 3), Field(5, 2), Field(6, 1)]) == [Field(5, 2)]
  {
    SplitLine(board, White, [Field(4, 3)], [Field(5, 2), Field(6, 1)]);
    assert [Field(4, 3)] + [Field(5, 2), Field(6, 1)] == [Field(4, 3), Field(5, 2), Field(6, 1)];
  }

  /** On such a board, line 3 of a bishop on c4 is free up to a2, which it defends. */
  lemma BishopOnC4Line3Classes(board: Board)
    requires AroundC4(board)
    ensures EmptyPrefix(board, [Field(2, 3), Field(1, 2)]) == [Field(2, 3)]
    ensures CaptureOnLine(board, White, [Field(2, 3), Field(1, 2)]) == []
    ensures DefendedOnLine(board, White, [Field(2, 3), Field(1, 2)]) == [Field(1, 2)]
  {
    SplitLine(board, White, [Field(2, 3)], [Field(1, 2)]);
    assert [Field(2, 3)] + [Field(1, 2)] == [Field(2, 3), Field(1, 2)];
  }

  /** On such a board, the free destinations of a bishop on c4. */
  lemma BishopOnC4Free(board: Board)
    requires AroundC4(board)
    ensures FreeDestinations(board, FigureMoves.FigureMoves(Figure(Bishop, White), Field(3, 4), false)) == [Field(4, 5), Field(5, 6), Field(2, 5), Field(1, 6), Field(4, 3), Field(2, 3)]
  {
    assert FreeDestinations(board, [[Field(4, 5), Field(5, 6), Field(6, 7), Field(7, 8)], [Field(2, 5), Field(1, 6)], [Field(4, 3), Field(5, 2), Field(6, 1)], [Field(2, 3), Field(1, 2)]]) == [Field(4, 5), Field(5, 6)] + ([Field(2, 5), Field(1, 6)] + ([Field(4, 3)] + [Field(2, 3)])) by {
      BishopOnC4Line0Classes(board);
      BishopOnC4Line1Classes(board);
      BishopOnC4Line2Classes(board);
      BishopOnC4Line3Classes(board);
      FourLinesFree(board, [Field(4, 5), Field(5, 6), Field(6, 7), Field(7, 8)], [Field(2, 5), Field(1, 6)], [Field(4, 3), Field(5, 2), Field(6, 1)], [Field(2, 3), Field(1, 2)]);
    }
    assert [Field(4, 5), Field(5, 6)] + ([Field(2, 5), Field(1, 6)] + ([Field(4, 3)] + [Field(2, 3)])) == [Field(4, 5), Field(5, 6), Field(2, 5), Field(1, 6), Field(4, 3), Field(2, 3)];
    BishopOnC4Lines();
  }

  /** On such a board, the capture destinations of a bishop on c4. */
  lemma BishopOnC4Captures(board: Board)
    requires AroundC4(board)
    ensures CaptureDestinations(board, White, FigureMoves.FigureMoves(Figure(Bishop, White), Field(3, 4), false)) == [Field(6, 7)]
  {
    BishopOnC4Lines();
    BishopOnC4Line0Classes(board);
    BishopOnC4Line1Classes(board);
    BishopOnC4Line2Classes(board);
    BishopOnC4Line3Classes(board);
    FourLinesCapture(board, White, [Field(4, 5), Field(5, 6), Field(6, 7), Field(7, 8)], [Field(2, 5), Field(1, 6)], [Field(4, 3), Field(5, 2), Field(6, 1)], [Field(2, 3), Field(1, 2)]);
  }

  /** On such a board, the defended fields of a bishop on c4. */
  lemma BishopOnC4Defended(board: Board)
    requires AroundC4(board)
    ensures DefendedDestinations(board, White, FigureMoves.FigureMoves(Figure(Bishop, White), Field(3, 4), false)) == [Field(5, 2), Field(1, 2)]
  {
    BishopOnC4Lines();
    BishopOnC4Line0Classes(board);
    BishopOnC4Line1Classes(board);
    BishopOnC4Line2Classes(board);
    BishopOnC4Line3Classes(board);
    FourLinesDefended(board, White, [Field(4, 5), Field(5, 6), Field(6, 7), Field(7, 8)], [Field(2, 5), Field(1, 6)], [Field(4, 3), Field(5, 2), Field(6, 1)], [Field(2, 3), Field(1, 2)]);
  }

  /** A bishop on c4 of the starting position may move to d5, e6, b5, a6, d3
      and b3, captures on f7, and defends e2 and a2. */
  lemma BishopOnC4()
    ensures var fieldss := FigureMoves.FigureMoves(Figure(Bishop, White), Field(3, 4), false);
      FreeDestinations(StartingBoard(), fieldss) == [Field(4, 5), Field(5, 6), Field(2, 5), Field(1, 6), Field(4, 3), Field(2, 3)] &&
      CaptureDestinations(StartingBoard(), White, fieldss) == [Field(6, 7)] &&
      DefendedDestinations(StartingBoard(), White, fieldss) == [Field(5, 2), Field(1, 2)]
  {
    StartingAroundC4();
    BishopOnC4Free(StartingBoard());
    BishopOnC4Captures(StartingBoard());
    BishopOnC4Defended(StartingBoard());
  }
}
