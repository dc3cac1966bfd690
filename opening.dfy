/** The moves White has in the starting position. */
module Openings {
  import opened Wrappers
  import opened Colors
  import opened Fields
  import opened Figures
  import opened Moves
  import opened FigureMoves
  import opened Boards
  import opened Games

  /** A line is blocked when it is empty or starts on a field held by the
      side to move. */
  predicate IsBlocked(board: Board, color: Color, fields: seq<Field>) {
    fields == [] || HasSameColorFigure(board, color, fields[0])
  }

  /** Lines that are all blocked give no free and no capture destination. */
  lemma {:induction false} BlockedLinesGiveNothing(board: Board, color: Color, fieldss: seq<seq<Field>>)
    requires forall i | 0 <= i < |fieldss| :: IsBlocked(board, color, fieldss[i])
    ensures FreeDestinations(board, fieldss) == []
    ensures CaptureDestinations(board, color, fieldss) == []
  {
    if fieldss != [] {
      BlockedLinesGiveNothing(board, color, fieldss[1..]);
      assert fieldss[0] == [] || !IsFieldEmpty(board, fieldss[0][0]);
    }
  }

  /** A line whose first step leaves the board or lands on a figure of the
      side to move is blocked. */
  lemma FirstStepBlocks(board: Board, color: Color, field: Field, line: Line)
    requires |Steps(line)| > 0
    requires !RelativeField(field, Steps(line)[0]).IsValid() ||
             HasSameColorFigure(board, color, RelativeField(field, Steps(line)[0]))
    ensures IsBlocked(board, color, RelativeFields(field, line))
  {
  }

  /** The first step of a line goes to a neighbouring field. */
  predicate StartsAdjacent(line: Line) {
    |Steps(line)| > 0 && IsKingOffset(Steps(line)[0].0, Steps(line)[0].1)
  }

  lemma RookStartsAdjacent()
    ensures forall i | 0 <= i < |RookLines()| :: StartsAdjacent(RookLines()[i])
  {
    RookLinesShape();
  }

  lemma BishopStartsAdjacent()
    ensures forall i | 0 <= i < |BishopLines()| :: StartsAdjacent(BishopLines()[i])
  {
    BishopLinesShape();
  }

  lemma QueenStartsAdjacent()
    ensures forall i | 0 <= i < |QueenLines()| :: StartsAdjacent(QueenLines()[i])
  {
    QueenLinesShape();
    RookStartsAdjacent();
    BishopStartsAdjacent();
    forall i | 0 <= i < |QueenLines()| ensures StartsAdjacent(QueenLines()[i]) {
      if i < 4 {
        assert QueenLines()[i] == QueenLines()[..4][i];
      } else {
        assert QueenLines()[i] == QueenLines()[4..][i - 4];
      }
    }
  }

  lemma KingStartsAdjacent()
    ensures forall i | 0 <= i < |KingLines()| :: StartsAdjacent(KingLines()[i])
  {
    KingLinesShape();
    KingOffsetsSound();
    forall i | 0 <= i < |KingLines()| ensures StartsAdjacent(KingLines()[i]) {
      assert Steps(KingLines()[i])[0] in Offsets(KingLines());
    }
  }

  /** The first step of each line of a rook, a bishop, a queen or a king
      goes to a neighbouring field. */
  lemma FirstStepsAreAdjacent(kind: FigureType, field: Field)
    requires kind in {Rook, Bishop, Queen, King}
    ensures var lines := ChooseFigureMoves(Figure(kind, White), field, false);
      forall i | 0 <= i < |lines| :: StartsAdjacent(lines[i])
  {
    match kind
    case Rook => RookStartsAdjacent();
    case Bishop => BishopStartsAdjacent();
    case Queen => QueenStartsAdjacent();
    case King => KingStartsAdjacent();
  }

  /** Every neighbour of a first-row field is off the board or holds a white
      figure in the starting position. */
  lemma FirstRowNeighbours(c: int, dc: int, dr: int)
    requires 1 <= c <= 8 && IsKingOffset(dc, dr)
    ensures var f := Field(c + dc, 1 + dr);
      !f.IsValid() || HasSameColorFigure(StartingBoard(), White, f)
  {
    var f := Field(c + dc, 1 + dr);
    if f.IsValid() {
      assert KeyOf(f) in StartingKeys();
      StartingBoardLayout();
    }
  }

  /** In the starting position a white rook, bishop, queen or king on the
      first row has no move. */
  lemma FirstRowFigureBlocked(c: int, kind: FigureType)
    requires 1 <= c <= 8 && kind in {Rook, Bishop, Queen, King}
    ensures FigureMoveList(StartingBoard(), White, Field(c, 1), Figure(kind, White)) == []
  {
    FirstRowLinesBlocked(c, kind);
    BlockedFigureHasNoMoves(StartingBoard(), White, Field(c, 1), Figure(kind, White));
  }

  /** Every line of a white rook, bishop, queen or king on the first row is
      blocked in the starting position. */
  lemma FirstRowLinesBlocked(c: int, kind: FigureType)
    requires 1 <= c <= 8 && kind in {Rook, Bishop, Queen, King}
    ensures var fieldss := FigureMoves.FigureMoves(Figure(kind, White), Field(c, 1), false);
      forall i | 0 <= i < |fieldss| :: IsBlocked(StartingBoard(), White, fieldss[i])
  {
    var field := Field(c, 1);
    var lines := ChooseFigureMoves(Figure(kind, White), field, false);
    var fieldss := FigureMoves.FigureMoves(Figure(kind, White), field, false);
    FirstStepsAreAdjacent(kind, field);
    forall i | 0 <= i < |fieldss| ensures IsBlocked(StartingBoard(), White, fieldss[i]) {
      var step := Steps(lines[i])[0];
      FirstRowNeighbours(c, step.0, step.1);
      FirstStepBlocks(StartingBoard(), White, field, lines[i]);
    }
  }

  /** A figure other than a pawn all of whose lines are blocked has no move. */
  lemma BlockedFigureHasNoMoves(board: Board, color: Color, field: Field, figure: Figure)
    requires figure.kind != Pawn
    requires var fieldss := FigureMoves.FigureMoves(figure, field, false);
      forall i | 0 <= i < |fieldss| :: IsBlocked(board, color, fieldss[i])
    ensures FigureMoveList(board, color, field, figure) == []
  {
    BlockedLinesGiveNothing(board, color, FigureMoves.FigureMoves(figure, field, false));
    QuietDestinations(board, color, field, figure, []);
  }

  /** Lines of one field each, as a knight's: a free field is a free
      destination, a field held by the side to move is not. */
  lemma KnightLineFree(board: Board, color: Color, a: Field, b: seq<Field>, c: Field, d: seq<Field>)
    requires IsFieldEmpty(board, a) && IsFieldEmpty(board, c)
    requires IsBlocked(board, color, b) && IsBlocked(board, color, d)
    ensures FreeDestinations(board, [[a]] + ([b] + ([[c]] + [[], [], [], [], d]))) == [a, c]
  {
    var t0 := [[], [], [], [], d];
    FreeAfterThirdLine(board, color, c, d);
    BlockedLine(board, color, b, [[c]] + t0);
    OneFreeField(board, color, a, [b] + ([[c]] + t0));
  }

  lemma FreeAfterThirdLine(board: Board, color: Color, c: Field, d: seq<Field>)
    requires IsFieldEmpty(board, c) && IsBlocked(board, color, d)
    ensures FreeDestinations(board, [[c]] + [[], [], [], [], d]) == [c]
  {
    var t0 := [[], [], [], [], d];
    BlockedLinesGiveNothing(board, color, t0);
    OneFreeField(board, color, c, t0);
    assert [c] + [] == [c];
  }

  /** Lines of one field each, none with an enemy figure, give no capture. */
  lemma KnightLineCaptures(board: Board, color: Color, a: Field, b: seq<Field>, c: Field, d: seq<Field>)
    requires IsFieldEmpty(board, a) && IsFieldEmpty(board, c)
    requires IsBlocked(board, color, b) && IsBlocked(board, color, d)
    ensures CaptureDestinations(board, color, [[a]] + ([b] + ([[c]] + [[], [], [], [], d]))) == []
  {
    var t0 := [[], [], [], [], d];
    BlockedLinesGiveNothing(board, color, t0);
    OneFreeField(board, color, c, t0);
    BlockedLine(board, color, b, [[c]] + t0);
    OneFreeField(board, color, a, [b] + ([[c]] + t0));
  }

  /** The eight lines of a knight with free fields in the first and third,
      built up one line at a time. */
  lemma KnightLinesAsConcat(a: Field, b: seq<Field>, c: Field, d: seq<Field>)
    ensures [[a]] + ([b] + ([[c]] + [[], [], [], [], d])) == [[a], b, [c], [], [], [], [], d]
  {
  }

  /** A line of one free field adds that field to the free destinations. */
  lemma OneFreeField(board: Board, color: Color, f: Field, rest: seq<seq<Field>>)
    requires IsFieldEmpty(board, f)
    ensures FreeDestinations(board, [[f]] + rest) == [f] + FreeDestinations(board, rest)
    ensures CaptureDestinations(board, color, [[f]] + rest) == CaptureDestinations(board, color, rest)
  {
    assert ([[f]] + rest)[1..] == rest;
    assert [f][1..] == [];
    assert EmptyPrefix(board, [f]) == [f];
    assert CaptureOnLine(board, color, [f]) == [];
  }

  /** A blocked line adds no destination. */
  lemma BlockedLine(board: Board, color: Color, line: seq<Field>, rest: seq<seq<Field>>)
    requires IsBlocked(board, color, line)
    ensures FreeDestinations(board, [line] + rest) == FreeDestinations(board, rest)
    ensures CaptureDestinations(board, color, [line] + rest) == CaptureDestinations(board, color, rest)
  {
    assert ([line] + rest)[1..] == rest;
    assert EmptyPrefix(board, line) == [];
    assert CaptureOnLine(board, color, line) == [];
  }

  /** A figure other than a pawn with two free destinations and no capture
      has the two regular moves to them, in that order. */
  lemma TwoQuietMoves(board: Board, color: Color, field: Field, figure: Figure, x: Field, y: Field)
    requires figure.kind != Pawn
    requires FreeDestinations(board, FigureMoves.FigureMoves(figure, field, false)) == [x, y]
    requires CaptureDestinations(board, color, FigureMoves.FigureMoves(figure, field, false)) == []
    ensures FigureMoveList(board, color, field, figure) == [Regular(field, x), Regular(field, y)]
  {
    QuietDestinations(board, color, field, figure, [x, y]);
    RegularMovesToDestinations(board, color, field, figure);
  }

  /** With no capture, the destinations are the free ones. */
  lemma QuietDestinations(board: Board, color: Color, field: Field, figure: Figure, free: seq<Field>)
    requires FreeDestinations(board, FigureMoves.FigureMoves(figure, field, false)) == free
    requires CaptureDestinations(board, color, FigureMoves.FigureMoves(figure, field, false)) == []
    ensures Destinations(board, color, field, figure) == free
  {
    assert free + [] == free;
  }

  /** Facts about the starting position that the knights' moves depend on. */
  lemma KnightSurroundings()
    ensures var b := StartingBoard();
      (1, 3) !in b && (3, 3) !in b && (6, 3) !in b && (8, 3) !in b &&
      (4, 2) in b && b[(4, 2)].color == White && (5, 2) in b && b[(5, 2)].color == White
  {
    StartingBoardLayout();
    StartingBoardEntries();
  }

  /** The knight on b1 can go to c3 or a3; d2 holds a white pawn. */
  lemma KnightOnB1Destinations()
    ensures var fieldss := FigureMoves.FigureMoves(Figure(Knight, White), Field(2, 1), false);
      FreeDestinations(StartingBoard(), fieldss) == [Field(3, 3), Field(1, 3)] &&
      CaptureDestinations(StartingBoard(), White, fieldss) == []
  {
    KnightMovesExample();
    KnightSurroundings();
    KnightLinesAsConcat(Field(3, 3), [Field(4, 2)], Field(1, 3), []);
    KnightLineFree(StartingBoard(), White, Field(3, 3), [Field(4, 2)], Field(1, 3), []);
    KnightLineCaptures(StartingBoard(), White, Field(3, 3), [Field(4, 2)], Field(1, 3), []);
  }

  /** The knight on b1 moves to c3 or a3. */
  lemma KnightOnB1()
    ensures FigureMoveList(StartingBoard(), White, Field(2, 1), Figure(Knight, White)) ==
      [Regular(Field(2, 1), Field(3, 3)), Regular(Field(2, 1), Field(1, 3))]
  {
    KnightOnB1Destinations();
    TwoQuietMoves(StartingBoard(), White, Field(2, 1), Figure(Knight, White), Field(3, 3), Field(1, 3));
  }

  /** The lines of the knight on g1: h3, f3 and e2 are on the board. */
  lemma KnightOnG1Lines()
    ensures FigureMoves.FigureMoves(Figure(Knight, White), Field(7, 1), false) ==
      [[Field(8, 3)], [], [Field(6, 3)], [], [], [], [], [Field(5, 2)]]
  {
    var g1 := Field(7, 1);
    var knight := KnightLines();
    KnightSteps();
    ProjectStepsUnique(g1, Steps(knight[0]), [Field(8, 3)]);
    ProjectStepsUnique(g1, Steps(knight[2]), [Field(6, 3)]);
    ProjectStepsUnique(g1, Steps(knight[7]), [Field(5, 2)]);
    forall i | i in {1, 3, 4, 5, 6} ensures RelativeFields(g1, knight[i]) == [] {
      ProjectStepsUnique(g1, Steps(knight[i]), []);
    }
    FigureMovesAre(Figure(Knight, White), g1, false, [[Field(8, 3)], [], [Field(6, 3)], [], [], [], [], [Field(5, 2)]]);
  }

  /** The knight on g1 can go to h3 or f3; e2 holds a white pawn. */
  lemma KnightOnG1Destinations()
    ensures var fieldss := FigureMoves.FigureMoves(Figure(Knight, White), Field(7, 1), false);
      FreeDestinations(StartingBoard(), fieldss) == [Field(8, 3), Field(6, 3)] &&
      CaptureDestinations(StartingBoard(), White, fieldss) == []
  {
    KnightOnG1Lines();
    KnightSurroundings();
    KnightLinesAsConcat(Field(8, 3), [], Field(6, 3), [Field(5, 2)]);
    KnightLineFree(StartingBoard(), White, Field(8, 3), [], Field(6, 3), [Field(5, 2)]);
    KnightLineCaptures(StartingBoard(), White, Field(8, 3), [], Field(6, 3), [Field(5, 2)]);
  }

  /** The knight on g1 moves to h3 or f3. */
  lemma KnightOnG1()
    ensures FigureMoveList(StartingBoard(), White, Field(7, 1), Figure(Knight, White)) ==
      [Regular(Field(7, 1), Field(8, 3)), Regular(Field(7, 1), Field(6, 3))]
  {
    KnightOnG1Destinations();
    TwoQuietMoves(StartingBoard(), White, Field(7, 1), Figure(Knight, White), Field(8, 3), Field(6, 3));
  }

  /** In the starting position only the knights can move. */
  lemma OnlyKnightsMove(k: Key)
    requires k in StartingBoard() && k != (2, 1) && k != (7, 1)
    ensures Contribution(StartingBoard(), White, k) == multiset{}
  {
    assert k in StartingKeys();
    var figure := StartingBoard()[k];
    assert figure == StartingFigure(k);
    if k.1 == 1 {
      var kind := BackRank()[k.0 - 1];
      assert kind in {Rook, Bishop, Queen, King};
      FirstRowFigureBlocked(k.0, kind);
    }
  }

  /** White's four opening moves: each knight to the two fields in front. */
  function OpeningMoves(): multiset<Move> {
    multiset{Regular(Field(2, 1), Field(3, 3)), Regular(Field(2, 1), Field(1, 3)),
             Regular(Field(7, 1), Field(8, 3)), Regular(Field(7, 1), Field(6, 3))}
  }

  /** When only the figures on two keys generate moves, the moves of the
      position are those of the two figures. */
  lemma TwoContributions(board: Board, color: Color, k1: Key, k2: Key)
    requires k1 in board && k2 in board && k1 != k2
    requires forall k | k in board && k != k1 && k != k2 :: Contribution(board, color, k) == multiset{}
    ensures PseudoMoves(board, color) == Contribution(board, color, k1) + Contribution(board, color, k2)
  {
    MovesFromSplit(board, color, board.Keys, k1);
    MovesFromSplit(board, color, board.Keys - {k1}, k2);
    MovesFromNothing(board, color, board.Keys - {k1} - {k2});
  }

  lemma KnightOnB1Contribution()
    ensures (2, 1) in StartingBoard()
    ensures Contribution(StartingBoard(), White, (2, 1)) ==
      multiset{Regular(Field(2, 1), Field(3, 3)), Regular(Field(2, 1), Field(1, 3))}
  {
    StartingBoardEntries();
    KnightOnB1();
  }

  lemma KnightOnG1Contribution()
    ensures (7, 1) in StartingBoard()
    ensures Contribution(StartingBoard(), White, (7, 1)) ==
      multiset{Regular(Field(7, 1), Field(8, 3)), Regular(Field(7, 1), Field(6, 3))}
  {
    StartingBoardEntries();
    KnightOnG1();
  }

  /** The moves generated for White in the starting position are exactly
      the four knight moves. */
  lemma StartingMoves()
    ensures PseudoMoves(StartingBoard(), White) == OpeningMoves()
  {
    KnightOnB1Contribution();
    KnightOnG1Contribution();
    forall k | k in StartingBoard() && k != (2, 1) && k != (7, 1)
      ensures Contribution(StartingBoard(), White, k) == multiset{}
    {
      OnlyKnightsMove(k);
    }
    TwoContributions(StartingBoard(), White, (2, 1), (7, 1));
  }

  /** The games that follow a new game: four of them, Black to move, one
      after each of White's opening moves. */
  method FirstSuccessors() returns (games: seq<Game>)
    ensures |games| == 4
    ensures forall i | 0 <= i < |games| ::
      games[i].color == Black && games[i].lastMove.Some? && games[i].lastMove.value in OpeningMoves() &&
      games[i].board == UpdateBoard(StartingBoard(), games[i].lastMove.value)
    ensures forall m | m in OpeningMoves() :: exists i | 0 <= i < |games| :: games[i].lastMove == Some(m)
  {
    var start := Game.New();
    ghost var moves;
    games, moves := start.NextGames();
    StartingMoves();
    assert |multiset(moves)| == 4;
    forall m | m in OpeningMoves() ensures exists i | 0 <= i < |games| :: games[i].lastMove == Some(m) {
      assert m in moves;
      var i :| 0 <= i < |moves| && moves[i] == m;
      assert games[i].lastMove == Some(m);
    }
  }
}
