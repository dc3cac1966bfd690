/** The direction tables of each figure and the projection of a line of
    offsets onto the board (chess/figure_moves.py). */
module FigureMoves {
  import opened Colors
  import opened Fields
  import opened Figures

  /** A line of movement: a list of column offsets and a list of row offsets,
      one entry per step along the line. The lists are paired as Python's zip
      pairs them, which stops at the end of the shorter list. */
  datatype Line = Line(cols: seq<int>, rows: seq<int>)

  /** Python's range(start, stop, step) for the unit steps the tables use. */
  function Range(start: int, stop: int, step: int): (r: seq<int>)
    requires step == 1 || step == -1
    ensures |r| == if step > 0 then (if start < stop then stop - start else 0)
                   else (if start > stop then start - stop else 0)
    ensures forall i | 0 <= i < |r| :: r[i] == if step > 0 then start + i else start - i
  {
    var n := if step > 0 then (if start < stop then stop - start else 0)
             else (if start > stop then start - stop else 0);
    seq(n, i => start + step * i)
  }

  /** Python's zip of two lists: pairs up to the end of the shorter one. */
  function Zip(xs: seq<int>, ys: seq<int>): (z: seq<(int, int)>)
    ensures |z| == if |xs| < |ys| then |xs| else |ys|
    ensures forall i | 0 <= i < |z| :: z[i] == (xs[i], ys[i])
  {
    var n := if |xs| < |ys| then |xs| else |ys|;
    seq(n, i requires 0 <= i < n => (xs[i], ys[i]))
  }

  /** The (column, row) offset of each step of a line. */
  function Steps(l: Line): seq<(int, int)> {
    Zip(l.cols, l.rows)
  }

  /** The list of nine zeros the rook table pairs with its eight offsets,
      built as x - x for each x of range(9). */
  function NineZeros(): seq<int> {
    var xs := Range(0, 9, 1);
    seq(|xs|, i requires 0 <= i < |xs| => xs[i] - xs[i])
  }

  /** 1, 2, ..., 8. */
  function Forward(): seq<int> {
    Range(1, 9, 1)
  }

  /** -1, -2, ..., -8. */
  function Backward(): seq<int> {
    Range(-1, -9, -1)
  }

  /** Rook lines: right, left, up and down. */
  function RookLines(): seq<Line> {
    [ Line(Forward(), NineZeros()),
      Line(Backward(), NineZeros()),
      Line(NineZeros(), Forward()),
      Line(NineZeros(), Backward()) ]
  }

  /** Bishop lines: the four diagonals. */
  function BishopLines(): seq<Line> {
    [ Line(Forward(), Forward()),
      Line(Backward(), Forward()),
      Line(Forward(), Backward()),
      Line(Backward(), Backward()) ]
  }

  /** Queen lines: the rook's followed by the bishop's. */
  function QueenLines(): seq<Line> {
    RookLines() + BishopLines()
  }

  /** Knight lines: eight single steps. */
  function KnightLines(): seq<Line> {
    [ Line([1], [2]), Line([2], [1]), Line([-1], [2]), Line([2], [-1]),
      Line([-1], [-2]), Line([-2], [-1]), Line([1], [-2]), Line([-2], [1]) ]
  }

  /** King lines: eight single steps. */
  function KingLines(): seq<Line> {
    [ Line([0], [1]), Line([0], [-1]), Line([1], [0]), Line([-1], [0]),
      Line([1], [1]), Line([-1], [-1]), Line([1], [-1]), Line([-1], [1]) ]
  }

  /** The lines of a figure standing on a field; only the pawn depends on
      the field and on whether the move is a capture. */
  function ChooseFigureMoves(figure: Figure, field: Field, capture: bool): (lines: seq<Line>)
    ensures figure.kind == Pawn ==> |lines| == if capture then 2 else 1
  {
    match figure.kind
    case Rook => RookLines()
    case Bishop => BishopLines()
    case Queen => QueenLines()
    case King => KingLines()
    case Knight => KnightLines()
    case Pawn =>
      if capture then
        (if figure.color == White then [Line([-1], [1]), Line([1], [1])]
         else [Line([-1], [-1]), Line([1], [-1])])
      else if figure.color == White then
        (if field.row == 2 then [Line([0, 0], [1, 2])] else [Line([0], [1])])
      else
        (if field.row == 7 then [Line([0, 0], [-1, -2])] else [Line([0], [-1])])
  }

  /** The field at a (column, row) offset from a field: the field's own shift. */
  function RelativeField(field: Field, cr: (int, int)): (f: Field)
    ensures f == field.Relative(cr.0, cr.1)
    ensures field.IsValid() && cr == (0, 0) ==> f.IsValid()
  {
    Field(field.col + cr.0, field.row + cr.1)
  }

  /** b3 lies at (1, 1) from a2, and a4 at (0, 2). */
  lemma RelativeFieldExamples()
    ensures RelativeField(Field(1, 2), (1, 1)) == Field(2, 3)
    ensures RelativeField(Field(1, 2), (0, 2)) == Field(1, 4)
  {
  }

  /** The fields at the given offsets, cut off at the first one off the board. */
  function ProjectSteps(field: Field, steps: seq<(int, int)>): (r: seq<Field>)
    ensures |r| <= |steps|
    ensures forall i | 0 <= i < |r| :: r[i] == RelativeField(field, steps[i]) && r[i].IsValid()
    ensures |r| < |steps| ==> !RelativeField(field, steps[|r|]).IsValid()
  {
    if steps == [] then []
    else
      var f := RelativeField(field, steps[0]);
      if f.IsValid() then [f] + ProjectSteps(field, steps[1..]) else []
  }

  /** The fields a line reaches from a field: the longest prefix of its steps
      that stays on the board. */
  function RelativeFields(field: Field, line: Line): (r: seq<Field>) {
    ProjectSteps(field, Steps(line))
  }

  /** One list of reachable fields per line of the figure. */
  function FigureMoves(figure: Figure, field: Field, capture: bool): (fieldss: seq<seq<Field>>)
    ensures |fieldss| == |ChooseFigureMoves(figure, field, capture)|
    ensures forall i, j | 0 <= i < |fieldss| && 0 <= j < |fieldss[i]| :: fieldss[i][j].IsValid()
  {
    var lines := ChooseFigureMoves(figure, field, capture);
    seq(|lines|, i requires 0 <= i < |lines| => RelativeFields(field, lines[i]))
  }

  /** The distance of an offset from zero. */
  function Abs(x: int): nat {
    if x < 0 then -x else x
  }

  /** Every offset of every step of the given lines. */
  function Offsets(lines: seq<Line>): set<(int, int)> {
    set i, j | 0 <= i < |lines| && 0 <= j < |Steps(lines[i])| :: Steps(lines[i])[j]
  }

  /** A knight jump: one field one way and two the other. */
  predicate IsKnightOffset(dc: int, dr: int) {
    (Abs(dc) == 1 && Abs(dr) == 2) || (Abs(dc) == 2 && Abs(dr) == 1)
  }

  /** A step to one of the eight neighbouring fields. */
  predicate IsKingOffset(dc: int, dr: int) {
    (dc, dr) != (0, 0) && Abs(dc) <= 1 && Abs(dr) <= 1
  }

  /** The three offset lists the rook and bishop tables are built from. */
  lemma OffsetListsShape()
    ensures |Forward()| == 8 && |Backward()| == 8 && |NineZeros()| == 9
    ensures forall k | 0 <= k < 8 :: Forward()[k] == k + 1 && Backward()[k] == -(k + 1)
    ensures forall k | 0 <= k < 9 :: NineZeros()[k] == 0
  {
  }

  /** The rook has four lines of eight steps each, one per direction along a
      row or a column; the nine-element list of zeros is cut to eight by zip. */
  lemma RookLinesShape()
    ensures |RookLines()| == 4
    ensures |Forward()| == 8 && |Backward()| == 8 && |NineZeros()| == 9
    ensures forall i | 0 <= i < 4 :: |Steps(RookLines()[i])| == 8
    ensures forall k | 0 <= k < 8 :: Steps(RookLines()[0])[k] == (k + 1, 0)
    ensures forall k | 0 <= k < 8 :: Steps(RookLines()[1])[k] == (-(k + 1), 0)
    ensures forall k | 0 <= k < 8 :: Steps(RookLines()[2])[k] == (0, k + 1)
    ensures forall k | 0 <= k < 8 :: Steps(RookLines()[3])[k] == (0, -(k + 1))
  {
    OffsetListsShape();
  }

  /** The bishop has four lines of eight steps each, one per diagonal direction. */
  lemma BishopLinesShape()
    ensures |BishopLines()| == 4
    ensures forall i | 0 <= i < 4 :: |Steps(BishopLines()[i])| == 8
    ensures forall k | 0 <= k < 8 :: Steps(BishopLines()[0])[k] == (k + 1, k + 1)
    ensures forall k | 0 <= k < 8 :: Steps(BishopLines()[1])[k] == (-(k + 1), k + 1)
    ensures forall k | 0 <= k < 8 :: Steps(BishopLines()[2])[k] == (k + 1, -(k + 1))
    ensures forall k | 0 <= k < 8 :: Steps(BishopLines()[3])[k] == (-(k + 1), -(k + 1))
  {
    OffsetListsShape();
  }

  /** The queen's eight lines are the rook's four followed by the bishop's four. */
  lemma QueenLinesShape()
    ensures |QueenLines()| == 8
    ensures QueenLines()[..4] == RookLines() && QueenLines()[4..] == BishopLines()
  {
  }

  /** The knight has eight single-step lines, no two alike. */
  lemma KnightLinesShape()
    ensures |KnightLines()| == 8
    ensures forall i | 0 <= i < 8 :: |Steps(KnightLines()[i])| == 1
    ensures forall i, j | 0 <= i < j < 8 :: Steps(KnightLines()[i]) != Steps(KnightLines()[j])
  {
    KnightSteps();
    forall i, j | 0 <= i < j < 8 ensures Steps(KnightLines()[i]) != Steps(KnightLines()[j]) {
      assert Steps(KnightLines()[i])[0] != Steps(KnightLines()[j])[0];
    }
  }

  /** Every knight offset is a knight jump. */
  lemma KnightOffsetsSound()
    ensures forall dc, dr :: (dc, dr) in Offsets(KnightLines()) ==> IsKnightOffset(dc, dr)
  {
  }

  /** The single step of each knight line. */
  lemma KnightSteps()
    ensures |KnightLines()| == 8
    ensures Steps(KnightLines()[0]) == [(1, 2)] && Steps(KnightLines()[1]) == [(2, 1)]
    ensures Steps(KnightLines()[2]) == [(-1, 2)] && Steps(KnightLines()[3]) == [(2, -1)]
    ensures Steps(KnightLines()[4]) == [(-1, -2)] && Steps(KnightLines()[5]) == [(-2, -1)]
    ensures Steps(KnightLines()[6]) == [(1, -2)] && Steps(KnightLines()[7]) == [(-2, 1)]
  {
  }

  /** The first step of a line is one of the offsets of the lines. */
  lemma FirstStepIsOffset(lines: seq<Line>, i: int)
    requires 0 <= i < |lines| && |Steps(lines[i])| > 0
    ensures Steps(lines[i])[0] in Offsets(lines)
  {
  }

  /** Every knight jump is among the knight offsets. */
  lemma KnightOffsetsComplete(dc: int, dr: int)
    requires IsKnightOffset(dc, dr)
    ensures (dc, dr) in Offsets(KnightLines())
  {
    var jumps := [(1, 2), (2, 1), (-1, 2), (2, -1), (-1, -2), (-2, -1), (1, -2), (-2, 1)];
    assert (dc, dr) in jumps;
    var i :| 0 <= i < 8 && jumps[i] == (dc, dr);
    KnightSteps();
    FirstStepIsOffset(KnightLines(), i);
  }

  /** The king has eight single-step lines, no two alike. */
  lemma KingLinesShape()
    ensures |KingLines()| == 8
    ensures forall i | 0 <= i < 8 :: |Steps(KingLines()[i])| == 1
    ensures forall i, j | 0 <= i < j < 8 :: Steps(KingLines()[i]) != Steps(KingLines()[j])
  {
    KingSteps();
    forall i, j | 0 <= i < j < 8 ensures Steps(KingLines()[i]) != Steps(KingLines()[j]) {
      assert Steps(KingLines()[i])[0] != Steps(KingLines()[j])[0];
    }
  }

  /** Every king offset leads to a neighbouring field. */
  lemma KingOffsetsSound()
    ensures forall dc, dr :: (dc, dr) in Offsets(KingLines()) ==> IsKingOffset(dc, dr)
  {
  }

  /** Every neighbouring field is reached by a king offset. */
  lemma KingOffsetsComplete(dc: int, dr: int)
    requires IsKingOffset(dc, dr)
    ensures (dc, dr) in Offsets(KingLines())
  {
    var steps := [(0, 1), (0, -1), (1, 0), (-1, 0), (1, 1), (-1, -1), (1, -1), (-1, 1)];
    assert (dc, dr) in steps;
    var i :| 0 <= i < 8 && steps[i] == (dc, dr);
    KingSteps();
    FirstStepIsOffset(KingLines(), i);
  }

  /** The single step of each king line. */
  lemma KingSteps()
    ensures |KingLines()| == 8
    ensures Steps(KingLines()[0]) == [(0, 1)] && Steps(KingLines()[1]) == [(0, -1)]
    ensures Steps(KingLines()[2]) == [(1, 0)] && Steps(KingLines()[3]) == [(-1, 0)]
    ensures Steps(KingLines()[4]) == [(1, 1)] && Steps(KingLines()[5]) == [(-1, -1)]
    ensures Steps(KingLines()[6]) == [(1, -1)] && Steps(KingLines()[7]) == [(-1, 1)]
  {
  }

  /** Only a pawn moves differently when it captures. */
  lemma CaptureFlagOnlyForPawns(figure: Figure, field: Field)
    requires figure.kind != Pawn
    ensures ChooseFigureMoves(figure, field, true) == ChooseFigureMoves(figure, field, false)
  {
  }

  /** A pawn moves straight ahead (up for White, down for Black) by one
      field, or by two from row 2 for White and row 7 for Black. */
  lemma PawnQuietLines(color: Color, field: Field)
    ensures var lines := ChooseFigureMoves(Figure(Pawn, color), field, false);
      var d := if color == White then 1 else -1;
      var start := if color == White then 2 else 7;
      |lines| == 1 &&
      Steps(lines[0]) == if field.row == start then [(0, d), (0, 2 * d)] else [(0, d)]
  {
  }

  /** A pawn captures one field diagonally ahead, to the left or to the right,
      whatever row it stands on. */
  lemma PawnCaptureLines(color: Color, field: Field)
    ensures var lines := ChooseFigureMoves(Figure(Pawn, color), field, true);
      var d := if color == White then 1 else -1;
      |lines| == 2 && Steps(lines[0]) == [(-1, d)] && Steps(lines[1]) == [(1, d)]
  {
  }

  /** Projection stops at the first field off the board, even when a later step
      would come back onto it. */
  lemma ProjectionStopsAtFirstInvalid()
    ensures RelativeFields(Field(2, 2), Line([1, 2, 3, 4, 5], [1, 0, -1, -2, -3]))
            == [Field(3, 3), Field(4, 2), Field(5, 1)]
    ensures RelativeFields(Field(1, 1), Line([1, -1, 2], [0, 0, 0])) == [Field(2, 1)]
  {
    assert Steps(Line([1, 2, 3, 4, 5], [1, 0, -1, -2, -3])) == [(1, 1), (2, 0), (3, -1), (4, -2), (5, -3)];
    ProjectStepsUnique(Field(2, 2), [(1, 1), (2, 0), (3, -1), (4, -2), (5, -3)],
                       [Field(3, 3), Field(4, 2), Field(5, 1)]);
    assert Steps(Line([1, -1, 2], [0, 0, 0])) == [(1, 0), (-1, 0), (2, 0)];
    ProjectStepsUnique(Field(1, 1), [(1, 0), (-1, 0), (2, 0)], [Field(2, 1)]);
  }

  /** The contract of ProjectSteps pins its result down: any list of fields
      that meets it is the projection. */
  lemma ProjectStepsUnique(field: Field, steps: seq<(int, int)>, fields: seq<Field>)
    requires |fields| <= |steps|
    requires forall i | 0 <= i < |fields| :: fields[i] == RelativeField(field, steps[i]) && fields[i].IsValid()
    requires |fields| < |steps| ==> !RelativeField(field, steps[|fields|]).IsValid()
    ensures ProjectSteps(field, steps) == fields
  {
  }

  /** FigureMoves gives, line by line, the fields each line reaches. */
  lemma FigureMovesAre(figure: Figure, field: Field, capture: bool, fieldss: seq<seq<Field>>)
    requires |fieldss| == |ChooseFigureMoves(figure, field, capture)|
    requires forall i | 0 <= i < |fieldss| ::
      RelativeFields(field, ChooseFigureMoves(figure, field, capture)[i]) == fieldss[i]
    ensures FigureMoves(figure, field, capture) == fieldss
  {
  }

  /** The lines of a knight on b1: three reach the board, five leave it at once. */
  lemma KnightMovesExample()
    ensures FigureMoves(Figure(Knight, White), Field(2, 1), false) ==
      [[Field(3, 3)], [Field(4, 2)], [Field(1, 3)], [], [], [], [], []]
  {
    var b1 := Field(2, 1);
    var knight := KnightLines();
    KnightSteps();
    ProjectStepsUnique(b1, Steps(knight[0]), [Field(3, 3)]);
    ProjectStepsUnique(b1, Steps(knight[1]), [Field(4, 2)]);
    ProjectStepsUnique(b1, Steps(knight[2]), [Field(1, 3)]);
    forall i | 3 <= i < 8 ensures RelativeFields(b1, knight[i]) == [] {
      ProjectStepsUnique(b1, Steps(knight[i]), []);
    }
  }

  /** The lines of a White pawn on b2 and a2. */
  lemma PawnMovesExamples()
    ensures FigureMoves(Figure(Pawn, White), Field(2, 2), false) == [[Field(2, 3), Field(2, 4)]]
    ensures FigureMoves(Figure(Pawn, White), Field(2, 2), true) == [[Field(1, 3)], [Field(3, 3)]]
    ensures FigureMoves(Figure(Pawn, White), Field(1, 2), true) == [[], [Field(2, 3)]]
  {
    PawnQuietLines(White, Field(2, 2));
    PawnCaptureLines(White, Field(2, 2));
    PawnCaptureLines(White, Field(1, 2));
    ProjectStepsUnique(Field(2, 2), [(0, 1), (0, 2)], [Field(2, 3), Field(2, 4)]);
    ProjectStepsUnique(Field(2, 2), [(-1, 1)], [Field(1, 3)]);
    ProjectStepsUnique(Field(2, 2), [(1, 1)], [Field(3, 3)]);
    ProjectStepsUnique(Field(1, 2), [(-1, 1)], []);
    ProjectStepsUnique(Field(1, 2), [(1, 1)], [Field(2, 3)]);
  }
}
