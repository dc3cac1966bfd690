/** The board and its update by a move (chess/board.py). */
module Boards {
  import opened Colors
  import opened Fields
  import opened Figures
  import opened Moves

  /** The (column, row) pair that keys a field in a board. */
  type Key = (int, int)

  /** The figures on the board, keyed by the field they stand on; a field
      missing from the map is empty. */
  type Board = map<Key, Figure>

  /** The key of a field in a board. */
  function KeyOf(f: Field): Key {
    (f.col, f.row)
  }

  /** The kinds on the first and last rows, from column a to column h. */
  function BackRank(): seq<FigureType> {
    [Rook, Knight, Bishop, Queen, King, Bishop, Knight, Rook]
  }

  /** The fields occupied at the start: every column of rows 1, 2, 7 and 8. */
  predicate IsStartingField(k: Key) {
    1 <= k.0 <= 8 && (k.1 == 1 || k.1 == 2 || k.1 == 7 || k.1 == 8)
  }

  /** The figure on an occupied field at the start: White on rows 1 and 2,
      Black on rows 7 and 8, pawns on rows 2 and 7, the back rank elsewhere. */
  function StartingFigure(k: Key): Figure
    requires IsStartingField(k)
  {
    Figure(if k.1 == 2 || k.1 == 7 then Pawn else BackRank()[k.0 - 1],
           if k.1 <= 2 then White else Black)
  }

  /** The position at the start of a game: each occupied field of the first
      two and the last two rows with the figure StartingFigure places there. */
  function StartingBoard(): Board {
    map k: Key | k in StartingKeys() :: StartingFigure(k)
  }

  /** The occupied fields of the starting position. */
  function StartingKeys(): set<Key> {
    set c: int, r: int | 1 <= c <= 8 && r in {1, 2, 7, 8} :: (c, r)
  }

  /** The update raises no KeyError. An en-passant move deletes the captured
      field after the mover has left its origin and reached its destination,
      so that field must then be occupied; a castling move deletes the rook's
      origin after the king's, so the two must differ. */
  predicate UpdateDefined(board: Board, m: Move) {
    match m
    case EnPassant(frm, to, captured) =>
      KeyOf(frm) in board ==>
        KeyOf(captured) != KeyOf(frm) && (KeyOf(captured) in board || KeyOf(captured) == KeyOf(to))
    case Castling(frm, _, rookFrom, _) =>
      KeyOf(frm) in board && KeyOf(rookFrom) in board ==> KeyOf(rookFrom) != KeyOf(frm)
    case _ => true
  }

  /** The fields a move may newly occupy. */
  function Targets(m: Move): set<Key> {
    if m.Castling? then {KeyOf(m.to), KeyOf(m.rookTo)} else {KeyOf(m.to)}
  }

  /** The board after a move. The argument is a value and is never changed;
      a move whose origin (for castling, either origin) is empty leaves the
      board as it was. */
  function UpdateBoard(board: Board, m: Move): (r: Board)
    requires UpdateDefined(board, m)
    ensures r.Keys <= board.Keys + Targets(m)
    ensures KeyOf(m.frm) in board && (m.Castling? ==> KeyOf(m.rookFrom) in board) ==>
      KeyOf(m.frm) !in r.Keys - Targets(m)
  {
    var from, to := KeyOf(m.frm), KeyOf(m.to);
    match m
    case Regular(_, _) =>
      if from in board then board[to := board[from]] - {from} else board
    case Promotion(_, _, figure) =>
      if from in board then board[to := figure] - {from} else board
    case EnPassant(_, _, captured) =>
      if from in board then board[to := board[from]] - {from} - {KeyOf(captured)} else board
    case Castling(_, _, rookFrom, rookTo) =>
      var rf := KeyOf(rookFrom);
      if from in board && rf in board then
        var kingMoved := board[to := board[from]];
        var rookMoved := kingMoved[KeyOf(rookTo) := kingMoved[rf]];
        rookMoved - {from} - {rf}
      else
        board
  }

  /** The first n fields of a row. */
  function RowPrefix(r: int, n: nat): set<Key> {
    set c: int | 1 <= c <= n :: (c, r)
  }

  /** A row prefix holds n fields. */
  lemma {:induction false} RowPrefixSize(r: int, n: nat)
    ensures |RowPrefix(r, n)| == n
  {
    if n > 0 {
      assert RowPrefix(r, n) == RowPrefix(r, n - 1) + {(n, r)};
      RowPrefixSize(r, n - 1);
    }
  }

  /** The starting position has 32 figures, eight on each of four rows. */
  lemma StartingBoardSize()
    ensures |StartingBoard()| == 32
  {
    var rows := [RowPrefix(1, 8), RowPrefix(2, 8), RowPrefix(7, 8), RowPrefix(8, 8)];
    RowPrefixSize(1, 8);
    RowPrefixSize(2, 8);
    RowPrefixSize(7, 8);
    RowPrefixSize(8, 8);
    assert |rows[0] + rows[1]| == 16 by { assert rows[0] * rows[1] == {}; }
    assert |rows[0] + rows[1] + rows[2]| == 24 by { assert (rows[0] + rows[1]) * rows[2] == {}; }
    assert |rows[0] + rows[1] + rows[2] + rows[3]| == 32 by { assert (rows[0] + rows[1] + rows[2]) * rows[3] == {}; }
    assert StartingBoard().Keys == rows[0] + rows[1] + rows[2] + rows[3];
  }

  /** The starting position: every figure on a valid field, White on rows 1
      and 2, Black on rows 7 and 8, nothing on rows 3 to 6, pawns exactly on
      rows 2 and 7, and the kings on e1 and e8. */
  lemma StartingBoardLayout()
    ensures forall k | k in StartingBoard() :: Field(k.0, k.1).IsValid()
    ensures forall k | k in StartingBoard() :: k.1 == 1 || k.1 == 2 || k.1 == 7 || k.1 == 8
    ensures forall c, r | 1 <= c <= 8 && 3 <= r <= 6 :: (c, r) !in StartingBoard()
    ensures forall k | k in StartingBoard() :: StartingBoard()[k].color == White <==> k.1 <= 2
    ensures forall k | k in StartingBoard() :: StartingBoard()[k].kind == Pawn <==> k.1 == 2 || k.1 == 7
    ensures StartingBoard()[(5, 1)] == Figure(King, White) && StartingBoard()[(5, 8)] == Figure(King, Black)
  {
    assert (5, 1) in StartingKeys() && (5, 8) in StartingKeys();
  }

  /** The entries of the starting position, one by one. */
  lemma StartingBoardEntries()
    ensures var b := StartingBoard();
      (1, 1) in b && b[(1, 1)] == Figure(Rook, White) && (2, 1) in b && b[(2, 1)] == Figure(Knight, White) &&
      (3, 1) in b && b[(3, 1)] == Figure(Bishop, White) && (4, 1) in b && b[(4, 1)] == Figure(Queen, White) &&
      (5, 1) in b && b[(5, 1)] == Figure(King, White) && (6, 1) in b && b[(6, 1)] == Figure(Bishop, White) &&
      (7, 1) in b && b[(7, 1)] == Figure(Knight, White) && (8, 1) in b && b[(8, 1)] == Figure(Rook, White)
    ensures var b := StartingBoard();
      (1, 8) in b && b[(1, 8)] == Figure(Rook, Black) && (2, 8) in b && b[(2, 8)] == Figure(Knight, Black) &&
      (3, 8) in b && b[(3, 8)] == Figure(Bishop, Black) && (4, 8) in b && b[(4, 8)] == Figure(Queen, Black) &&
      (5, 8) in b && b[(5, 8)] == Figure(King, Black) && (6, 8) in b && b[(6, 8)] == Figure(Bishop, Black) &&
      (7, 8) in b && b[(7, 8)] == Figure(Knight, Black) && (8, 8) in b && b[(8, 8)] == Figure(Rook, Black)
    ensures forall c | 1 <= c <= 8 ::
      (c, 2) in StartingBoard() && StartingBoard()[(c, 2)] == Figure(Pawn, White) &&
      (c, 7) in StartingBoard() && StartingBoard()[(c, 7)] == Figure(Pawn, Black)
  {
    forall c | 1 <= c <= 8
      ensures (c, 1) in StartingKeys() && (c, 2) in StartingKeys() && (c, 7) in StartingKeys() && (c, 8) in StartingKeys()
    {
    }
  }

  /** A move whose origin is empty changes nothing; for castling it is enough
      that either origin is empty. */
  lemma UpdateWithEmptyOrigin(board: Board, m: Move)
    requires UpdateDefined(board, m)
    requires KeyOf(m.frm) !in board || (m.Castling? && KeyOf(m.rookFrom) !in board)
    ensures UpdateBoard(board, m) == board
  {
  }

  /** A regular move puts the figure of its origin on its destination and
      empties the origin; no other field changes. */
  lemma RegularMoveEffect(board: Board, frm: Field, to: Field)
    requires KeyOf(frm) in board && KeyOf(frm) != KeyOf(to)
    ensures var r := UpdateBoard(board, Regular(frm, to));
      KeyOf(to) in r && r[KeyOf(to)] == board[KeyOf(frm)] && KeyOf(frm) !in r &&
      forall k | k != KeyOf(frm) && k != KeyOf(to) :: (k in r <==> k in board) && (k in r ==> r[k] == board[k])
  {
  }

  /** A regular move onto its own origin removes the figure: the deletion
      follows the assignment. */
  lemma RegularMoveInPlace(board: Board, f: Field)
    requires KeyOf(f) in board
    ensures UpdateBoard(board, Regular(f, f)) == board - {KeyOf(f)}
  {
  }

  /** A regular move removes one figure exactly when its destination was occupied. */
  lemma RegularMoveCount(board: Board, frm: Field, to: Field)
    requires KeyOf(frm) in board && KeyOf(frm) != KeyOf(to)
    ensures |UpdateBoard(board, Regular(frm, to))| == if KeyOf(to) in board then |board| - 1 else |board|
  {
    var from, dest := KeyOf(frm), KeyOf(to);
    var r := UpdateBoard(board, Regular(frm, to));
    if dest in board {
      assert r.Keys == board.Keys - {from};
    } else {
      assert r.Keys == board.Keys - {from} + {dest};
      assert |board.Keys - {from}| == |board| - 1;
    }
  }

  /** A regular move onto an empty field is undone by the regular move back. */
  lemma RegularMoveUndo(board: Board, frm: Field, to: Field)
    requires KeyOf(frm) in board && KeyOf(to) !in board
    ensures UpdateBoard(UpdateBoard(board, Regular(frm, to)), Regular(to, frm)) == board
  {
  }

  /** A promotion puts the chosen figure on the destination and empties the
      origin; no other field changes. */
  lemma PromotionEffect(board: Board, frm: Field, to: Field, figure: Figure)
    requires KeyOf(frm) in board && KeyOf(frm) != KeyOf(to)
    ensures var r := UpdateBoard(board, Promotion(frm, to, figure));
      KeyOf(to) in r && r[KeyOf(to)] == figure && KeyOf(frm) !in r &&
      forall k | k != KeyOf(frm) && k != KeyOf(to) :: (k in r <==> k in board) && (k in r ==> r[k] == board[k])
  {
  }

  /** A promotion onto its own origin removes the figure: the deletion
      follows the assignment. */
  lemma PromotionInPlace(board: Board, f: Field, figure: Figure)
    requires KeyOf(f) in board
    ensures UpdateBoard(board, Promotion(f, f, figure)) == board - {KeyOf(f)}
  {
  }

  /** An en-passant capture whose captured field is its destination removes
      both the pawn and the figure it lands on. */
  lemma EnPassantOntoCaptured(board: Board, frm: Field, to: Field)
    requires KeyOf(frm) in board && KeyOf(frm) != KeyOf(to)
    ensures UpdateDefined(board, EnPassant(frm, to, to))
    ensures UpdateBoard(board, EnPassant(frm, to, to)) == board - {KeyOf(frm), KeyOf(to)}
  {
  }

  /** An en-passant capture moves the pawn and empties the captured field;
      no other field changes. */
  lemma EnPassantEffect(board: Board, frm: Field, to: Field, captured: Field)
    requires KeyOf(frm) in board && KeyOf(captured) in board
    requires KeyOf(frm) != KeyOf(to) && KeyOf(captured) != KeyOf(frm) && KeyOf(captured) != KeyOf(to)
    ensures UpdateDefined(board, EnPassant(frm, to, captured))
    ensures var r := UpdateBoard(board, EnPassant(frm, to, captured));
      KeyOf(to) in r && r[KeyOf(to)] == board[KeyOf(frm)] && KeyOf(frm) !in r && KeyOf(captured) !in r &&
      forall k | k != KeyOf(frm) && k != KeyOf(to) && k != KeyOf(captured) ::
        (k in r <==> k in board) && (k in r ==> r[k] == board[k])
  {
  }

  /** Castling over four distinct fields puts the king and the rook on their
      destinations and empties both origins; no other field changes. */
  lemma CastlingEffect(board: Board, frm: Field, to: Field, rookFrom: Field, rookTo: Field)
    requires KeyOf(frm) in board && KeyOf(rookFrom) in board
    requires |{KeyOf(frm), KeyOf(to), KeyOf(rookFrom), KeyOf(rookTo)}| == 4
    ensures UpdateDefined(board, Castling(frm, to, rookFrom, rookTo))
    ensures var r := UpdateBoard(board, Castling(frm, to, rookFrom, rookTo));
      KeyOf(to) in r && r[KeyOf(to)] == board[KeyOf(frm)] &&
      KeyOf(rookTo) in r && r[KeyOf(rookTo)] == board[KeyOf(rookFrom)] &&
      KeyOf(frm) !in r && KeyOf(rookFrom) !in r &&
      forall k | k !in {KeyOf(frm), KeyOf(to), KeyOf(rookFrom), KeyOf(rookTo)} ::
        (k in r <==> k in board) && (k in r ==> r[k] == board[k])
  {
  }

  /** From the starting position, b2 to b3 moves the pawn. */
  lemma RegularExample()
    ensures var r := UpdateBoard(StartingBoard(), Regular(Field(2, 2), Field(2, 3)));
      (2, 3) in r && r[(2, 3)] == Figure(Pawn, White) && (2, 2) !in r
  {
    assert (2, 2) in StartingKeys();
    RegularMoveEffect(StartingBoard(), Field(2, 2), Field(2, 3));
  }

  /** From the starting position, c3 to b3 changes nothing: c3 is empty. */
  lemma EmptyOriginExample()
    ensures UpdateBoard(StartingBoard(), Regular(Field(3, 3), Field(2, 3))) == StartingBoard()
  {
    assert (3, 3) !in StartingKeys();
    UpdateWithEmptyOrigin(StartingBoard(), Regular(Field(3, 3), Field(2, 3)));
  }

  /** From the starting position, the b2 pawn promoted to a queen on b8
      replaces the knight there. */
  lemma PromotionExample()
    ensures var r := UpdateBoard(StartingBoard(), Promotion(Field(2, 2), Field(2, 8), Figure(Queen, White)));
      (2, 8) in r && r[(2, 8)] == Figure(Queen, White) && (2, 2) !in r
  {
    assert (2, 2) in StartingKeys();
    PromotionEffect(StartingBoard(), Field(2, 2), Field(2, 8), Figure(Queen, White));
  }

  /** From the starting position, b2 to c3 en passant takes the pawn on c7. */
  lemma EnPassantExample()
    ensures UpdateDefined(StartingBoard(), EnPassant(Field(2, 2), Field(3, 3), Field(3, 7)))
    ensures var r := UpdateBoard(StartingBoard(), EnPassant(Field(2, 2), Field(3, 3), Field(3, 7)));
      (3, 3) in r && r[(3, 3)] == Figure(Pawn, White) && (2, 2) !in r && (3, 7) !in r
  {
    assert (2, 2) in StartingKeys() && (3, 7) in StartingKeys();
    EnPassantEffect(StartingBoard(), Field(2, 2), Field(3, 3), Field(3, 7));
  }

  /** From the starting position, castling e1 to c1 with the rook from a1 to
      d1 replaces the queen on d1 by the rook. */
  lemma CastlingExample()
    ensures UpdateDefined(StartingBoard(), Castling(Field(5, 1), Field(3, 1), Field(1, 1), Field(4, 1)))
    ensures var r := UpdateBoard(StartingBoard(), Castling(Field(5, 1), Field(3, 1), Field(1, 1), Field(4, 1)));
      (3, 1) in r && r[(3, 1)] == Figure(King, White) && (4, 1) in r && r[(4, 1)] == Figure(Rook, White) &&
      (5, 1) !in r && (1, 1) !in r
  {
    assert (5, 1) in StartingKeys() && (1, 1) in StartingKeys();
    CastlingEffect(StartingBoard(), Field(5, 1), Field(3, 1), Field(1, 1), Field(4, 1));
  }
}
