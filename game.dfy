/** The game state and the generation of successor games (chess/game.py). */
module Games {
  import opened Wrappers
  import opened Colors
  import opened Fields
  import opened Figures
  import opened Moves
  import opened FigureMoves
  import opened Boards

  /** No figure stands on the field. */
  predicate IsFieldEmpty(board: Board, f: Field) {
    KeyOf(f) !in board
  }

  /** A figure of the opponent of `color` stands on the field. */
  predicate HasEnemyFigure(board: Board, color: Color, f: Field) {
    KeyOf(f) in board && board[KeyOf(f)].color == color.Other()
  }

  /** A figure of `color` stands on the field. */
  predicate HasSameColorFigure(board: Board, color: Color, f: Field) {
    KeyOf(f) in board && board[KeyOf(f)].color == color
  }

  /** The three field tests split the fields: a field is empty, holds an
      enemy figure, or holds a figure of the same color, and exactly one of
      these; an enemy of one side is a figure of the other. */
  lemma FieldTestsPartition(board: Board, color: Color, f: Field)
    ensures IsFieldEmpty(board, f) <==> !HasEnemyFigure(board, color, f) && !HasSameColorFigure(board, color, f)
    ensures !(HasEnemyFigure(board, color, f) && HasSameColorFigure(board, color, f))
    ensures HasEnemyFigure(board, color, f) <==> HasSameColorFigure(board, color.Other(), f)
  {
  }

  /** takewhile(is_field_empty, fields): the longest prefix of empty fields. */
  function EmptyPrefix(board: Board, fields: seq<Field>): (r: seq<Field>)
    ensures |r| <= |fields| && r == fields[..|r|]
    ensures forall i | 0 <= i < |r| :: IsFieldEmpty(board, r[i])
    ensures |r| < |fields| ==> !IsFieldEmpty(board, fields[|r|])
  {
    if fields == [] || !IsFieldEmpty(board, fields[0]) then []
    else [fields[0]] + EmptyPrefix(board, fields[1..])
  }

  /** dropwhile(is_field_empty, fields): what is left once the empty fields
      at the front are dropped. */
  function DropEmpty(board: Board, fields: seq<Field>): (r: seq<Field>)
    ensures |r| <= |fields| && r == fields[|fields| - |r|..]
    ensures r != [] ==> !IsFieldEmpty(board, r[0])
  {
    if fields == [] || !IsFieldEmpty(board, fields[0]) then fields
    else DropEmpty(board, fields[1..])
  }

  /** dropwhile leaves exactly what takewhile does not take. */
  lemma {:induction false} DropEmptyAfterPrefix(board: Board, fields: seq<Field>)
    ensures DropEmpty(board, fields) == fields[|EmptyPrefix(board, fields)|..]
  {
    if fields != [] && IsFieldEmpty(board, fields[0]) {
      DropEmptyAfterPrefix(board, fields[1..]);
    }
  }

  /** list(dropwhile(is_field_empty, fields))[:1]: the first occupied field, if any. */
  function FirstOccupied(board: Board, fields: seq<Field>): (r: seq<Field>)
    ensures |r| <= 1
    ensures r != [] <==> |EmptyPrefix(board, fields)| < |fields|
    ensures r != [] ==> r[0] == fields[|EmptyPrefix(board, fields)|]
  {
    DropEmptyAfterPrefix(board, fields);
    var rest := DropEmpty(board, fields);
    rest[..if |rest| < 1 then |rest| else 1]
  }

  /** The capture on one line: its first occupied field, kept when an enemy
      figure stands there. */
  function CaptureOnLine(board: Board, color: Color, fields: seq<Field>): (r: seq<Field>)
    ensures |r| <= 1
    ensures r != [] <==> |EmptyPrefix(board, fields)| < |fields| &&
                         HasEnemyFigure(board, color, fields[|EmptyPrefix(board, fields)|])
    ensures r != [] ==> r[0] == fields[|EmptyPrefix(board, fields)|]
  {
    var first := FirstOccupied(board, fields);
    if first != [] && HasEnemyFigure(board, color, first[0]) then first else []
  }

  /** The defended field on one line: its first occupied field, kept when a
      figure of the same color stands there. */
  function DefendedOnLine(board: Board, color: Color, fields: seq<Field>): (r: seq<Field>)
    ensures |r| <= 1
    ensures r != [] <==> |EmptyPrefix(board, fields)| < |fields| &&
                         HasSameColorFigure(board, color, fields[|EmptyPrefix(board, fields)|])
    ensures r != [] ==> r[0] == fields[|EmptyPrefix(board, fields)|]
  {
    var first := FirstOccupied(board, fields);
    if first != [] && HasSameColorFigure(board, color, first[0]) then first else []
  }

  /** The empty fields a figure may move to: each line's empty prefix, line after line. */
  function FreeDestinations(board: Board, fieldss: seq<seq<Field>>): (r: seq<Field>)
    ensures forall f | f in r :: IsFieldEmpty(board, f)
  {
    if fieldss == [] then []
    else EmptyPrefix(board, fieldss[0]) + FreeDestinations(board, fieldss[1..])
  }

  /** The fields with an enemy figure a figure may capture on: at most one per line. */
  function CaptureDestinations(board: Board, color: Color, fieldss: seq<seq<Field>>): (r: seq<Field>)
    ensures |r| <= |fieldss|
    ensures forall f | f in r :: HasEnemyFigure(board, color, f)
  {
    if fieldss == [] then []
    else CaptureOnLine(board, color, fieldss[0]) + CaptureDestinations(board, color, fieldss[1..])
  }

  /** The fields with a figure of the same color that a figure defends: at most one per line. */
  function DefendedDestinations(board: Board, color: Color, fieldss: seq<seq<Field>>): (r: seq<Field>)
    ensures |r| <= |fieldss|
    ensures forall f | f in r :: HasSameColorFigure(board, color, f)
  {
    if fieldss == [] then []
    else DefendedOnLine(board, color, fieldss[0]) + DefendedDestinations(board, color, fieldss[1..])
  }

  /** A field is a free destination exactly when it lies in the empty prefix of some line. */
  lemma {:induction false} FreeDestinationsMembers(board: Board, fieldss: seq<seq<Field>>, f: Field)
    ensures f in FreeDestinations(board, fieldss) <==>
            exists i | 0 <= i < |fieldss| :: f in EmptyPrefix(board, fieldss[i])
  {
    if fieldss != [] {
      FreeDestinationsMembers(board, fieldss[1..], f);
      if f in FreeDestinations(board, fieldss[1..]) {
        var i :| 0 <= i < |fieldss[1..]| && f in EmptyPrefix(board, fieldss[1..][i]);
        assert fieldss[1..][i] == fieldss[i + 1];
      }
      if exists i | 0 <= i < |fieldss| :: f in EmptyPrefix(board, fieldss[i]) {
        var i :| 0 <= i < |fieldss| && f in EmptyPrefix(board, fieldss[i]);
        if i > 0 {
          assert fieldss[1..][i - 1] == fieldss[i];
        }
      }
    }
  }

  /** A field is a capture destination exactly when it is the capture of some line. */
  lemma {:induction false} CaptureDestinationsMembers(board: Board, color: Color, fieldss: seq<seq<Field>>, f: Field)
    ensures f in CaptureDestinations(board, color, fieldss) <==>
            exists i | 0 <= i < |fieldss| :: f in CaptureOnLine(board, color, fieldss[i])
  {
    if fieldss != [] {
      CaptureDestinationsMembers(board, color, fieldss[1..], f);
      if f in CaptureDestinations(board, color, fieldss[1..]) {
        var i :| 0 <= i < |fieldss[1..]| && f in CaptureOnLine(board, color, fieldss[1..][i]);
        assert fieldss[1..][i] == fieldss[i + 1];
      }
      if exists i | 0 <= i < |fieldss| :: f in CaptureOnLine(board, color, fieldss[i]) {
        var i :| 0 <= i < |fieldss| && f in CaptureOnLine(board, color, fieldss[i]);
        if i > 0 {
          assert fieldss[1..][i - 1] == fieldss[i];
        }
      }
    }
  }

  /** A field is a defended destination exactly when it is the defended field of some line. */
  lemma {:induction false} DefendedDestinationsMembers(board: Board, color: Color, fieldss: seq<seq<Field>>, f: Field)
    ensures f in DefendedDestinations(board, color, fieldss) <==>
            exists i | 0 <= i < |fieldss| :: f in DefendedOnLine(board, color, fieldss[i])
  {
    if fieldss != [] {
      DefendedDestinationsMembers(board, color, fieldss[1..], f);
      if f in DefendedDestinations(board, color, fieldss[1..]) {
        var i :| 0 <= i < |fieldss[1..]| && f in DefendedOnLine(board, color, fieldss[1..][i]);
        assert fieldss[1..][i] == fieldss[i + 1];
      }
      if exists i | 0 <= i < |fieldss| :: f in DefendedOnLine(board, color, fieldss[i]) {
        var i :| 0 <= i < |fieldss| && f in DefendedOnLine(board, color, fieldss[i]);
        if i > 0 {
          assert fieldss[1..][i - 1] == fieldss[i];
        }
      }
    }
  }

  /** On one line the free, captured and defended fields never overlap. */
  lemma LineClassesDisjoint(board: Board, color: Color, fields: seq<Field>, f: Field)
    ensures !(f in EmptyPrefix(board, fields) && f in CaptureOnLine(board, color, fields))
    ensures !(f in EmptyPrefix(board, fields) && f in DefendedOnLine(board, color, fields))
    ensures !(f in CaptureOnLine(board, color, fields) && f in DefendedOnLine(board, color, fields))
  {
    if f in EmptyPrefix(board, fields) {
      var i :| 0 <= i < |EmptyPrefix(board, fields)| && EmptyPrefix(board, fields)[i] == f;
    }
  }

  /** Every field of every line is on the board. */
  predicate AllValid(fieldss: seq<seq<Field>>) {
    forall i, j | 0 <= i < |fieldss| && 0 <= j < |fieldss[i]| :: fieldss[i][j].IsValid()
  }

  /** Free destinations are taken from the lines, so they are on the board
      when the lines are. */
  lemma {:induction false} FreeDestinationsValid(board: Board, fieldss: seq<seq<Field>>)
    requires AllValid(fieldss)
    ensures forall f | f in FreeDestinations(board, fieldss) :: f.IsValid()
  {
    if fieldss != [] {
      FreeDestinationsValid(board, fieldss[1..]);
      var prefix := EmptyPrefix(board, fieldss[0]);
      forall f | f in prefix ensures f.IsValid() {
        var j :| 0 <= j < |prefix| && prefix[j] == f;
        assert f == fieldss[0][j];
      }
    }
  }

  /** Capture destinations are taken from the lines, so they are on the
      board when the lines are. */
  lemma {:induction false} CaptureDestinationsValid(board: Board, color: Color, fieldss: seq<seq<Field>>)
    requires AllValid(fieldss)
    ensures forall f | f in CaptureDestinations(board, color, fieldss) :: f.IsValid()
  {
    if fieldss != [] {
      CaptureDestinationsValid(board, color, fieldss[1..]);
      var capture := CaptureOnLine(board, color, fieldss[0]);
      if capture != [] {
        assert capture[0] == fieldss[0][|EmptyPrefix(board, fieldss[0])|];
      }
    }
  }

  /** The fields a figure other than a pawn may move to: its free
      destinations followed by its capture destinations, with lines taken as
      for a move that is not a capture. */
  function Destinations(board: Board, color: Color, field: Field, figure: Figure): (r: seq<Field>)
    ensures forall f | f in r :: f.IsValid() && (IsFieldEmpty(board, f) || HasEnemyFigure(board, color, f))
  {
    var fieldss := FigureMoves.FigureMoves(figure, field, false);
    FreeDestinationsValid(board, fieldss);
    CaptureDestinationsValid(board, color, fieldss);
    FreeDestinations(board, fieldss) + CaptureDestinations(board, color, fieldss)
  }

  /** The regular moves a figure generates from a field. Pawns generate
      none, and castling is never generated. */
  function FigureMoveList(board: Board, color: Color, field: Field, figure: Figure): (ms: seq<Move>)
    ensures figure.kind == Pawn ==> ms == []
    ensures forall i | 0 <= i < |ms| :: ms[i].Regular? && ms[i].frm == field
  {
    if figure.kind == Pawn then []
    else
      var dests := Destinations(board, color, field, figure);
      seq(|dests|, i requires 0 <= i < |dests| => Regular(field, dests[i]))
  }

  /** A figure other than a pawn has one regular move per destination, in
      the order of the destinations. */
  lemma RegularMovesToDestinations(board: Board, color: Color, field: Field, figure: Figure)
    requires figure.kind != Pawn
    ensures var dests := Destinations(board, color, field, figure);
      |FigureMoveList(board, color, field, figure)| == |dests| &&
      forall i | 0 <= i < |dests| :: FigureMoveList(board, color, field, figure)[i] == Regular(field, dests[i])
  {
  }

  /** The moves of the figure standing on a key, if it has the color to move. */
  function Contribution(board: Board, color: Color, k: Key): multiset<Move>
    requires k in board
  {
    if board[k].color == color then multiset(FigureMoveList(board, color, Field(k.0, k.1), board[k]))
    else multiset{}
  }

  /** The moves of the figures standing on the given keys, in no particular order. */
  ghost function MovesFrom(board: Board, color: Color, keys: set<Key>): multiset<Move>
    requires keys <= board.Keys
    decreases keys
  {
    if keys == {} then multiset{}
    else
      var k :| k in keys;
      MovesFrom(board, color, keys - {k}) + Contribution(board, color, k)
  }

  /** Every move the side to move can generate, as a multiset because the
      source visits the board in dictionary order. */
  ghost function PseudoMoves(board: Board, color: Color): multiset<Move> {
    MovesFrom(board, color, board.Keys)
  }

  /** The figures can be visited in any order: any key can be taken out first. */
  lemma {:induction false} MovesFromSplit(board: Board, color: Color, keys: set<Key>, k: Key)
    requires keys <= board.Keys && k in keys
    ensures MovesFrom(board, color, keys) == MovesFrom(board, color, keys - {k}) + Contribution(board, color, k)
    decreases keys
  {
    var j :| j in keys && MovesFrom(board, color, keys) ==
      MovesFrom(board, color, keys - {j}) + Contribution(board, color, j);
    if j != k {
      MovesFromSplit(board, color, keys - {j}, k);
      MovesFromSplit(board, color, keys - {k}, j);
      assert keys - {j} - {k} == keys - {k} - {j};
    }
  }

  /** Keys whose figures generate nothing add nothing. */
  lemma {:induction false} MovesFromNothing(board: Board, color: Color, keys: set<Key>)
    requires keys <= board.Keys
    requires forall k | k in keys :: Contribution(board, color, k) == multiset{}
    ensures MovesFrom(board, color, keys) == multiset{}
    decreases keys
  {
    if keys != {} {
      var k :| k in keys;
      MovesFromSplit(board, color, keys, k);
      MovesFromNothing(board, color, keys - {k});
    }
  }

  /** Every generated move is a regular move of a figure, other than a pawn,
      that has the color to move, onto a valid field that is empty or holds an
      enemy figure. */
  lemma {:induction false} MovesFromActiveColor(board: Board, color: Color, keys: set<Key>, m: Move)
    requires keys <= board.Keys
    requires m in MovesFrom(board, color, keys)
    ensures m.Regular? && KeyOf(m.frm) in keys
    ensures board[KeyOf(m.frm)].color == color && board[KeyOf(m.frm)].kind != Pawn
    ensures m.to.IsValid() && (IsFieldEmpty(board, m.to) || HasEnemyFigure(board, color, m.to))
    decreases keys
  {
    var k :| k in keys;
    MovesFromSplit(board, color, keys, k);
    if m in MovesFrom(board, color, keys - {k}) {
      MovesFromActiveColor(board, color, keys - {k}, m);
    } else {
      var field := Field(k.0, k.1);
      var ms := FigureMoveList(board, color, field, board[k]);
      assert m in ms;
      var i :| 0 <= i < |ms| && ms[i] == m;
      assert m.to in Destinations(board, color, field, board[k]);
    }
  }

  /** The moves of the figure on a key, if it has the color to move, as a list. */
  function MovesAt(board: Board, color: Color, k: Key): (ms: seq<Move>)
    requires k in board
    ensures multiset(ms) == Contribution(board, color, k)
  {
    if board[k].color == color then FigureMoveList(board, color, Field(k.0, k.1), board[k]) else []
  }

  /** The moves generated when the figures are visited in the given order of keys. */
  function MovesInOrder(board: Board, color: Color, order: seq<Key>): seq<Move>
    requires forall i | 0 <= i < |order| :: order[i] in board
  {
    if order == [] then []
    else MovesInOrder(board, color, order[..|order| - 1]) + MovesAt(board, color, order[|order| - 1])
  }

  /** Visiting distinct keys in any order gives the moves of those keys. */
  lemma {:induction false} MovesInOrderPermutes(board: Board, color: Color, order: seq<Key>)
    requires forall i | 0 <= i < |order| :: order[i] in board
    requires forall i, j | 0 <= i < j < |order| :: order[i] != order[j]
    ensures (set k | k in order) <= board.Keys
    ensures multiset(MovesInOrder(board, color, order)) == MovesFrom(board, color, set k | k in order)
  {
    if order != [] {
      var init, k := order[..|order| - 1], order[|order| - 1];
      MovesInOrderPermutes(board, color, init);
      var keys := set k' | k' in order;
      assert (set k' | k' in init) == keys - {k} by {
        forall k' | k' in keys ensures k' in init <==> k' != k {
          var i :| 0 <= i < |order| && order[i] == k';
          if i < |order| - 1 {
            assert init[i] == k';
          }
        }
        assert forall k' | k' in init :: k' in order;
      }
      MovesFromSplit(board, color, keys, k);
    }
  }

  /** The moves a table holds for the given keys, one key after the other. */
  function TableMoves(table: map<Key, seq<Move>>, keys: seq<Key>): seq<Move>
    requires forall i | 0 <= i < |keys| :: keys[i] in table
  {
    if keys == [] then [] else TableMoves(table, keys[..|keys| - 1]) + table[keys[|keys| - 1]]
  }

  /** A table holding, for each of its keys, the moves of the figure on it. */
  ghost predicate IsMoveTable(board: Board, color: Color, table: map<Key, seq<Move>>) {
    table.Keys <= board.Keys &&
    forall k {:trigger MovesAt(board, color, k)} | k in table :: table[k] == MovesAt(board, color, k)
  }

  /** Every board has a table of the moves of all its figures. */
  lemma MoveTableExists(board: Board, color: Color)
    ensures exists table: map<Key, seq<Move>> :: table.Keys == board.Keys && IsMoveTable(board, color, table)
  {
    var table := map k | k in board :: MovesAt(board, color, k);
    assert table.Keys == board.Keys && IsMoveTable(board, color, table);
  }

  /** Moves gathered key by key from a move table, in the order the keys are
      visited, are the moves in that order. */
  lemma {:induction false} TableMovesInOrder(board: Board, color: Color, table: map<Key, seq<Move>>,
                                              order: seq<Key>)
    requires IsMoveTable(board, color, table)
    requires forall i | 0 <= i < |order| :: order[i] in table
    ensures forall i | 0 <= i < |order| :: order[i] in board
    ensures TableMoves(table, order) == MovesInOrder(board, color, order)
  {
    if order != [] {
      var k := order[|order| - 1];
      assert table[k] == MovesAt(board, color, k);
      TableMovesInOrder(board, color, table, order[..|order| - 1]);
    }
  }

  /** Visiting every key of the board once, taking each key's moves from the
      move table, yields PseudoMoves. */
  lemma CompleteVisit(board: Board, color: Color, table: map<Key, seq<Move>>, order: seq<Key>)
    requires IsMoveTable(board, color, table) && table.Keys == board.Keys
    requires forall i, j | 0 <= i < j < |order| :: order[i] != order[j]
    requires (set k | k in order) == board.Keys
    ensures forall i | 0 <= i < |order| :: order[i] in table
    ensures multiset(TableMoves(table, order)) == PseudoMoves(board, color)
  {
    forall i | 0 <= i < |order| ensures order[i] in table {
      assert order[i] in (set k | k in order);
    }
    TableMovesInOrder(board, color, table, order);
    MovesInOrderPermutes(board, color, order);
  }

  /** Generated moves need no precondition to be applied. */
  lemma GeneratedMovesApply(board: Board, color: Color, m: Move)
    requires m in PseudoMoves(board, color)
    ensures UpdateDefined(board, m)
  {
    MovesFromActiveColor(board, color, board.Keys, m);
  }

  /** n copies of a game, as they are appended to a history. */
  function Repeated(g: Game, n: nat): (r: seq<Game>)
    ensures |r| == n && forall i | 0 <= i < n :: r[i] == g
  {
    if n == 0 then [] else Repeated(g, n - 1) + [g]
  }

  /** Copies of a game concatenate. */
  lemma RepeatedConcat(g: Game, m: nat, n: nat)
    ensures Repeated(g, m) + Repeated(g, n) == Repeated(g, m + n)
  {
    assert Repeated(g, m) + Repeated(g, n) == Repeated(g, m + n);
  }

  /** A history that has grown by m copies of a game and then by n more has
      grown by m + n copies. */
  lemma HistoryGrows(h0: seq<Game>, h1: seq<Game>, g: Game, m: nat, n: nat)
    requires h1 == h0 + Repeated(g, m)
    ensures h1 + Repeated(g, n) == h0 + Repeated(g, m + n)
  {
    RepeatedConcat(g, m, n);
  }

  /** Reading one more key of the order from a table appends its moves. */
  lemma TableMovesSnoc(table: map<Key, seq<Move>>, order: seq<Key>, n: nat)
    requires n < |order| && forall i | 0 <= i < |order| :: order[i] in table
    ensures TableMoves(table, order[..n + 1]) == TableMoves(table, order[..n]) + table[order[n]]
  {
    assert order[..n + 1][..n] == order[..n];
  }

  /** When an order of keys reads no move from a table, neither does any of its keys. */
  lemma {:induction false} TableMovesNone(table: map<Key, seq<Move>>, order: seq<Key>, n: nat)
    requires n < |order| && forall i | 0 <= i < |order| :: order[i] in table
    requires TableMoves(table, order) == []
    ensures table[order[n]] == []
  {
    var init := order[..|order| - 1];
    assert TableMoves(table, order) == TableMoves(table, init) + table[order[|order| - 1]];
    if n < |order| - 1 {
      assert init[n] == order[n];
      TableMovesNone(table, init, n);
    }
  }

  /** The keys of a set, each once, in some order: the order in which a
      dictionary hands out its items is not modelled. */
  method KeysInSomeOrder(keys: set<Key>) returns (order: seq<Key>)
    ensures forall i, j | 0 <= i < j < |order| :: order[i] != order[j]
    ensures (set k | k in order) == keys
  {
    order := [];
    var rest := keys;
    while rest != {}
      invariant forall i, j | 0 <= i < j < |order| :: order[i] != order[j]
      invariant rest !! (set k | k in order) && rest + (set k | k in order) == keys
      decreases rest
    {
      var k :| k in rest;
      rest := rest - {k};
      order := order + [k];
    }
  }

  /** A game with the color to move, the board, the history (None once it
      has been handed on) and the last move. */
  class Game {
    const color: Color
    const board: Board
    var hist: Option<seq<Game>>
    const lastMove: Option<Move>

    constructor (color: Color, board: Board, hist: Option<seq<Game>>, lastMove: Option<Move>)
      ensures this.color == color && this.board == board
      ensures this.hist == hist && this.lastMove == lastMove
    {
      this.color := color;
      this.board := board;
      this.hist := hist;
      this.lastMove := lastMove;
    }

    /** The game at its start: White to move, the starting board, an empty history, no move yet. */
    static method New() returns (g: Game)
      ensures fresh(g)
      ensures g.color == White && g.board == StartingBoard()
      ensures g.hist == Some([]) && g.lastMove == None
    {
      g := new Game(White, StartingBoard(), Some([]), None);
    }

    /** `g` is the game after move `m` from this one: the other color moves,
        the board is updated and the move is recorded. */
    predicate IsSuccessor(g: Game, m: Move) {
      g.color == color.Other() && UpdateDefined(board, m) && g.board == UpdateBoard(board, m) &&
      g.lastMove == Some(m)
    }

    /** The game after a move. As in the source, this game is appended to its
        own history in place (the append returns nothing), and the new game
        gets no history at all. */
    method Updated(m: Move) returns (g: Game)
      requires hist.Some?
      requires UpdateDefined(board, m)
      modifies this`hist
      ensures fresh(g) && g.hist == None && IsSuccessor(g, m)
      ensures hist == Some(old(hist.value) + [this])
    {
      hist := Some(hist.value + [this]);
      g := new Game(color.Other(), UpdateBoard(board, m), None, Some(m));
    }

    /** Castling is not implemented: no game is ever produced. */
    method CastlingGames(kingTo: int, rookFrom: int, rookTo: int, otherCol: int) returns (games: seq<Game>)
      ensures games == []
    {
      games := [];
    }

    /** The game after each regular move from `from` to one of `dests`, in
        order; this game's history grows by one copy of itself per game. The
        history is read only when there is a destination. */
    method UpdatedAlong(from: Field, dests: seq<Field>) returns (games: seq<Game>)
      requires hist.Some? || dests == []
      modifies this`hist
      ensures |games| == |dests|
      ensures forall i | 0 <= i < |games| :: fresh(games[i]) && games[i].hist == None
      ensures forall i | 0 <= i < |games| :: IsSuccessor(games[i], Regular(from, dests[i]))
      ensures old(hist).Some? ==> hist == Some(old(hist.value) + Repeated(this, |games|))
      ensures old(hist).None? ==> games == [] && hist == None
    {
      games := [];
      var i := 0;
      assert old(hist).Some? ==> old(hist.value) + Repeated(this, 0) == old(hist.value);
      while i < |dests|
        invariant 0 <= i <= |dests| && |games| == i
        invariant old(hist).Some? ==> hist == Some(old(hist.value) + Repeated(this, i))
        invariant old(hist).None? ==> hist == None
        invariant forall j | 0 <= j < i :: fresh(games[j]) && games[j].hist == None
        invariant forall j | 0 <= j < i :: IsSuccessor(games[j], Regular(from, dests[j]))
      {
        ghost var before := hist.value;
        var g := Updated(Regular(from, dests[i]));
        assert Repeated(this, i) + [this] == Repeated(this, i + 1);
        assert hist.value == old(hist.value) + Repeated(this, i + 1) by {
          assert hist.value == before + [this];
        }
        games := games + [g];
        i := i + 1;
      }
    }

    /** The games after each regular move of one figure: one per free
        destination, then one per capture destination; none for a pawn. This
        game's history grows by one copy of itself per game produced, and is
        read only when the figure has a move. */
    method NextGamesForFigure(field: Field, figure: Figure) returns (games: seq<Game>)
      requires hist.Some? || FigureMoveList(board, color, field, figure) == []
      modifies this`hist
      ensures |games| == |FigureMoveList(board, color, field, figure)|
      ensures forall i | 0 <= i < |games| :: fresh(games[i]) && games[i].hist == None
      ensures forall i | 0 <= i < |games| :: IsSuccessor(games[i], FigureMoveList(board, color, field, figure)[i])
      ensures old(hist).Some? ==> hist == Some(old(hist.value) + Repeated(this, |games|))
      ensures old(hist).None? ==> games == [] && hist == None
    {
      if figure.kind == Pawn {
        assert old(hist).Some? ==> old(hist.value) + Repeated(this, 0) == old(hist.value);
        return [];
      }
      var dests := Destinations(board, color, field, figure);
      ghost var ms := FigureMoveList(board, color, field, figure);
      assert |ms| == |dests| && forall i | 0 <= i < |dests| :: ms[i] == Regular(field, dests[i]) by {
        RegularMovesToDestinations(board, color, field, figure);
      }
      assert hist.Some? || dests == [];
      games := UpdatedAlong(field, dests);
      RegularSuccessors(games, field, dests, ms);
      if figure.kind == King {
        var kingSide := CastlingGames(3, 1, 4, 2);
        var queenSide := CastlingGames(7, 8, 6, 7);
      }
    }

    /** The games after the moves of the figures on the keys of `order`,
        key after key, reading each key's moves from a move table. */
    method GamesAlong(order: seq<Key>, ghost table: map<Key, seq<Move>>) returns (games: seq<Game>, ghost moves: seq<Move>)
      requires IsMoveTable(board, color, table)
      requires forall i | 0 <= i < |order| :: order[i] in table
      requires hist.Some? || TableMoves(table, order) == []
      modifies this`hist
      ensures moves == TableMoves(table, order) && |games| == |moves|
      ensures forall i | 0 <= i < |games| :: fresh(games[i]) && games[i].hist == None
      ensures forall i | 0 <= i < |games| :: IsSuccessor(games[i], moves[i])
      ensures old(hist).Some? ==> hist == Some(old(hist.value) + Repeated(this, |games|))
      ensures old(hist).None? ==> games == [] && hist == None
    {
      games, moves := [], [];
      assert old(hist).Some? ==> old(hist.value) + Repeated(this, 0) == old(hist.value);
      for n := 0 to |order|
        invariant moves == TableMoves(table, order[..n])
        invariant |games| == |moves|
        invariant old(hist).Some? ==> hist == Some(old(hist.value) + Repeated(this, |games|))
        invariant old(hist).None? ==> games == [] && hist == None
        invariant forall i | 0 <= i < |games| :: fresh(games[i]) && games[i].hist == None
        invariant forall i | 0 <= i < |games| :: IsSuccessor(games[i], moves[i])
      {
        var k := order[n];
        ghost var ms := table[k];
        if old(hist).Some? {
          HistoryGrows(old(hist.value), hist.value, this, |games|, |ms|);
        } else {
          TableMovesNone(table, order, n);
        }
        var gs := NextGamesForKey(k, table);
        SuccessorsAppend(games, moves, gs, ms);
        TableMovesSnoc(table, order, n);
        games := games + gs;
        moves := moves + ms;
      }
      assert order[..|order|] == order;
    }

    /** The games after the moves of the figure on one key of the board:
        those of NextGamesForFigure when the figure has the color to move, and
        none otherwise. */
    method NextGamesForKey(k: Key, ghost table: map<Key, seq<Move>>) returns (games: seq<Game>)
      requires k in board
      requires IsMoveTable(board, color, table) && k in table
      requires hist.Some? || table[k] == []
      modifies this`hist
      ensures |games| == |table[k]|
      ensures forall i | 0 <= i < |games| :: fresh(games[i]) && games[i].hist == None
      ensures forall i | 0 <= i < |games| :: IsSuccessor(games[i], table[k][i])
      ensures old(hist).Some? ==> hist == Some(old(hist.value) + Repeated(this, |games|))
      ensures old(hist).None? ==> games == [] && hist == None
    {
      assert table[k] == MovesAt(board, color, k);
      var figure := board[k];
      if figure.color == color {
        games := NextGamesForFigure(Field(k.0, k.1), figure);
      } else {
        games := [];
        assert old(hist).Some? ==> old(hist.value) + Repeated(this, 0) == old(hist.value);
      }
    }

    /** Successors after the regular moves to `dests` are the successors
        after the moves of a list that makes exactly those moves. */
    lemma RegularSuccessors(games: seq<Game>, from: Field, dests: seq<Field>, ms: seq<Move>)
      requires |games| == |dests| == |ms|
      requires forall i | 0 <= i < |games| :: IsSuccessor(games[i], Regular(from, dests[i]))
      requires forall i | 0 <= i < |ms| :: ms[i] == Regular(from, dests[i])
      ensures forall i | 0 <= i < |games| :: IsSuccessor(games[i], ms[i])
    {
    }

    /** Successors listed move by move stay so when two such lists are joined. */
    lemma SuccessorsAppend(games0: seq<Game>, moves0: seq<Move>, gs: seq<Game>, ms: seq<Move>)
      requires |games0| == |moves0| && |gs| == |ms|
      requires forall i | 0 <= i < |games0| :: IsSuccessor(games0[i], moves0[i])
      requires forall i | 0 <= i < |gs| :: IsSuccessor(gs[i], ms[i])
      ensures forall i | 0 <= i < |games0| + |gs| :: IsSuccessor((games0 + gs)[i], (moves0 + ms)[i])
    {
      forall i | 0 <= i < |games0| + |gs|
        ensures IsSuccessor((games0 + gs)[i], (moves0 + ms)[i])
      {
        if i >= |games0| {
          assert (games0 + gs)[i] == gs[i - |games0|] && (moves0 + ms)[i] == ms[i - |games0|];
        }
      }
    }

    /** The games after every move of every figure of the color to move.
        The figures are visited in some order; the moves made are exactly
        PseudoMoves, and this game's history grows by one copy of itself per
        game produced. The history is read only when there is a move, so a game
        without a history whose side has no move gives no game. */
    method NextGames() returns (games: seq<Game>, ghost moves: seq<Move>)
      requires hist.Some? || PseudoMoves(board, color) == multiset{}
      modifies this`hist
      ensures |games| == |moves|
      ensures multiset(moves) == PseudoMoves(board, color)
      ensures forall i | 0 <= i < |games| :: fresh(games[i]) && games[i].hist == None
      ensures forall i | 0 <= i < |games| :: IsSuccessor(games[i], moves[i])
      ensures old(hist).Some? ==> hist == Some(old(hist.value) + Repeated(this, |games|))
      ensures old(hist).None? ==> games == [] && hist == None
    {
      var order := KeysInSomeOrder(board.Keys);
      MoveTableExists(board, color);
      ghost var table: map<Key, seq<Move>> :| table.Keys == board.Keys && IsMoveTable(board, color, table);
      CompleteVisit(board, color, table, order);
      games, moves := GamesAlong(order, table);
    }
  }
}
