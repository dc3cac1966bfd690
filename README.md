# Chess move generation, modelled in Dafny

This project models the `chess/` package of *somepython*, a small chess move generator.
- **Values.** A colour, a field and a figure are values, and so is a move: one constructor per move type (regular, promotion, en passant, castling), carrying the data the board update reads.
- **Direction tables and projection.** The tables of each figure list (column, row) offset lines. A line is projected onto the board from a field and stops at the first field off the board.
- **The board.** A map from (column, row) keys to figures. `update_board` is a pure function on that map.
- **The game.** The game is a class, because `updated` changes the game it is called on. Its history list is appended in place, and the new game gets no history: `list.append` returns `None`.
- **Successors.** Successor games come from the regular moves of every non-pawn figure of the side to move. A figure's destinations are the empty prefix of each of its lines, followed by the first occupied field of each line when an enemy figure stands there. The board is visited in dictionary order, which is not modelled. `Game.NextGames` is therefore proved to make exactly the moves of `PseudoMoves`, a multiset defined independently of the visiting order.

The modules follow the source files:
- `Colors`, `Fields`, `Figures` and `Moves` model the value types.
- `FigureMoves` models the direction tables, the projection and `figure_moves`.
- `Boards` models the starting position and `update_board`.
- `Games` models the destination classifiers, `Game` and successor generation.
- `Openings` proves what a new game produces: only the two knights can move, so there are exactly four successors.
- `DestinationExamples` proves the destinations that the source's examples give for a rook and a bishop on c4 of the starting position, together with its field tests.

Where the code and the text beside it in the source disagree, the model follows the code:
- **Pawn moves and legality.** The docstring of `next_games` (`chess/game.py:198-218`) describes pawn moves, promotions and en passant. The Scala comment at `chess/game.py:316` gives 20 moves from the start. The code returns no move for a pawn (`chess/game.py:183-184`) and filters no move for check, so a new game has 4 successors.
- **Castling.** The docstring of `_castling` (`chess/game.py:153-162`) lists the conditions for castling. The code returns an empty list (`chess/game.py:163`), so castling produces no game.
- **History.** The commented Scala (`chess/game.py:170-171`) reads the history of every game as the sequence of earlier games. The code appends the game to its own history list in place and gives the new game `None`, the result of `list.append` (`chess/game.py:150`).

## Model

| member | source | states |
|---|---|---|
| Colors.Color.Other | chess/color.py:11-23 | the opposite colour differs from the colour |
| Colors.OtherIsInvolution | chess/color.py:11-23 | taking the opposite colour twice gives the colour back |
| Colors.Color.FirstRow | chess/color.py:25-35 | the first row is 1 exactly for White and 8 exactly for Black |
| Colors.FirstRowsDiffer | chess/color.py:25-35 | the two sides' first rows differ and both lie on the board |
| Fields.IsValidRange | chess/field.py:75-97 | a field is valid exactly when both coordinates are in 1..8; the source's examples (0,2), (2,0), (2,9), (9,2) invalid and (2,2) valid |
| Fields.RelativeComposes | chess/field.py:39-50 | a shift by (0,0) is the identity and two shifts compose into one |
| Fields.RelativeMayLeaveBoard | chess/field.py:44-50 | shifting is not clipped: c5 shifted by (9,10) is the invalid field (12,15); f7 shifted by (-2,-4) is d3 |
| Fields.IsLastRowByColor | chess/field.py:52-73 | the last row is row 8 for White and row 1 for Black, the opponent's first row |
| Fields.Field.Name | chess/field.py:12-32 | the name is at least two characters and its first character's code, less ord('a'), plus 1 is the column |
| Fields.NatToDecimal | chess/field.py:32 | str of a natural number: only digits, one digit exactly below 10 |
| Fields.IntToDecimal | chess/field.py:32 | str of an integer starts with a minus sign exactly when it is negative |
| Fields.DecimalRoundTrip | chess/field.py:32 | reading back the decimal string of a natural number gives the number |
| Fields.IntToDecimalInjective | chess/field.py:32 | distinct integers have distinct decimal strings |
| Fields.ValidFieldName | chess/field.py:12-32 | a valid field is named by two characters, a letter a..h for the column and a digit 1..8 for the row |
| Fields.NameInjective | chess/field.py:12-32 | two fields with the same name are the same field |
| Fields.NameExamples | chess/field.py:17-31 | a1, a8, h1, h8, d5, and l15 for a field off the board |
| Figures.AllFigureTypes | chess/figure.py:4-13 | six distinct figure types in declaration order |
| Figures.FigureTypeListed | chess/figure.py:4-13 | every figure type is among the six |
| Figures.Figure.Letter | chess/figure.py:24-75 | the letter is lower case exactly for White and upper case exactly for Black |
| Figures.Figure.Name | chess/figure.py:24-75 | str of a figure is one character, its letter |
| Figures.WhiteLetters | chess/figure.py:64-69 | White figures are written k, q, r, b, n, p |
| Figures.BlackLetterIsUpperCase | chess/figure.py:64-75 | a Black figure's letter is the upper case of the White figure's of the same type |
| Figures.LettersDistinct | chess/figure.py:64-75 | the twelve figures have twelve different letters |
| Figures.Figure.Symbol | chess/figure.py:77-92 | the symbol lies in U+2654..U+265F, at or below U+2659 exactly for White |
| Figures.SymbolPosition | chess/figure.py:81-92 | each symbol is U+2654 plus the type's position, plus 6 for Black |
| Figures.SymbolsDistinct | chess/figure.py:81-92 | the twelve figures have twelve different symbols |
| Moves.AllMoveTypes | chess/move.py:4-8 | four distinct move types in declaration order |
| Moves.MoveTypeListed | chess/move.py:4-8 | every move type is among the four |
| Moves.Move.Type | chess/move.py:11-18 | the type of a move matches the constructor it was built with, in both directions |
| FigureMoves.Range | chess/figure_moves.py:15-18 | range with a unit step: its length and its i-th element start ± i |
| FigureMoves.Zip | chess/figure_moves.py:136 | zip pairs elements up to the end of the shorter list |
| FigureMoves.OffsetListsShape | chess/figure_moves.py:14-34 | the offset lists are 1..8, -1..-8 and nine zeros |
| FigureMoves.RookLinesShape | chess/figure_moves.py:7-19 | four rook lines of eight steps, (k,0), (-k,0), (0,k), (0,-k); zip cuts the nine zeros to eight |
| FigureMoves.BishopLinesShape | chess/figure_moves.py:22-34 | four bishop lines of eight steps along the four diagonals |
| FigureMoves.QueenLinesShape | chess/figure_moves.py:37-44 | the queen's eight lines are the rook's followed by the bishop's |
| FigureMoves.KnightSteps | chess/figure_moves.py:47-51 | the single step of each of the eight knight lines, in table order |
| FigureMoves.KnightLinesShape | chess/figure_moves.py:47-51 | eight knight lines of one step each, no two alike |
| FigureMoves.KnightOffsetsSound | chess/figure_moves.py:47-51 | every knight offset is a (1,2) or (2,1) jump in some direction |
| FigureMoves.KnightOffsetsComplete | chess/figure_moves.py:47-51 | every knight jump is among the knight offsets |
| FigureMoves.KingSteps | chess/figure_moves.py:54-58 | the single step of each of the eight king lines, in table order |
| FigureMoves.KingLinesShape | chess/figure_moves.py:54-58 | eight king lines of one step each, no two alike |
| FigureMoves.KingOffsetsSound | chess/figure_moves.py:54-58 | every king offset leads to a neighbouring field |
| FigureMoves.KingOffsetsComplete | chess/figure_moves.py:54-58 | every neighbouring field is reached by a king offset |
| FigureMoves.ChooseFigureMoves | chess/figure_moves.py:61-111 | a pawn has two lines when capturing and one otherwise |
| FigureMoves.CaptureFlagOnlyForPawns | chess/figure_moves.py:85-94 | the capture flag changes nothing for a figure other than a pawn |
| FigureMoves.PawnQuietLines | chess/figure_moves.py:101-111 | a pawn moves one field ahead, or one then two from its starting row (2 for White, 7 for Black) |
| FigureMoves.PawnCaptureLines | chess/figure_moves.py:96-100 | a pawn captures one field diagonally ahead, left then right |
| FigureMoves.RelativeField | chess/figure_moves.py:114-125 | the field at an offset is the field's own shift by that offset (`Field.relative`); offset (0, 0) keeps a valid field valid |
| FigureMoves.RelativeFieldExamples | chess/figure_moves.py:119-123 | b3 is at (1, 1) from a2, and a4 at (0, 2) |
| FigureMoves.ProjectSteps | chess/figure_moves.py:114-136 | the projection is the longest prefix of shifted fields that are all valid; the next one is invalid |
| FigureMoves.ProjectStepsUnique | chess/figure_moves.py:128-136 | any list meeting that description is the projection |
| FigureMoves.ProjectionStopsAtFirstInvalid | chess/figure_moves.py:128-136 | the source's example [c3, d2, e1]; a later step back onto the board is not reached |
| FigureMoves.FigureMoves | chess/figure_moves.py:139-160 | one list per line of the figure, every field on the board |
| FigureMoves.FigureMovesAre | chess/figure_moves.py:139-160 | the lists are the projections of the figure's lines, in order |
| FigureMoves.KnightMovesExample | chess/figure_moves.py:148-149 | a knight on b1 reaches [c3], [d2], [a3] and five empty lines |
| FigureMoves.PawnMovesExamples | chess/figure_moves.py:151-158 | a White pawn on b2 reaches [b3, b4], captures on [a3], [c3]; on a2 it captures on [], [b3] |
| Boards.StartingBoardSize | chess/board.py:6-40 | the starting position holds 32 figures |
| Boards.StartingBoardLayout | chess/board.py:6-40 | valid fields only, White on rows 1-2, Black on rows 7-8, rows 3-6 empty, pawns exactly on rows 2 and 7, kings on e1 and e8 |
| Boards.StartingBoardEntries | chess/board.py:6-40 | each of the 32 entries of the starting position |
| Boards.UpdateBoard | chess/board.py:129-168 | the new board holds only old keys and the move's targets; the vacated origin is not among them |
| Boards.UpdateWithEmptyOrigin | chess/board.py:137-138 | a move from an empty origin (for castling, either origin) returns the board unchanged |
| Boards.RegularMoveEffect | chess/board.py:131-136 | a regular move puts the origin's figure on the destination, empties the origin, and changes no other field |
| Boards.RegularMoveInPlace | chess/board.py:133-135 | a regular move onto its own origin deletes the figure |
| Boards.RegularMoveCount | chess/board.py:131-136 | a regular move removes one figure exactly when the destination was occupied |
| Boards.RegularMoveUndo | chess/board.py:131-136 | a regular move onto an empty field is undone by the move back |
| Boards.PromotionEffect | chess/board.py:139-144 | a promotion puts the chosen figure on the destination, empties the origin, and changes no other field |
| Boards.PromotionInPlace | chess/board.py:139-146 | a promotion onto its own origin removes the figure, because the deletion follows the assignment |
| Boards.EnPassantEffect | chess/board.py:147-154 | an en-passant capture moves the pawn, empties the captured field, and changes no other field |
| Boards.EnPassantOntoCaptured | chess/board.py:147-156 | an en-passant capture whose captured field is its destination is defined and removes both the pawn and the figure there |
| Boards.CastlingEffect | chess/board.py:157-166 | castling over four distinct fields moves king and rook, empties both origins, and changes no other field |
| Boards.RegularExample | chess/board.py:69-79 | b2 to b3 from the starting position |
| Boards.EmptyOriginExample | chess/board.py:81-91 | c3 to b3 from the starting position changes nothing |
| Boards.PromotionExample | chess/board.py:93-103 | b2 promoted to a queen on b8 |
| Boards.EnPassantExample | chess/board.py:105-115 | b2 to c3 en passant taking c7 |
| Boards.CastlingExample | chess/board.py:117-127 | castling e1 to c1 with the rook from a1 to d1 |
| Games.FieldTestsPartition | chess/game.py:51-126 | a field is empty exactly when it holds neither an enemy figure nor one of the same colour; it never holds both; an enemy of one side is a figure of the other |
| Games.EmptyPrefix | chess/game.py:73 | takewhile: a prefix of the line, all empty, followed by an occupied field or the end |
| Games.DropEmpty | chess/game.py:107 | dropwhile: a suffix of the line starting with an occupied field or empty |
| Games.DropEmptyAfterPrefix | chess/game.py:73-107 | dropwhile leaves exactly what takewhile does not take |
| Games.FirstOccupied | chess/game.py:107 | the first occupied field of the line, present exactly when the empty prefix is shorter than the line |
| Games.CaptureOnLine | chess/game.py:76-107 | a line's capture is its first occupied field, present exactly when that field holds an enemy figure |
| Games.DefendedOnLine | chess/game.py:111-143 | a line's defended field is its first occupied field, present exactly when that field holds a figure of the same colour |
| Games.FreeDestinations | chess/game.py:63-73 | every free destination is empty |
| Games.CaptureDestinations | chess/game.py:94-107 | no more captures than lines, each holding an enemy figure |
| Games.DefendedDestinations | chess/game.py:129-143 | no more defended fields than lines, each holding a figure of the same colour |
| Games.FreeDestinationsMembers | chess/game.py:63-73 | a field is a free destination exactly when it is in some line's empty prefix |
| Games.CaptureDestinationsMembers | chess/game.py:94-107 | a field is a capture destination exactly when it is some line's capture |
| Games.DefendedDestinationsMembers | chess/game.py:129-143 | a field is a defended destination exactly when it is some line's defended field |
| Games.LineClassesDisjoint | chess/game.py:63-143 | on one line the free, captured and defended fields never overlap |
| Games.FreeDestinationsValid | chess/game.py:63-73 | free destinations are on the board when the lines are |
| Games.CaptureDestinationsValid | chess/game.py:94-107 | capture destinations are on the board when the lines are |
| Games.Destinations | chess/game.py:186-190 | every destination is a valid field that is empty or holds an enemy figure |
| Games.FigureMoveList | chess/game.py:178-195 | a pawn yields no move; every move is regular and starts on the figure's field |
| Games.RegularMovesToDestinations | chess/game.py:188-190 | a figure other than a pawn has one regular move per destination, in order |
| Games.MovesFromSplit | chess/game.py:221-225 | the moves of a set of figures do not depend on which figure is visited first |
| Games.MovesFromActiveColor | chess/game.py:221-225 | every generated move is regular, from a non-pawn of the side to move, onto a valid empty or enemy field |
| Games.MovesInOrderPermutes | chess/game.py:221-225 | visiting distinct keys in any order yields the moves of those keys |
| Games.CompleteVisit | chess/game.py:221-225 | visiting every key once yields PseudoMoves |
| Games.GeneratedMovesApply | chess/game.py:146-150 | every generated move can be applied to the board without a KeyError |
| Games.KeysInSomeOrder | chess/game.py:224-225 | the dictionary's keys, each once |
| Games.Game.New | chess/game.py:20-37 | White to move, the starting position, an empty history, no last move |
| Games.Game.Updated | chess/game.py:146-150 | the new game has the other colour, the updated board, the move and no history; this game is appended to its own history |
| Games.Game.CastlingGames | chess/game.py:153-175 | castling produces no game |
| Games.Game.UpdatedAlong | chess/game.py:188-190 | one successor per destination, in order; the history grows by one copy of this game per successor, and with no destination a game without a history gives none |
| Games.Game.NextGamesForFigure | chess/game.py:178-195 | one successor per move of FigureMoveList, in order, none for a pawn; the history is needed only when there is a move |
| Games.Game.NextGamesForKey | chess/game.py:221-225 | a figure of the other colour yields no successor, and needs no history |
| Games.Game.GamesAlong | chess/game.py:221-225 | the successors of the figures visited key after key, in order; the history is needed only when some key has a move |
| Games.Game.NextGames | chess/game.py:198-225 | one fresh successor per move, whose moves are exactly PseudoMoves as a multiset; the history grows by one copy per successor; a game without a history whose side has no move gives no game and stays as it is |
| Openings.BlockedLinesGiveNothing | chess/game.py:63-107 | lines that are empty or start on a figure of the side to move give no free and no capture destination |
| Openings.FirstStepsAreAdjacent | chess/figure_moves.py:7-58 | the first step of each rook, bishop, queen and king line goes to a neighbouring field |
| Openings.FirstRowNeighbours | chess/board.py:6-40 | every neighbour of a first-row field is off the board or holds a White figure |
| Openings.BlockedFigureHasNoMoves | chess/game.py:178-195 | a figure other than a pawn whose lines are all blocked has no move |
| Openings.FirstRowFigureBlocked | chess/game.py:178-195 | at the start, a White rook, bishop, queen or king on the first row has no move |
| Openings.KnightOnG1Lines | chess/figure_moves.py:139-160 | the lines of the knight on g1: [h3], [], [f3], [], [], [], [], [e2] |
| Openings.KnightOnB1 | chess/game.py:178-195 | at the start, the knight on b1 moves to c3 or a3 |
| Openings.KnightOnG1 | chess/game.py:178-195 | at the start, the knight on g1 moves to h3 or f3 |
| Openings.OnlyKnightsMove | chess/game.py:198-225 | at the start, only the figures on b1 and g1 generate moves |
| Openings.StartingMoves | chess/game.py:219-225 | at the start, White's moves are exactly the four knight moves |
| Openings.FirstSuccessors | chess/game.py:219-225 | a new game has four successors, Black to move, one per opening knight move |
| DestinationExamples.EmptyPrefixOfSplit | chess/game.py:73 | takewhile over empty fields followed by an occupied field, or by nothing, keeps exactly the empty fields |
| DestinationExamples.SplitCapture | chess/game.py:94-107 | a line of empty fields followed by an occupied one (or nothing) captures exactly on that field when it holds an enemy figure |
| DestinationExamples.SplitDefended | chess/game.py:129-143 | such a line defends exactly that field when it holds a figure of the same colour |
| DestinationExamples.SplitLine | chess/game.py:63-143 | on such a line, the capture and the defended field are the occupied field, when it holds an enemy figure or one of the same colour |
| DestinationExamples.FourLinesFree | chess/game.py:73 | the free destinations of four lines are their empty prefixes, concatenated in line order |
| DestinationExamples.FourLinesCapture | chess/game.py:106-107 | the capture destinations of four lines are their captures, concatenated in line order |
| DestinationExamples.FourLinesDefended | chess/game.py:142-143 | the defended destinations of four lines are their defended fields, concatenated in line order |
| DestinationExamples.StartingRows | chess/board.py:6-40 | at the start, rows 3 to 6 are empty, rows 1 and 2 hold White figures, and rows 7 and 8 hold Black figures |
| DestinationExamples.FieldTestExamples | chess/game.py:49-128 | at the start, b2 is occupied and b3 is empty; for White, b7 holds an enemy figure and b2 a figure of the same colour, and c4 holds neither |
| DestinationExamples.RookOnC4Lines | chess/figure_moves.py:145-146 | the lines of a rook on c4: [d4..h4], [b4, a4], [c5..c8], [c3, c2, c1] |
| DestinationExamples.BishopOnC4Lines | chess/figure_moves.py:160 | the lines of a bishop on c4: [d5, e6, f7, g8], [b5, a6], [d3, e2, f1], [b3, a2] |
| DestinationExamples.StartingAroundC4 | chess/board.py:6-40 | at the start, the fields the rook and the bishop on c4 pass over are empty, a2, c2 and e2 hold White pawns, and c7 and f7 hold Black pawns |
| DestinationExamples.RookOnC4Free | chess/game.py:67-68 | on any board laid out like that around c4, a rook on c4 moves freely to d4, e4, f4, g4, h4, b4, a4, c5, c6 and c3 |
| DestinationExamples.RookOnC4Captures | chess/game.py:100-101 | on such a board, the rook captures only on c7 |
| DestinationExamples.RookOnC4Defended | chess/game.py:136-137 | on such a board, the rook defends only c2 |
| DestinationExamples.RookOnC4 | chess/game.py:67-68 | the three results for the rook, on the starting position |
| DestinationExamples.BishopOnC4Free | chess/game.py:70-71 | on such a board, a bishop on c4 moves freely to d5, e6, b5, a6, d3 and b3 |
| DestinationExamples.BishopOnC4Captures | chess/game.py:103-104 | on such a board, the bishop captures only on f7 |
| DestinationExamples.BishopOnC4Defended | chess/game.py:139-140 | on such a board, the bishop defends e2 and a2 |
| DestinationExamples.BishopOnC4 | chess/game.py:70-71 | the three results for the bishop, on the starting position |

## Left out

- Text output is not modelled: `Game.__str__` and `Game.__repr__` (`chess/game.py:40-48`), `show_board` (`chess/board.py:42-62`) and `Field.__repr__`. `Field.__str__` and `Figure.__str__` are modelled as `Name`.
- The debug `print` in `_next_games_for_figure` (`chess/game.py:187`) is left out. Its only effect besides output is an error: it renders the field with `chr(col + 96)`, which raises `ValueError` for a figure on a column below -95 or above `0x10FFFF - 96`. Only a board built by hand can hold such a figure; the starting board and `update_board` on generated moves never do.
- The Scala code in comments (`chess/game.py:164-175`, `226-328`) is not code. Check detection, legal-move filtering, game end, the winner and move lookup by fields are therefore not modelled.
- The doctest runners at the end of each file are left out.
- The numbers `auto()` gives the figure and move types are left out; only their declaration order is kept.
- Object identity is not modelled. `Field`, `Figure` and `Move` are compared as values. The source compares figures only through their type and colour attributes, and boards only through their keys, so nothing depends on identity. The history is kept as a value: `Game.__init__` stores the list it is given by reference, so two games built by hand with one list would share later appends, and that sharing is not modelled. The core never builds such a pair, since `new` passes a fresh `[]` and `updated` passes `None`.
- Dictionary order is not modelled. `Games.KeysInSomeOrder` may return any order, and `Games.Game.NextGames` states its moves as a multiset.
- `next_games` builds lazy `map` objects and then lists them. The games are produced in the same order either way, so the laziness is not modelled.
- Fields.Field.Name: defined only for columns with `0 <= col + 96 <= 0x10FFFF` outside the surrogates `0xD800..0xDFFF`. Python's `chr` accepts those surrogate codes too, but Dafny characters exclude them.
- FigureMoves.Range: models only the unit steps the tables use.
- Moves.Move: the keyword dictionary of extra data is replaced by constructor fields. A move whose dictionary lacks the key `update_board` reads would raise `KeyError`; it cannot be built.
- Boards.UpdateBoard: the `KeyError` raised by the second `del` is a precondition (`UpdateDefined`). This happens for an en-passant move whose captured field is its origin, or is empty and is not its destination, and for castling whose rook origin is the king's origin. An en-passant move whose captured field is its empty destination raises nothing: the pawn is first put there and then deleted (`Boards.EnPassantOntoCaptured`). Every generated move meets `UpdateDefined` (`Games.GeneratedMovesApply`).
- Games.Game.Updated: the history must be present. In the source a game returned by `updated` has history `None`, so calling `updated` on it raises `AttributeError`. The model states this as the precondition `hist.Some?`. `next_games` on such a game raises only when it reaches `updated`, that is when the side to move has a move. `Games.Game.NextGames` and its helpers therefore require a history only in that case, and otherwise return no game.
- Games.Game.CastlingGames: returns no game, as the source's stub does. Its arguments are unused, and the castling conditions in the comments are not modelled.
