# chess2023 move generator and executor, in Dafny

This project models chess2023, a small chess engine. It has three parts:

- a ray walker (`move_or_take`) and the move record, from `moves.py`;
- a pseudo-legal move generator, one per piece class, from `pieces.py`;
- a copy-on-write game state with `create_game_state`, `add_piece`, `setup_board`, `replace_piece`, `make_move`, the side's move list and the notation readers `choose_move` and `convert_input_to_move`, from `game.py`.

The rules are those of Article 3 of the FIDE Laws of Chess as this code implements them. Where the code departs from those rules, the model follows the code and a lemma shows the departure.

Modelling choices:

- **Game state.** The state dictionary is a value (`Chess.GameState`). Every operation of the engine starts with `deepcopy`. So each operation is a function or method that returns a new state and cannot touch its argument.
- **Board cells.** A board cell holds the id of the piece standing on it, or nothing. This is what the generators expect when they look a cell up in `pieces_params` (`moves.py:62`, `pieces.py:281`). `game.py` stores the piece object itself (`game.py:67`, `game.py:97`, `game.py:119`); with one object per id the two representations carry the same information.
- **Promotion kinds.** The one-letter promotion tags `"N"`, `"B"`, `"R"`, `"Q"` become the `Kind` values they name. `Game.MakeMove` passes `replace_piece` the kind's full name (`Game.KindName`), which is the corrected behaviour. The code as written passes the tag and fails on every promotion (`Game.MoveAppliedAsWritten`, see Findings).
- **Python exceptions.** They become the `Failure` branch of a `Result`:
  - `make_move` on an empty start square;
  - a table lookup of a missing id;
  - `str.index` of a character that is not there;
  - an index outside the input text;
  - a square that `convert_input_to_move` reads outside the grid.

  Elsewhere a square outside the grid is excluded by a `requires`; see "Left out".
- **Loops stay loops.** The source builds lists with loops. Those loops are methods with the same loops (`MoveOrTake`, `StepOrTake`, `AddPromotions`, `KingCandidates`, `GetAllPossibleMoves`, `ChooseMove` and others). Each method is proved equal to a function that states the list, and the properties are lemmas about those functions.
- **Move record.** The `Move` record is the datatype `Chess.Move`. Its optional fields default to nothing, as the constructor does (`moves.py:4-34`).

Modules:

- `Wrappers` (wrappers.dfy): `Option`, and `Result` with failure propagation.
- `Chess` (chess.dfy): sides, kinds, pieces, the kind tag of `__repr__`, the `Move` record, the game state and the grid predicates. `Coherent` says every occupied cell names a live piece standing there, and every live piece stands on its own cell.
- `Moves` (moves.py): `move_or_take`.
- `Pieces` (pieces.py): the six generators and the dispatch on the piece class.
- `AllMoves` (moves.py): `get_all_possible_moves(state, side)`.
- `Game` (game.py): state construction and `make_move`.
- `Notation` (game.py): `choose_move` and `convert_input_to_move`.

## Model

| member | source | states |
|---|---|---|
| Chess.Tag | pieces.py:63-67 | The tag is the class letter, upper case exactly for White, as the `__repr__` of every piece class returns it. |
| Chess.TagIdentifiesKindAndSide | pieces.py:63-67 | Two pieces print alike exactly when they have the same kind and side. |
| Chess.Opponent | game.py:284 | The turn flip always hands the move to the other side. |
| Chess.SetFlag | game.py:136 | Marking a side's king as moved sets that side's flag and leaves the other one. |
| Chess.SetCell | game.py:67 | Assigning one cell changes that cell only and keeps the grid's shape. |
| Chess.CoherentIsReadable | moves.py:62 | On a coherent state every occupied cell can be looked up in the live table. |
| Moves.Walk | moves.py:47-72 | The walk emits at most one move per candidate square. |
| Moves.WalkMove | moves.py:51-72 | The k-th move is the piece's own plain move to the k-th square, taking what stands there, never a friend; only the last move can take anything. |
| Moves.WalkReaches | moves.py:47-72 | The k-th square is reached exactly when every earlier square is empty and it holds no friend. |
| Moves.MoveOrTake | moves.py:40-74 | The loop with its `break` returns exactly the walk. |
| Pieces.RayFrom | pieces.py:30 | The k-th square of a ray lies k+1 steps from the piece in the ray's direction, and every square of it is on the board. |
| Pieces.RayMove | pieces.py:30-35 | A move along one ray keeps that direction, stays on the board, and takes exactly what stands on its target, never a friend. |
| Pieces.SlideMove | pieces.py:26-61 | Every sliding move is a plain move along one of the piece's rays, on the board, and never onto a friend. |
| Pieces.SlidesAppend | pieces.py:143-228 | The moves of a list of rays are the moves of its first part followed by those of the rest. |
| Pieces.RookMoveOnLine | pieces.py:26-61 | A rook move stays on the board and keeps exactly one of row and column. |
| Pieces.BishopMoveOnDiagonal | pieces.py:70-129 | A bishop move stays on the board and changes row and column by the same non-zero amount. |
| Pieces.QueenIsRookThenBishop | pieces.py:138-230 | The queen's list is the rook's list followed by the bishop's list. |
| Pieces.WalkAlongRay | pieces.py:30 | The k-th move of a ray heads in the ray's direction and lies k+1 squares out. |
| Pieces.SlidesInRayOrder | pieces.py:26-61 | Sliding moves come ray by ray in the class's order, nearest first within a ray. |
| Pieces.RookMoves | pieces.py:25-61 | The rook generator returns its four rays up, down, left and right. |
| Pieces.BishopMoves | pieces.py:69-129 | The bishop generator returns its four diagonal rays in the class's order. |
| Pieces.QueenMoves | pieces.py:137-230 | The queen generator returns its eight rays, which are the rook's list followed by the bishop's list. |
| Pieces.StepMove | pieces.py:269-289 | A stepping move goes to one of the listed squares, takes what stands there and never lands on a friend. |
| Pieces.StepsReach | pieces.py:269-289 | A listed square gets a move exactly when it holds no friend. |
| Pieces.StepOrTake | pieces.py:269-289 | The loop over the candidate squares returns the stepping list. |
| Pieces.WithinKeeps | pieces.py:243-266 | The bound tests keep exactly the listed squares that lie on the board. |
| Pieces.KnightSquaresExact | pieces.py:243-266 | The knight's candidates are exactly the on-board squares a (1, 2) or (2, 1) jump away. |
| Pieces.KnightReach | pieces.py:239-291 | The knight can go to a square exactly when it lies on the board a jump away and holds no friend. |
| Pieces.JumpPair | pieces.py:244-248 | One bound test keeps exactly those of its two jumps that land on the board. |
| Pieces.KnightMoves | pieces.py:238-291 | The knight generator returns the stepping list over its candidate squares. |
| Pieces.Promoting | pieces.py:319-336 | A promotion gives four copies of the move, differing only in the kind: knight, bishop, rook, queen. |
| Pieces.PromotingShape | pieces.py:328-336 | Each promotion is the move itself with one of the four kinds added. |
| Pieces.Within | pieces.py:243-266 | The bound tests keep only squares on the board. |
| Pieces.AddPromotions | pieces.py:328-336 | The promotion loop appends those four copies in order. |
| Pieces.AddExpanded | pieces.py:326-344 | The move is appended as its four promotions on the row before the promotion row, and alone otherwise. |
| Pieces.ForwardMoves | pieces.py:322-354 | The forward part of the pawn generator returns the pushes. |
| Pieces.AddDiagonal | pieces.py:358-401 | One pass of the diagonal loop appends the capture towards that column, then en passant. |
| Pieces.AddDiagonals | pieces.py:357-401 | The loop over the two diagonals appends the left one, then the right one. |
| Pieces.PawnMoves | pieces.py:299-404 | The pawn generator returns the pushes, then the left diagonal, then the right one. |
| Pieces.PawnLetter | pieces.py:390 | The en passant letter test holds exactly when the last mover is a pawn. |
| Pieces.PushShape | pieces.py:322-354 | A push needs the square ahead free. It moves one square ahead, or two from the start row over two free squares; it takes nothing and promotes only one square ahead. |
| Pieces.DiagonalShape | pieces.py:357-401 | A diagonal move lands one row ahead on that column. It takes the enemy standing there, or, for en passant, the last mover, without promotion. |
| Pieces.PawnMoveShape | pieces.py:300-404 | A pawn move starts from the pawn and lands on the board one row ahead, or two on its own column from the start row. It stays on its column or a neighbouring one, and promotes only on the row before the promotion row. |
| Pieces.PawnAdvances | pieces.py:322-344 | The pawn has a move along its column exactly when the square ahead is free. |
| Pieces.PawnDoubleStep | pieces.py:346-354 | The two-square push is offered exactly from the start row over two free squares. |
| Pieces.PawnPromotion | pieces.py:326-336 | A pawn about to promote, with the square ahead free, opens its list with the four promotions knight, bishop, rook, queen. Any other pawn never promotes. |
| Pieces.CaptureOffered | pieces.py:357-381 | An enemy piece diagonally ahead is taken. The list holds the capture as one contiguous run: its four promotions knight, bishop, rook, queen when the pawn is about to promote, and the capture alone otherwise. |
| Pieces.EnPassantOffered | pieces.py:384-401 | After a pawn's two-row move that ended beside the pawn, the list holds the en passant move that takes that pawn. |
| Pieces.DiagonalOffered | pieces.py:356-401 | The pawn moves to a neighbouring column exactly when an enemy piece stands diagonally ahead there or en passant towards it is due. |
| Pieces.CaptureRun | pieces.py:357-381 | With an enemy piece diagonally ahead, the capture's moves (its four promotions, or the capture alone) form one contiguous run of the pawn's list, and each of them is in the list. |
| Pieces.DiagonalMoveDue | pieces.py:356-401 | A pawn move to a neighbouring column is there only when an enemy piece stands diagonally ahead on that column or en passant towards it is due. |
| Pieces.DiagonalMoveOffered | pieces.py:356-401 | When an enemy piece stands diagonally ahead on a neighbouring column, or en passant towards it is due, the list holds a move to that column. |
| Pieces.OffColumnIsDiagonal | pieces.py:356-401 | A pawn move off its own column comes from the diagonal loop's pass for that column. |
| Pieces.OnlyWhitePromotes | pieces.py:309-316 | A White pawn promotes exactly from row 1; a Black pawn never promotes. |
| Pieces.EnPassantAfterDoubleStep | pieces.py:384-401 | A pawn move off its own column that does not land on an enemy piece is en passant: the last move was a pawn's two-row move that ended beside the pawn on that column, and that pawn is taken, without promotion. |
| Pieces.KingSquaresExact | pieces.py:421-440 | The king lists exactly the squares one step away that its bound tests allow; on an 8 by 8 board those are the adjacent squares. |
| Pieces.KingHeldAtColumn7 | pieces.py:427-440 | On a wider board a king on column 7 never steps right (the bounds assume 8 by 8). |
| Pieces.KingCandidates | pieces.py:420-440 | The bound tests build the king's candidate squares in the class's order. |
| Pieces.KingStep | pieces.py:442-462 | A king move that is not castling goes one step from the king onto the board, takes what stands there and never lands on a friend. |
| Pieces.CastlingMove | pieces.py:464-502 | Castling needs an unmoved king and an empty path to the corner. The king ends two columns towards the corner; the nested rook move goes from the corner cell to the square the king passes. |
| Pieces.CastlingOffered | pieces.py:465-473 | Castling towards a corner is offered exactly while the king has not moved and every square between them is empty. |
| Pieces.AddCastling | pieces.py:466-502 | One pass of the castling loop appends the castling towards that corner when the path is clear. |
| Pieces.KingMoves | pieces.py:417-504 | The king generator returns its steps, then its castlings. |
| Pieces.GetPossibleMoves | moves.py:86 | The call dispatches to the generator of the piece's class. |
| Pieces.PieceMove | pieces.py:25-504 | Every generated move starts from the piece. Only a pawn promotes and only a king castles; any other move lands on the board and, except for a pawn's, takes exactly what stands there and never a friend. |
| AllMoves.ListsOf | moves.py:84-86 | The lists are taken for exactly the live pieces of the side. |
| AllMoves.BelowHas | moves.py:84-86 | The gathered list holds exactly the moves of the lists for the ids below the bound. |
| AllMoves.MovesBelowGathers | moves.py:84-86 | Walking the ids in table order gathers the side's lists. |
| AllMoves.MovesOfSideHas | moves.py:77-88 | The side's list holds exactly the generated moves of its live pieces. |
| AllMoves.MoveOfSide | moves.py:84-86 | Every move of the side starts from one of its live pieces. |
| AllMoves.BelowGrows | moves.py:84-86 | The list keeps table order: gathering fewer ids gives a prefix. |
| AllMoves.GetAllPossibleMoves | moves.py:77-88 | The loop over the table returns the side's list. |
| Game.CreateGameState | game.py:5-17 | A new state has a rows by cols grid of empty cells, empty tables, counter 0, no history, no result, neither king moved, and White to move. |
| Game.FreshStateCoherent | game.py:5-17 | A new state is coherent and every id is below the counter. |
| Game.KindOfName | game.py:58-65 | Every name `add_piece` knows names a kind a pawn may become. |
| Game.NamesOfPromotionKinds | game.py:88-95 | The names and the four kinds correspond one to one. |
| Game.LettersAreNotNames | game.py:127-129 | No one-letter tag is among the names `replace_piece` knows. |
| Game.PieceAdded | game.py:67 | Adding a piece keeps the grid's shape. |
| Game.AddPiece | game.py:45-72 | An unknown name raises. A known name gives the state with that piece added. |
| Game.AddedPiece | game.py:56-72 | The new piece gets the old counter as its id and stands on its square in the grid and the table. The counter goes up by one and nothing else changes. |
| Game.AddKeepsCoherent | game.py:67-70 | Adding a piece on an empty square keeps the state coherent. |
| Game.LineupNames | game.py:26-41 | The four names of the setup are known. |
| Game.Place | game.py:26 | One `add_piece` call of the setup places the next piece of the lineup. |
| Game.AddBackRank | game.py:26-32 | The seven calls of one side place its back-rank lineup. |
| Game.SetupBoard | game.py:19-43 | The setup places White's back rank on row 7, then Black's on row 0. |
| Game.PlacedAllTables | game.py:26-41 | Placing a lineup gives the i-th piece the id counter+i and the record of the i-th placement, keeps the old pieces, and leaves the other fields alone. |
| Game.PlacedAllCoherent | game.py:26-41 | Placing pieces on distinct empty squares keeps the state coherent. |
| Game.BackRankFacts | game.py:26-32 | A back rank has seven pieces on distinct squares of its row, none of them a pawn or king. |
| Game.LineupFacts | game.py:26-41 | The lineup has fourteen pieces on distinct squares of rows 7 and 0, White exactly on row 7. |
| Game.StartingPosition | game.py:19-43 | After setup the ids are 0 to 13 with the lineup's records, there are no pawns or kings, White stands exactly on row 7, and there is no history. |
| Game.StartingCoherent | game.py:19-43 | The position after setup is coherent. |
| Game.PlacedAppend | game.py:26-41 | Placing two lineups in turn is placing their concatenation. |
| Game.PlacedOnEmpty | game.py:19-43 | On a fresh state the lineup's pieces get exactly the ids 0 to n-1, and the counter ends at n. |
| Game.PlacedOnEmptyRecords | game.py:19-43 | On a fresh state the i-th piece placed has id i and the record of the i-th placement. |
| Game.KindsFromLineup | game.py:19-43 | Tables filled from the lineup hold no pawn or king, and White stands exactly on row 7. |
| Game.CapturedTable | game.py:116-126 | After relocation and capture the live table is the old one without the taken piece, with the mover on the end square. |
| Game.PromotedOutcome | game.py:127-129 | The corrected replacement after a move succeeds exactly for a known kind and a mover still live. |
| Game.ReplacePiece | game.py:74-100 | The method returns exactly the replacement that `ReplacedPiece` describes. |
| Game.ReplacedPiece | game.py:86-100 | Replacing succeeds exactly for a known name and a live id. The new record keeps id and side, takes the new kind and square, and nothing else changes. |
| Game.Relocated | game.py:116-120 | After relocation both squares of the move are still on the grid. |
| Game.Captured | game.py:122-126 | Moving the taken piece between the tables leaves the grid unchanged. |
| Game.Executed | game.py:110-136 | A successful move keeps the grid's shape. |
| Game.MakeMove | game.py:102-138 | The method returns exactly what the steps of the move produce, the state or the error of the first step that fails. A promotion passes `replace_piece` the kind's full name, which is the corrected form; the code as written fails there. |
| Game.MoveOutcome | game.py:110-136 | A move succeeds exactly from an occupied square with a live mover, a live taken piece other than the mover and a known promotion. It then leaves the state described field by field. |
| Game.MoveFailsIffStartEmpty | game.py:112-114 | For a move that names the start cell's occupant, takes another live piece or nothing and promotes to a known kind, making it fails exactly when the start square is empty, and then with that error. |
| Game.MoveRelocates | game.py:116-132 | The mover ends on the end square with its side, and promoted when asked. The start cell is cleared when it differs from the end, no other cell changes, and the move is appended. |
| Game.MoveCaptures | game.py:122-126 | On a capture exactly that key leaves the live table and enters the captured table with its record; otherwise the tables keep their keys. No other record changes. |
| Game.MovePromotes | game.py:127-129 | On promotion the piece with the same id and side stands on the end square with the new kind. |
| Game.PromotionAsWrittenFails | game.py:129 | As written, every promotion ends in the error for an unknown name. |
| Game.AsWrittenAgreesWithoutPromotion | game.py:127-129 | Without promotion the code as written and the corrected one agree. |
| Game.KingMoveFlags | game.py:134-136 | A king's move sets its side's flag, the piece's own `has_moved` stays as it was, and other moves leave the flags alone. |
| Game.CastlingRookStays | game.py:110-138 | A castling move leaves the rook's squares as they were: the nested rook move is never applied. |
| Game.MoveKeepsCoherent | game.py:116-126 | A move from an occupied square that takes what stands on its end square keeps the state coherent. |
| Game.OutcomeCellsNamePieces | game.py:119-126 | After such a move every occupied cell names a live piece standing on it. |
| Game.OutcomePiecesStand | game.py:116-126 | After such a move every live piece stands on its own cell. |
| Game.OutcomeCoherent | game.py:116-126 | The outcome of such a move is coherent. |
| Game.OutcomeShape | game.py:116-136 | The outcome keeps the grid's shape and issues no id beyond the counter. |
| Game.EnPassantLeavesStaleCell | game.py:119-126 | A capture of a piece that stands elsewhere (en passant) leaves its id on its cell while it leaves the live table. |
| Game.GetTurnMoves | game.py:155-165 | The loop returns the list of the side to move. |
| Notation.IndexOf | game.py:178 | `str.index` finds the first position of the character, or the character is not there. |
| Notation.CharAt | game.py:178 | Python indexing succeeds exactly for indexes from -len to len-1, and gives the character at a non-negative index. |
| Notation.ColumnOf | game.py:178 | A column letter decodes to its index in "abcdefgh"; any other character raises. |
| Notation.RowOf | game.py:179 | A row digit decodes to its index in "87654321"; any other character raises. |
| Notation.LabelsByIndex | game.py:176-177 | Column letters run up from 'a' and row digits down from '8'. |
| Notation.LabelsDecode | game.py:176-179 | Decoding the label of an index gives the index back. |
| Notation.SquareNameReads | game.py:234-237 | The name of a square reads back as that square. |
| Notation.SquareReadIsName | game.py:234-237 | A square that reads successfully is spelled by its name. |
| Notation.DestinationOfSquare | game.py:178-179 | An input ending in a square's name has that destination. |
| Notation.TaggedIdsHas | game.py:182 | The selected ids are exactly those of the live pieces of the side to move whose tag matches the first character, ignoring case. |
| Notation.TaggedIdsPlay | game.py:182 | Every selected id is a live piece of the side to move. |
| Notation.HintedInput | game.py:196-204 | A letter, a column hint and a square name make a four-character input with that destination. |
| Notation.AloneFromColumn | game.py:199-204 | A move no other move of that kind matches by start column and destination is the only candidate from its column. |
| Notation.SpellsSquares | game.py:234-237 | Four characters that decode to two squares are those squares' names. |
| Notation.GatheredHas | game.py:183-185 | The gathered list holds exactly the moves of the selected pieces. |
| Notation.ArrivingHas | game.py:188-191 | The filter keeps exactly the moves ending on the destination. |
| Notation.CandidatesHas | game.py:182-191 | A candidate is exactly a move ending on the destination from the list of a live piece of the side to move with the letter given. |
| Notation.FirstStartingFinds | game.py:201-211 | The disambiguation loop finds the earliest move starting on the given line, or reports that none does. |
| Notation.FirstStartingOn | game.py:201-211 | The loop returns that earliest move. |
| Notation.PickedFacts | game.py:194-220 | No candidate gives no move; a lone candidate is returned; several without a four-character input raise; a pick is a candidate. |
| Notation.PickedByColumn | game.py:199-205 | With a column hint the pick is the earliest candidate from that column, and the input is refused exactly when none starts there. |
| Notation.PickedByRow | game.py:206-212 | With a row hint the pick is the earliest candidate from that row, and the input is refused exactly when none starts there. |
| Notation.PickedUnknownHint | game.py:213-214 | Several candidates with a hint that is neither letter nor digit raise. |
| Notation.ChosenIsGenerated | game.py:167-195 | A chosen move ends on the destination named by the last two characters and is a generated move of a piece of the side to move with the letter given. |
| Notation.ChosenNone | game.py:218-220 | No move is chosen exactly when the destination reads and no such piece has a move ending there. |
| Notation.ChosenAmongCandidates | game.py:178-194 | The choice is made among the candidates for the decoded destination. |
| Notation.PickedAlone | game.py:199-204 | A column hint picks the only candidate from that column. |
| Notation.CandidateKind | game.py:182-191 | A candidate for a letter comes from a piece of that kind. |
| Notation.ChosenByColumn | game.py:196-204 | A generated move is chosen by its letter, start column and destination whenever no other piece of that kind can reach the destination from the same column. |
| Notation.ConvertInputToMove | game.py:223-255 | An input shorter than four characters raises. A converted move names a piece and carries no promotion and no castling. |
| Notation.ConvertedMove | game.py:223-255 | A converted move names the squares its first four characters spell, the id on the start square and the cell of the end square, with no promotion and no castling. |
| Notation.ConvertRoundTrip | game.py:234-255 | Spelling an unpromoted, non-castling move's squares and converting gives the move back. |
| Notation.GeneratedMoveConverts | game.py:223-255 | On a coherent 8 by 8 board every generated step of a piece other than a pawn converts back from its four-character spelling. |
| Notation.TaggedPieces | game.py:182 | The comprehension returns the matching live pieces in table order. |
| Notation.MovesWithPieces | game.py:183-185 | The loop concatenates the selected pieces' lists. |
| Notation.KeepArriving | game.py:188-191 | The loop keeps the moves ending on the destination. |
| Notation.ChooseMove | game.py:167-220 | The method returns the choice above for the lists of the side to move. |

## Left out

- Console output is not modelled: `display_board`, `display_pieces`, `full_str`, `__repr__` of `Move`, and the `print` calls in `make_move` and `choose_move`.
- The interactive loop `play` and the script at the bottom of `game.py` read from the console and are not modelled; only the turn flip is kept, as `Chess.Opponent`.
- Only the letters of the tag are upper-cased (`Chess.Upper`), not all of Unicode. That is all the comparisons here need.
- Python's negative-index wraparound is not modelled where a pawn on the last rank would index the row beyond it (`pieces.py:322`, `pieces.py:359`). `Pieces.PawnReady` requires the row ahead to be on the board.
- Pieces.GetPossibleMoves: crashes are excluded by requires, not modelled as errors.
  - The king's bound tests (pieces.py:422-440) allow the row below and the column to the right whenever the king stands at most on row or column 6. On a board with fewer than 8 rows or columns, a king on the last row or column would index past the grid, and the source raises `IndexError`. `Pieces.KingReady` rules out exactly those positions.
  - The en passant test looks up the last mover, which `Pieces.LastMoverKnown` requires to be live.
- Pieces.GetPossibleMoves: every generator requires `Chess.Readable`, which says every occupied cell of the whole grid names a live piece. The source only looks up the cells a generator actually visits (moves.py:62, pieces.py:281, pieces.py:359, pieces.py:390). So a state with any dead cell is excluded as a whole from the generators, `AllMoves.GetAllPossibleMoves`, `Game.GetTurnMoves` and `Notation.ChooseMove`. The state an en passant capture leaves is such a state (`Game.EnPassantLeavesStaleCell`). On it the source still lists the moves of every piece that never visits the stale cell.
- The `ignore_complicated` flag of `get_all_possible_moves` is accepted and ignored, as in the source.
- The live table is iterated in ascending id order. Ids are handed out in increasing order by `add_piece`, and the table is otherwise only overwritten in place or shrunk, so that is Python's insertion order.
- The King class's `has_moved` is a field of every `Chess.Piece`, kept false by every constructor. Nothing ever sets it, and `Game.KingMoveFlags` shows that `make_move` leaves it alone.
- Game.AddPiece and Game.ReplacePiece require the square to lie on the grid. In the source a negative row or column wraps around (`board[-1][col]` is the last row) while the piece records the negative coordinate, and an index past the grid raises `IndexError`. Neither case is modelled.
- Game.MakeMove requires both squares of the move on the grid (`Game.Playable`). The source wraps negative indices and raises `IndexError` past the grid. The generators can emit such a move: a king on column 1 castling towards column 0 gets end column -1 (`Pieces.CastleTowards`). The source then writes the king into the last column while it records column -1; the model does not cover that move.
- Game.SetupBoard and Game.AddBackRank require a grid of at least 8 by 8. On a smaller grid the source's fixed squares raise `IndexError`.
- Game.AddBackRank and Game.SetupBoard return the state rather than a `Result`: every name they pass to `add_piece` is known, so the branch without a piece object cannot be reached there.
- Game.MakeMove: promotions use the corrected name passed to `replace_piece` (`Game.KindName`). As written, every promotion fails (`Game.PromotionAsWrittenFails`, and the Findings table).
- Game.MakeMove: the Python `KeyError` paths (a move whose id or taken id is not live) are errors of their own (`UnknownPiece`). The move also records the taken piece after relocating the mover, so a move that takes itself fails, as the later lookup of the mover does in the source.
- Notation.ConvertInputToMove: the cell's `.id` read becomes the id stored in the cell, since cells hold ids here.
- Notation.ChosenByColumn is stated for four-character inputs with a column hint. The three-character round trip, that a unique move is chosen from its letter and destination alone, is not proved: the generated lists may repeat a move, and then the filter keeps two equal candidates and the source raises.
- The `Notation` lemmas are stated for any table of move lists keyed by the live pieces of the side to move. `Notation.ChooseMove` ties them to the generated lists.
- Deviations from the FIDE rules, modelled as written:
  - nothing detects check, checkmate or draws;
  - castling never checks attacks or that a rook stands in the corner, and `make_move` never moves the rook (`Game.CastlingRookStays`);
  - Black never promotes, because the promotion row is one past the last row (`Pieces.OnlyWhitePromotes`);
  - en passant leaves the captured pawn's id on its cell (`Game.EnPassantLeavesStaleCell`);
  - the king's bounds assume an 8 by 8 board (`Pieces.KingHeldAtColumn7`);
  - `add_piece` knows no pawn or king, and `setup_board` places fourteen pieces (`Game.StartingPosition`).

## Findings

| source | as written | input that shows it | evidently intended | confidence | as-written member | corrected member |
|---|---|---|---|---|---|---|
| game.py:129 | `make_move` passes the move's one-letter promotion tag (`"N"`, `"B"`, `"R"` or `"Q"`, the constants at pieces.py:4-7 that the generator uses at pieces.py:319) to `replace_piece`, which only knows the names "rook", "bishop", "queen" and "knight" (game.py:88-95), so `piece_obj` is never bound and every promotion raises | any promotion, e.g. a White pawn on row 1 pushing to row 0 into an empty square | the pawn is replaced by a piece of the kind the tag names | not executed | Game.PromotionAsWrittenFails | Game.MovePromotes |
