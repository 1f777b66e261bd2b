/**
 * The vocabulary shared by the move generator and the executor: sides, piece
 * kinds, piece records, the `Move` record and the game state.
 *
 * The game state is a value. Every operation of the engine copies the whole
 * state before changing it, so a copy-on-write dictionary becomes a datatype
 * whose operations return a new value and never touch their argument.
 */
module Chess {
  import opened Wrappers

  /** Piece identifiers, handed out from the `next_id` counter. */
  type Id = nat

  /** A board cell: the id of the piece standing on it, or nothing. */
  type Cell = Option<Id>

  /** Side 0 (White) and side 1 (Black). */
  datatype Side = White | Black

  /** The turn flip of the interactive loop, `(turn + 1) % 2`. */
  function Opponent(side: Side): (r: Side)
    ensures r != side
  {
    if side == White then Black else White
  }

  datatype Kind = Pawn | Knight | Bishop | Rook | Queen | King

  /** The upper-case letter each piece class prints as. */
  function KindLetter(k: Kind): char
  {
    match k
    case Pawn => 'P'
    case Knight => 'N'
    case Bishop => 'B'
    case Rook => 'R'
    case Queen => 'Q'
    case King => 'K'
  }

  /** ASCII upper-casing, which is all `str.upper` does to the letters compared here. */
  function Upper(c: char): char
  {
    if 'a' <= c <= 'z' then (c as int - 32) as char else c
  }

  /**
   * A live or captured piece. `hasMoved` is the `has_moved` attribute of the
   * king class; every other class lacks it, and the model keeps it false.
   */
  datatype Piece = Piece(id: Id, kind: Kind, row: int, col: int, side: Side, hasMoved: bool)

  /** `__repr__` of every piece class: its letter, upper case for White, lower case for Black. */
  function Tag(p: Piece): (c: char)
    ensures Upper(c) == KindLetter(p.kind)
    ensures p.side == White <==> 'A' <= c <= 'Z'
  {
    var u := KindLetter(p.kind);
    if p.side == White then u else (u as int + 32) as char
  }

  /** Two pieces print alike exactly when they have the same kind and side. */
  lemma TagIdentifiesKindAndSide(p: Piece, q: Piece)
    ensures Tag(p) == Tag(q) <==> p.kind == q.kind && p.side == q.side
  {
  }

  /**
   * One ply. `pieceTaken` is the captured piece (for en passant not the one
   * on the landing square), `promotion` the kind a pawn becomes, `castling`
   * the rook's own move. The id is a cell because the rook move of castling
   * takes its id from a corner cell that may be empty.
   */
  datatype Move = Move(
    pieceId: Cell,
    startRow: int,
    startCol: int,
    endRow: int,
    endCol: int,
    pieceTaken: Cell := None,
    promotion: Option<Kind> := None,
    castling: Option<Move> := None)

  /** The `result` entry: 0 for a White win, 0.5 for a draw, 1 for a Black win. */
  datatype GameResult = WhiteWins | Drawn | BlackWins

  /** The two `king_has_moved` flags, `[white, black]`. */
  datatype KingFlags = KingFlags(white: bool, black: bool)

  function SetFlag(f: KingFlags, side: Side): (r: KingFlags)
    ensures side == White ==> r == f.(white := true)
    ensures side == Black ==> r == f.(black := true)
  {
    if side == White then f.(white := true) else f.(black := true)
  }

  /**
   * The state dictionary. `pieces` is `pieces_params` (live pieces),
   * `taken` is `pieces_taken_params`, `moves` the history.
   */
  datatype GameState = GameState(
    board: seq<seq<Cell>>,
    pieces: map<Id, Piece>,
    taken: map<Id, Piece>,
    nextId: nat,
    result: Option<GameResult>,
    moves: seq<Move>,
    kingHasMoved: KingFlags,
    turn: Side)

  function Rows(s: GameState): nat
  {
    |s.board|
  }

  /** `len(state["board"][0])`. */
  function Cols(s: GameState): nat
  {
    if |s.board| == 0 then 0 else |s.board[0]|
  }

  /** A non-empty rectangular grid, so that `board[0]` exists and every row has `Cols` cells. */
  predicate WellShaped(s: GameState)
  {
    |s.board| > 0 && forall r :: 0 <= r < |s.board| ==> |s.board[r]| == |s.board[0]|
  }

  predicate OnBoard(s: GameState, r: int, c: int)
  {
    0 <= r < Rows(s) && 0 <= c < Cols(s)
  }

  function At(s: GameState, r: int, c: int): Cell
    requires WellShaped(s) && OnBoard(s, r, c)
  {
    s.board[r][c]
  }

  /**
   * Every occupied cell names a live piece. The generators look up the side of
   * the piece on each square they visit in the live table, which fails for an
   * id that has been removed from it.
   */
  predicate CellsLive(s: GameState)
  {
    forall r, c :: 0 <= r < |s.board| && 0 <= c < |s.board[r]| && s.board[r][c].Some? ==>
      s.board[r][c].value in s.pieces
  }

  /** What every generator needs of the state: a grid and cells that can be looked up. */
  predicate Readable(s: GameState)
  {
    WellShaped(s) && CellsLive(s)
  }

  /** The square (r, c) holds a piece of `side`. */
  predicate Friendly(s: GameState, side: Side, r: int, c: int)
    requires Readable(s) && OnBoard(s, r, c)
  {
    At(s, r, c).Some? && s.pieces[At(s, r, c).value].side == side
  }

  /** The square (r, c) holds a piece of the other side. */
  predicate Hostile(s: GameState, side: Side, r: int, c: int)
    requires Readable(s) && OnBoard(s, r, c)
  {
    At(s, r, c).Some? && s.pieces[At(s, r, c).value].side != side
  }

  /**
   * The co-reference invariant between the grid and the live table: an
   * occupied cell names a live piece standing on that cell, and every live
   * piece stands on the board on a cell that names it.
   */
  predicate Coherent(s: GameState)
  {
    && WellShaped(s)
    && (forall r, c :: 0 <= r < |s.board| && 0 <= c < |s.board[r]| && s.board[r][c].Some? ==>
          s.board[r][c].value in s.pieces
          && s.pieces[s.board[r][c].value].row == r
          && s.pieces[s.board[r][c].value].col == c)
    && (forall id :: id in s.pieces ==>
          && s.pieces[id].id == id
          && OnBoard(s, s.pieces[id].row, s.pieces[id].col)
          && s.board[s.pieces[id].row][s.pieces[id].col] == Some(id))
  }

  lemma CoherentIsReadable(s: GameState)
    requires Coherent(s)
    ensures Readable(s)
  {
  }

  /** Every id in either table was handed out by the counter. */
  predicate IdsIssued(s: GameState)
  {
    (forall id :: id in s.pieces ==> id < s.nextId) && (forall id :: id in s.taken ==> id < s.nextId)
  }

  /** The grid with one cell replaced. */
  function SetCell(board: seq<seq<Cell>>, r: int, c: int, v: Cell): (b: seq<seq<Cell>>)
    requires 0 <= r < |board| && 0 <= c < |board[r]|
    ensures |b| == |board|
    ensures forall i :: 0 <= i < |b| ==> |b[i]| == |board[i]|
    ensures forall i, j :: 0 <= i < |b| && 0 <= j < |b[i]| ==>
      b[i][j] == if i == r && j == c then v else board[i][j]
  {
    board[r := board[r][c := v]]
  }
}
