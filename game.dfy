/**
 * Building a game state and playing a move on it. Every operation copies the
 * state and changes the copy, so each is a method on a value that returns
 * the new state and leaves its argument as it was.
 */
module Game {
  import opened Wrappers
  import opened Chess
  import opened Pieces
  import opened AllMoves

  /** Why an operation raises instead of returning a state. */
  datatype GameError =
    | NoPieceAtStart(row: int, col: int)  // the explicit `Invalid move` exception
    | UnknownPiece(id: Cell)              // a `KeyError` on the live table
    | UnknownName(name: string)           // no class branch matched the piece name

  // ---------------------------------------------------------------------------
  // A fresh state
  // ---------------------------------------------------------------------------

  /** `create_game_state`: an empty rows by cols board, White to move. */
  function CreateGameState(rows: nat := 8, cols: nat := 8): (s: GameState)
    ensures |s.board| == rows
    ensures forall r :: 0 <= r < rows ==> |s.board[r]| == cols
    ensures forall r, c :: 0 <= r < rows && 0 <= c < cols ==> s.board[r][c] == None
    ensures s.pieces == map[] && s.taken == map[] && s.nextId == 0
    ensures s.result == None && s.moves == [] && s.kingHasMoved == KingFlags(false, false) && s.turn == White
  {
    GameState(seq(rows, _ => seq(cols, _ => None)), map[], map[], 0, None, [], KingFlags(false, false), White)
  }

  /** A fresh state with at least one row already satisfies the table invariants. */
  lemma FreshStateCoherent(rows: nat, cols: nat)
    requires rows > 0
    ensures Coherent(CreateGameState(rows, cols)) && IdsIssued(CreateGameState(rows, cols))
  {
  }

  // ---------------------------------------------------------------------------
  // Piece names
  // ---------------------------------------------------------------------------

  /** The piece names `add_piece` and `replace_piece` recognise; pawns and kings have none. */
  function KindOfName(name: string): (k: Option<Kind>)
    ensures k.Some? ==> k.value in PromotionKinds
  {
    if name == "rook" then Some(Rook)
    else if name == "bishop" then Some(Bishop)
    else if name == "queen" then Some(Queen)
    else if name == "knight" then Some(Knight)
    else None
  }

  /** The name of each kind, in the lower-case words the documentation uses. */
  function KindName(k: Kind): string
  {
    match k
    case Pawn => "pawn"
    case Knight => "knight"
    case Bishop => "bishop"
    case Rook => "rook"
    case Queen => "queen"
    case King => "king"
  }

  /**
   * The names decode exactly the four kinds a pawn promotes to: those names
   * and no other string.
   */
  lemma NamesOfPromotionKinds(k: Kind, name: string)
    ensures KindOfName(KindName(k)) == if k in PromotionKinds then Some(k) else None
    ensures KindOfName(name).Some? ==> KindName(KindOfName(name).value) == name
  {
  }

  /** No one-letter tag is a name: the letters `__repr__` prints are not recognised. */
  lemma LettersAreNotNames(k: Kind)
    ensures KindOfName([KindLetter(k)]) == None
  {
  }

  // ---------------------------------------------------------------------------
  // add_piece
  // ---------------------------------------------------------------------------

  /** The state with a new piece of kind `k` under the next id, on (row, col). */
  function PieceAdded(s: GameState, k: Kind, row: int, col: int, side: Side): (r: GameState)
    requires 0 <= row < |s.board| && 0 <= col < |s.board[row]|
    ensures |r.board| == |s.board| && forall i :: 0 <= i < |s.board| ==> |r.board[i]| == |s.board[i]|
  {
    s.(board := SetCell(s.board, row, col, Some(s.nextId)),
       pieces := s.pieces[s.nextId := Piece(s.nextId, k, row, col, side, false)],
       nextId := s.nextId + 1)
  }

  /** `add_piece`: unknown names (including "pawn" and "king") raise. */
  method AddPiece(s: GameState, name: string, row: int, col: int, side: Side) returns (r: Result<GameState, GameError>)
    requires 0 <= row < |s.board| && 0 <= col < |s.board[row]|
    ensures KindOfName(name) == None ==> r == Failure(UnknownName(name))
    ensures KindOfName(name).Some? ==> r == Success(PieceAdded(s, KindOfName(name).value, row, col, side))
  {
    var kind;
    if name == "rook" {
      kind := Rook;
    } else if name == "bishop" {
      kind := Bishop;
    } else if name == "queen" {
      kind := Queen;
    } else if name == "knight" {
      kind := Knight;
    } else {
      return Failure(UnknownName(name));
    }
    var c := s;
    var piece := Piece(c.nextId, kind, row, col, side, false);
    c := c.(board := c.board[row := c.board[row][col := Some(c.nextId)]]);
    c := c.(pieces := c.pieces[c.nextId := piece]);
    c := c.(nextId := c.nextId + 1);
    r := Success(c);
  }

  /**
   * The new piece takes the old counter as its id and stands on (row, col) in
   * the grid and the table; the counter goes up by one, the other cells and
   * table entries stay, and nothing else changes.
   */
  lemma AddedPiece(s: GameState, k: Kind, row: int, col: int, side: Side)
    requires 0 <= row < |s.board| && 0 <= col < |s.board[row]|
    ensures var r := PieceAdded(s, k, row, col, side);
      && r.pieces[s.nextId] == Piece(s.nextId, k, row, col, side, false)
      && r.board[row][col] == Some(s.nextId)
      && r.nextId == s.nextId + 1
      && r.pieces.Keys == s.pieces.Keys + {s.nextId}
      && (forall id :: id in s.pieces && id != s.nextId ==> r.pieces[id] == s.pieces[id])
      && |r.board| == |s.board|
      && (forall i, j :: 0 <= i < |r.board| && 0 <= j < |r.board[i]| && (i, j) != (row, col) ==>
            r.board[i][j] == s.board[i][j])
      && r.taken == s.taken && r.moves == s.moves && r.turn == s.turn
      && r.kingHasMoved == s.kingHasMoved && r.result == s.result
  {
  }

  /** Adding onto an empty square keeps the co-reference invariant and the id counter valid. */
  lemma AddKeepsCoherent(s: GameState, k: Kind, row: int, col: int, side: Side)
    requires Coherent(s) && IdsIssued(s) && OnBoard(s, row, col) && At(s, row, col) == None
    ensures Coherent(PieceAdded(s, k, row, col, side)) && IdsIssued(PieceAdded(s, k, row, col, side))
  {
    var r := PieceAdded(s, k, row, col, side);
    assert WellShaped(r);
    forall id | id in r.pieces
      ensures r.pieces[id].id == id && OnBoard(r, r.pieces[id].row, r.pieces[id].col)
      ensures r.board[r.pieces[id].row][r.pieces[id].col] == Some(id)
    {
      if id != s.nextId {
        assert s.board[s.pieces[id].row][s.pieces[id].col] == Some(id);
      }
    }
  }

  // ---------------------------------------------------------------------------
  // setup_board
  // ---------------------------------------------------------------------------

  /** One `add_piece` call of the starting position, with the kind its name stands for. */
  datatype Placement = Placement(kind: Kind, row: int, col: int, side: Side)

  /** The pieces `setup_board` places on one side's back rank, in call order. */
  function BackRank(row: int, side: Side): seq<Placement>
  {
    [Placement(Rook, row, 0, side), Placement(Rook, row, 7, side),
     Placement(Bishop, row, 2, side), Placement(Bishop, row, 5, side),
     Placement(Queen, row, 3, side),
     Placement(Knight, row, 1, side), Placement(Knight, row, 6, side)]
  }

  /** The calls `setup_board` makes: the White back rank on row 7, then the Black one on row 0. */
  function StartingLineup(): seq<Placement>
  {
    BackRank(7, White) + BackRank(0, Black)
  }

  /** Every placement of the list lies within a rows by cols grid. */
  predicate Fits(rows: int, cols: int, ps: seq<Placement>)
  {
    forall i :: 0 <= i < |ps| ==> 0 <= ps[i].row < rows && 0 <= ps[i].col < cols
  }

  /** Every placement of the list is on the board. */
  predicate PlacementsOnBoard(s: GameState, ps: seq<Placement>)
  {
    WellShaped(s) && Fits(Rows(s), Cols(s), ps)
  }

  /** The state after adding the placements one after the other. */
  function PlacedAll(s: GameState, ps: seq<Placement>): GameState
    requires PlacementsOnBoard(s, ps)
    decreases |ps|
  {
    if ps == [] then s
    else PlacedAll(PieceAdded(s, ps[0].kind, ps[0].row, ps[0].col, ps[0].side), ps[1..])
  }

  /** Adding placement `k` leaves the placements after it to add. */
  lemma PlacedStep(s: GameState, ps: seq<Placement>, k: nat)
    requires k < |ps| && PlacementsOnBoard(s, ps)
    ensures var r := PieceAdded(s, ps[k].kind, ps[k].row, ps[k].col, ps[k].side);
      WellShaped(r) && Rows(r) == Rows(s) && Cols(r) == Cols(s)
    ensures PlacedAll(s, ps[k..]) == PlacedAll(PieceAdded(s, ps[k].kind, ps[k].row, ps[k].col, ps[k].side), ps[k + 1..])
  {
    assert ps[k..][0] == ps[k] && ps[k..][1..] == ps[k + 1..];
  }

  /** The four names of the starting position are known. */
  lemma LineupNames()
    ensures KindOfName("rook") == Some(Rook) && KindOfName("bishop") == Some(Bishop)
    ensures KindOfName("queen") == Some(Queen) && KindOfName("knight") == Some(Knight)
  {
  }

  /** Adding two lists one after the other adds their concatenation. */
  lemma {:induction false} PlacedAppend(s: GameState, a: seq<Placement>, b: seq<Placement>)
    requires PlacementsOnBoard(s, a + b)
    ensures PlacementsOnBoard(s, a) && PlacementsOnBoard(PlacedAll(s, a), b)
    ensures PlacedAll(s, a + b) == PlacedAll(PlacedAll(s, a), b)
    decreases |a|
  {
    assert forall i :: 0 <= i < |a| ==> (a + b)[i] == a[i];
    if a != [] {
      assert (a + b)[0] == a[0] && (a + b)[1..] == a[1..] + b;
      PlacedStep(s, a + b, 0);
      var s1 := PieceAdded(s, a[0].kind, a[0].row, a[0].col, a[0].side);
      assert PlacementsOnBoard(s1, a[1..] + b);
      PlacedAppend(s1, a[1..], b);
    } else {
      assert a + b == b;
    }
  }

  /** One `add_piece` call of a list of placements, by a name that is known. */
  method Place(c: GameState, name: string, row: int, col: int, side: Side, ghost ps: seq<Placement>, ghost k: nat)
    returns (r: GameState)
    requires k < |ps| && PlacementsOnBoard(c, ps)
    requires ps[k] == Placement(ps[k].kind, row, col, side) && KindOfName(name) == Some(ps[k].kind)
    ensures PlacementsOnBoard(r, ps)
    ensures PlacedAll(c, ps[k..]) == PlacedAll(r, ps[k + 1..])
  {
    PlacedStep(c, ps, k);
    var added := AddPiece(c, name, row, col, side);
    r := added.value;
  }

  /** The seven `add_piece` calls of one back rank. */
  method AddBackRank(s: GameState, row: int, side: Side) returns (r: GameState)
    requires WellShaped(s) && 0 <= row < Rows(s) && Cols(s) >= 8
    ensures PlacementsOnBoard(s, BackRank(row, side))
    ensures r == PlacedAll(s, BackRank(row, side))
  {
    ghost var ps := BackRank(row, side);
    LineupNames();
    assert PlacementsOnBoard(s, ps) && ps[0..] == ps;
    var c := Place(s, "rook", row, 0, side, ps, 0);
    c := Place(c, "rook", row, 7, side, ps, 1);
    c := Place(c, "bishop", row, 2, side, ps, 2);
    c := Place(c, "bishop", row, 5, side, ps, 3);
    c := Place(c, "queen", row, 3, side, ps, 4);
    c := Place(c, "knight", row, 1, side, ps, 5);
    r := Place(c, "knight", row, 6, side, ps, 6);
    assert ps[7..] == [];
  }

  /**
   * `setup_board`: the fourteen `add_piece` calls on a copy of the state,
   * White's back rank and then Black's. Every name is known, so none of them
   * raises.
   */
  method SetupBoard(s: GameState) returns (r: GameState)
    requires WellShaped(s) && Rows(s) >= 8 && Cols(s) >= 8
    ensures PlacementsOnBoard(s, StartingLineup())
    ensures r == PlacedAll(s, StartingLineup())
  {
    // White pieces
    var c := AddBackRank(s, 7, White);
    // Black pieces
    r := AddBackRank(c, 0, Black);
    PlacedAppend(s, BackRank(7, White), BackRank(0, Black));
  }

  /** No two placements of the list share a square. */
  predicate SquaresDistinct(ps: seq<Placement>)
  {
    forall i, j :: 0 <= i < j < |ps| ==> (ps[i].row, ps[i].col) != (ps[j].row, ps[j].col)
  }

  /**
   * The placements get consecutive ids from the counter, in list order; the
   * pieces already in the table keep their records, and the captured table,
   * the history, the turn and the result are untouched.
   */
  lemma {:induction false} PlacedAllTables(s: GameState, ps: seq<Placement>)
    requires PlacementsOnBoard(s, ps) && IdsIssued(s)
    ensures var r := PlacedAll(s, ps);
      && IdsIssued(r) && r.nextId == s.nextId + |ps|
      && (forall id :: id in r.pieces <==> id in s.pieces || s.nextId <= id < s.nextId + |ps|)
      && (forall i :: 0 <= i < |ps| ==>
            r.pieces[s.nextId + i] == Piece(s.nextId + i, ps[i].kind, ps[i].row, ps[i].col, ps[i].side, false))
      && (forall id :: id in s.pieces ==> r.pieces[id] == s.pieces[id])
      && r.taken == s.taken && r.moves == s.moves && r.turn == s.turn
      && r.result == s.result && r.kingHasMoved == s.kingHasMoved
    decreases |ps|
  {
    if ps != [] {
      var p := ps[0];
      PlacedStep(s, ps, 0);
      assert ps[0..] == ps;
      var s1 := PieceAdded(s, p.kind, p.row, p.col, p.side);
      var rest := ps[1..];
      PlacedAllTables(s1, rest);
      var r := PlacedAll(s, ps);
      forall i | 0 <= i < |ps|
        ensures r.pieces[s.nextId + i] == Piece(s.nextId + i, ps[i].kind, ps[i].row, ps[i].col, ps[i].side, false)
      {
        if i > 0 {
          assert s.nextId + i == s1.nextId + (i - 1) && rest[i - 1] == ps[i];
        }
      }
    }
  }

  /** Placing pieces on distinct empty squares keeps the co-reference invariant. */
  lemma {:induction false} PlacedAllCoherent(s: GameState, ps: seq<Placement>)
    requires PlacementsOnBoard(s, ps) && Coherent(s) && IdsIssued(s) && SquaresDistinct(ps)
    requires forall i :: 0 <= i < |ps| ==> At(s, ps[i].row, ps[i].col) == None
    ensures Coherent(PlacedAll(s, ps))
    decreases |ps|
  {
    if ps != [] {
      var p := ps[0];
      PlacedStep(s, ps, 0);
      assert ps[0..] == ps;
      var s1 := PieceAdded(s, p.kind, p.row, p.col, p.side);
      AddKeepsCoherent(s, p.kind, p.row, p.col, p.side);
      var rest := ps[1..];
      forall i | 0 <= i < |rest|
        ensures At(s1, rest[i].row, rest[i].col) == None
      {
        assert rest[i] == ps[i + 1];
      }
      assert SquaresDistinct(rest) by {
        forall i, j | 0 <= i < j < |rest|
          ensures (rest[i].row, rest[i].col) != (rest[j].row, rest[j].col)
        {
          assert rest[i] == ps[i + 1] && rest[j] == ps[j + 1];
        }
      }
      PlacedAllCoherent(s1, rest);
    }
  }

  /** The squares and kinds of one back rank. */
  lemma BackRankFacts(row: int, side: Side)
    ensures |BackRank(row, side)| == 7
    ensures forall i :: 0 <= i < 7 ==>
      var p := BackRank(row, side)[i];
      p.row == row && 0 <= p.col < 8 && p.side == side && p.kind in PromotionKinds
    ensures SquaresDistinct(BackRank(row, side))
  {
    var ps := BackRank(row, side);
  }

  /**
   * The fourteen placements are on distinct squares of the first and last
   * rows of an 8 by 8 grid, White's on row 7 and Black's on row 0, and none is
   * a pawn or a king.
   */
  lemma LineupFacts()
    ensures |StartingLineup()| == 14 && SquaresDistinct(StartingLineup())
    ensures forall i :: 0 <= i < 14 ==>
      var p := StartingLineup()[i];
      && 0 <= p.row < 8 && 0 <= p.col < 8 && p.kind in PromotionKinds
      && (p.side == White <==> p.row == 7) && (p.row == 7 || p.row == 0)
  {
    var w, b := BackRank(7, White), BackRank(0, Black);
    var ps := StartingLineup();
    BackRankFacts(7, White);
    BackRankFacts(0, Black);
    assert forall i :: 0 <= i < 14 ==> ps[i] == if i < 7 then w[i] else b[i - 7];
  }

  /** The live pieces of a table filled from a lineup like the starting one. */
  lemma KindsFromLineup(pieces: map<Id, Piece>, ps: seq<Placement>)
    requires forall id :: id in pieces <==> 0 <= id < |ps|
    requires forall i :: 0 <= i < |ps| ==> pieces[i] == Piece(i, ps[i].kind, ps[i].row, ps[i].col, ps[i].side, false)
    requires forall i :: 0 <= i < |ps| ==> ps[i].kind in PromotionKinds && (ps[i].side == White <==> ps[i].row == 7)
    ensures forall id :: id in pieces ==> pieces[id].kind != Pawn && pieces[id].kind != King
    ensures forall id :: id in pieces ==> (pieces[id].side == White <==> pieces[id].row == 7)
  {
    forall id | id in pieces
      ensures pieces[id].kind != Pawn && pieces[id].kind != King
      ensures pieces[id].side == White <==> pieces[id].row == 7
    {
      assert ps[id].kind in PromotionKinds;
    }
  }

  /**
   * Placing pieces on an empty table gives a table of exactly those pieces,
   * under the ids 0 up to their number.
   */
  lemma PlacedOnEmpty(s: GameState, ps: seq<Placement>)
    requires PlacementsOnBoard(s, ps) && s.pieces == map[] && s.taken == map[] && s.nextId == 0
    ensures var r := PlacedAll(s, ps);
      && IdsIssued(r) && r.nextId == |ps|
      && (forall id :: id in r.pieces <==> 0 <= id < |ps|)
      && r.taken == s.taken && r.moves == s.moves && r.turn == s.turn
  {
    PlacedAllTables(s, ps);
  }

  /** The piece placed i-th on an empty table has id i and the kind, square and side of its placement. */
  lemma PlacedOnEmptyRecords(s: GameState, ps: seq<Placement>)
    requires PlacementsOnBoard(s, ps) && s.pieces == map[] && s.taken == map[] && s.nextId == 0
    ensures forall i :: 0 <= i < |ps| ==>
      i in PlacedAll(s, ps).pieces && PlacedAll(s, ps).pieces[i] == Piece(i, ps[i].kind, ps[i].row, ps[i].col, ps[i].side, false)
  {
    PlacedAllTables(s, ps);
    var r := PlacedAll(s, ps);
    forall i | 0 <= i < |ps|
      ensures i in r.pieces && r.pieces[i] == Piece(i, ps[i].kind, ps[i].row, ps[i].col, ps[i].side, false)
    {
      assert s.nextId + i == i;
    }
  }

  /**
   * The tables `setup_board` fills on a fresh board of at least 8 by 8: the
   * fourteen pieces of the two back ranks other than the kings, under ids 0
   * to 13 in call order, with no pawn and no king anywhere, White's pieces on
   * row 7 and Black's on row 0.
   */
  lemma StartingPosition(rows: nat, cols: nat)
    requires rows >= 8 && cols >= 8
    ensures PlacementsOnBoard(CreateGameState(rows, cols), StartingLineup())
    ensures var r := PlacedAll(CreateGameState(rows, cols), StartingLineup()); var ps := StartingLineup();
      && IdsIssued(r) && r.nextId == 14
      && (forall id :: id in r.pieces <==> 0 <= id < 14)
      && (forall i :: 0 <= i < 14 ==> r.pieces[i] == Piece(i, ps[i].kind, ps[i].row, ps[i].col, ps[i].side, false))
      && (forall id :: id in r.pieces ==> r.pieces[id].kind != Pawn && r.pieces[id].kind != King)
      && (forall id :: id in r.pieces ==> (r.pieces[id].side == White <==> r.pieces[id].row == 7))
      && r.taken == map[] && r.moves == [] && r.turn == White
  {
    LineupFacts();
    var s, ps := CreateGameState(rows, cols), StartingLineup();
    PlacedOnEmpty(s, ps);
    PlacedOnEmptyRecords(s, ps);
    KindsFromLineup(PlacedAll(s, ps).pieces, ps);
  }

  /** The starting position keeps the co-reference invariant between grid and table. */
  lemma StartingCoherent(rows: nat, cols: nat)
    requires rows >= 8 && cols >= 8
    ensures PlacementsOnBoard(CreateGameState(rows, cols), StartingLineup())
    ensures Coherent(PlacedAll(CreateGameState(rows, cols), StartingLineup()))
  {
    var s := CreateGameState(rows, cols);
    var ps := StartingLineup();
    LineupFacts();
    FreshStateCoherent(rows, cols);
    PlacedAllCoherent(s, ps);
  }

  // ---------------------------------------------------------------------------
  // replace_piece
  // ---------------------------------------------------------------------------

  /** The state with piece `id` rebuilt as kind `k` on (row, col), keeping its side. */
  function PieceReplaced(s: GameState, id: Id, k: Kind, row: int, col: int): GameState
    requires id in s.pieces && 0 <= row < |s.board| && 0 <= col < |s.board[row]|
  {
    s.(board := SetCell(s.board, row, col, Some(id)),
       pieces := s.pieces[id := Piece(id, k, row, col, s.pieces[id].side, false)])
  }

  /**
   * What `replace_piece` returns: an unknown name raises before the table is
   * read, and a known name looks up the side of `id` in the live table.
   */
  function Replaced(s: GameState, id: Id, name: string, row: int, col: int): Result<GameState, GameError>
    requires 0 <= row < |s.board| && 0 <= col < |s.board[row]|
  {
    match KindOfName(name)
    case None => Failure(UnknownName(name))
    case Some(k) =>
      if id !in s.pieces then Failure(UnknownPiece(Some(id)))
      else Success(PieceReplaced(s, id, k, row, col))
  }

  /** `replace_piece`. */
  method ReplacePiece(s: GameState, id: Id, name: string, row: int, col: int) returns (r: Result<GameState, GameError>)
    requires 0 <= row < |s.board| && 0 <= col < |s.board[row]|
    ensures r == Replaced(s, id, name, row, col)
  {
    var kind;
    if name == "rook" {
      kind := Rook;
    } else if name == "bishop" {
      kind := Bishop;
    } else if name == "queen" {
      kind := Queen;
    } else if name == "knight" {
      kind := Knight;
    } else {
      return Failure(UnknownName(name));
    }
    if id !in s.pieces {
      return Failure(UnknownPiece(Some(id)));
    }
    var c := s;
    var piece := Piece(id, kind, row, col, s.pieces[id].side, false);
    c := c.(board := c.board[row := c.board[row][col := Some(id)]]);
    c := c.(pieces := c.pieces[id := piece]);
    r := Success(c);
  }

  /**
   * Replacing succeeds exactly for a known name and a live id. The piece then
   * keeps its id and side, takes the new kind, and stands on (row, col) in the
   * grid and the table; every other cell and entry, the counter, the captured
   * table and the history stay as they were.
   */
  lemma ReplacedPiece(s: GameState, id: Id, name: string, row: int, col: int)
    requires 0 <= row < |s.board| && 0 <= col < |s.board[row]|
    ensures Replaced(s, id, name, row, col).Success? <==> KindOfName(name).Some? && id in s.pieces
    ensures Replaced(s, id, name, row, col).Success? ==>
      var r := Replaced(s, id, name, row, col).value;
      && r.pieces[id] == Piece(id, KindOfName(name).value, row, col, s.pieces[id].side, false)
      && r.board[row][col] == Some(id)
      && r.pieces.Keys == s.pieces.Keys
      && (forall q :: q in s.pieces && q != id ==> r.pieces[q] == s.pieces[q])
      && |r.board| == |s.board|
      && (forall i, j :: 0 <= i < |r.board| && 0 <= j < |r.board[i]| && (i, j) != (row, col) ==>
            r.board[i][j] == s.board[i][j])
      && r.nextId == s.nextId && r.taken == s.taken && r.moves == s.moves
  {
  }

  // ---------------------------------------------------------------------------
  // make_move
  // ---------------------------------------------------------------------------

  /** The square a move starts from and the square it ends on are both on the grid. */
  predicate Playable(s: GameState, m: Move)
  {
    WellShaped(s) && OnBoard(s, m.startRow, m.startCol) && OnBoard(s, m.endRow, m.endCol)
  }

  /** The piece's record and the grid after it leaves its start square for its end square. */
  function Relocated(s: GameState, id: Id, m: Move): (r: GameState)
    requires Playable(s, m) && id in s.pieces
    ensures Playable(r, m)
  {
    s.(pieces := s.pieces[id := s.pieces[id].(row := m.endRow, col := m.endCol)],
       board := SetCell(SetCell(s.board, m.endRow, m.endCol, Some(id)), m.startRow, m.startCol, None))
  }

  /** Moving a live piece `taken` (when set) from the live table to the captured table. */
  function Captured(s: GameState, taken: Cell): (r: Result<GameState, GameError>)
    ensures r.Success? ==> r.value.board == s.board
  {
    if taken.None? then Success(s)
    else if taken.value !in s.pieces then Failure(UnknownPiece(taken))
    else Success(s.(taken := s.taken[taken.value := s.pieces[taken.value]], pieces := s.pieces - {taken.value}))
  }

  /**
   * The steps of `make_move`, with `nameOf` turning the promotion kind into
   * the name handed to `replace_piece`.
   */
  function Executed(s: GameState, m: Move, nameOf: Kind -> string): (r: Result<GameState, GameError>)
    requires Playable(s, m)
    ensures r.Success? ==> |r.value.board| == |s.board|
    ensures r.Success? ==> forall i :: 0 <= i < |s.board| ==> |r.value.board[i]| == |s.board[i]|
  {
    if At(s, m.startRow, m.startCol) == None then Failure(NoPieceAtStart(m.startRow, m.startCol))
    else if m.pieceId.None? || m.pieceId.value !in s.pieces then Failure(UnknownPiece(m.pieceId))
    else
      var id := m.pieceId.value;
      var s1 := Relocated(s, id, m);
      var s2 :- Captured(s1, m.pieceTaken);
      var s3 :- if m.promotion.None? then Success(s2)
                else Replaced(s2, id, nameOf(m.promotion.value), m.endRow, m.endCol);
      var s4 := s3.(moves := s3.moves + [m]);
      if id !in s4.pieces then Failure(UnknownPiece(m.pieceId))
      else if s4.pieces[id].kind == King then Success(s4.(kingHasMoved := SetFlag(s4.kingHasMoved, s4.pieces[id].side)))
      else Success(s4)
  }

  /** `make_move`, with the promotion kind passed to `replace_piece` under its name. */
  function MoveApplied(s: GameState, m: Move): Result<GameState, GameError>
    requires Playable(s, m)
  {
    Executed(s, m, KindName)
  }

  /** The one-letter string `make_move` passes: the promotion tag of the move. */
  function PromotionTag(k: Kind): string
  {
    [KindLetter(k)]
  }

  /** `make_move` as written, handing the one-letter promotion tag to `replace_piece`. */
  function MoveAppliedAsWritten(s: GameState, m: Move): Result<GameState, GameError>
    requires Playable(s, m)
  {
    Executed(s, m, PromotionTag)
  }

  /** `make_move`. */
  method MakeMove(s: GameState, m: Move) returns (r: Result<GameState, GameError>)
    requires Playable(s, m)
    ensures r == MoveApplied(s, m)
  {
    var c := s;
    if c.board[m.startRow][m.startCol] == None {
      return Failure(NoPieceAtStart(m.startRow, m.startCol));
    }
    if m.pieceId.None? || m.pieceId.value !in c.pieces {
      return Failure(UnknownPiece(m.pieceId));
    }
    var id := m.pieceId.value;
    c := c.(pieces := c.pieces[id := c.pieces[id].(row := m.endRow)]);
    c := c.(pieces := c.pieces[id := c.pieces[id].(col := m.endCol)]);
    c := c.(board := c.board[m.endRow := c.board[m.endRow][m.endCol := Some(id)]]);
    c := c.(board := c.board[m.startRow := c.board[m.startRow][m.startCol := None]]);
    assert c == Relocated(s, id, m);
    if m.pieceTaken.Some? {
      var t := m.pieceTaken.value;
      if t !in c.pieces {
        return Failure(UnknownPiece(m.pieceTaken));
      }
      c := c.(taken := c.taken[t := c.pieces[t]]);
      c := c.(pieces := c.pieces - {t});
    }
    assert Captured(Relocated(s, id, m), m.pieceTaken) == Success(c);
    if m.promotion.Some? {
      c :- ReplacePiece(c, id, KindName(m.promotion.value), m.endRow, m.endCol);
    }
    c := c.(moves := c.moves + [m]);
    if id !in c.pieces {
      return Failure(UnknownPiece(m.pieceId));
    }
    if c.pieces[id].kind == King {
      c := c.(kingHasMoved := SetFlag(c.kingHasMoved, c.pieces[id].side));
    }
    r := Success(c);
  }

  /** The move's taken piece, when it names one, is a live piece other than the mover. */
  predicate TakesOther(s: GameState, m: Move)
  {
    m.pieceTaken.Some? ==> m.pieceTaken.value in s.pieces && m.pieceTaken != m.pieceId
  }

  /** A move of a live piece that takes a live piece other than itself. */
  predicate Executable(s: GameState, m: Move)
  {
    && Playable(s, m) && m.pieceId.Some? && m.pieceId.value in s.pieces && TakesOther(s, m)
    && (m.promotion.Some? ==> m.promotion.value in PromotionKinds)
  }

  /**
   * The state a successful move leaves, described field by field: the mover
   * (rebuilt on promotion) on the end square, the taken piece moved across
   * tables, the start cell cleared, the move appended and the king flag set.
   */
  function Outcome(s: GameState, m: Move): (r: GameState)
    requires Executable(s, m)
  {
    var id := m.pieceId.value;
    var p := s.pieces[id];
    var mover := if m.promotion.Some? then Piece(id, m.promotion.value, m.endRow, m.endCol, p.side, false)
                 else p.(row := m.endRow, col := m.endCol);
    var live := if m.pieceTaken.Some? then s.pieces - {m.pieceTaken.value} else s.pieces;
    var taken := if m.pieceTaken.Some? then s.taken[m.pieceTaken.value := s.pieces[m.pieceTaken.value]] else s.taken;
    var grid := SetCell(SetCell(s.board, m.endRow, m.endCol, Some(id)), m.startRow, m.startCol, None);
    s.(board := if m.promotion.Some? then SetCell(grid, m.endRow, m.endCol, Some(id)) else grid,
       pieces := live[id := mover],
       taken := taken,
       moves := s.moves + [m],
       kingHasMoved := if mover.kind == King then SetFlag(s.kingHasMoved, p.side) else s.kingHasMoved)
  }

  /**
   * `make_move` succeeds exactly on executable moves from an occupied square,
   * and then leaves the outcome above.
   */
  lemma MoveOutcome(s: GameState, m: Move)
    requires Playable(s, m)
    ensures MoveApplied(s, m).Success? <==> At(s, m.startRow, m.startCol).Some? && Executable(s, m)
    ensures MoveApplied(s, m).Success? ==> MoveApplied(s, m).value == Outcome(s, m)
  {
    if At(s, m.startRow, m.startCol).Some? && m.pieceId.Some? && m.pieceId.value in s.pieces {
      var id := m.pieceId.value;
      var c := Captured(Relocated(s, id, m), m.pieceTaken);
      if c.Success? {
        CapturedTable(s, m);
        if m.promotion.Some? {
          PromotedOutcome(s, m, c.value);
          if Executable(s, m) {
            PromotedState(s, m, c.value);
          }
        } else if TakesOther(s, m) {
          PlainState(s, m, c.value);
        }
      }
    }
  }

  /** The state a plain move leaves, from the state after its capture step. */
  lemma PlainState(s: GameState, m: Move, s2: GameState)
    requires Executable(s, m) && At(s, m.startRow, m.startCol).Some? && m.promotion.None?
    requires Captured(Relocated(s, m.pieceId.value, m), m.pieceTaken) == Success(s2)
    ensures MoveApplied(s, m) == Success(Outcome(s, m))
  {
    var id := m.pieceId.value;
    var p := s.pieces[id];
    CapturedTable(s, m);
    var s4 := s2.(moves := s2.moves + [m]);
    assert id in s4.pieces && s4.pieces[id] == p.(row := m.endRow, col := m.endCol);
    assert MoveApplied(s, m) == if p.kind == King then Success(s4.(kingHasMoved := SetFlag(s4.kingHasMoved, p.side))) else Success(s4);
    var o := Outcome(s, m);
    assert o.board == s4.board && o.pieces == s4.pieces && o.taken == s4.taken && o.moves == s4.moves;
  }

  /** The state a promotion leaves, from the state after its capture step. */
  lemma PromotedState(s: GameState, m: Move, s2: GameState)
    requires Executable(s, m) && At(s, m.startRow, m.startCol).Some? && m.promotion.Some?
    requires Captured(Relocated(s, m.pieceId.value, m), m.pieceTaken) == Success(s2)
    ensures MoveApplied(s, m) == Success(Outcome(s, m))
  {
    var id := m.pieceId.value;
    var p := s.pieces[id];
    var k := m.promotion.value;
    CapturedTable(s, m);
    NamesOfPromotionKinds(k, "");
    assert Replaced(s2, id, KindName(k), m.endRow, m.endCol) == Success(PieceReplaced(s2, id, k, m.endRow, m.endCol));
    var s3 := PieceReplaced(s2, id, k, m.endRow, m.endCol);
    var s4 := s3.(moves := s3.moves + [m]);
    assert id in s4.pieces && s4.pieces[id] == Piece(id, k, m.endRow, m.endCol, p.side, false);
    assert MoveApplied(s, m) == if k == King then Success(s4.(kingHasMoved := SetFlag(s4.kingHasMoved, p.side))) else Success(s4);
    var o := Outcome(s, m);
    assert o.board == s4.board && o.pieces == s4.pieces && o.taken == s4.taken && o.moves == s4.moves;
  }

  /** Relocating the mover and then capturing leaves the mover moved and the taken piece across tables. */
  lemma CapturedTable(s: GameState, m: Move)
    requires Playable(s, m) && m.pieceId.Some? && m.pieceId.value in s.pieces
    requires Captured(Relocated(s, m.pieceId.value, m), m.pieceTaken).Success?
    ensures TakesOther(s, m) ==>
      var id := m.pieceId.value;
      var live := if m.pieceTaken.Some? then s.pieces - {m.pieceTaken.value} else s.pieces;
      Captured(Relocated(s, id, m), m.pieceTaken).value.pieces == live[id := s.pieces[id].(row := m.endRow, col := m.endCol)]
  {
  }

  /** The promotion step of a move after its capture step. */
  lemma PromotedOutcome(s: GameState, m: Move, s2: GameState)
    requires Playable(s, m) && m.pieceId.Some? && m.pieceId.value in s.pieces && m.promotion.Some?
    requires Captured(Relocated(s, m.pieceId.value, m), m.pieceTaken) == Success(s2)
    ensures var r := Replaced(s2, m.pieceId.value, KindName(m.promotion.value), m.endRow, m.endCol);
      r.Success? <==> m.promotion.value in PromotionKinds && m.pieceId.value in s2.pieces
  {
    NamesOfPromotionKinds(m.promotion.value, "");
  }

  /**
   * For a move that names the piece on its start square, takes a live piece
   * other than the mover and promotes (if at all) to one of the four kinds,
   * `make_move` fails exactly when the start square is empty, and then with
   * the explicit error.
   */
  lemma MoveFailsIffStartEmpty(s: GameState, m: Move)
    requires Playable(s, m) && CellsLive(s)
    requires m.pieceId == At(s, m.startRow, m.startCol) && TakesOther(s, m)
    requires m.promotion.Some? ==> m.promotion.value in PromotionKinds
    ensures MoveApplied(s, m).Failure? <==> At(s, m.startRow, m.startCol) == None
    ensures MoveApplied(s, m).Failure? ==> MoveApplied(s, m).error == NoPieceAtStart(m.startRow, m.startCol)
  {
    MoveOutcome(s, m);
  }

  /**
   * After a move that succeeds, the mover stands on the end square in the
   * table and in the grid, with its side kept and its kind changed only by a
   * promotion; the start square is empty, every other cell is as before, and
   * the history has gained the move. A move onto its own start square leaves
   * that square empty unless it promotes, since the start cell is cleared
   * after the end cell is filled.
   */
  lemma MoveRelocates(s: GameState, m: Move)
    requires Playable(s, m) && MoveApplied(s, m).Success?
    ensures m.pieceId.Some? && m.pieceId.value in s.pieces
    ensures var r := MoveApplied(s, m).value; var id := m.pieceId.value;
      && id in r.pieces
      && r.pieces[id].row == m.endRow && r.pieces[id].col == m.endCol
      && r.pieces[id].side == s.pieces[id].side
      && r.pieces[id].kind == (if m.promotion.Some? then m.promotion.value else s.pieces[id].kind)
      && r.board[m.endRow][m.endCol] ==
           (if (m.startRow, m.startCol) == (m.endRow, m.endCol) && m.promotion == None then None else Some(id))
      && ((m.startRow, m.startCol) != (m.endRow, m.endCol) ==> r.board[m.startRow][m.startCol] == None)
      && |r.board| == |s.board|
      && (forall i, j ::
            0 <= i < |r.board| && 0 <= j < |r.board[i]| &&
            (i, j) != (m.startRow, m.startCol) && (i, j) != (m.endRow, m.endCol) ==>
              |r.board[i]| == |s.board[i]| && r.board[i][j] == s.board[i][j])
      && r.moves == s.moves + [m]
      && r.nextId == s.nextId && r.turn == s.turn && r.result == s.result
  {
    MoveOutcome(s, m);
  }

  /**
   * On a capture exactly the taken key leaves the live table and enters the
   * captured table with its record; without one both key sets stay. No
   * other record of the live table changes but the mover's.
   */
  lemma MoveCaptures(s: GameState, m: Move)
    requires Playable(s, m) && MoveApplied(s, m).Success?
    ensures var r := MoveApplied(s, m).value;
      && (m.pieceTaken == None ==> r.taken == s.taken && r.pieces.Keys == s.pieces.Keys)
      && (m.pieceTaken.Some? ==>
            && m.pieceTaken.value in s.pieces
            && r.taken == s.taken[m.pieceTaken.value := s.pieces[m.pieceTaken.value]]
            && r.pieces.Keys == s.pieces.Keys - {m.pieceTaken.value})
      && (forall q :: q in r.pieces && Some(q) != m.pieceId ==> r.pieces[q] == s.pieces[q])
  {
    MoveOutcome(s, m);
  }

  /**
   * A promotion rebuilds the mover, under the same id and side, as a fresh
   * piece of the promotion kind on the end square, in the grid and the table.
   */
  lemma MovePromotes(s: GameState, m: Move)
    requires Playable(s, m) && MoveApplied(s, m).Success? && m.promotion.Some?
    ensures m.pieceId.Some? && m.pieceId.value in s.pieces
    ensures var r := MoveApplied(s, m).value; var id := m.pieceId.value;
      && r.pieces[id] == Piece(id, m.promotion.value, m.endRow, m.endCol, s.pieces[id].side, false)
      && r.board[m.endRow][m.endCol] == Some(id)
  {
    MoveOutcome(s, m);
  }

  /**
   * As written, `make_move` fails on every promotion that gets past the table
   * lookups: `replace_piece` recognises none of the one-letter tags.
   */
  lemma PromotionAsWrittenFails(s: GameState, m: Move)
    requires Playable(s, m) && CellsLive(s)
    requires m.pieceId == At(s, m.startRow, m.startCol) && m.pieceId.Some? && TakesOther(s, m)
    requires m.promotion.Some?
    ensures MoveAppliedAsWritten(s, m) == Failure(UnknownName(PromotionTag(m.promotion.value)))
  {
    LettersAreNotNames(m.promotion.value);
  }

  /** Without a promotion the two readings of `make_move` agree. */
  lemma AsWrittenAgreesWithoutPromotion(s: GameState, m: Move)
    requires Playable(s, m) && m.promotion == None
    ensures MoveAppliedAsWritten(s, m) == MoveApplied(s, m)
  {
  }

  /**
   * A move of a king sets the flag of its side in the state and nothing on
   * the piece: its own `hasMoved` stays as it was, so the king keeps offering
   * castling. Any other mover leaves the flags alone.
   */
  lemma KingMoveFlags(s: GameState, m: Move)
    requires Playable(s, m) && MoveApplied(s, m).Success? && m.promotion == None
    ensures m.pieceId.Some? && m.pieceId.value in s.pieces
    ensures var r := MoveApplied(s, m).value; var id := m.pieceId.value; var p := s.pieces[id];
      && id in r.pieces
      && r.pieces[id].hasMoved == p.hasMoved
      && r.kingHasMoved == (if p.kind == King then SetFlag(s.kingHasMoved, p.side) else s.kingHasMoved)
  {
    MoveOutcome(s, m);
  }

  /**
   * The rook move of castling is recorded but not carried out: when the rook's
   * squares are not the king's, they hold what they held before.
   */
  lemma CastlingRookStays(s: GameState, m: Move)
    requires Playable(s, m) && MoveApplied(s, m).Success? && m.castling.Some?
    requires var rm := m.castling.value; OnBoard(s, rm.startRow, rm.startCol) && OnBoard(s, rm.endRow, rm.endCol)
    requires var rm := m.castling.value;
      && (rm.startRow, rm.startCol) != (m.startRow, m.startCol) && (rm.startRow, rm.startCol) != (m.endRow, m.endCol)
      && (rm.endRow, rm.endCol) != (m.startRow, m.startCol) && (rm.endRow, rm.endCol) != (m.endRow, m.endCol)
    ensures var r := MoveApplied(s, m).value; var rm := m.castling.value;
      && r.board[rm.startRow][rm.startCol] == s.board[rm.startRow][rm.startCol]
      && r.board[rm.endRow][rm.endCol] == s.board[rm.endRow][rm.endCol]
  {
    MoveRelocates(s, m);
  }

  /**
   * An ordinary move keeps the co-reference invariant and the counter: a
   * piece on its start square moving to a different square and taking
   * exactly what stands there.
   */
  lemma MoveKeepsCoherent(s: GameState, m: Move)
    requires Playable(s, m) && Coherent(s) && IdsIssued(s)
    requires At(s, m.startRow, m.startCol).Some? && m.pieceId == At(s, m.startRow, m.startCol)
    requires (m.startRow, m.startCol) != (m.endRow, m.endCol) && m.pieceTaken == At(s, m.endRow, m.endCol)
    requires m.promotion.Some? ==> m.promotion.value in PromotionKinds
    ensures MoveApplied(s, m).Success?
    ensures Coherent(MoveApplied(s, m).value) && IdsIssued(MoveApplied(s, m).value)
  {
    MoveOutcome(s, m);
    OutcomeCoherent(s, m);
  }

  /** After an ordinary move every occupied cell names a live piece standing on it. */
  lemma OutcomeCellsNamePieces(s: GameState, m: Move)
    requires Playable(s, m) && Coherent(s) && IdsIssued(s)
    requires At(s, m.startRow, m.startCol).Some? && m.pieceId == At(s, m.startRow, m.startCol)
    requires (m.startRow, m.startCol) != (m.endRow, m.endCol) && m.pieceTaken == At(s, m.endRow, m.endCol)
    requires m.promotion.Some? ==> m.promotion.value in PromotionKinds
    ensures Executable(s, m)
    ensures var r := Outcome(s, m);
      forall i, j :: 0 <= i < |r.board| && 0 <= j < |r.board[i]| && r.board[i][j].Some? ==>
        r.board[i][j].value in r.pieces
        && r.pieces[r.board[i][j].value].row == i && r.pieces[r.board[i][j].value].col == j
  {
    var id := m.pieceId.value;
    assert Executable(s, m);
    var r := Outcome(s, m);
    forall i, j | 0 <= i < |r.board| && 0 <= j < |r.board[i]| && r.board[i][j].Some?
      ensures r.board[i][j].value in r.pieces
      ensures r.pieces[r.board[i][j].value].row == i && r.pieces[r.board[i][j].value].col == j
    {
      if (i, j) != (m.startRow, m.startCol) && (i, j) != (m.endRow, m.endCol) {
        var q := s.board[i][j].value;
        assert q != id && Some(q) != m.pieceTaken;
      }
    }
  }

  /** After an ordinary move every live piece stands on a cell that names it. */
  lemma OutcomePiecesStand(s: GameState, m: Move)
    requires Playable(s, m) && Coherent(s) && IdsIssued(s)
    requires At(s, m.startRow, m.startCol).Some? && m.pieceId == At(s, m.startRow, m.startCol)
    requires (m.startRow, m.startCol) != (m.endRow, m.endCol) && m.pieceTaken == At(s, m.endRow, m.endCol)
    requires m.promotion.Some? ==> m.promotion.value in PromotionKinds
    ensures Executable(s, m)
    ensures var r := Outcome(s, m);
      forall q :: q in r.pieces ==>
        r.pieces[q].id == q && OnBoard(r, r.pieces[q].row, r.pieces[q].col)
        && r.board[r.pieces[q].row][r.pieces[q].col] == Some(q)
  {
    var id := m.pieceId.value;
    assert Executable(s, m);
    var r := Outcome(s, m);
    forall q | q in r.pieces
      ensures r.pieces[q].id == q && OnBoard(r, r.pieces[q].row, r.pieces[q].col)
      ensures r.board[r.pieces[q].row][r.pieces[q].col] == Some(q)
    {
      if q != id {
        var p := s.pieces[q];
        assert s.board[p.row][p.col] == Some(q);
      }
    }
  }

  lemma OutcomeCoherent(s: GameState, m: Move)
    requires Playable(s, m) && Coherent(s) && IdsIssued(s)
    requires At(s, m.startRow, m.startCol).Some? && m.pieceId == At(s, m.startRow, m.startCol)
    requires (m.startRow, m.startCol) != (m.endRow, m.endCol) && m.pieceTaken == At(s, m.endRow, m.endCol)
    requires m.promotion.Some? ==> m.promotion.value in PromotionKinds
    ensures Executable(s, m) && Coherent(Outcome(s, m)) && IdsIssued(Outcome(s, m))
  {
    OutcomeCellsNamePieces(s, m);
    OutcomePiecesStand(s, m);
    OutcomeShape(s, m);
  }

  /** A move keeps the grid rectangular and hands out no id. */
  lemma OutcomeShape(s: GameState, m: Move)
    requires Executable(s, m) && IdsIssued(s)
    ensures WellShaped(Outcome(s, m)) && Rows(Outcome(s, m)) == Rows(s) && Cols(Outcome(s, m)) == Cols(s)
    ensures IdsIssued(Outcome(s, m))
  {
  }

  /**
   * En passant takes a pawn that does not stand on the end square: its cell
   * keeps naming it after it has left the live table, so an occupied cell no
   * longer names a live piece.
   */
  lemma EnPassantLeavesStaleCell(s: GameState, m: Move)
    requires Playable(s, m) && Coherent(s) && MoveApplied(s, m).Success?
    requires m.pieceTaken.Some? && m.pieceTaken.value in s.pieces
    requires var t := s.pieces[m.pieceTaken.value];
      (t.row, t.col) != (m.startRow, m.startCol) && (t.row, t.col) != (m.endRow, m.endCol)
    ensures var r := MoveApplied(s, m).value; var t := s.pieces[m.pieceTaken.value];
      && r.board[t.row][t.col] == m.pieceTaken
      && m.pieceTaken.value !in r.pieces
      && !CellsLive(r)
  {
    MoveOutcome(s, m);
  }

  // ---------------------------------------------------------------------------
  // get_all_possible_moves(state)
  // ---------------------------------------------------------------------------

  /**
   * `get_all_possible_moves(state)`: the side-parameterised collection for the
   * side whose turn it is.
   */
  method GetTurnMoves(s: GameState) returns (ms: seq<Move>)
    requires SideReady(s, s.turn)
    ensures ms == MovesOfSide(s, s.turn)
  {
    ms := AllMoves.GetAllPossibleMoves(s, s.turn);
  }
}
