/**
 * The move list of one side: the lists of that side's live pieces, taken in
 * the order the piece table holds them and concatenated.
 *
 * The table is filled only by `add_piece`, which uses fresh ids from a
 * counter, and is otherwise only overwritten in place or shrunk, so its order
 * is the order of the ids. The model walks the ids from 0 up to the counter.
 */
module AllMoves {
  import opened Wrappers
  import opened Chess
  import opened Pieces

  /** Every live piece of `side` can run its generator. */
  predicate SideReady(s: GameState, side: Side)
  {
    forall id :: id in s.pieces && s.pieces[id].side == side ==> Ready(s, s.pieces[id])
  }

  /** The live piece `id` belongs to `side`. */
  predicate Plays(s: GameState, side: Side, id: Id)
  {
    id in s.pieces && s.pieces[id].side == side
  }

  /** The generated list of every live piece of `side`, by id. */
  function ListsOf(s: GameState, side: Side): (lists: map<Id, seq<Move>>)
    requires SideReady(s, side)
    ensures forall id :: id in lists <==> Plays(s, side, id)
  {
    map id | id in s.pieces && s.pieces[id].side == side :: PieceMoves(s, s.pieces[id])
  }

  /** The lists of the ids below `n` that have one, concatenated in id order. */
  function Below(lists: map<Id, seq<Move>>, n: nat): seq<Move>
  {
    if n == 0 then []
    else Below(lists, n - 1) + (if n - 1 in lists then lists[n - 1] else [])
  }

  /** A move is gathered exactly when it is on the list of some id below `n`. */
  lemma {:induction false} BelowHas(lists: map<Id, seq<Move>>, n: nat, m: Move)
    ensures m in Below(lists, n) <==> exists id :: 0 <= id < n && id in lists && m in lists[id]
  {
    if n > 0 {
      BelowHas(lists, n - 1, m);
      if n - 1 in lists && m in lists[n - 1] {
        assert 0 <= n - 1 < n;
      }
    }
  }

  /** The moves of the pieces of `side` whose ids lie below `n`, in id order. */
  function MovesBelow(s: GameState, side: Side, n: nat): seq<Move>
    requires SideReady(s, side)
  {
    if n == 0 then []
    else MovesBelow(s, side, n - 1) + (if Plays(s, side, n - 1) then PieceMoves(s, s.pieces[n - 1]) else [])
  }

  /** The moves of every live piece of `side`. */
  function MovesOfSide(s: GameState, side: Side): seq<Move>
    requires SideReady(s, side)
  {
    MovesBelow(s, side, s.nextId)
  }

  lemma {:induction false} MovesBelowGathers(s: GameState, side: Side, n: nat)
    requires SideReady(s, side)
    ensures MovesBelow(s, side, n) == Below(ListsOf(s, side), n)
  {
    if n > 0 {
      MovesBelowGathers(s, side, n - 1);
    }
  }

  /**
   * With every id issued by the counter, the side's list holds exactly the
   * moves of its live pieces.
   */
  lemma MovesOfSideHas(s: GameState, side: Side, m: Move)
    requires SideReady(s, side) && IdsIssued(s)
    ensures m in MovesOfSide(s, side) <==>
      exists id :: Plays(s, side, id) && m in PieceMoves(s, s.pieces[id])
  {
    var lists := ListsOf(s, side);
    MovesBelowGathers(s, side, s.nextId);
    BelowHas(lists, s.nextId, m);
    if exists id :: Plays(s, side, id) && m in PieceMoves(s, s.pieces[id]) {
      var id :| Plays(s, side, id) && m in PieceMoves(s, s.pieces[id]);
      assert m in lists[id];
    }
  }

  /** Every move of a side is a move of one of its live pieces, from that piece's square. */
  lemma MoveOfSide(s: GameState, side: Side, m: Move)
    requires SideReady(s, side) && IdsIssued(s) && m in MovesOfSide(s, side)
    ensures exists id :: Plays(s, side, id) && FromPiece(s.pieces[id], m)
  {
    MovesOfSideHas(s, side, m);
    var id :| Plays(s, side, id) && m in PieceMoves(s, s.pieces[id]);
    PieceMove(s, s.pieces[id], m);
  }

  /**
   * The list keeps the order of the ids: all moves of a piece come before
   * those of any piece with a larger id.
   */
  lemma {:induction false} BelowGrows(lists: map<Id, seq<Move>>, n: nat, k: nat)
    requires n <= k
    ensures Below(lists, n) <= Below(lists, k)
    decreases k - n
  {
    if n < k {
      BelowGrows(lists, n, k - 1);
    }
  }

  /**
   * `get_all_possible_moves(state, side, ignore_complicated)`. The flag is
   * accepted and has no effect.
   */
  method GetAllPossibleMoves(s: GameState, side: Side, ignoreComplicated: bool := false) returns (ms: seq<Move>)
    requires SideReady(s, side)
    ensures ms == MovesOfSide(s, side)
  {
    ms := [];
    for id := 0 to s.nextId
      invariant ms == MovesBelow(s, side, id)
    {
      if id in s.pieces && s.pieces[id].side == side {
        var part := GetPossibleMoves(s, s.pieces[id]);
        ms := ms + part;
      }
    }
  }
}
