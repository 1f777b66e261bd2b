/**
 * The ray walker shared by the rook, bishop and queen generators: it visits a
 * list of candidate squares in order, emits a quiet move for each empty one,
 * and at the first occupied square emits a capture when the piece there is an
 * enemy, then stops.
 */
module Moves {
  import opened Wrappers
  import opened Chess

  /** A plain move of `p` from its own square: no promotion, no castling. */
  predicate EmittedBy(p: Piece, m: Move)
  {
    && m.pieceId == Some(p.id)
    && m.startRow == p.row
    && m.startCol == p.col
    && m.promotion == None
    && m.castling == None
  }

  /** Every square of the list is on the board. */
  predicate AllOnBoard(s: GameState, squares: seq<(int, int)>)
  {
    forall k :: 0 <= k < |squares| ==> OnBoard(s, squares[k].0, squares[k].1)
  }

  /** Concatenation regroups. */
  lemma Regroup<T>(a: seq<T>, b: seq<T>, c: seq<T>)
    ensures (a + b) + c == a + (b + c)
  {
  }

  /** The move of `p` to (r, c) that takes whatever stands there. */
  function StepTo(s: GameState, p: Piece, r: int, c: int): (m: Move)
    requires WellShaped(s) && OnBoard(s, r, c)
  {
    Move(Some(p.id), p.row, p.col, r, c, pieceTaken := At(s, r, c))
  }

  /** The moves `move_or_take` returns for `squares`. */
  function Walk(s: GameState, squares: seq<(int, int)>, p: Piece): (ms: seq<Move>)
    requires Readable(s) && AllOnBoard(s, squares)
    ensures |ms| <= |squares|
    decreases |squares|
  {
    if squares == [] then []
    else
      var (r, c) := squares[0];
      if At(s, r, c) == None then [StepTo(s, p, r, c)] + Walk(s, squares[1..], p)
      else if Hostile(s, p.side, r, c) then [StepTo(s, p, r, c)]
      else []
  }

  /**
   * The k-th move of the walk is a plain move of the piece to the k-th square,
   * which holds no friend; it takes what stands there, and only the last move
   * of the walk can take anything.
   */
  lemma {:induction false} WalkMove(s: GameState, squares: seq<(int, int)>, p: Piece, k: nat)
    requires Readable(s) && AllOnBoard(s, squares) && k < |Walk(s, squares, p)|
    ensures var m := Walk(s, squares, p)[k];
      && EmittedBy(p, m)
      && (m.endRow, m.endCol) == squares[k]
      && m.pieceTaken == At(s, squares[k].0, squares[k].1)
      && !Friendly(s, p.side, squares[k].0, squares[k].1)
      && (k < |Walk(s, squares, p)| - 1 ==> m.pieceTaken == None)
    decreases |squares|
  {
    var (r, c) := squares[0];
    if k > 0 {
      WalkMove(s, squares[1..], p, k - 1);
    }
  }

  /**
   * The k-th candidate square is reached exactly when every square before it is
   * empty and it does not hold a friendly piece.
   */
  lemma {:induction false} WalkReaches(s: GameState, squares: seq<(int, int)>, p: Piece, k: nat)
    requires Readable(s) && AllOnBoard(s, squares) && k < |squares|
    ensures k < |Walk(s, squares, p)| <==>
      (forall j :: 0 <= j < k ==> At(s, squares[j].0, squares[j].1) == None)
      && !Friendly(s, p.side, squares[k].0, squares[k].1)
  {
    var (r, c) := squares[0];
    if k > 0 && At(s, r, c) == None {
      WalkReaches(s, squares[1..], p, k - 1);
      assert forall j :: 0 < j < k ==> squares[1..][j - 1] == squares[j];
    }
  }

  /** `move_or_take`. */
  method MoveOrTake(s: GameState, squares: seq<(int, int)>, p: Piece) returns (ms: seq<Move>)
    requires Readable(s) && AllOnBoard(s, squares)
    ensures ms == Walk(s, squares, p)
  {
    ms := [];
    var i := 0;
    while i < |squares|
      invariant 0 <= i <= |squares|
      invariant ms + Walk(s, squares[i..], p) == Walk(s, squares, p)
    {
      var (r, c) := squares[i];
      ghost var rest := squares[i..];
      assert rest[0] == (r, c) && rest[1..] == squares[i + 1..];
      var cell := s.board[r][c];
      if cell == None {
        assert Walk(s, rest, p) == [StepTo(s, p, r, c)] + Walk(s, squares[i + 1..], p);
        Regroup(ms, [StepTo(s, p, r, c)], Walk(s, squares[i + 1..], p));
        ms := ms + [Move(Some(p.id), p.row, p.col, r, c)];
      } else {
        if s.pieces[cell.value].side != p.side {
          assert Walk(s, rest, p) == [StepTo(s, p, r, c)];
          ms := ms + [Move(Some(p.id), p.row, p.col, r, c, pieceTaken := cell)];
        } else {
          assert Walk(s, rest, p) == [];
        }
        assert ms == Walk(s, squares, p);
        break;
      }
      i := i + 1;
    }
  }
}
