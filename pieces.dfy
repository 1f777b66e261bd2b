/**
 * Pseudo-legal move generation for each piece class. Every generator reads
 * the state and the piece and returns a list of moves; none of them checks
 * whether the mover's own king is left in check.
 *
 * Each generator is a method that builds its list the way the class does,
 * proved equal to a function that says what the list is; the lemmas state the
 * geometry of those lists.
 */
module Pieces {
  import opened Wrappers
  import opened Chess
  import opened Moves

  function Abs(x: int): nat
  {
    if x < 0 then -x else x
  }

  function Min(a: int, b: int): int
  {
    if a <= b then a else b
  }

  function Max(a: int, b: int): int
  {
    if a <= b then b else a
  }

  function Sign(x: int): int
  {
    if x < 0 then -1 else if x > 0 then 1 else 0
  }

  /** Every move of `p` starts from its square and names it. */
  predicate FromPiece(p: Piece, m: Move)
  {
    m.pieceId == Some(p.id) && m.startRow == p.row && m.startCol == p.col
  }

  // ---------------------------------------------------------------------------
  // Sliding pieces
  // ---------------------------------------------------------------------------

  /** A direction of a ray: each component -1, 0 or 1, not both 0. */
  predicate Unit(d: (int, int))
  {
    -1 <= d.0 <= 1 && -1 <= d.1 <= 1 && d != (0, 0)
  }

  predicate Units(dirs: seq<(int, int)>)
  {
    forall i :: 0 <= i < |dirs| ==> Unit(dirs[i])
  }

  /** The offset along one axis of the k-th square (counting from 0) of a ray. */
  function Step(k: nat, d: int): int
  {
    if d < 0 then -(k + 1) else if d > 0 then k + 1 else 0
  }

  /** How many squares fit beyond x on an axis of n cells, going in direction d. */
  function Span(x: int, d: int, n: int): int
  {
    if d < 0 then x else n - 1 - x
  }

  /**
   * The length of the ray: a single `range` for a rook ray, and for a bishop
   * ray the two ranges cut to the shorter one before they are zipped.
   */
  function RayLength(s: GameState, p: Piece, d: (int, int)): int
  {
    if d.0 == 0 then Span(p.col, d.1, Cols(s))
    else if d.1 == 0 then Span(p.row, d.0, Rows(s))
    else Min(Span(p.row, d.0, Rows(s)), Span(p.col, d.1, Cols(s)))
  }

  /** The candidate squares of one ray, nearest first. */
  function RayFrom(s: GameState, p: Piece, d: (int, int)): (sq: seq<(int, int)>)
    requires WellShaped(s) && OnBoard(s, p.row, p.col) && Unit(d)
    ensures AllOnBoard(s, sq)
    ensures forall k :: 0 <= k < |sq| ==> sq[k] == (p.row + Step(k, d.0), p.col + Step(k, d.1))
  {
    seq(RayLength(s, p, d), k requires 0 <= k => (p.row + Step(k, d.0), p.col + Step(k, d.1)))
  }

  /** Rook rays: up, down, left, right. */
  const RookDirs: seq<(int, int)> := [(-1, 0), (1, 0), (0, -1), (0, 1)]

  /** Bishop rays: (-,-), (-,+), (+,-), (+,+). */
  const BishopDirs: seq<(int, int)> := [(-1, -1), (-1, 1), (1, -1), (1, 1)]

  /** The queen walks the rook's rays and then the bishop's. */
  const QueenDirs: seq<(int, int)> := RookDirs + BishopDirs

  /** The move lies on a ray of `dirs` from the piece: its direction is one of them. */
  predicate OnRay(p: Piece, m: Move, dirs: seq<(int, int)>)
  {
    var dr, dc := m.endRow - p.row, m.endCol - p.col;
    (Sign(dr), Sign(dc)) in dirs && (dr == 0 || dc == 0 || Abs(dr) == Abs(dc))
  }

  /** `move_or_take` over each ray of `dirs` in turn, the lists concatenated. */
  function Slides(s: GameState, p: Piece, dirs: seq<(int, int)>): seq<Move>
    requires Readable(s) && OnBoard(s, p.row, p.col) && Units(dirs)
    decreases |dirs|
  {
    if dirs == [] then []
    else Walk(s, RayFrom(s, p, dirs[0]), p) + Slides(s, p, dirs[1..])
  }

  lemma UnitsTail(dirs: seq<(int, int)>)
    requires Units(dirs) && dirs != []
    ensures Units(dirs[1..])
  {
    forall i | 0 <= i < |dirs[1..]| ensures Unit(dirs[1..][i]) { assert dirs[1..][i] == dirs[i + 1]; }
  }

  /** A move of one ray's walk: a plain move of the piece in direction `d`. */
  lemma RayMove(s: GameState, p: Piece, d: (int, int), m: Move)
    requires Readable(s) && OnBoard(s, p.row, p.col) && Unit(d) && m in Walk(s, RayFrom(s, p, d), p)
    ensures EmittedBy(p, m)
    ensures OnBoard(s, m.endRow, m.endCol)
    ensures (Sign(m.endRow - p.row), Sign(m.endCol - p.col)) == d
    ensures m.endRow == p.row || m.endCol == p.col || Abs(m.endRow - p.row) == Abs(m.endCol - p.col)
    ensures m.pieceTaken == At(s, m.endRow, m.endCol)
    ensures !Friendly(s, p.side, m.endRow, m.endCol)
  {
    var ray := RayFrom(s, p, d);
    var w := Walk(s, ray, p);
    var k :| 0 <= k < |w| && w[k] == m;
    WalkMove(s, ray, p, k);
  }

  /**
   * Every sliding move is a plain move of the piece along one of the rays,
   * onto the board, onto a square not held by a friend, taking what stands there.
   */
  lemma {:induction false} SlideMove(s: GameState, p: Piece, dirs: seq<(int, int)>, m: Move)
    requires Readable(s) && OnBoard(s, p.row, p.col) && Units(dirs) && m in Slides(s, p, dirs)
    ensures EmittedBy(p, m)
    ensures OnBoard(s, m.endRow, m.endCol)
    ensures OnRay(p, m, dirs)
    ensures m.pieceTaken == At(s, m.endRow, m.endCol)
    ensures !Friendly(s, p.side, m.endRow, m.endCol)
    decreases |dirs|
  {
    var w := Walk(s, RayFrom(s, p, dirs[0]), p);
    UnitsTail(dirs);
    if m in w {
      RayMove(s, p, dirs[0], m);
      assert dirs[0] in dirs;
    } else {
      assert m in Slides(s, p, dirs[1..]);
      SlideMove(s, p, dirs[1..], m);
      var d := (Sign(m.endRow - p.row), Sign(m.endCol - p.col));
      assert d in dirs[1..];
    }
  }

  /** Walking the rays of `a` and then those of `b` is walking the rays of `a + b`. */
  lemma {:induction false} SlidesAppend(s: GameState, p: Piece, a: seq<(int, int)>, b: seq<(int, int)>)
    requires Readable(s) && OnBoard(s, p.row, p.col) && Units(a) && Units(b)
    ensures Units(a + b)
    ensures Slides(s, p, a + b) == Slides(s, p, a) + Slides(s, p, b)
  {
    assert Units(a + b) by {
      forall i | 0 <= i < |a + b| ensures Unit((a + b)[i]) {
        if i < |a| { assert (a + b)[i] == a[i]; } else { assert (a + b)[i] == b[i - |a|]; }
      }
    }
    if a != [] {
      assert (a + b)[0] == a[0] && (a + b)[1..] == a[1..] + b;
      UnitsTail(a);
      SlidesAppend(s, p, a[1..], b);
    } else {
      assert a + b == b;
    }
  }

  /** A rook move changes exactly one of row and column; it stays on the board. */
  lemma RookMoveOnLine(s: GameState, p: Piece, m: Move)
    requires Readable(s) && OnBoard(s, p.row, p.col) && m in Slides(s, p, RookDirs)
    ensures OnBoard(s, m.endRow, m.endCol)
    ensures (m.endRow == p.row) != (m.endCol == p.col)
  {
    SlideMove(s, p, RookDirs, m);
    RookRayIsLine(p, m);
  }

  /** A target on a rook ray differs from the piece's square in exactly one coordinate. */
  lemma RookRayIsLine(p: Piece, m: Move)
    requires OnRay(p, m, RookDirs)
    ensures (m.endRow == p.row) != (m.endCol == p.col)
  {
  }

  /** A bishop move changes row and column by the same non-zero amount; it stays on the board. */
  lemma BishopMoveOnDiagonal(s: GameState, p: Piece, m: Move)
    requires Readable(s) && OnBoard(s, p.row, p.col) && m in Slides(s, p, BishopDirs)
    ensures OnBoard(s, m.endRow, m.endCol)
    ensures Abs(m.endRow - p.row) == Abs(m.endCol - p.col) >= 1
  {
    SlideMove(s, p, BishopDirs, m);
    BishopRayIsDiagonal(p, m);
  }

  lemma BishopRayIsDiagonal(p: Piece, m: Move)
    requires OnRay(p, m, BishopDirs)
    ensures Abs(m.endRow - p.row) == Abs(m.endCol - p.col) >= 1
  {
  }

  /** The queen's list is the rook's list followed by the bishop's list. */
  lemma QueenIsRookThenBishop(s: GameState, p: Piece)
    requires Readable(s) && OnBoard(s, p.row, p.col)
    ensures Slides(s, p, QueenDirs) == Slides(s, p, RookDirs) + Slides(s, p, BishopDirs)
  {
    SlidesAppend(s, p, RookDirs, BishopDirs);
  }

  /** The position of a ray direction in the ray list. */
  function DirIndex(dirs: seq<(int, int)>, d: (int, int)): nat
  {
    if dirs == [] || dirs[0] == d then 0 else 1 + DirIndex(dirs[1..], d)
  }

  /** The direction from the piece to the move's target square. */
  function Heading(p: Piece, m: Move): (int, int)
  {
    (Sign(m.endRow - p.row), Sign(m.endCol - p.col))
  }

  /** How many squares out the target lies, counted as a king would step. */
  function Distance(p: Piece, m: Move): nat
  {
    Max(Abs(m.endRow - p.row), Abs(m.endCol - p.col))
  }

  /** m1 comes before m2 in ray order: an earlier ray, or the same ray and nearer the piece. */
  predicate RayBefore(dirs: seq<(int, int)>, p: Piece, m1: Move, m2: Move)
  {
    || DirIndex(dirs, Heading(p, m1)) < DirIndex(dirs, Heading(p, m2))
    || (Heading(p, m1) == Heading(p, m2) && Distance(p, m1) < Distance(p, m2))
  }

  predicate Distinct(dirs: seq<(int, int)>)
  {
    forall i, j :: 0 <= i < j < |dirs| ==> dirs[i] != dirs[j]
  }

  /** The k-th move of one ray's walk is k+1 squares out along that ray. */
  lemma WalkAlongRay(s: GameState, p: Piece, d: (int, int), k: nat)
    requires Readable(s) && OnBoard(s, p.row, p.col) && Unit(d)
    requires k < |Walk(s, RayFrom(s, p, d), p)|
    ensures var m := Walk(s, RayFrom(s, p, d), p)[k];
      Heading(p, m) == d && Distance(p, m) == k + 1
  {
    WalkMove(s, RayFrom(s, p, d), p, k);
  }

  /** A move of the later rays sits one place further down the full ray list. */
  lemma LaterRay(s: GameState, p: Piece, dirs: seq<(int, int)>, m: Move)
    requires Readable(s) && OnBoard(s, p.row, p.col) && Units(dirs) && Distinct(dirs) && dirs != []
    requires Units(dirs[1..]) && m in Slides(s, p, dirs[1..])
    ensures DirIndex(dirs, Heading(p, m)) == 1 + DirIndex(dirs[1..], Heading(p, m))
  {
    var tail := dirs[1..];
    SlideMove(s, p, tail, m);
    var i :| 0 <= i < |tail| && tail[i] == Heading(p, m);
    assert dirs[i + 1] == Heading(p, m);
  }

  lemma DistinctTail(dirs: seq<(int, int)>)
    requires Distinct(dirs) && dirs != []
    ensures Distinct(dirs[1..])
  {
    var tail := dirs[1..];
    forall i, j | 0 <= i < j < |tail| ensures tail[i] != tail[j] {
      assert tail[i] == dirs[i + 1] && tail[j] == dirs[j + 1];
    }
  }

  /** Sliding moves come ray by ray in the order of `dirs`, nearest square first within a ray. */
  lemma {:induction false} SlidesInRayOrder(s: GameState, p: Piece, dirs: seq<(int, int)>)
    requires Readable(s) && OnBoard(s, p.row, p.col) && Units(dirs) && Distinct(dirs)
    ensures var ms := Slides(s, p, dirs);
      forall i, j :: 0 <= i < j < |ms| ==> RayBefore(dirs, p, ms[i], ms[j])
    decreases |dirs|
  {
    if dirs != [] {
      var w := Walk(s, RayFrom(s, p, dirs[0]), p);
      var tail := dirs[1..];
      UnitsTail(dirs);
      DistinctTail(dirs);
      var rest := Slides(s, p, tail);
      SlidesInRayOrder(s, p, tail);
      var ms := w + rest;
      forall i, j | 0 <= i < j < |ms| ensures RayBefore(dirs, p, ms[i], ms[j]) {
        if j < |w| {
          WalkAlongRay(s, p, dirs[0], i);
          WalkAlongRay(s, p, dirs[0], j);
          assert ms[i] == w[i] && ms[j] == w[j];
        } else if i < |w| {
          WalkAlongRay(s, p, dirs[0], i);
          assert ms[i] == w[i] && ms[j] == rest[j - |w|];
          LaterRay(s, p, dirs, rest[j - |w|]);
        } else {
          assert ms[i] == rest[i - |w|] && ms[j] == rest[j - |w|];
          LaterRay(s, p, dirs, rest[i - |w|]);
          LaterRay(s, p, dirs, rest[j - |w|]);
          assert RayBefore(tail, p, rest[i - |w|], rest[j - |w|]);
        }
      }
    }
  }

  /** The ray lists are lists of unit directions. */
  lemma DirsAreUnits()
    ensures Units(RookDirs) && Units(BishopDirs) && Units(QueenDirs)
  {
  }

  /** The rook generator: up, down, left, right, each list appended in turn. */
  method RookMoves(s: GameState, p: Piece) returns (ms: seq<Move>)
    requires Readable(s) && OnBoard(s, p.row, p.col)
    ensures ms == Slides(s, p, RookDirs)
  {
    DirsAreUnits();
    var up := MoveOrTake(s, RayFrom(s, p, RookDirs[0]), p);
    var down := MoveOrTake(s, RayFrom(s, p, RookDirs[1]), p);
    var left := MoveOrTake(s, RayFrom(s, p, RookDirs[2]), p);
    var right := MoveOrTake(s, RayFrom(s, p, RookDirs[3]), p);
    ms := [] + up + down + left + right;
    SlidesUnfold4(s, p, RookDirs);
    Concat4(up, down, left, right);
  }

  /** The bishop generator: the four diagonals, each list appended in turn. */
  method BishopMoves(s: GameState, p: Piece) returns (ms: seq<Move>)
    requires Readable(s) && OnBoard(s, p.row, p.col)
    ensures ms == Slides(s, p, BishopDirs)
  {
    DirsAreUnits();
    var upLeft := MoveOrTake(s, RayFrom(s, p, BishopDirs[0]), p);
    var upRight := MoveOrTake(s, RayFrom(s, p, BishopDirs[1]), p);
    var downLeft := MoveOrTake(s, RayFrom(s, p, BishopDirs[2]), p);
    var downRight := MoveOrTake(s, RayFrom(s, p, BishopDirs[3]), p);
    ms := [] + upLeft + upRight + downLeft + downRight;
    SlidesUnfold4(s, p, BishopDirs);
    Concat4(upLeft, upRight, downLeft, downRight);
  }

  /**
   * The queen generator: the class repeats the rook's four rays and then the
   * bishop's four, so its list is the rook list followed by the bishop list.
   */
  method QueenMoves(s: GameState, p: Piece) returns (ms: seq<Move>)
    requires Readable(s) && OnBoard(s, p.row, p.col)
    ensures ms == Slides(s, p, QueenDirs)
    ensures ms == Slides(s, p, RookDirs) + Slides(s, p, BishopDirs)
  {
    DirsAreUnits();
    var up := MoveOrTake(s, RayFrom(s, p, RookDirs[0]), p);
    var down := MoveOrTake(s, RayFrom(s, p, RookDirs[1]), p);
    var left := MoveOrTake(s, RayFrom(s, p, RookDirs[2]), p);
    var right := MoveOrTake(s, RayFrom(s, p, RookDirs[3]), p);
    ms := [] + up + down + left + right;
    SlidesUnfold4(s, p, RookDirs);
    Concat4(up, down, left, right);
    var upLeft := MoveOrTake(s, RayFrom(s, p, BishopDirs[0]), p);
    var upRight := MoveOrTake(s, RayFrom(s, p, BishopDirs[1]), p);
    var downLeft := MoveOrTake(s, RayFrom(s, p, BishopDirs[2]), p);
    var downRight := MoveOrTake(s, RayFrom(s, p, BishopDirs[3]), p);
    ghost var rook := ms;
    ms := ms + upLeft + upRight + downLeft + downRight;
    SlidesUnfold4(s, p, BishopDirs);
    Concat4(upLeft, upRight, downLeft, downRight);
    Concat5(rook, upLeft, upRight, downLeft, downRight);
    QueenIsRookThenBishop(s, p);
  }

  /** Appending four lists one after the other to an empty list. */
  lemma Concat4<T>(a: seq<T>, b: seq<T>, c: seq<T>, d: seq<T>)
    ensures [] + a + b + c + d == a + (b + (c + d))
  {
  }

  lemma Concat5<T>(r: seq<T>, a: seq<T>, b: seq<T>, c: seq<T>, d: seq<T>)
    ensures r + a + b + c + d == r + (a + (b + (c + d)))
  {
  }

  /** One ray, then the rest. */
  lemma SlidesCons(s: GameState, p: Piece, dirs: seq<(int, int)>)
    requires Readable(s) && OnBoard(s, p.row, p.col) && Units(dirs) && dirs != []
    ensures Units(dirs[1..])
    ensures Slides(s, p, dirs) == Walk(s, RayFrom(s, p, dirs[0]), p) + Slides(s, p, dirs[1..])
  {
    UnitsTail(dirs);
  }

  /** Four rays, spelled out. */
  lemma SlidesUnfold4(s: GameState, p: Piece, dirs: seq<(int, int)>)
    requires Readable(s) && OnBoard(s, p.row, p.col) && |dirs| == 4 && Units(dirs)
    ensures Slides(s, p, dirs) ==
      Walk(s, RayFrom(s, p, dirs[0]), p) + (Walk(s, RayFrom(s, p, dirs[1]), p)
      + (Walk(s, RayFrom(s, p, dirs[2]), p) + Walk(s, RayFrom(s, p, dirs[3]), p)))
  {
    var d1 := dirs[1..];
    SlidesCons(s, p, dirs);
    var d2 := d1[1..];
    SlidesCons(s, p, d1);
    var d3 := d2[1..];
    SlidesCons(s, p, d2);
    SlidesCons(s, p, d3);
    assert d1[0] == dirs[1] && d2[0] == dirs[2] && d3[0] == dirs[3] && d3[1..] == [];
    var w3 := Walk(s, RayFrom(s, p, dirs[3]), p);
    assert Slides(s, p, d3) == w3;
  }

  // ---------------------------------------------------------------------------
  // Pieces that step: knight and king
  // ---------------------------------------------------------------------------

  /** The moves of the knight's and king's square loops: every listed square not held by a friend. */
  function Steps(s: GameState, squares: seq<(int, int)>, p: Piece): seq<Move>
    requires Readable(s) && AllOnBoard(s, squares)
    decreases |squares|
  {
    if squares == [] then []
    else
      var (r, c) := squares[0];
      (if At(s, r, c) == None then [StepTo(s, p, r, c)]
       else if Hostile(s, p.side, r, c) then [StepTo(s, p, r, c)]
       else [])
      + Steps(s, squares[1..], p)
  }

  /**
   * Every stepping move is a plain move of the piece to a listed square not
   * held by a friend, taking what stands there.
   */
  lemma {:induction false} StepMove(s: GameState, squares: seq<(int, int)>, p: Piece, m: Move)
    requires Readable(s) && AllOnBoard(s, squares) && m in Steps(s, squares, p)
    ensures EmittedBy(p, m)
    ensures (m.endRow, m.endCol) in squares
    ensures m.pieceTaken == At(s, m.endRow, m.endCol)
    ensures !Friendly(s, p.side, m.endRow, m.endCol)
    decreases |squares|
  {
    var (r, c) := squares[0];
    var rest := Steps(s, squares[1..], p);
    if m !in rest {
      assert m == StepTo(s, p, r, c);
    } else {
      StepMove(s, squares[1..], p, m);
    }
  }

  /** A listed square is a destination exactly when no friendly piece stands on it. */
  lemma {:induction false} StepsReach(s: GameState, squares: seq<(int, int)>, p: Piece, r: int, c: int)
    requires Readable(s) && AllOnBoard(s, squares) && (r, c) in squares
    ensures (exists m :: m in Steps(s, squares, p) && m.endRow == r && m.endCol == c) <==>
      !Friendly(s, p.side, r, c)
  {
    var ms := Steps(s, squares, p);
    var (r0, c0) := squares[0];
    if (r0, c0) == (r, c) {
      if !Friendly(s, p.side, r, c) {
        assert ms[0] == StepTo(s, p, r, c);
        assert ms[0] in ms;
      } else {
        forall m | m in ms && m.endRow == r && m.endCol == c ensures false {
          StepMove(s, squares, p, m);
        }
      }
    } else {
      assert (r, c) in squares[1..];
      StepsReach(s, squares[1..], p, r, c);
      var rest := Steps(s, squares[1..], p);
      assert ms == (if !Friendly(s, p.side, r0, c0) then [StepTo(s, p, r0, c0)] else []) + rest;
      if !Friendly(s, p.side, r, c) {
        var m :| m in rest && m.endRow == r && m.endCol == c;
        assert m in ms;
      } else {
        forall m | m in ms && m.endRow == r && m.endCol == c ensures false {
          StepMove(s, squares, p, m);
        }
      }
    }
  }

  /** The loop over candidate squares of the knight and the king. */
  /** One step of the stepping walk: the first square's move, then the rest. */
  lemma StepsFrom(s: GameState, squares: seq<(int, int)>, p: Piece, i: nat)
    requires Readable(s) && AllOnBoard(s, squares) && i < |squares|
    ensures var (r, c) := squares[i];
      Steps(s, squares[i..], p) ==
      (if At(s, r, c) == None || Hostile(s, p.side, r, c) then [StepTo(s, p, r, c)] else [])
      + Steps(s, squares[i + 1..], p)
  {
    assert squares[i..][0] == squares[i] && squares[i..][1..] == squares[i + 1..];
  }

  method StepOrTake(s: GameState, squares: seq<(int, int)>, p: Piece) returns (ms: seq<Move>)
    requires Readable(s) && AllOnBoard(s, squares)
    ensures ms == Steps(s, squares, p)
  {
    ms := [];
    for i := 0 to |squares|
      invariant ms + Steps(s, squares[i..], p) == Steps(s, squares, p)
    {
      var (r, c) := squares[i];
      StepsFrom(s, squares, p, i);
      ghost var before := ms;
      var step: seq<Move> := [];
      if s.board[r][c] == None {
        step := [Move(Some(p.id), p.row, p.col, r, c)];
      } else if s.pieces[s.board[r][c].value].side != p.side {
        step := [Move(Some(p.id), p.row, p.col, r, c, pieceTaken := s.board[r][c])];
      }
      assert step == (if At(s, r, c) == None || Hostile(s, p.side, r, c) then [StepTo(s, p, r, c)] else []);
      ms := ms + step;
      Regroup(before, step, Steps(s, squares[i + 1..], p));
    }
    assert squares[|squares|..] == [];
  }

  /** A knight jump: two squares along one axis and one along the other. */
  predicate KnightJump(p: Piece, r: int, c: int)
  {
    (Abs(r - p.row), Abs(c - p.col)) in {(1, 2), (2, 1)}
  }

  /** The squares of `xs` that lie on the board, in order. */
  function Within(s: GameState, xs: seq<(int, int)>): (sq: seq<(int, int)>)
    ensures AllOnBoard(s, sq)
  {
    if xs == [] then []
    else (if OnBoard(s, xs[0].0, xs[0].1) then [xs[0]] else []) + Within(s, xs[1..])
  }

  lemma {:induction false} WithinKeeps(s: GameState, xs: seq<(int, int)>, x: (int, int))
    ensures x in Within(s, xs) <==> x in xs && OnBoard(s, x.0, x.1)
  {
    if xs != [] {
      WithinKeeps(s, xs[1..], x);
    }
  }

  lemma {:induction false} WithinAppend(s: GameState, xs: seq<(int, int)>, ys: seq<(int, int)>)
    ensures Within(s, xs + ys) == Within(s, xs) + Within(s, ys)
  {
    if xs == [] {
      assert xs + ys == ys;
    } else {
      assert (xs + ys)[0] == xs[0] && (xs + ys)[1..] == xs[1..] + ys;
      WithinAppend(s, xs[1..], ys);
    }
  }

  /** The eight jumps, in the order the knight class tries them. */
  function KnightJumps(p: Piece): seq<(int, int)>
  {
    [(p.row - 1, p.col - 2), (p.row - 1, p.col + 2), (p.row - 2, p.col - 1), (p.row - 2, p.col + 1),
     (p.row + 1, p.col - 2), (p.row + 1, p.col + 2), (p.row + 2, p.col - 1), (p.row + 2, p.col + 1)]
  }

  /** The knight's candidate squares: the jumps that land on the board. */
  function KnightSquares(s: GameState, p: Piece): seq<(int, int)>
  {
    Within(s, KnightJumps(p))
  }

  /** The knight lists exactly the on-board squares a knight's jump away. */
  lemma KnightSquaresExact(s: GameState, p: Piece, r: int, c: int)
    ensures (r, c) in KnightSquares(s, p) <==> OnBoard(s, r, c) && KnightJump(p, r, c)
  {
    WithinKeeps(s, KnightJumps(p), (r, c));
  }

  /** The knight reaches (r, c) exactly when it is on the board, a jump away and not held by a friend. */
  lemma KnightReach(s: GameState, p: Piece, r: int, c: int)
    requires Readable(s) && OnBoard(s, p.row, p.col)
    ensures (exists m :: m in Steps(s, KnightSquares(s, p), p) && m.endRow == r && m.endCol == c) <==>
      OnBoard(s, r, c) && KnightJump(p, r, c) && !Friendly(s, p.side, r, c)
  {
    KnightSquaresExact(s, p, r, c);
    var squares := KnightSquares(s, p);
    if (r, c) in squares {
      StepsReach(s, squares, p, r, c);
    } else {
      forall m | m in Steps(s, squares, p) && m.endRow == r && m.endCol == c ensures false {
        StepMove(s, squares, p, m);
      }
    }
  }

  /**
   * The knight generator. Each bound test of the class keeps exactly the jumps
   * that land on the board when the knight itself stands on it.
   */
  method KnightMoves(s: GameState, p: Piece) returns (ms: seq<Move>)
    requires Readable(s) && OnBoard(s, p.row, p.col)
    ensures ms == Steps(s, KnightSquares(s, p), p)
  {
    var a := JumpPair(s, p, -1, 2);
    var b := JumpPair(s, p, -2, 1);
    var c := JumpPair(s, p, 1, 2);
    var d := JumpPair(s, p, 2, 1);
    KnightSquaresInGroups(s, p);
    var squares := a + b + c + d;
    assert squares == KnightSquares(s, p);
    ms := StepOrTake(s, squares, p);
  }

  /**
   * One of the four bound tests of the knight: the two jumps `dr` rows away
   * and `dc` columns to either side, each kept when it lands on the board.
   */
  method JumpPair(s: GameState, p: Piece, dr: int, dc: int) returns (g: seq<(int, int)>)
    requires WellShaped(s) && OnBoard(s, p.row, p.col)
    requires (dr, dc) in {(-1, 2), (-2, 1), (1, 2), (2, 1)}
    ensures g == Within(s, [(p.row + dr, p.col - dc), (p.row + dr, p.col + dc)])
  {
    var rows, cols := |s.board|, |s.board[0]|;
    g := [];
    if (dr < 0 && p.row >= -dr) || (dr > 0 && p.row <= rows - 1 - dr) {
      if p.col >= dc { g := g + [(p.row + dr, p.col - dc)]; }
      if p.col <= cols - 1 - dc { g := g + [(p.row + dr, p.col + dc)]; }
    }
    WithinPair(s, (p.row + dr, p.col - dc), (p.row + dr, p.col + dc));
  }

  /** Two squares, each kept when it lies on the board. */
  lemma WithinPair(s: GameState, x: (int, int), y: (int, int))
    ensures Within(s, [x, y]) ==
      (if OnBoard(s, x.0, x.1) then [x] else []) + (if OnBoard(s, y.0, y.1) then [y] else [])
  {
    assert [x, y][0] == x && [x, y][1..] == [y];
    assert Within(s, [y]) == (if OnBoard(s, y.0, y.1) then [y] else []) + Within(s, []) by {
      assert [y][0] == y && [y][1..] == [];
    }
  }

  /** The jumps split into the four groups of the class's bound tests. */
  lemma KnightSquaresInGroups(s: GameState, p: Piece)
    ensures KnightSquares(s, p) ==
      Within(s, [(p.row - 1, p.col - 2), (p.row - 1, p.col + 2)]) +
      Within(s, [(p.row - 2, p.col - 1), (p.row - 2, p.col + 1)]) +
      Within(s, [(p.row + 1, p.col - 2), (p.row + 1, p.col + 2)]) +
      Within(s, [(p.row + 2, p.col - 1), (p.row + 2, p.col + 1)])
  {
    var jumps := KnightJumps(p);
    assert jumps == jumps[..2] + jumps[2..4] + jumps[4..6] + jumps[6..];
    assert jumps[..2] == [(p.row - 1, p.col - 2), (p.row - 1, p.col + 2)];
    assert jumps[2..4] == [(p.row - 2, p.col - 1), (p.row - 2, p.col + 1)];
    assert jumps[4..6] == [(p.row + 1, p.col - 2), (p.row + 1, p.col + 2)];
    assert jumps[6..] == [(p.row + 2, p.col - 1), (p.row + 2, p.col + 1)];
    WithinAppend(s, jumps[..2], jumps[2..4]);
    WithinAppend(s, jumps[..2] + jumps[2..4], jumps[4..6]);
    WithinAppend(s, jumps[..2] + jumps[2..4] + jumps[4..6], jumps[6..]);
  }

  // ---------------------------------------------------------------------------
  // Pawn
  // ---------------------------------------------------------------------------

  /** White pawns move up the board (towards row 0), Black pawns down. */
  function Direction(side: Side): int
  {
    if side == White then -1 else 1
  }

  /** The row a pawn may advance two squares from. */
  function StartRow(s: GameState, side: Side): int
  {
    if side == White then Rows(s) - 2 else 1
  }

  /**
   * The row the class takes as the promotion row. For Black it is the number
   * of rows, one past the last row, which a pawn cannot reach.
   */
  function FinalRow(s: GameState, side: Side): int
  {
    if side == White then 0 else Rows(s)
  }

  /** The next step of the pawn lands on the promotion row. */
  predicate Promotes(s: GameState, p: Piece)
  {
    p.row == FinalRow(s, p.side) - Direction(p.side)
  }

  /** The kinds a pawn may become, in the order the class lists them. */
  const PromotionKinds: seq<Kind> := [Knight, Bishop, Rook, Queen]

  /** One copy of the move per promotion kind. */
  function Promoting(m: Move): (ms: seq<Move>)
    ensures |ms| == |PromotionKinds|
    ensures forall i :: 0 <= i < |ms| ==> ms[i] == m.(promotion := Some(PromotionKinds[i]))
  {
    seq(|PromotionKinds|, i requires 0 <= i < |PromotionKinds| => m.(promotion := Some(PromotionKinds[i])))
  }

  /** The move itself, or its four promotions when the pawn reaches the promotion row. */
  function Expand(s: GameState, p: Piece, m: Move): seq<Move>
  {
    if Promotes(s, p) then Promoting(m) else [m]
  }

  /** The most recent move of the history. */
  function LastMove(s: GameState): Move
    requires s.moves != []
  {
    s.moves[|s.moves| - 1]
  }

  /**
   * The en passant test looks up the piece of the last move in the live table
   * whenever that move ended beside the pawn on an existing column.
   */
  predicate LastMoverKnown(s: GameState, p: Piece)
  {
    s.moves != [] ==>
      var last := LastMove(s);
      last.endRow == p.row && (last.endCol == p.col - 1 || last.endCol == p.col + 1)
      && 0 <= last.endCol < Cols(s)
      ==> last.pieceId.Some? && last.pieceId.value in s.pieces
  }

  /**
   * What the pawn generator reads without failing: the square straight ahead,
   * the square two ahead when the pawn stands on its start row with the square
   * ahead free, and the last mover when it ended beside the pawn.
   */
  predicate PawnReady(s: GameState, p: Piece)
  {
    && Readable(s) && OnBoard(s, p.row, p.col)
    && OnBoard(s, p.row + Direction(p.side), p.col)
    && (p.row == StartRow(s, p.side) && At(s, p.row + Direction(p.side), p.col) == None ==>
          OnBoard(s, p.row + 2 * Direction(p.side), p.col))
    && LastMoverKnown(s, p)
  }

  /** The move one square forward, and the one two squares forward. */
  function Push(p: Piece, n: int): Move
  {
    Move(Some(p.id), p.row, p.col, p.row + n * Direction(p.side), p.col)
  }

  /** The forward moves: one square (promoting if due), then two squares from the start row. */
  function Pushes(s: GameState, p: Piece): seq<Move>
    requires PawnReady(s, p)
  {
    var dir := Direction(p.side);
    if At(s, p.row + dir, p.col) != None then []
    else
      Expand(s, p, Push(p, 1))
      + (if p.row == StartRow(s, p.side) && At(s, p.row + 2 * dir, p.col) == None then [Push(p, 2)] else [])
  }

  /**
   * The en passant move towards `endCol`: the last move ended beside the pawn
   * on that column, was made by a pawn, and covered two rows.
   */
  predicate EnPassantDue(s: GameState, p: Piece, endCol: int)
    requires PawnReady(s, p) && 0 <= endCol < Cols(s) && (endCol == p.col - 1 || endCol == p.col + 1)
  {
    s.moves != [] &&
    var last := LastMove(s);
    && last.endRow == p.row && last.endCol == endCol
    && Upper(Tag(s.pieces[last.pieceId.value])) == 'P'
    && Abs(last.startRow - last.endRow) == 2
  }

  /** The diagonal moves towards `endCol`: a capture (promoting if due), then en passant. */
  function Diagonal(s: GameState, p: Piece, endCol: int): seq<Move>
    requires PawnReady(s, p) && (endCol == p.col - 1 || endCol == p.col + 1)
  {
    var row := p.row + Direction(p.side);
    if 0 <= endCol < Cols(s) then
      (if Hostile(s, p.side, row, endCol) then Expand(s, p, StepTo(s, p, row, endCol)) else [])
      + (if EnPassantDue(s, p, endCol)
         then [Move(Some(p.id), p.row, p.col, row, endCol, pieceTaken := LastMove(s).pieceId)]
         else [])
    else []
  }

  /** The pawn's list: forward moves, then the left diagonal, then the right one. */
  function PawnList(s: GameState, p: Piece): seq<Move>
    requires PawnReady(s, p)
  {
    Pushes(s, p) + Diagonal(s, p, p.col - 1) + Diagonal(s, p, p.col + 1)
  }

  /** The four promotions of one move, appended in the order of the kinds. */
  method AddPromotions(ms: seq<Move>, m: Move) returns (r: seq<Move>)
    ensures r == ms + Promoting(m)
  {
    r := ms;
    for i := 0 to |PromotionKinds|
      invariant r == ms + Promoting(m)[..i]
    {
      r := r + [m.(promotion := Some(PromotionKinds[i]))];
      assert Promoting(m)[..i + 1] == Promoting(m)[..i] + [Promoting(m)[i]];
    }
    assert Promoting(m)[..|PromotionKinds|] == Promoting(m);
  }

  /** The move, or its promotions when the pawn is about to reach the promotion row. */
  method AddExpanded(s: GameState, p: Piece, ms: seq<Move>, m: Move) returns (r: seq<Move>)
    ensures r == ms + Expand(s, p, m)
  {
    if p.row == FinalRow(s, p.side) - Direction(p.side) {
      r := AddPromotions(ms, m);
    } else {
      r := ms + [m];
    }
  }

  /** One pass of the diagonal loop: the capture towards `endCol`, then en passant. */
  method AddDiagonal(s: GameState, p: Piece, ms: seq<Move>, endCol: int) returns (r: seq<Move>)
    requires PawnReady(s, p) && (endCol == p.col - 1 || endCol == p.col + 1)
    ensures r == ms + Diagonal(s, p, endCol)
  {
    r := ms;
    var dir := if p.side == White then -1 else 1;
    if 0 <= endCol < |s.board[0]| {
      var square := s.board[p.row + dir][endCol];
      if square != None && s.pieces[square.value].side != p.side {
        r := AddExpanded(s, p, r, Move(Some(p.id), p.row, p.col, p.row + dir, endCol, pieceTaken := square));
      }
      ghost var captures := r;
      if |s.moves| > 0 {
        var last := s.moves[|s.moves| - 1];
        if last.endRow == p.row && last.endCol == endCol {
          if Upper(Tag(s.pieces[last.pieceId.value])) == 'P' {
            if Abs(last.startRow - last.endRow) == 2 {
              r := r + [Move(Some(p.id), p.row, p.col, p.row + dir, endCol, pieceTaken := last.pieceId)];
            }
          }
        }
      }
    }
  }

  /** The forward part of the pawn generator. */
  method ForwardMoves(s: GameState, p: Piece) returns (ms: seq<Move>)
    requires PawnReady(s, p)
    ensures ms == Pushes(s, p)
  {
    var dir := if p.side == White then -1 else 1;
    var startRow := if p.side == White then |s.board| - 2 else 1;
    ms := [];
    if s.board[p.row + dir][p.col] == None {
      ms := AddExpanded(s, p, ms, Move(Some(p.id), p.row, p.col, p.row + dir, p.col));
      if p.row == startRow && s.board[p.row + 2 * dir][p.col] == None {
        ms := ms + [Move(Some(p.id), p.row, p.col, p.row + 2 * dir, p.col)];
      }
    }
  }

  /** The pawn generator: the forward moves, then a pass over the two diagonals. */
  method PawnMoves(s: GameState, p: Piece) returns (ms: seq<Move>)
    requires PawnReady(s, p)
    ensures ms == PawnList(s, p)
  {
    ms := ForwardMoves(s, p);
    ms := AddDiagonals(s, p, ms);
  }

  /** The loop over the columns to the left and to the right of the pawn. */
  method AddDiagonals(s: GameState, p: Piece, ms0: seq<Move>) returns (ms: seq<Move>)
    requires PawnReady(s, p)
    ensures ms == ms0 + Diagonal(s, p, p.col - 1) + Diagonal(s, p, p.col + 1)
  {
    ms := ms0;
    ghost var left, right := Diagonal(s, p, p.col - 1), Diagonal(s, p, p.col + 1);
    var endCols := [p.col - 1, p.col + 1];
    for k := 0 to 2
      invariant k == 0 ==> ms == ms0
      invariant k == 1 ==> ms == ms0 + left
      invariant k == 2 ==> ms == ms0 + left + right
    {
      ms := AddDiagonal(s, p, ms, endCols[k]);
    }
  }

  /** The en passant test's letter comparison asks whether the last mover is a pawn. */
  lemma PawnLetter(q: Piece)
    ensures Upper(Tag(q)) == 'P' <==> q.kind == Pawn
  {
  }

  /** Every promoted copy carries one of the four kinds, and nothing else changes. */
  lemma PromotingShape(m: Move, x: Move)
    requires x in Promoting(m)
    ensures x.promotion.Some? && x.promotion.value in PromotionKinds
    ensures x == m.(promotion := x.promotion)
  {
  }

  /** A forward move is one square ahead, possibly promoting, or two squares ahead from the start row. */
  lemma PushShape(s: GameState, p: Piece, m: Move)
    requires PawnReady(s, p) && m in Pushes(s, p)
    ensures At(s, p.row + Direction(p.side), p.col) == None
    ensures FromPiece(p, m) && m.castling == None && m.pieceTaken == None && m.endCol == p.col
    ensures || m.endRow == p.row + Direction(p.side)
            || (m == Push(p, 2) && p.row == StartRow(s, p.side)
                && At(s, p.row + 2 * Direction(p.side), p.col) == None)
    ensures OnBoard(s, m.endRow, m.endCol)
    ensures m.promotion.Some? ==> Promotes(s, p) && m.promotion.value in PromotionKinds && m.endRow == p.row + Direction(p.side)
  {
    if m in Expand(s, p, Push(p, 1)) && Promotes(s, p) {
      PromotingShape(Push(p, 1), m);
    }
  }

  /**
   * A diagonal move lands one row ahead on the column `endCol`; it takes the
   * enemy piece standing there, or, for en passant, the piece of the last move.
   */
  lemma DiagonalShape(s: GameState, p: Piece, endCol: int, m: Move)
    requires PawnReady(s, p) && (endCol == p.col - 1 || endCol == p.col + 1) && m in Diagonal(s, p, endCol)
    ensures 0 <= endCol < Cols(s)
    ensures FromPiece(p, m) && m.castling == None
    ensures m.endRow == p.row + Direction(p.side) && m.endCol == endCol
    ensures OnBoard(s, m.endRow, m.endCol)
    ensures || (Hostile(s, p.side, m.endRow, endCol) && m.pieceTaken == At(s, m.endRow, endCol))
            || (EnPassantDue(s, p, endCol) && m.pieceTaken == LastMove(s).pieceId && m.promotion == None)
    ensures m.promotion.Some? ==> Promotes(s, p) && m.promotion.value in PromotionKinds
  {
    var row := p.row + Direction(p.side);
    if Hostile(s, p.side, row, endCol) && m in Expand(s, p, StepTo(s, p, row, endCol)) && Promotes(s, p) {
      PromotingShape(StepTo(s, p, row, endCol), m);
    }
  }

  /**
   * The shape of a pawn move: it starts from the pawn and lands on the board
   * one row ahead (or two rows ahead on its own column when it stands on its
   * start row), on its own column or a neighbouring one, and promotes only
   * when the pawn is about to reach the promotion row, to one of the four kinds.
   */
  ghost predicate PawnShaped(s: GameState, p: Piece, m: Move)
  {
    && FromPiece(p, m) && m.castling == None
    && OnBoard(s, m.endRow, m.endCol)
    && (|| m.endRow == p.row + Direction(p.side)
        || (m.endRow == p.row + 2 * Direction(p.side) && m.endCol == p.col && p.row == StartRow(s, p.side)))
    && (m.endCol == p.col - 1 || m.endCol == p.col || m.endCol == p.col + 1)
    && (m.promotion.Some? ==> Promotes(s, p) && m.promotion.value in PromotionKinds)
  }

  lemma PushShaped(s: GameState, p: Piece, m: Move)
    requires PawnReady(s, p) && m in Pushes(s, p)
    ensures PawnShaped(s, p, m)
  {
    PushShape(s, p, m);
  }

  lemma DiagonalShaped(s: GameState, p: Piece, endCol: int, m: Move)
    requires PawnReady(s, p) && (endCol == p.col - 1 || endCol == p.col + 1) && m in Diagonal(s, p, endCol)
    ensures PawnShaped(s, p, m)
  {
    DiagonalShape(s, p, endCol, m);
  }

  /**
   * Every pawn move starts from the pawn and lands one row ahead (or two rows
   * ahead on its own column when it stands on its start row), on its own
   * column or a neighbouring one. Only a pawn about to reach the promotion row
   * promotes, and only to a knight, bishop, rook or queen.
   */
  lemma PawnMoveShape(s: GameState, p: Piece, m: Move)
    requires PawnReady(s, p) && m in PawnList(s, p)
    ensures FromPiece(p, m) && m.castling == None
    ensures OnBoard(s, m.endRow, m.endCol)
    ensures || m.endRow == p.row + Direction(p.side)
            || (m.endRow == p.row + 2 * Direction(p.side) && m.endCol == p.col && p.row == StartRow(s, p.side))
    ensures m.endCol == p.col - 1 || m.endCol == p.col || m.endCol == p.col + 1
    ensures m.promotion.Some? ==> Promotes(s, p) && m.promotion.value in PromotionKinds
  {
    PawnListParts(s, p, m);
    if m in Pushes(s, p) {
      PushShaped(s, p, m);
    } else if m in Diagonal(s, p, p.col - 1) {
      DiagonalShaped(s, p, p.col - 1, m);
    } else {
      DiagonalShaped(s, p, p.col + 1, m);
    }
    assert PawnShaped(s, p, m);
  }

  /** A pawn move is a forward move or a move along one of the two diagonals. */
  lemma PawnListParts(s: GameState, p: Piece, m: Move)
    requires PawnReady(s, p) && m in PawnList(s, p)
    ensures m in Pushes(s, p) || m in Diagonal(s, p, p.col - 1) || m in Diagonal(s, p, p.col + 1)
  {
  }

  /** The pawn moves along its own column exactly when the square ahead is free. */
  lemma PawnAdvances(s: GameState, p: Piece)
    requires PawnReady(s, p)
    ensures (exists m :: m in PawnList(s, p) && m.endCol == p.col) <==>
      At(s, p.row + Direction(p.side), p.col) == None
  {
    if At(s, p.row + Direction(p.side), p.col) == None {
      AdvanceOffered(s, p);
      var ms := PawnList(s, p);
      assert ms[0] in ms && ms[0].endCol == p.col;
    } else {
      AdvancesNeedFreeSquare(s, p);
    }
  }

  /** With the square ahead free, the list opens with a move along the pawn's column. */
  lemma AdvanceOffered(s: GameState, p: Piece)
    requires PawnReady(s, p) && At(s, p.row + Direction(p.side), p.col) == None
    ensures |PawnList(s, p)| > 0 && PawnList(s, p)[0].endCol == p.col
  {
    var pushes := Pushes(s, p);
    var first := Expand(s, p, Push(p, 1));
    assert |first| > 0 && pushes[0] == first[0];
    PushShape(s, p, pushes[0]);
  }

  /** The diagonal moves land on their own column. */
  lemma DiagonalColumns(s: GameState, p: Piece)
    requires PawnReady(s, p)
    ensures forall x :: x in Diagonal(s, p, p.col - 1) ==> x.endCol == p.col - 1
    ensures forall x :: x in Diagonal(s, p, p.col + 1) ==> x.endCol == p.col + 1
  {
    forall x | x in Diagonal(s, p, p.col - 1) ensures x.endCol == p.col - 1 {
      DiagonalShape(s, p, p.col - 1, x);
    }
    forall x | x in Diagonal(s, p, p.col + 1) ensures x.endCol == p.col + 1 {
      DiagonalShape(s, p, p.col + 1, x);
    }
  }

  /** A pawn move along the pawn's own column is a forward move. */
  lemma OnColumnIsPush(s: GameState, p: Piece, m: Move)
    requires PawnReady(s, p) && m in PawnList(s, p) && m.endCol == p.col
    ensures m in Pushes(s, p)
  {
    PawnListParts(s, p, m);
    DiagonalColumns(s, p);
  }

  /** Every move along the pawn's column needs the square ahead free. */
  lemma AdvancesNeedFreeSquare(s: GameState, p: Piece)
    requires PawnReady(s, p)
    ensures forall m :: m in PawnList(s, p) && m.endCol == p.col ==> At(s, p.row + Direction(p.side), p.col) == None
  {
    forall m | m in PawnList(s, p) && m.endCol == p.col
      ensures At(s, p.row + Direction(p.side), p.col) == None
    {
      OnColumnIsPush(s, p, m);
      PushShape(s, p, m);
    }
  }

  /** The two-square advance is offered exactly from the start row over two free squares. */
  lemma PawnDoubleStep(s: GameState, p: Piece)
    requires PawnReady(s, p)
    ensures Push(p, 2) in PawnList(s, p) <==>
      && p.row == StartRow(s, p.side)
      && At(s, p.row + Direction(p.side), p.col) == None
      && At(s, p.row + 2 * Direction(p.side), p.col) == None
  {
    if Push(p, 2) in PawnList(s, p) {
      DoubleStepNeeds(s, p);
    }
    if && p.row == StartRow(s, p.side)
       && At(s, p.row + Direction(p.side), p.col) == None
       && At(s, p.row + 2 * Direction(p.side), p.col) == None
    {
      DoubleStepOffered(s, p);
    }
  }

  /** The two-square advance comes from the start row over two free squares. */
  lemma DoubleStepNeeds(s: GameState, p: Piece)
    requires PawnReady(s, p) && Push(p, 2) in PawnList(s, p)
    ensures p.row == StartRow(s, p.side)
    ensures At(s, p.row + Direction(p.side), p.col) == None
    ensures At(s, p.row + 2 * Direction(p.side), p.col) == None
  {
    var m := Push(p, 2);
    OnColumnIsPush(s, p, m);
    PushShape(s, p, m);
  }

  /** From the start row, over two free squares, the two-square advance is offered. */
  lemma DoubleStepOffered(s: GameState, p: Piece)
    requires PawnReady(s, p) && p.row == StartRow(s, p.side)
    requires At(s, p.row + Direction(p.side), p.col) == None
    requires At(s, p.row + 2 * Direction(p.side), p.col) == None
    ensures Push(p, 2) in PawnList(s, p)
  {
    var pushes := Pushes(s, p);
    assert pushes == Expand(s, p, Push(p, 1)) + [Push(p, 2)];
    assert Push(p, 2) in pushes;
  }

  /**
   * When the pawn is about to promote and the square ahead is free, its list
   * opens with the four promotions of the one-square advance, in the order
   * knight, bishop, rook, queen; a pawn that is not about to promote never
   * offers a promotion.
   */
  lemma PawnPromotion(s: GameState, p: Piece)
    requires PawnReady(s, p)
    ensures Promotes(s, p) && At(s, p.row + Direction(p.side), p.col) == None ==>
      PawnList(s, p)[..4] == Promoting(Push(p, 1))
    ensures !Promotes(s, p) ==> forall m :: m in PawnList(s, p) ==> m.promotion == None
  {
    if !Promotes(s, p) {
      forall m | m in PawnList(s, p) ensures m.promotion == None {
        PawnMoveShape(s, p, m);
      }
    }
  }

  /** Only a white pawn promotes: it does so from the second row, while no black pawn ever does. */
  lemma OnlyWhitePromotes(s: GameState, p: Piece)
    requires PawnReady(s, p)
    ensures p.side == White ==> (Promotes(s, p) <==> p.row == 1)
    ensures p.side == Black ==> !Promotes(s, p)
  {
  }

  /** The forward moves land on the pawn's own column. */
  lemma PushColumns(s: GameState, p: Piece)
    requires PawnReady(s, p)
    ensures forall x :: x in Pushes(s, p) ==> x.endCol == p.col
  {
    forall x | x in Pushes(s, p) ensures x.endCol == p.col {
      PushShape(s, p, x);
    }
  }

  /** A pawn move off the pawn's own column is a move along the diagonal of its column. */
  lemma OffColumnIsDiagonal(s: GameState, p: Piece, m: Move)
    requires PawnReady(s, p) && m in PawnList(s, p) && m.endCol != p.col
    ensures m.endCol == p.col - 1 || m.endCol == p.col + 1
    ensures m in Diagonal(s, p, m.endCol)
  {
    PawnListParts(s, p, m);
    PushColumns(s, p);
    DiagonalColumns(s, p);
  }

  /**
   * A pawn move off its own column that does not land on an enemy piece is
   * en passant: the last move was a pawn's two-row move that ended beside the
   * pawn on that column, and it is that pawn which is taken, without promotion.
   */
  lemma EnPassantAfterDoubleStep(s: GameState, p: Piece, m: Move)
    requires PawnReady(s, p) && m in PawnList(s, p) && m.endCol != p.col
    ensures m.endRow == p.row + Direction(p.side) && OnBoard(s, m.endRow, m.endCol)
    ensures !Hostile(s, p.side, m.endRow, m.endCol) ==>
      && s.moves != [] && LastMove(s).pieceId.Some? && LastMove(s).pieceId.value in s.pieces
      && s.pieces[LastMove(s).pieceId.value].kind == Pawn
      && LastMove(s).endRow == p.row && LastMove(s).endCol == m.endCol
      && Abs(LastMove(s).startRow - LastMove(s).endRow) == 2
      && m.pieceTaken == LastMove(s).pieceId && m.promotion == None
  {
    OffColumnIsDiagonal(s, p, m);
    DiagonalShape(s, p, m.endCol, m);
    if s.moves != [] && LastMove(s).pieceId.Some? && LastMove(s).pieceId.value in s.pieces {
      PawnLetter(s.pieces[LastMove(s).pieceId.value]);
    }
  }

  /** The suffix of a sequence from index `i` on. */
  function From<T>(ms: seq<T>, i: nat): seq<T>
    requires i <= |ms|
  {
    ms[i..]
  }

  /** `e` occurs in `ms` as a contiguous run. */
  predicate IsRun<T(==)>(ms: seq<T>, e: seq<T>)
  {
    exists i: nat :: i + |e| <= |ms| && From(ms, i)[..|e|] == e
  }

  /**
   * An enemy piece on a diagonal square ahead is taken: the list holds the
   * capture's four promotions as one contiguous run when the pawn is about to
   * promote, and the capture itself otherwise.
   */
  lemma CaptureOffered(s: GameState, p: Piece, endCol: int)
    requires PawnReady(s, p) && (endCol == p.col - 1 || endCol == p.col + 1) && 0 <= endCol < Cols(s)
    requires Hostile(s, p.side, p.row + Direction(p.side), endCol)
    ensures Promotes(s, p) ==> IsRun(PawnList(s, p), Promoting(StepTo(s, p, p.row + Direction(p.side), endCol)))
    ensures !Promotes(s, p) ==> StepTo(s, p, p.row + Direction(p.side), endCol) in PawnList(s, p)
  {
    var m := StepTo(s, p, p.row + Direction(p.side), endCol);
    CaptureRun(s, p, endCol);
    assert Expand(s, p, m) == if Promotes(s, p) then Promoting(m) else [m];
  }

  /** With an enemy diagonally ahead, the capture's moves form a run of the pawn's list. */
  lemma CaptureRun(s: GameState, p: Piece, endCol: int)
    requires PawnReady(s, p) && (endCol == p.col - 1 || endCol == p.col + 1) && 0 <= endCol < Cols(s)
    requires Hostile(s, p.side, p.row + Direction(p.side), endCol)
    ensures var e := Expand(s, p, StepTo(s, p, p.row + Direction(p.side), endCol));
      IsRun(PawnList(s, p), e) && forall x :: x in e ==> x in PawnList(s, p)
  {
    var e := Expand(s, p, StepTo(s, p, p.row + Direction(p.side), endCol));
    DiagonalOpens(s, p, endCol);
    if endCol == p.col - 1 {
      assert PawnList(s, p) == Pushes(s, p) + Diagonal(s, p, endCol) + Diagonal(s, p, p.col + 1);
      RunInThree(Pushes(s, p), Diagonal(s, p, endCol), Diagonal(s, p, p.col + 1), e, true);
    } else {
      assert PawnList(s, p) == Pushes(s, p) + Diagonal(s, p, p.col - 1) + Diagonal(s, p, endCol);
      RunInThree(Pushes(s, p), Diagonal(s, p, p.col - 1), Diagonal(s, p, endCol), e, false);
    }
  }

  /** With an enemy diagonally ahead, the diagonal's moves open with the capture's run. */
  lemma DiagonalOpens(s: GameState, p: Piece, endCol: int)
    requires PawnReady(s, p) && (endCol == p.col - 1 || endCol == p.col + 1) && 0 <= endCol < Cols(s)
    requires Hostile(s, p.side, p.row + Direction(p.side), endCol)
    ensures var e := Expand(s, p, StepTo(s, p, p.row + Direction(p.side), endCol));
      |e| <= |Diagonal(s, p, endCol)| && Diagonal(s, p, endCol)[..|e|] == e
  {
  }

  /** A prefix of the middle or the last part of a concatenation of three is a run of the whole. */
  lemma RunInThree<T>(a: seq<T>, b: seq<T>, c: seq<T>, e: seq<T>, middle: bool)
    requires var d := if middle then b else c; |e| <= |d| && d[..|e|] == e
    ensures IsRun(a + b + c, e)
    ensures forall x :: x in e ==> x in a + b + c
  {
    var ms := a + b + c;
    var i := if middle then |a| else |a| + |b|;
    assert forall k :: 0 <= k < |e| ==> ms[i + k] == e[k];
    assert From(ms, i)[..|e|] == e;
  }

  /**
   * When the last move was a pawn's two-row move that ended beside the pawn,
   * the list holds the en passant move that takes it.
   */
  lemma EnPassantOffered(s: GameState, p: Piece, endCol: int)
    requires PawnReady(s, p) && (endCol == p.col - 1 || endCol == p.col + 1) && 0 <= endCol < Cols(s)
    requires EnPassantDue(s, p, endCol)
    ensures Move(Some(p.id), p.row, p.col, p.row + Direction(p.side), endCol, pieceTaken := LastMove(s).pieceId)
      in PawnList(s, p)
  {
    var ep := Move(Some(p.id), p.row, p.col, p.row + Direction(p.side), endCol, pieceTaken := LastMove(s).pieceId);
    assert ep in Diagonal(s, p, endCol);
    InLatterParts(Pushes(s, p), Diagonal(s, p, p.col - 1), Diagonal(s, p, p.col + 1), ep);
  }

  /** An element of the middle or the last part of a concatenation of three is an element of the whole. */
  lemma InLatterParts<T>(a: seq<T>, b: seq<T>, c: seq<T>, x: T)
    requires x in b || x in c
    ensures x in a + b + c
  {
  }

  /**
   * The pawn moves to a neighbouring column exactly when an enemy piece stands
   * diagonally ahead there or en passant towards it is due.
   */
  lemma DiagonalOffered(s: GameState, p: Piece, endCol: int)
    requires PawnReady(s, p) && (endCol == p.col - 1 || endCol == p.col + 1) && 0 <= endCol < Cols(s)
    ensures (exists m :: m in PawnList(s, p) && m.endCol == endCol) <==>
      Hostile(s, p.side, p.row + Direction(p.side), endCol) || EnPassantDue(s, p, endCol)
  {
    if m :| m in PawnList(s, p) && m.endCol == endCol {
      DiagonalMoveDue(s, p, endCol, m);
    }
    if Hostile(s, p.side, p.row + Direction(p.side), endCol) || EnPassantDue(s, p, endCol) {
      var m := DiagonalMoveOffered(s, p, endCol);
    }
  }

  /** A move of the list to a neighbouring column is a capture there or a due en passant. */
  lemma DiagonalMoveDue(s: GameState, p: Piece, endCol: int, m: Move)
    requires PawnReady(s, p) && (endCol == p.col - 1 || endCol == p.col + 1) && 0 <= endCol < Cols(s)
    requires m in PawnList(s, p) && m.endCol == endCol
    ensures Hostile(s, p.side, p.row + Direction(p.side), endCol) || EnPassantDue(s, p, endCol)
  {
    OffColumnIsDiagonal(s, p, m);
    DiagonalShape(s, p, endCol, m);
  }

  /** A capture there or a due en passant puts a move to that column in the list. */
  lemma DiagonalMoveOffered(s: GameState, p: Piece, endCol: int) returns (m: Move)
    requires PawnReady(s, p) && (endCol == p.col - 1 || endCol == p.col + 1) && 0 <= endCol < Cols(s)
    requires Hostile(s, p.side, p.row + Direction(p.side), endCol) || EnPassantDue(s, p, endCol)
    ensures m in PawnList(s, p) && m.endCol == endCol
  {
    if Hostile(s, p.side, p.row + Direction(p.side), endCol) {
      CaptureRun(s, p, endCol);
      var e := Expand(s, p, StepTo(s, p, p.row + Direction(p.side), endCol));
      assert |e| > 0 && e[0].endCol == endCol;
      m := e[0];
    } else {
      EnPassantOffered(s, p, endCol);
      m := Move(Some(p.id), p.row, p.col, p.row + Direction(p.side), endCol, pieceTaken := LastMove(s).pieceId);
    }
  }

  // ---------------------------------------------------------------------------
  // King
  // ---------------------------------------------------------------------------

  /**
   * The king's eight steps in the order the class lists them: the row above,
   * the row below, then the two sides.
   */
  const KingSteps: seq<(int, int)> := [(-1, 0), (-1, -1), (-1, 1), (1, 0), (1, -1), (1, 1), (0, -1), (0, 1)]

  /**
   * The class's bound tests for a step: it may go up from row 1, left from
   * column 1, and down or right only from row or column 6 at most, which are
   * the limits of an 8 by 8 board whatever the size of the board.
   */
  predicate KingAllows(p: Piece, d: (int, int))
  {
    && (d.0 == -1 ==> p.row >= 1) && (d.0 == 1 ==> p.row <= 6)
    && (d.1 == -1 ==> p.col >= 1) && (d.1 == 1 ==> p.col <= 6)
  }

  /** The squares of the steps the bound tests allow, in order. */
  function KingTargets(p: Piece, steps: seq<(int, int)>): seq<(int, int)>
  {
    if steps == [] then []
    else
      (if KingAllows(p, steps[0]) then [(p.row + steps[0].0, p.col + steps[0].1)] else [])
      + KingTargets(p, steps[1..])
  }

  function KingSquares(p: Piece): seq<(int, int)>
  {
    KingTargets(p, KingSteps)
  }

  /**
   * What the king generator reads without failing: the bound tests stop at
   * row and column 7, so the board must reach that far wherever the king may
   * step down or right.
   */
  predicate KingReady(s: GameState, p: Piece)
  {
    && Readable(s) && OnBoard(s, p.row, p.col)
    && (p.row <= 6 ==> p.row + 1 < Rows(s))
    && (p.col <= 6 ==> p.col + 1 < Cols(s))
  }

  lemma {:induction false} KingTargetsOnBoard(s: GameState, p: Piece, steps: seq<(int, int)>)
    requires KingReady(s, p) && forall i :: 0 <= i < |steps| ==> Unit(steps[i])
    ensures AllOnBoard(s, KingTargets(p, steps))
  {
    if steps != [] {
      KingTargetsOnBoard(s, p, steps[1..]);
    }
  }

  lemma {:induction false} KingTargetsHold(p: Piece, steps: seq<(int, int)>, r: int, c: int)
    ensures (r, c) in KingTargets(p, steps) <==> (r - p.row, c - p.col) in steps && KingAllows(p, (r - p.row, c - p.col))
  {
    if steps != [] {
      KingTargetsHold(p, steps[1..], r, c);
    }
  }

  /** The king's candidate squares are on the board. */
  lemma KingSquaresOnBoard(s: GameState, p: Piece)
    requires KingReady(s, p)
    ensures AllOnBoard(s, KingSquares(p))
  {
    KingTargetsOnBoard(s, p, KingSteps);
  }

  /**
   * The king lists exactly the squares one step away that its bound tests
   * allow; on an 8 by 8 board those are the adjacent squares on the board.
   */
  lemma KingSquaresExact(s: GameState, p: Piece, r: int, c: int)
    requires KingReady(s, p)
    ensures (r, c) in KingSquares(p) <==>
      Max(Abs(r - p.row), Abs(c - p.col)) == 1 && KingAllows(p, (r - p.row, c - p.col))
    ensures Rows(s) == 8 && Cols(s) == 8 ==>
      ((r, c) in KingSquares(p) <==> Max(Abs(r - p.row), Abs(c - p.col)) == 1 && OnBoard(s, r, c))
  {
    KingTargetsHold(p, KingSteps, r, c);
  }

  /** On a board wider than eight columns a king on column 7 never steps to the right. */
  lemma KingHeldAtColumn7(s: GameState, p: Piece, r: int)
    requires KingReady(s, p) && p.col == 7
    ensures (r, 8) !in KingSquares(p)
  {
    KingTargetsHold(p, KingSteps, r, 8);
  }

  /** Every square strictly between columns a and b of the row is empty. */
  predicate ClearBetween(s: GameState, row: int, a: int, b: int)
    requires WellShaped(s) && 0 <= row < Rows(s) && 0 <= a < Cols(s) && 0 <= b < Cols(s)
  {
    forall col :: Min(a, b) < col < Max(a, b) ==> At(s, row, col) == None
  }

  /**
   * Castling with the piece in the corner `rookCol`, when nothing stands
   * between: the king moves two squares towards the corner, and the move
   * carries the rook's own move to the square the king passes over. The rook
   * move takes its id from the corner cell, which may be empty, and nothing
   * checks that a rook stands there or that any square is attacked.
   */
  function CastleTowards(s: GameState, p: Piece, rookCol: int): seq<Move>
    requires KingReady(s, p) && 0 <= rookCol < Cols(s)
  {
    if ClearBetween(s, p.row, p.col, rookCol) then
      var kingCol := if rookCol == 0 then p.col - 2 else p.col + 2;
      var rookEnd := if rookCol == 0 then p.col - 1 else p.col + 1;
      [Move(Some(p.id), p.row, p.col, p.row, kingCol,
            castling := Some(Move(At(s, p.row, rookCol), p.row, rookCol, p.row, rookEnd)))]
    else []
  }

  /** The castling moves: none once the king has moved, else towards column 0 and then the last column. */
  function Castlings(s: GameState, p: Piece): seq<Move>
    requires KingReady(s, p)
  {
    if p.hasMoved then []
    else CastleTowards(s, p, 0) + CastleTowards(s, p, Cols(s) - 1)
  }

  /** The king's list: its steps, then its castlings. */
  function KingList(s: GameState, p: Piece): seq<Move>
    requires KingReady(s, p)
  {
    KingSquaresOnBoard(s, p);
    Steps(s, KingSquares(p), p) + Castlings(s, p)
  }

  /** A castling move of the king: two columns along its row, with the rook's move beside it. */
  predicate CastlingShape(s: GameState, p: Piece, m: Move)
    requires KingReady(s, p)
  {
    && FromPiece(p, m) && m.endRow == p.row && m.pieceTaken == None && m.promotion == None
    && m.castling.Some?
    && var rook := m.castling.value;
    && rook.startRow == p.row && rook.endRow == p.row
    && (rook.startCol == 0 || rook.startCol == Cols(s) - 1)
    && rook.pieceId == At(s, p.row, rook.startCol)
    && (if rook.startCol == 0
        then m.endCol == p.col - 2 && rook.endCol == p.col - 1
        else m.endCol == p.col + 2 && rook.endCol == p.col + 1)
    && ClearBetween(s, p.row, p.col, rook.startCol)
    && rook.pieceTaken == None && rook.promotion == None && rook.castling == None
  }

  /** Every castling move has that shape, and the king offers none once it has moved. */
  lemma CastlingMove(s: GameState, p: Piece, m: Move)
    requires KingReady(s, p) && m in Castlings(s, p)
    ensures !p.hasMoved && CastlingShape(s, p, m)
  {
  }

  /**
   * An unmoved king castles towards a corner exactly when nothing stands
   * between it and that corner.
   */
  lemma CastlingOffered(s: GameState, p: Piece, rookCol: int)
    requires KingReady(s, p) && (rookCol == 0 || rookCol == Cols(s) - 1)
    ensures (exists m :: m in Castlings(s, p) && m.castling.Some? && m.castling.value.startCol == rookCol) <==>
      !p.hasMoved && ClearBetween(s, p.row, p.col, rookCol)
  {
    if !p.hasMoved && ClearBetween(s, p.row, p.col, rookCol) {
      var m := CastleTowards(s, p, rookCol)[0];
      assert m in Castlings(s, p);
    }
  }

  /** A step of the king goes to an adjacent square that holds no friend and takes what stands there. */
  lemma KingStep(s: GameState, p: Piece, m: Move)
    requires KingReady(s, p) && m in KingList(s, p) && m.castling == None
    ensures EmittedBy(p, m) && Distance(p, m) == 1
    ensures OnBoard(s, m.endRow, m.endCol) && m.pieceTaken == At(s, m.endRow, m.endCol)
    ensures !Friendly(s, p.side, m.endRow, m.endCol)
  {
    KingSquaresOnBoard(s, p);
    var steps := Steps(s, KingSquares(p), p);
    if m in steps {
      StepMove(s, KingSquares(p), p, m);
      KingSquaresExact(s, p, m.endRow, m.endCol);
    } else {
      CastlingMove(s, p, m);
    }
  }

  /** The king's candidate squares, built as the class builds them. */
  method KingCandidates(p: Piece) returns (squares: seq<(int, int)>)
    ensures squares == KingSquares(p)
  {
    var above, below, beside := [], [], [];
    if p.row >= 1 {
      above := above + [(p.row - 1, p.col)];
      if p.col >= 1 { above := above + [(p.row - 1, p.col - 1)]; }
      if p.col <= 6 { above := above + [(p.row - 1, p.col + 1)]; }
    }
    KingTargetsTriple(p, (-1, 0), (-1, -1), (-1, 1));
    assert above == KingTargets(p, [(-1, 0), (-1, -1), (-1, 1)]);
    if p.row <= 6 {
      below := below + [(p.row + 1, p.col)];
      if p.col >= 1 { below := below + [(p.row + 1, p.col - 1)]; }
      if p.col <= 6 { below := below + [(p.row + 1, p.col + 1)]; }
    }
    KingTargetsTriple(p, (1, 0), (1, -1), (1, 1));
    assert below == KingTargets(p, [(1, 0), (1, -1), (1, 1)]);
    if p.col >= 1 { beside := beside + [(p.row, p.col - 1)]; }
    if p.col <= 6 { beside := beside + [(p.row, p.col + 1)]; }
    KingTargetsPair(p, (0, -1), (0, 1));
    assert beside == KingTargets(p, [(0, -1), (0, 1)]);
    KingSquaresInGroups(p);
    squares := above + below + beside;
  }

  /** The king generator: its steps, then, if it has not moved, a pass over the two corners. */
  method KingMoves(s: GameState, p: Piece) returns (ms: seq<Move>)
    requires KingReady(s, p)
    ensures ms == KingList(s, p)
  {
    var squares := KingCandidates(p);
    KingSquaresOnBoard(s, p);
    ms := StepOrTake(s, squares, p);
    ghost var steps := ms;
    if !p.hasMoved {
      var corners := [0, |s.board[0]| - 1];
      for k := 0 to 2
        invariant ms == steps + (if k == 0 then [] else CastleTowards(s, p, 0))
                        + (if k == 2 then CastleTowards(s, p, Cols(s) - 1) else [])
      {
        ms := AddCastling(s, p, ms, corners[k]);
      }
    }
  }

  /** One pass of the castling loop: look for a piece between the king and the corner. */
  method AddCastling(s: GameState, p: Piece, ms: seq<Move>, rookCol: int) returns (r: seq<Move>)
    requires KingReady(s, p) && 0 <= rookCol < Cols(s)
    ensures r == ms + CastleTowards(s, p, rookCol)
  {
    var between := false;
    var lo, hi := Min(p.col, rookCol) + 1, Max(p.col, rookCol);
    var col := lo;
    while col < hi
      invariant lo <= col <= Max(lo, hi)
      invariant between <==> exists c :: lo <= c < col && At(s, p.row, c) != None
    {
      if s.board[p.row][col] != None {
        between := true;
        assert lo <= col < col + 1 && At(s, p.row, col) != None;
      }
      col := col + 1;
    }
    r := ms;
    if !between {
      var kingCol, rookEnd;
      if rookCol == 0 {
        kingCol, rookEnd := p.col - 2, p.col - 1;
      } else {
        kingCol, rookEnd := p.col + 2, p.col + 1;
      }
      r := r + [Move(Some(p.id), p.row, p.col, p.row, kingCol,
                     castling := Some(Move(s.board[p.row][rookCol], p.row, rookCol, p.row, rookEnd)))];
    }
  }

  lemma KingTargetsTriple(p: Piece, x: (int, int), y: (int, int), z: (int, int))
    ensures KingTargets(p, [x, y, z]) ==
      (if KingAllows(p, x) then [(p.row + x.0, p.col + x.1)] else [])
      + (if KingAllows(p, y) then [(p.row + y.0, p.col + y.1)] else [])
      + (if KingAllows(p, z) then [(p.row + z.0, p.col + z.1)] else [])
  {
    assert [x, y, z][0] == x && [x, y, z][1..] == [y, z];
    KingTargetsPair(p, y, z);
  }

  lemma KingTargetsPair(p: Piece, x: (int, int), y: (int, int))
    ensures KingTargets(p, [x, y]) ==
      (if KingAllows(p, x) then [(p.row + x.0, p.col + x.1)] else [])
      + (if KingAllows(p, y) then [(p.row + y.0, p.col + y.1)] else [])
  {
    assert [x, y][0] == x && [x, y][1..] == [y];
    assert KingTargets(p, [y]) ==
      (if KingAllows(p, y) then [(p.row + y.0, p.col + y.1)] else []) + KingTargets(p, []) by {
      assert [y][0] == y && [y][1..] == [];
    }
  }

  lemma {:induction false} KingTargetsAppend(p: Piece, a: seq<(int, int)>, b: seq<(int, int)>)
    ensures KingTargets(p, a + b) == KingTargets(p, a) + KingTargets(p, b)
  {
    if a == [] {
      assert a + b == b;
    } else {
      assert (a + b)[0] == a[0] && (a + b)[1..] == a[1..] + b;
      KingTargetsAppend(p, a[1..], b);
    }
  }

  /** The steps split into the three groups of the class's bound tests. */
  lemma KingSquaresInGroups(p: Piece)
    ensures KingSquares(p) ==
      KingTargets(p, [(-1, 0), (-1, -1), (-1, 1)]) + KingTargets(p, [(1, 0), (1, -1), (1, 1)])
      + KingTargets(p, [(0, -1), (0, 1)])
  {
    var above, below, beside := [(-1, 0), (-1, -1), (-1, 1)], [(1, 0), (1, -1), (1, 1)], [(0, -1), (0, 1)];
    assert KingSteps == above + below + beside;
    KingTargetsAppend(p, above, below);
    KingTargetsAppend(p, above + below, beside);
  }

  // ---------------------------------------------------------------------------
  // Dispatch on the class of the piece
  // ---------------------------------------------------------------------------

  /** What the generator of the piece's class reads without failing. */
  predicate Ready(s: GameState, p: Piece)
  {
    match p.kind
    case Pawn => PawnReady(s, p)
    case King => KingReady(s, p)
    case _ => Readable(s) && OnBoard(s, p.row, p.col)
  }

  /** `get_possible_moves` of the piece's class. */
  function PieceMoves(s: GameState, p: Piece): seq<Move>
    requires Ready(s, p)
  {
    DirsAreUnits();
    match p.kind
    case Rook => Slides(s, p, RookDirs)
    case Bishop => Slides(s, p, BishopDirs)
    case Queen => Slides(s, p, QueenDirs)
    case Knight => Steps(s, KnightSquares(s, p), p)
    case Pawn => PawnList(s, p)
    case King => KingList(s, p)
  }

  /** Calls the generator of the piece's class. */
  method GetPossibleMoves(s: GameState, p: Piece) returns (ms: seq<Move>)
    requires Ready(s, p)
    ensures ms == PieceMoves(s, p)
  {
    match p.kind {
      case Rook => ms := RookMoves(s, p);
      case Bishop => ms := BishopMoves(s, p);
      case Queen => ms := QueenMoves(s, p);
      case Knight => ms := KnightMoves(s, p);
      case Pawn => ms := PawnMoves(s, p);
      case King => ms := KingMoves(s, p);
    }
  }

  /**
   * Every generated move is a move of the piece from its own square. Only a
   * pawn promotes and only a king castles; every other move lands on the
   * board, and a move that is neither castling nor en passant takes exactly
   * what stands on its target square, which is never a friend.
   */
  lemma PieceMove(s: GameState, p: Piece, m: Move)
    requires Ready(s, p) && m in PieceMoves(s, p)
    ensures FromPiece(p, m)
    ensures m.promotion.Some? ==> p.kind == Pawn
    ensures m.castling.Some? ==> p.kind == King
    ensures m.castling == None ==> OnBoard(s, m.endRow, m.endCol)
    ensures p.kind != Pawn && m.castling == None ==>
      m.pieceTaken == At(s, m.endRow, m.endCol) && !Friendly(s, p.side, m.endRow, m.endCol)
  {
    DirsAreUnits();
    match p.kind
    case Rook => SlideMove(s, p, RookDirs, m);
    case Bishop => SlideMove(s, p, BishopDirs, m);
    case Queen => SlideMove(s, p, QueenDirs, m);
    case Knight =>
      StepMove(s, KnightSquares(s, p), p, m);
    case Pawn =>
      PawnMoveShape(s, p, m);
    case King =>
      KingSquaresOnBoard(s, p);
      if m in Steps(s, KingSquares(p), p) {
        StepMove(s, KingSquares(p), p, m);
      } else {
        CastlingMove(s, p, m);
      }
  }
}
