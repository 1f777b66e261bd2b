/**
 * Reading a move typed by the player. `choose_move` decodes the destination
 * from the last two characters, keeps the generated moves of the side to move
 * whose piece letter matches the first character, and settles ambiguity with
 * the second character of a four-character input. `convert_input_to_move`
 * reads a start and an end square from four characters.
 */
module Notation {
  import opened Wrappers
  import opened Chess
  import opened Pieces
  import opened AllMoves

  /** Column letters and row digits of an 8 by 8 board, by index. */
  const ColumnLetters: string := "abcdefgh"
  const RowNumbers: string := "87654321"

  /** Why reading the input raises instead of returning. */
  datatype NotationError =
    | MissingCharacter(index: int)  // an `IndexError` on the input text
    | UnknownColumn(c: char)        // `index` of a character not among the column letters
    | UnknownRow(c: char)           // `index` of a character not among the row digits
    | Ambiguous                     // several moves match and the input is not four characters long
    | NoMoveFromColumn              // the start column given matches none of them
    | NoMoveFromRow                 // the start row given matches none of them
    | UnknownHint                   // the second character is neither a column letter nor a row digit
    | OffBoard(row: int, col: int)  // an `IndexError` on the grid
    | EmptySquare(row: int, col: int) // the start cell holds no piece

  /** The first position of `c` in `text`, as `str.index` finds it. */
  function IndexOf(text: string, c: char): (r: Option<nat>)
    ensures r.Some? ==> r.value < |text| && text[r.value] == c && c !in text[..r.value]
    ensures r.None? ==> c !in text
  {
    if text == [] then None
    else if text[0] == c then Some(0)
    else match IndexOf(text[1..], c)
      case None => None
      case Some(i) =>
        assert text[..i + 1] == [text[0]] + text[1..][..i];
        Some(i + 1)
  }

  /** Python indexing of a string: a negative index counts from the end. */
  function CharAt(text: string, i: int): (r: Result<char, NotationError>)
    ensures r.Success? <==> -|text| <= i < |text|
    ensures 0 <= i < |text| ==> r == Success(text[i])
  {
    if 0 <= i < |text| then Success(text[i])
    else if -|text| <= i < 0 then Success(text[i + |text|])
    else Failure(MissingCharacter(i))
  }

  function ColumnOf(c: char): (r: Result<nat, NotationError>)
    ensures r.Success? ==> r.value < 8 && ColumnLetters[r.value] == c
    ensures r.Failure? <==> c !in ColumnLetters
  {
    match IndexOf(ColumnLetters, c)
    case None => Failure(UnknownColumn(c))
    case Some(i) => Success(i)
  }

  function RowOf(c: char): (r: Result<nat, NotationError>)
    ensures r.Success? ==> r.value < 8 && RowNumbers[r.value] == c
    ensures r.Failure? <==> c !in RowNumbers
  {
    match IndexOf(RowNumbers, c)
    case None => Failure(UnknownRow(c))
    case Some(i) => Success(i)
  }

  /** The square named by the column letter at index `i` of the input and the row digit after it. */
  function SquareAt(input: string, i: int): Result<(nat, nat), NotationError>
  {
    var a :- CharAt(input, i);
    var col :- ColumnOf(a);
    var b :- CharAt(input, i + 1);
    var row :- RowOf(b);
    Success((row, col))
  }

  /** The destination (row, column) read from the last two characters of the input. */
  function Destination(input: string): Result<(nat, nat), NotationError>
  {
    SquareAt(input, |input| - 2)
  }

  /** The two characters naming a square of an 8 by 8 board. */
  function SquareName(row: int, col: int): string
    requires 0 <= row < 8 && 0 <= col < 8
  {
    [ColumnLetters[col], RowNumbers[row]]
  }

  /** Column letters run up from 'a', row digits down from '8'. */
  lemma LabelsByIndex()
    ensures forall i :: 0 <= i < 8 ==> ColumnLetters[i] as int == 'a' as int + i
    ensures forall i :: 0 <= i < 8 ==> RowNumbers[i] as int == '8' as int - i
  {
  }

  /** Each column letter and row digit reads back as its own index. */
  lemma LabelsDecode(row: int, col: int)
    requires 0 <= row < 8 && 0 <= col < 8
    ensures ColumnOf(ColumnLetters[col]) == Success(col)
    ensures RowOf(RowNumbers[row]) == Success(row)
  {
    LabelsByIndex();
  }

  /** A square name at index `i` of the input reads back as that square. */
  lemma SquareNameReads(input: string, i: nat, row: int, col: int)
    requires i + 1 < |input| && 0 <= row < 8 && 0 <= col < 8
    requires input[i] == ColumnLetters[col] && input[i + 1] == RowNumbers[row]
    ensures SquareAt(input, i) == Success((row, col))
  {
    LabelsDecode(row, col);
  }

  /** A square read at a non-negative index `i` is named by the two characters there. */
  lemma SquareReadIsName(input: string, i: nat)
    requires SquareAt(input, i).Success?
    ensures var (row, col) := SquareAt(input, i).value;
      && i + 1 < |input| && 0 <= row < 8 && 0 <= col < 8
      && input[i] == ColumnLetters[col] && input[i + 1] == RowNumbers[row]
  {
  }

  /** A piece letter followed by a square name reads back as that square. */
  lemma DestinationOfSquare(prefix: string, row: int, col: int)
    requires 0 <= row < 8 && 0 <= col < 8
    ensures Destination(prefix + SquareName(row, col)) == Success((row, col))
  {
    var input := prefix + SquareName(row, col);
    SquareNameReads(input, |input| - 2, row, col);
  }

  // ---------------------------------------------------------------------------
  // The candidates for an input
  // ---------------------------------------------------------------------------

  /** The piece prints as the letter `c`, ignoring case. */
  predicate Tagged(p: Piece, c: char)
  {
    Upper(Tag(p)) == Upper(c)
  }

  /** The ids below `n` of the live pieces of the side to move that print as `c`, in id order. */
  function TaggedIds(s: GameState, c: char, n: nat): seq<Id>
  {
    if n == 0 then []
    else
      var more := if Plays(s, s.turn, n - 1) && Tagged(s.pieces[n - 1], c) then [n - 1] else [];
      TaggedIds(s, c, n - 1) + more
  }

  /** An id is listed exactly when it is below `n` and names a live piece of the side to move printing as `c`. */
  lemma {:induction false} TaggedIdsHas(s: GameState, c: char, n: nat, id: int)
    ensures id in TaggedIds(s, c, n) <==> 0 <= id < n && Plays(s, s.turn, id) && Tagged(s.pieces[id], c)
  {
    if n > 0 {
      TaggedIdsHas(s, c, n - 1, id);
    }
  }

  /** Every listed id names a live piece of the side to move. */
  lemma TaggedIdsPlay(s: GameState, c: char, n: nat)
    ensures forall i :: 0 <= i < |TaggedIds(s, c, n)| ==> Plays(s, s.turn, TaggedIds(s, c, n)[i])
  {
    forall i | 0 <= i < |TaggedIds(s, c, n)|
      ensures Plays(s, s.turn, TaggedIds(s, c, n)[i])
    {
      TaggedIdsHas(s, c, n, TaggedIds(s, c, n)[i]);
    }
  }

  /** Every id of the list has a move list. */
  predicate AllListed(lists: map<Id, seq<Move>>, ids: seq<Id>)
  {
    forall i :: 0 <= i < |ids| ==> ids[i] in lists
  }

  /** The move lists of the ids, concatenated in list order. */
  function Gathered(lists: map<Id, seq<Move>>, ids: seq<Id>): seq<Move>
    requires AllListed(lists, ids)
  {
    if ids == [] then []
    else Gathered(lists, ids[..|ids| - 1]) + lists[ids[|ids| - 1]]
  }

  /** A move is gathered exactly when it is on the list of one of the ids. */
  lemma {:induction false} GatheredHas(lists: map<Id, seq<Move>>, ids: seq<Id>, m: Move)
    requires AllListed(lists, ids)
    ensures m in Gathered(lists, ids) <==> exists i :: 0 <= i < |ids| && m in lists[ids[i]]
    decreases |ids|
  {
    if ids != [] {
      var init := ids[..|ids| - 1];
      GatheredHas(lists, init, m);
      if exists i :: 0 <= i < |ids| && m in lists[ids[i]] {
        var i :| 0 <= i < |ids| && m in lists[ids[i]];
        if i < |ids| - 1 {
          assert init[i] == ids[i];
        }
      }
      if exists i :: 0 <= i < |init| && m in lists[init[i]] {
        var i :| 0 <= i < |init| && m in lists[init[i]];
        assert ids[i] == init[i];
      }
    }
  }

  /** The moves of the list that end on (row, col), in list order. */
  function Arriving(ms: seq<Move>, row: int, col: int): seq<Move>
  {
    if ms == [] then []
    else
      var m := ms[|ms| - 1];
      Arriving(ms[..|ms| - 1], row, col) + (if m.endRow == row && m.endCol == col then [m] else [])
  }

  /** A move is kept exactly when it is in the list and ends on (row, col). */
  lemma {:induction false} ArrivingHas(ms: seq<Move>, row: int, col: int, m: Move)
    ensures m in Arriving(ms, row, col) <==> m in ms && m.endRow == row && m.endCol == col
    decreases |ms|
  {
    if ms != [] {
      ArrivingHas(ms[..|ms| - 1], row, col, m);
      assert ms == ms[..|ms| - 1] + [ms[|ms| - 1]];
    }
  }

  /** A table of move lists for exactly the live pieces of the side to move. */
  ghost predicate TableOf(s: GameState, lists: map<Id, seq<Move>>)
  {
    forall id :: id in lists <==> Plays(s, s.turn, id)
  }

  /**
   * The moves `choose_move` picks from: those of the pieces of the side to
   * move printing as `c` that end on (row, col), piece by piece in id order.
   */
  function Candidates(s: GameState, lists: map<Id, seq<Move>>, c: char, row: int, col: int): seq<Move>
    requires TableOf(s, lists)
  {
    TaggedIdsPlay(s, c, s.nextId);
    Arriving(Gathered(lists, TaggedIds(s, c, s.nextId)), row, col)
  }

  /**
   * With every id issued by the counter, the candidates are exactly the moves
   * ending on (row, col) that the generator gives a live piece of the side to
   * move whose letter is `c`, in either case.
   */
  lemma CandidatesHas(s: GameState, lists: map<Id, seq<Move>>, c: char, row: int, col: int, m: Move)
    requires TableOf(s, lists) && IdsIssued(s)
    ensures m in Candidates(s, lists, c, row, col) <==>
      && m.endRow == row && m.endCol == col
      && exists id :: id in lists && KindLetter(s.pieces[id].kind) == Upper(c) && m in lists[id]
  {
    var ids := TaggedIds(s, c, s.nextId);
    TaggedIdsPlay(s, c, s.nextId);
    ArrivingHas(Gathered(lists, ids), row, col, m);
    GatheredHas(lists, ids, m);
    if exists i :: 0 <= i < |ids| && m in lists[ids[i]] {
      var i :| 0 <= i < |ids| && m in lists[ids[i]];
      TaggedIdsHas(s, c, s.nextId, ids[i]);
    }
    if exists id :: id in lists && KindLetter(s.pieces[id].kind) == Upper(c) && m in lists[id] {
      var id :| id in lists && KindLetter(s.pieces[id].kind) == Upper(c) && m in lists[id];
      TaggedIdsHas(s, c, s.nextId, id);
      var i :| 0 <= i < |ids| && ids[i] == id;
    }
  }

  // ---------------------------------------------------------------------------
  // Disambiguation
  // ---------------------------------------------------------------------------

  /** The move starts on column `k` (by column) or on row `k` (by row). */
  predicate StartsOn(m: Move, byColumn: bool, k: int)
  {
    if byColumn then m.startCol == k else m.startRow == k
  }

  /** The first move of the list that starts on line `k`. */
  function FirstStarting(ms: seq<Move>, byColumn: bool, k: int): Option<Move>
  {
    if ms == [] then None
    else if StartsOn(ms[0], byColumn, k) then Some(ms[0])
    else FirstStarting(ms[1..], byColumn, k)
  }

  /**
   * The search finds the earliest move starting on line `k`, and finds
   * nothing exactly when no move of the list starts there.
   */
  lemma {:induction false} FirstStartingFinds(ms: seq<Move>, byColumn: bool, k: int)
    ensures FirstStarting(ms, byColumn, k).None? <==> forall i :: 0 <= i < |ms| ==> !StartsOn(ms[i], byColumn, k)
    ensures FirstStarting(ms, byColumn, k).Some? ==>
      exists i :: 0 <= i < |ms| && ms[i] == FirstStarting(ms, byColumn, k).value && StartsOn(ms[i], byColumn, k)
        && forall j :: 0 <= j < i ==> !StartsOn(ms[j], byColumn, k)
  {
    if ms != [] && !StartsOn(ms[0], byColumn, k) {
      FirstStartingFinds(ms[1..], byColumn, k);
      assert forall i :: 0 < i < |ms| ==> ms[1..][i - 1] == ms[i];
      if FirstStarting(ms, byColumn, k).Some? {
        var i :| 0 <= i < |ms[1..]| && ms[1..][i] == FirstStarting(ms, byColumn, k).value && StartsOn(ms[1..][i], byColumn, k)
          && forall j :: 0 <= j < i ==> !StartsOn(ms[1..][j], byColumn, k);
        assert ms[i + 1] == ms[1..][i];
      }
    } else if ms != [] {
      assert 0 <= 0 < |ms|;
    }
  }

  /** The loops of `choose_move` that return the first move starting on the given line. */
  method FirstStartingOn(ms: seq<Move>, byColumn: bool, k: int) returns (r: Option<Move>)
    ensures r == FirstStarting(ms, byColumn, k)
  {
    for i := 0 to |ms|
      invariant FirstStarting(ms, byColumn, k) == FirstStarting(ms[i..], byColumn, k)
    {
      assert ms[i..][1..] == ms[i + 1..];
      if (byColumn && ms[i].startCol == k) || (!byColumn && ms[i].startRow == k) {
        return Some(ms[i]);
      }
    }
    return None;
  }

  // ---------------------------------------------------------------------------
  // choose_move
  // ---------------------------------------------------------------------------

  /**
   * How `choose_move` settles on one of the candidates `ms`: the only one, the
   * first one starting on the line that the second character of a
   * four-character input names, no move when there are none, or an error.
   */
  function Picked(ms: seq<Move>, input: string): Result<Option<Move>, NotationError>
  {
    if |ms| == 1 then Success(Some(ms[0]))
    else if |ms| > 1 then
      if |input| == 4 then
        if input[1] in ColumnLetters then
          match FirstStarting(ms, true, IndexOf(ColumnLetters, input[1]).value)
          case Some(m) => Success(Some(m))
          case None => Failure(NoMoveFromColumn)
        else if input[1] in RowNumbers then
          match FirstStarting(ms, false, IndexOf(RowNumbers, input[1]).value)
          case Some(m) => Success(Some(m))
          case None => Failure(NoMoveFromRow)
        else Failure(UnknownHint)
      else Failure(Ambiguous)
    else Success(None)
  }

  /**
   * No move is picked exactly when there is no candidate; a picked move is a
   * candidate; a lone candidate is picked; several candidates without a hint
   * are an error.
   */
  lemma PickedFacts(ms: seq<Move>, input: string, m: Move)
    ensures Picked(ms, input) == Success(None) <==> ms == []
    ensures Picked(ms, input) == Success(Some(m)) ==> m in ms
    ensures |ms| == 1 ==> Picked(ms, input) == Success(Some(ms[0]))
    ensures |ms| > 1 && |input| != 4 ==> Picked(ms, input) == Failure(Ambiguous)
  {
    if |ms| > 1 && |input| == 4 {
      if input[1] in ColumnLetters {
        FirstStartingFinds(ms, true, IndexOf(ColumnLetters, input[1]).value);
      } else if input[1] in RowNumbers {
        FirstStartingFinds(ms, false, IndexOf(RowNumbers, input[1]).value);
      }
    }
  }

  /**
   * With several candidates and a column letter as second character of a
   * four-character input, the pick is the earliest candidate starting on that
   * column, and the input is refused exactly when none starts there.
   */
  lemma PickedByColumn(ms: seq<Move>, input: string)
    requires |ms| > 1 && |input| == 4 && input[1] in ColumnLetters
    ensures Picked(ms, input).Failure? <==> forall i :: 0 <= i < |ms| ==> ColumnOf(input[1]) != Success(ms[i].startCol)
    ensures Picked(ms, input).Failure? ==> Picked(ms, input).error == NoMoveFromColumn
    ensures Picked(ms, input).Success? ==>
      exists i :: 0 <= i < |ms| && Picked(ms, input) == Success(Some(ms[i])) && ColumnOf(input[1]) == Success(ms[i].startCol)
        && forall j :: 0 <= j < i ==> ColumnOf(input[1]) != Success(ms[j].startCol)
  {
    FirstStartingFinds(ms, true, IndexOf(ColumnLetters, input[1]).value);
  }

  /** The same with a row digit as second character, when it is not also a column letter. */
  lemma PickedByRow(ms: seq<Move>, input: string)
    requires |ms| > 1 && |input| == 4 && input[1] !in ColumnLetters && input[1] in RowNumbers
    ensures Picked(ms, input).Failure? <==> forall i :: 0 <= i < |ms| ==> RowOf(input[1]) != Success(ms[i].startRow)
    ensures Picked(ms, input).Failure? ==> Picked(ms, input).error == NoMoveFromRow
    ensures Picked(ms, input).Success? ==>
      exists i :: 0 <= i < |ms| && Picked(ms, input) == Success(Some(ms[i])) && RowOf(input[1]) == Success(ms[i].startRow)
        && forall j :: 0 <= j < i ==> RowOf(input[1]) != Success(ms[j].startRow)
  {
    FirstStartingFinds(ms, false, IndexOf(RowNumbers, input[1]).value);
  }

  /** Any other second character with several candidates is refused. */
  lemma PickedUnknownHint(ms: seq<Move>, input: string)
    requires |ms| > 1 && |input| == 4
    ensures Picked(ms, input) == Failure(UnknownHint) <==> input[1] !in ColumnLetters && input[1] !in RowNumbers
  {
  }

  /** What `choose_move` returns: a move, no move, or the error it raises. */
  function Chosen(s: GameState, lists: map<Id, seq<Move>>, input: string): Result<Option<Move>, NotationError>
    requires TableOf(s, lists)
  {
    var d :- Destination(input);
    assert |input| > 0;
    Picked(Candidates(s, lists, input[0], d.0, d.1), input)
  }

  /**
   * A chosen move ends on the square the last two characters name and is one
   * of the generated moves of a live piece of the side to move whose letter is
   * the first character, in either case.
   */
  lemma ChosenIsGenerated(s: GameState, lists: map<Id, seq<Move>>, input: string, m: Move)
    requires TableOf(s, lists) && IdsIssued(s) && Chosen(s, lists, input) == Success(Some(m))
    ensures Destination(input).Success? && Destination(input).value.0 == m.endRow && Destination(input).value.1 == m.endCol
    ensures exists id :: id in lists && KindLetter(s.pieces[id].kind) == Upper(input[0]) && m in lists[id]
  {
    var d := Destination(input).value;
    PickedFacts(Candidates(s, lists, input[0], d.0, d.1), input, m);
    CandidatesHas(s, lists, input[0], d.0, d.1, m);
  }

  /**
   * `choose_move` returns no move exactly when the destination reads and no
   * generated move of a piece of the side to move with the given letter ends
   * there.
   */
  lemma ChosenNone(s: GameState, lists: map<Id, seq<Move>>, input: string)
    requires TableOf(s, lists) && IdsIssued(s)
    ensures Chosen(s, lists, input) == Success(None) <==>
      && Destination(input).Success?
      && forall id, m :: id in lists && KindLetter(s.pieces[id].kind) == Upper(input[0]) && m in lists[id] ==>
           !(m.endRow == Destination(input).value.0 && m.endCol == Destination(input).value.1)
  {
    if Destination(input).Success? {
      var d := Destination(input).value;
      var ms := Candidates(s, lists, input[0], d.0, d.1);
      PickedFacts(ms, input, Move(None, 0, 0, 0, 0));
      if ms != [] {
        CandidatesHas(s, lists, input[0], d.0, d.1, ms[0]);
      }
      forall id, m | id in lists && KindLetter(s.pieces[id].kind) == Upper(input[0]) && m in lists[id]
          && m.endRow == d.0 && m.endCol == d.1
        ensures ms != []
      {
        CandidatesHas(s, lists, input[0], d.0, d.1, m);
      }
    }
  }

  /** Once the destination reads, `choose_move` picks among the candidates for it. */
  lemma ChosenAmongCandidates(s: GameState, lists: map<Id, seq<Move>>, input: string, row: int, col: int)
    requires TableOf(s, lists) && Destination(input) == Success((row, col))
    ensures |input| > 0 && Chosen(s, lists, input) == Picked(Candidates(s, lists, input[0], row, col), input)
  {
  }

  /** A candidate that alone starts on the column the hint names is picked. */
  lemma PickedAlone(ms: seq<Move>, input: string, m: Move)
    requires |input| == 4 && 0 <= m.startCol < 8 && input[1] == ColumnLetters[m.startCol]
    requires m in ms && forall i :: 0 <= i < |ms| && ms[i].startCol == m.startCol ==> ms[i] == m
    ensures Picked(ms, input) == Success(Some(m))
  {
    LabelsDecode(0, m.startCol);
    if |ms| == 1 {
      assert ms[0] == m;
    } else {
      PickedByColumn(ms, input);
    }
  }

  /** The candidates of a letter all come from pieces of the kind the letter names. */
  lemma CandidateKind(s: GameState, lists: map<Id, seq<Move>>, k: Kind, row: int, col: int, m: Move)
    requires TableOf(s, lists) && IdsIssued(s) && m in Candidates(s, lists, KindLetter(k), row, col)
    ensures m.endRow == row && m.endCol == col
    ensures exists id :: id in lists && s.pieces[id].kind == k && m in lists[id]
  {
    CandidatesHas(s, lists, KindLetter(k), row, col, m);
    var id :| id in lists && KindLetter(s.pieces[id].kind) == Upper(KindLetter(k)) && m in lists[id];
    assert s.pieces[id].kind == k;
  }

  /**
   * Writing a generated move as its piece letter, its start column and its
   * destination square chooses it back, provided no other move of a piece of
   * the same kind goes from that column to that square.
   */
  lemma ChosenByColumn(s: GameState, lists: map<Id, seq<Move>>, id: Id, m: Move)
    requires TableOf(s, lists) && IdsIssued(s)
    requires id in lists && m in lists[id]
    requires 0 <= m.startCol < 8 && 0 <= m.endRow < 8 && 0 <= m.endCol < 8
    requires forall id', m' :: id' in lists && s.pieces[id'].kind == s.pieces[id].kind && m' in lists[id'] ==>
      (m'.endRow == m.endRow && m'.endCol == m.endCol && m'.startCol == m.startCol ==> m' == m)
    ensures Chosen(s, lists, [KindLetter(s.pieces[id].kind), ColumnLetters[m.startCol]] + SquareName(m.endRow, m.endCol)) == Success(Some(m))
  {
    var k := s.pieces[id].kind;
    var input := [KindLetter(k), ColumnLetters[m.startCol]] + SquareName(m.endRow, m.endCol);
    HintedInput(KindLetter(k), m.startCol, m.endRow, m.endCol);
    ChosenAmongCandidates(s, lists, input, m.endRow, m.endCol);
    AloneFromColumn(s, lists, id, m);
    PickedAlone(Candidates(s, lists, KindLetter(k), m.endRow, m.endCol), input, m);
  }

  /** A letter, a column letter and a square name: four characters whose last two read as the square. */
  lemma HintedInput(a: char, startCol: int, endRow: int, endCol: int)
    requires 0 <= startCol < 8 && 0 <= endRow < 8 && 0 <= endCol < 8
    ensures var input := [a, ColumnLetters[startCol]] + SquareName(endRow, endCol);
      |input| == 4 && input[0] == a && input[1] == ColumnLetters[startCol] && Destination(input) == Success((endRow, endCol))
  {
    DestinationOfSquare([a, ColumnLetters[startCol]], endRow, endCol);
  }

  /** Under the premise of `ChosenByColumn`, `m` is the only candidate starting on its column. */
  lemma AloneFromColumn(s: GameState, lists: map<Id, seq<Move>>, id: Id, m: Move)
    requires TableOf(s, lists) && IdsIssued(s)
    requires id in lists && m in lists[id]
    requires forall id', m' :: id' in lists && s.pieces[id'].kind == s.pieces[id].kind && m' in lists[id'] ==>
      (m'.endRow == m.endRow && m'.endCol == m.endCol && m'.startCol == m.startCol ==> m' == m)
    ensures var ms := Candidates(s, lists, KindLetter(s.pieces[id].kind), m.endRow, m.endCol);
      m in ms && forall i :: 0 <= i < |ms| && ms[i].startCol == m.startCol ==> ms[i] == m
  {
    var k := s.pieces[id].kind;
    var ms := Candidates(s, lists, KindLetter(k), m.endRow, m.endCol);
    CandidatesHas(s, lists, KindLetter(k), m.endRow, m.endCol, m);
    forall i | 0 <= i < |ms| && ms[i].startCol == m.startCol
      ensures ms[i] == m
    {
      CandidateKind(s, lists, k, m.endRow, m.endCol, ms[i]);
    }
  }

  // ---------------------------------------------------------------------------
  // convert_input_to_move
  // ---------------------------------------------------------------------------

  /**
   * `convert_input_to_move`: the start and end squares from the first four
   * characters, the id standing on the start square and the id, if any,
   * standing on the end square.
   */
  function ConvertInputToMove(s: GameState, input: string): (r: Result<Move, NotationError>)
    ensures |input| < 4 ==> r.Failure?
    ensures r.Success? ==> r.value.pieceId.Some? && r.value.promotion == None && r.value.castling == None
  {
    var (startRow, startCol) :- SquareAt(input, 0);
    var (endRow, endCol) :- SquareAt(input, 2);
    if !(startRow < |s.board| && startCol < |s.board[startRow]|) then Failure(OffBoard(startRow, startCol))
    else if s.board[startRow][startCol].None? then Failure(EmptySquare(startRow, startCol))
    else if !(endRow < |s.board| && endCol < |s.board[endRow]|) then Failure(OffBoard(endRow, endCol))
    else Success(Move(s.board[startRow][startCol], startRow, startCol, endRow, endCol, pieceTaken := s.board[endRow][endCol]))
  }

  /** A cell of the grid, when (r, c) lies on it. */
  predicate OnGrid(s: GameState, r: int, c: int)
  {
    0 <= r < |s.board| && 0 <= c < |s.board[r]|
  }

  /**
   * A converted move names the squares the first four characters spell, the
   * id on its start square and whatever stands on its end square, and carries
   * no promotion and no castling.
   */
  lemma ConvertedMove(s: GameState, input: string)
    requires ConvertInputToMove(s, input).Success?
    ensures var m := ConvertInputToMove(s, input).value;
      && |input| >= 4
      && 0 <= m.startRow < 8 && 0 <= m.startCol < 8 && 0 <= m.endRow < 8 && 0 <= m.endCol < 8
      && input[..4] == SquareName(m.startRow, m.startCol) + SquareName(m.endRow, m.endCol)
      && OnGrid(s, m.startRow, m.startCol) && OnGrid(s, m.endRow, m.endCol)
      && m.pieceId == s.board[m.startRow][m.startCol] && m.pieceId.Some?
      && m.pieceTaken == s.board[m.endRow][m.endCol]
      && m.promotion == None && m.castling == None
  {
    var start, end := SquareAt(input, 0).value, SquareAt(input, 2).value;
    SquareReadIsName(input, 0);
    SquareReadIsName(input, 2);
    assert ConvertInputToMove(s, input).value
      == Move(s.board[start.0][start.1], start.0, start.1, end.0, end.1, pieceTaken := s.board[end.0][end.1]);
    SpellsSquares(input, start.0, start.1, end.0, end.1);
  }

  /** Four characters that name two squares one after the other. */
  lemma SpellsSquares(input: string, startRow: int, startCol: int, endRow: int, endCol: int)
    requires |input| >= 4 && 0 <= startRow < 8 && 0 <= startCol < 8 && 0 <= endRow < 8 && 0 <= endCol < 8
    requires input[0] == ColumnLetters[startCol] && input[1] == RowNumbers[startRow]
    requires input[2] == ColumnLetters[endCol] && input[3] == RowNumbers[endRow]
    ensures input[..4] == SquareName(startRow, startCol) + SquareName(endRow, endCol)
  {
  }

  /**
   * The other direction: the names of the start and end squares of a move
   * that takes what stands on its end square and does not promote or castle
   * convert back to that move.
   */
  lemma ConvertRoundTrip(s: GameState, m: Move)
    requires 0 <= m.startRow < 8 && 0 <= m.startCol < 8 && 0 <= m.endRow < 8 && 0 <= m.endCol < 8
    requires OnGrid(s, m.startRow, m.startCol) && OnGrid(s, m.endRow, m.endCol)
    requires m.pieceId.Some? && m.pieceId == s.board[m.startRow][m.startCol]
    requires m.pieceTaken == s.board[m.endRow][m.endCol]
    requires m.promotion == None && m.castling == None
    ensures ConvertInputToMove(s, SquareName(m.startRow, m.startCol) + SquareName(m.endRow, m.endCol)) == Success(m)
  {
    var input := SquareName(m.startRow, m.startCol) + SquareName(m.endRow, m.endCol);
    SquareNameReads(input, 0, m.startRow, m.startCol);
    SquareNameReads(input, 2, m.endRow, m.endCol);
  }

  /**
   * On an 8 by 8 board whose grid and piece table agree, every generated move
   * of a piece other than a pawn, castling aside, converts back from the
   * names of its two squares.
   */
  lemma GeneratedMoveConverts(s: GameState, p: Piece, m: Move)
    requires Coherent(s) && Rows(s) == 8 && Cols(s) == 8
    requires p.id in s.pieces && s.pieces[p.id] == p && Ready(s, p) && m in PieceMoves(s, p)
    requires p.kind != Pawn && m.castling == None
    ensures && 0 <= m.startRow < 8 && 0 <= m.startCol < 8 && 0 <= m.endRow < 8 && 0 <= m.endCol < 8
            && ConvertInputToMove(s, SquareName(m.startRow, m.startCol) + SquareName(m.endRow, m.endCol)) == Success(m)
  {
    PieceMove(s, p, m);
    ConvertRoundTrip(s, m);
  }

  /** The list `possible_pieces`: the live pieces of the side to move that print as `c`, in id order. */
  method TaggedPieces(s: GameState, c: char) returns (tagged: seq<Piece>)
    ensures |tagged| == |TaggedIds(s, c, s.nextId)|
    ensures forall k :: 0 <= k < |tagged| ==>
      TaggedIds(s, c, s.nextId)[k] in s.pieces && tagged[k] == s.pieces[TaggedIds(s, c, s.nextId)[k]]
  {
    tagged := [];
    ghost var ids: seq<Id> := [];
    for id := 0 to s.nextId
      invariant ids == TaggedIds(s, c, id) && |tagged| == |ids|
      invariant forall k :: 0 <= k < |ids| ==> ids[k] in s.pieces && tagged[k] == s.pieces[ids[k]]
    {
      if id in s.pieces && s.pieces[id].side == s.turn && Upper(Tag(s.pieces[id])) == Upper(c) {
        tagged := tagged + [s.pieces[id]];
        ids := ids + [id];
      }
    }
  }

  /** The list `possible_moves_with_piece`: the generated moves of the pieces, piece by piece. */
  method MovesWithPieces(s: GameState, tagged: seq<Piece>, ghost ids: seq<Id>) returns (ms: seq<Move>)
    requires SideReady(s, s.turn) && |tagged| == |ids|
    requires forall k :: 0 <= k < |ids| ==> Plays(s, s.turn, ids[k]) && tagged[k] == s.pieces[ids[k]]
    ensures AllListed(ListsOf(s, s.turn), ids) && ms == Gathered(ListsOf(s, s.turn), ids)
  {
    ghost var lists := ListsOf(s, s.turn);
    ms := [];
    for i := 0 to |tagged|
      invariant ms == Gathered(lists, ids[..i])
    {
      assert lists[ids[i]] == PieceMoves(s, tagged[i]);
      var part := GetPossibleMoves(s, tagged[i]);
      assert ids[..i + 1][..i] == ids[..i];
      ms := ms + part;
    }
    assert ids[..|ids|] == ids;
  }

  /** The list `possible_moves`: the moves ending on (row, col), in order. */
  method KeepArriving(ms: seq<Move>, row: int, col: int) returns (kept: seq<Move>)
    ensures kept == Arriving(ms, row, col)
  {
    kept := [];
    for i := 0 to |ms|
      invariant kept == Arriving(ms[..i], row, col)
    {
      assert ms[..i + 1][..i] == ms[..i];
      if ms[i].endRow == row && ms[i].endCol == col {
        kept := kept + [ms[i]];
      }
    }
    assert ms[..|ms|] == ms;
  }

  /** `choose_move`. */
  method ChooseMove(s: GameState, input: string) returns (r: Result<Option<Move>, NotationError>)
    requires SideReady(s, s.turn)
    ensures r == Chosen(s, ListsOf(s, s.turn), input)
  {
    var d := Destination(input);
    if d.Failure? {
      return Failure(d.error);
    }
    var (endRow, endCol) := d.value;
    var tagged := TaggedPieces(s, input[0]);
    TaggedIdsPlay(s, input[0], s.nextId);
    var withPiece := MovesWithPieces(s, tagged, TaggedIds(s, input[0], s.nextId));
    var possible := KeepArriving(withPiece, endRow, endCol);
    assert possible == Candidates(s, ListsOf(s, s.turn), input[0], endRow, endCol);
    assert Chosen(s, ListsOf(s, s.turn), input) == Picked(possible, input);
    if |possible| == 1 {
      r := Success(Some(possible[0]));
    } else if |possible| > 1 {
      if |input| == 4 {
        if input[1] in ColumnLetters {
          var found := FirstStartingOn(possible, true, IndexOf(ColumnLetters, input[1]).value);
          r := if found.Some? then Success(found) else Failure(NoMoveFromColumn);
        } else if input[1] in RowNumbers {
          var found := FirstStartingOn(possible, false, IndexOf(RowNumbers, input[1]).value);
          r := if found.Some? then Success(found) else Failure(NoMoveFromRow);
        } else {
          r := Failure(UnknownHint);
        }
      } else {
        r := Failure(Ambiguous);
      }
    } else {
      r := Success(None);
    }
  }
}
