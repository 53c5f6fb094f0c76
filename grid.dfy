/** The board (class `Grid` of connect4/models/game.py): seven columns of six cells.
    The source's back-reference from the grid to its game is replaced by passing the
    game state to `Place`. */
module Grids {
  import opened Wrappers
  import opened Types
  import opened Columns

  const NUM_COLUMNS := 7
  const NUM_ROWS := 6

  /** The snapshot `as_matrix` returns: one list of letters per column. */
  type Matrix = seq<seq<Option<char>>>

  /** `Grid.as_matrix`: the `as_list` of every column, in column order. */
  function AsMatrix(columns: seq<Cells>): (m: Matrix)
    ensures |m| == |columns|
    ensures forall c :: 0 <= c < |columns| ==> |m[c]| == |columns[c]|
    ensures forall c, r :: 0 <= c < |columns| && 0 <= r < |columns[c]| ==>
              m[c][r] == LetterOf(columns[c][r])
  {
    if columns == [] then [] else [AsList(columns[0])] + AsMatrix(columns[1..])
  }

  /** The cells of a new grid: `NUM_COLUMNS` columns of `NUM_ROWS` empty cells. */
  function EmptyColumns(): (cs: seq<Cells>)
  {
    seq(NUM_COLUMNS, _ => seq(NUM_ROWS, _ => None))
  }

  /** The board shape every grid keeps: seven columns of six cells, each filled bottom-up. */
  ghost predicate WellFormed(columns: seq<Cells>)
  {
    && |columns| == NUM_COLUMNS
    && forall c :: 0 <= c < |columns| ==> |columns[c]| == NUM_ROWS && Gravity(columns[c])
  }

  /** The effect of `Grid.place(col_index, value)` on the cells, given the game state.
      The turn guard `(state == O_TURN and CellValue.O) or (state == X_TURN and CellValue.X)`
      is true for both values in both turn states: an enum member is always truthy. */
  function PlaceResult(state: GameState, columns: seq<Cells>, colIndex: int, value: CellValue)
    : (r: Result<seq<Cells>, Error>)
    ensures r.Success? ==> state in {O_TURN, X_TURN} && 0 <= colIndex < |columns|
    ensures r.Success? ==> |r.value| == |columns|
    ensures r.Success? ==> forall c :: 0 <= c < |columns| && c != colIndex ==> r.value[c] == columns[c]
    ensures r.Success? ==> AppendResult(columns[colIndex], value) == Success(r.value[colIndex])
  {
    if !(state == O_TURN || state == X_TURN) then Failure(UnableToPerformAction(WrongTurn))
    else if !(0 <= colIndex < |columns|) then Failure(ValueError)
    else match AppendResult(columns[colIndex], value)
      case Failure(e) => Failure(e)
      case Success(col) => Success(columns[colIndex := col])
  }

  /** Total number of pieces on the board. */
  function Pieces(columns: seq<Cells>): nat
  {
    if columns == [] then 0 else |columns[0]| - CountEmpty(columns[0]) + Pieces(columns[1..])
  }

  // ---------------------------------------------------------------- properties

  /** The empty grid is well formed and holds no piece. */
  lemma EmptyGridIsWellFormed()
    ensures WellFormed(EmptyColumns())
    ensures forall c, r :: 0 <= c < NUM_COLUMNS && 0 <= r < NUM_ROWS ==> EmptyColumns()[c][r].None?
  {
  }

  /** The errors of `Grid.place`: outside O_TURN / X_TURN it raises the wrong-turn error
      whatever the value, and in a turn state an index outside [0, 7) raises `ValueError`;
      in a turn state it fails on an in-range index only when that column is full. */
  lemma PlaceErrors(state: GameState, columns: seq<Cells>, colIndex: int, value: CellValue)
    requires |columns| == NUM_COLUMNS
    ensures state !in {O_TURN, X_TURN} ==>
              PlaceResult(state, columns, colIndex, value) == Failure(UnableToPerformAction(WrongTurn))
    ensures state in {O_TURN, X_TURN} && !(0 <= colIndex < NUM_COLUMNS) ==>
              PlaceResult(state, columns, colIndex, value) == Failure(ValueError)
    ensures state in {O_TURN, X_TURN} && 0 <= colIndex < NUM_COLUMNS ==>
              (PlaceResult(state, columns, colIndex, value).Failure? <==>
               forall r :: 0 <= r < |columns[colIndex]| ==> columns[colIndex][r].Some?)
  {
    if state in {O_TURN, X_TURN} && 0 <= colIndex < NUM_COLUMNS {
      AppendFailsIffNoEmptyCell(columns[colIndex], value);
    }
  }

  /** The turn guard never looks at the value: in either turn state, placing X and
      placing O succeed or fail together, and so does placing in the other turn state. */
  lemma PlaceIgnoresValue(columns: seq<Cells>, colIndex: int)
    ensures PlaceResult(O_TURN, columns, colIndex, X).Success? <==> PlaceResult(O_TURN, columns, colIndex, O).Success?
    ensures PlaceResult(X_TURN, columns, colIndex, O).Success? <==> PlaceResult(X_TURN, columns, colIndex, X).Success?
    ensures PlaceResult(O_TURN, columns, colIndex, X) == PlaceResult(X_TURN, columns, colIndex, X)
    ensures PlaceResult(O_TURN, columns, colIndex, O) == PlaceResult(X_TURN, columns, colIndex, O)
  {
  }

  /** A successful place changes only the target column, by one `append`, keeps the board
      shape and adds exactly one piece. */
  lemma {:induction false} PlaceOnlyTargetColumn(state: GameState, columns: seq<Cells>, colIndex: int, value: CellValue)
    requires PlaceResult(state, columns, colIndex, value).Success?
    ensures var after := PlaceResult(state, columns, colIndex, value).value;
      && 0 <= colIndex < |columns|
      && |after| == |columns|
      && (forall c :: 0 <= c < |columns| && c != colIndex ==> after[c] == columns[c])
      && AppendResult(columns[colIndex], value) == Success(after[colIndex])
      && (WellFormed(columns) ==> WellFormed(after))
      && Pieces(after) == Pieces(columns) + 1
  {
    var after := PlaceResult(state, columns, colIndex, value).value;
    AppendUsesOneEmptyCell(columns[colIndex], value);
    if WellFormed(columns) {
      AppendKeepsGravity(columns[colIndex], value);
    }
    PiecesAfterUpdate(columns, colIndex, after[colIndex]);
  }

  lemma {:induction false} PiecesAfterUpdate(columns: seq<Cells>, c: nat, col: Cells)
    requires c < |columns|
    ensures Pieces(columns[c := col]) ==
            Pieces(columns) - (|columns[c]| - CountEmpty(columns[c])) + (|col| - CountEmpty(col))
  {
    var cs := columns[c := col];
    if c == 0 {
      assert cs[1..] == columns[1..];
    } else {
      assert cs[1..] == columns[1..][c - 1 := col];
      PiecesAfterUpdate(columns[1..], c - 1, col);
    }
  }

  // ---------------------------------------------------------------- the grid object

  /** `Grid`: a fixed list of seven `Column` objects, each updated in place. */
  class Grid {
    const columns: seq<Column>

    /** Seven columns of six cells, each over its own array. */
    ghost predicate Valid()
    {
      && |columns| == NUM_COLUMNS
      && (forall c :: 0 <= c < |columns| ==> columns[c].cells.Length == NUM_ROWS)
      && (forall c, d :: 0 <= c < d < |columns| ==> columns[c].cells != columns[d].cells)
    }

    /** The arrays the grid's cells live in. */
    function Repr(): set<array<Option<CellValue>>>
    {
      set c | 0 <= c < |columns| :: columns[c].cells
    }

    /** The cells of every column, in column order. */
    function Contents(): (cs: seq<Cells>)
      reads Repr()
      ensures |cs| == |columns|
      ensures forall c :: 0 <= c < |columns| ==> cs[c] == columns[c].cells[..]
    {
      seq(|columns|, c requires 0 <= c < |columns| reads Repr() => columns[c].cells[..])
    }

    /** `Grid()`: `NUM_COLUMNS` new empty columns. */
    constructor ()
      ensures Valid()
      ensures fresh(Repr())
      ensures Contents() == EmptyColumns()
    {
      var cols: seq<Column> := [];
      for i := 0 to NUM_COLUMNS
        invariant |cols| == i
        invariant forall c :: 0 <= c < i ==> fresh(cols[c].cells)
        invariant forall c :: 0 <= c < i ==> cols[c].cells[..] == seq(NUM_ROWS, _ => None)
        invariant forall c, d :: 0 <= c < d < i ==> cols[c].cells != cols[d].cells
      {
        var column := new Column();
        assert column.cells[..] == seq(NUM_ROWS, _ => None);
        cols := cols + [column];
      }
      columns := cols;
    }

    /** `Grid.place(col_index, value)`, with the game's state passed in. */
    method Place(state: GameState, colIndex: int, value: CellValue) returns (err: Option<Error>)
      requires Valid()
      modifies Repr()
      ensures err.Some? ==> Contents() == old(Contents())
      ensures PlaceResult(state, old(Contents()), colIndex, value) ==
                if err.None? then Success(Contents()) else Failure(err.value)
    {
      if state == O_TURN || state == X_TURN {
        if !(0 <= colIndex < |columns|) {
          return Some(ValueError);
        }
        err := columns[colIndex].Append(value);
        assert forall c :: 0 <= c < |columns| && c != colIndex ==>
          columns[c].cells[..] == old(columns[c].cells[..]);
        if err.None? {
          assert Contents() == old(Contents())[colIndex := columns[colIndex].cells[..]];
        } else {
          assert Contents() == old(Contents());
        }
      } else {
        err := Some(UnableToPerformAction(WrongTurn));
      }
    }
  }
}
