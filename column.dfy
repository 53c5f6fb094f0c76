/** A column of the board (connect4/models/column.py): a fixed run of cells, index 0 at
    the bottom, filled by gravity. A cell is `None` when empty and holds its piece
    otherwise (the source's `Cell` wrapper is folded into `Option<CellValue>`). */
module Columns {
  import opened Wrappers
  import opened Types

  /** Number of cells of a column built without an explicit cell list. */
  const DEFAULT_SIZE := 6

  type Cells = seq<Option<CellValue>>

  /** `cells.index(None)`: the lowest empty slot, or `None` where Python raises. */
  function FirstNone(cells: Cells): (r: Option<nat>)
    ensures r.Some? ==> r.value < |cells| && cells[r.value].None?
    ensures r.Some? ==> forall k :: 0 <= k < r.value ==> cells[k].Some?
    ensures r.None? <==> forall k :: 0 <= k < |cells| ==> cells[k].Some?
  {
    if |cells| == 0 then None
    else if cells[0].None? then Some(0)
    else match FirstNone(cells[1..])
      case None => None
      case Some(k) => Some(k + 1)
  }

  /** The effect of `Column.append(value)` on the cell list: the new cell list, or the
      error raised when no cell is empty. */
  function AppendResult(cells: Cells, value: CellValue): (r: Result<Cells, Error>)
    ensures r.Failure? <==> forall k :: 0 <= k < |cells| ==> cells[k].Some?
    ensures r.Failure? ==> r.error == UnableToPerformAction(ColumnFull)
    ensures r.Success? ==> |r.value| == |cells|
    ensures r.Success? ==> exists k :: 0 <= k < |cells| && cells[k].None? && r.value == cells[k := Some(value)]
  {
    match FirstNone(cells)
    case None => Failure(UnableToPerformAction(ColumnFull))
    case Some(k) => Success(cells[k := Some(value)])
  }

  /** The letter `as_list` shows for one cell: `cell.value.value if cell else None`. */
  function LetterOf(cell: Option<CellValue>): Option<char>
  {
    match cell
    case None => None
    case Some(v) => Some(Letter(v))
  }

  /** `Column.as_list`: one entry per cell, `None` where the cell is empty and the
      piece's letter otherwise. */
  function AsList(cells: Cells): (r: seq<Option<char>>)
    ensures |r| == |cells|
    ensures forall i :: 0 <= i < |cells| ==> (r[i].None? <==> cells[i].None?)
    ensures forall i :: 0 <= i < |cells| && cells[i].Some? ==> r[i] == Some(Letter(cells[i].value))
  {
    if cells == [] then [] else [LetterOf(cells[0])] + AsList(cells[1..])
  }

  /** `Column.is_full` as written: the body computes `self.cells.count(None) == 0` but
      does not return it, so every call returns Python's `None`, which is falsy.
      The intended test is `Intended.IsFullIntended`. */
  predicate IsFull(cells: Cells)
  {
    false
  }

  /** Number of empty cells, `cells.count(None)`. */
  function CountEmpty(cells: Cells): (n: nat)
    ensures n <= |cells|
  {
    if cells == [] then 0 else (if cells[0].None? then 1 else 0) + CountEmpty(cells[1..])
  }

  /** Gravity: below an occupied cell no cell is empty. */
  ghost predicate Gravity(cells: Cells)
  {
    forall i, j :: 0 <= i < j < |cells| && cells[j].Some? ==> cells[i].Some?
  }

  /** The column holds exactly `k` pieces, all at the bottom. */
  ghost predicate Stacked(cells: Cells, k: int)
  {
    && 0 <= k <= |cells|
    && (forall i :: 0 <= i < k ==> cells[i].Some?)
    && (forall i :: k <= i < |cells| ==> cells[i].None?)
  }

  // ---------------------------------------------------------------- properties

  /** Appending fails exactly when no cell is empty, and then with the column-full error. */
  lemma AppendFailsIffNoEmptyCell(cells: Cells, value: CellValue)
    ensures AppendResult(cells, value).Failure? <==> forall k :: 0 <= k < |cells| ==> cells[k].Some?
    ensures AppendResult(cells, value).Failure? ==>
              AppendResult(cells, value).error == UnableToPerformAction(ColumnFull)
  {
  }

  /** A successful append writes the piece into the lowest empty cell and changes no other cell. */
  lemma AppendWritesLowestEmpty(cells: Cells, value: CellValue)
    requires AppendResult(cells, value).Success?
    ensures var r := AppendResult(cells, value).value;
      && |r| == |cells|
      && exists k :: 0 <= k < |cells| && cells[k].None? && r[k] == Some(value)
           && (forall i :: 0 <= i < k ==> cells[i].Some?)
           && (forall i :: 0 <= i < |cells| && i != k ==> r[i] == cells[i])
  {
    var k := FirstNone(cells).value;
    assert 0 <= k < |cells| && cells[k].None?;
  }

  /** Gravity in terms of counts: on a column holding `k` pieces at the bottom the piece
      lands at index `k`, and the column then holds `k + 1` pieces at the bottom. */
  lemma AppendLandsOnTop(cells: Cells, k: int, value: CellValue)
    requires Stacked(cells, k)
    ensures k < |cells| ==> AppendResult(cells, value) == Success(cells[k := Some(value)])
    ensures k < |cells| ==> Stacked(AppendResult(cells, value).value, k + 1)
    ensures k == |cells| ==> AppendResult(cells, value) == Failure(UnableToPerformAction(ColumnFull))
  {
    if k < |cells| {
      assert FirstNone(cells) == Some(k) by {
        var f := FirstNone(cells);
        assert f.Some? by { assert cells[k].None?; }
        assert !(f.value < k) && !(f.value > k);
      }
    }
  }

  /** Appending removes exactly one empty cell. */
  lemma {:induction false} AppendUsesOneEmptyCell(cells: Cells, value: CellValue)
    requires AppendResult(cells, value).Success?
    ensures CountEmpty(AppendResult(cells, value).value) == CountEmpty(cells) - 1
  {
    var k := FirstNone(cells).value;
    CountEmptyAfterFill(cells, k, value);
  }

  lemma {:induction false} CountEmptyAfterFill(cells: Cells, k: nat, value: CellValue)
    requires k < |cells| && cells[k].None?
    ensures CountEmpty(cells[k := Some(value)]) == CountEmpty(cells) - 1
  {
    var c' := cells[k := Some(value)];
    if k == 0 {
      assert c'[1..] == cells[1..];
    } else {
      assert c'[1..] == cells[1..][k - 1 := Some(value)];
      CountEmptyAfterFill(cells[1..], k - 1, value);
    }
  }

  /** Appending keeps the gravity shape. */
  lemma AppendKeepsGravity(cells: Cells, value: CellValue)
    requires Gravity(cells)
    requires AppendResult(cells, value).Success?
    ensures Gravity(AppendResult(cells, value).value)
  {
  }

  /** `as_list` loses nothing: two columns with the same snapshot hold the same cells. */
  lemma AsListDeterminesCells(a: Cells, b: Cells)
    requires AsList(a) == AsList(b)
    ensures a == b
  {
    assert |a| == |b|;
    forall i | 0 <= i < |a| ensures a[i] == b[i] {
      assert AsList(a)[i] == AsList(b)[i];
    }
  }

  // ---------------------------------------------------------------- the column object

  /** `Column`: its cell list is updated in place by `append`. */
  class Column {
    const cells: array<Option<CellValue>>

    /** `Column()`: six empty cells. */
    constructor ()
      ensures fresh(cells)
      ensures cells.Length == DEFAULT_SIZE
      ensures forall i :: 0 <= i < cells.Length ==> cells[i].None?
    {
      cells := new Option<CellValue>[DEFAULT_SIZE](_ => None);
    }

    /** `Column(cells)`: a column over a given cell list. */
    constructor FromCells(init: Cells)
      ensures fresh(cells)
      ensures cells[..] == init
    {
      cells := new Option<CellValue>[|init|](i requires 0 <= i < |init| => init[i]);
    }

    /** `Column.append(value)`: writes the piece into the lowest empty cell, or raises
        the column-full error and changes nothing. */
    method Append(value: CellValue) returns (err: Option<Error>)
      modifies cells
      ensures err.Some? ==> cells[..] == old(cells[..])
      ensures AppendResult(old(cells[..]), value) ==
                if err.None? then Success(cells[..]) else Failure(err.value)
    {
      match FirstNone(cells[..])
      case None =>
        err := Some(UnableToPerformAction(ColumnFull));
      case Some(k) =>
        cells[k] := Some(value);
        err := None;
    }
  }
}
