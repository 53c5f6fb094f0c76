/** CORRECTED VARIANT, not the code as written. Three places where the source evidently
    does not do what its authors meant, each shown against the as-written model and
    corrected here with the intended property proved. The rest of the model keeps the
    behaviour as written. */
module Intended {
  import opened Wrappers
  import opened Types
  import opened Columns
  import opened Grids
  import opened Events
  import opened Games
  import opened GameProperties

  // ------------------------------------------- `Column.is_full` (column.py:20-21)

  /** `is_full` with its result returned: no cell is `None`. */
  predicate IsFullIntended(cells: Cells)
  {
    CountEmpty(cells) == 0
  }

  lemma {:induction false} CountEmptyZero(cells: Cells)
    ensures CountEmpty(cells) == 0 <==> forall k :: 0 <= k < |cells| ==> cells[k].Some?
  {
    if cells != [] {
      CountEmptyZero(cells[1..]);
      assert forall k :: 1 <= k < |cells| ==> cells[k] == cells[1..][k - 1];
    }
  }

  /** The corrected test says exactly when `append` has no room left. */
  lemma IsFullIntendedMeansNoRoom(cells: Cells, value: CellValue)
    ensures IsFullIntended(cells) <==> AppendResult(cells, value).Failure?
  {
    CountEmptyZero(cells);
    AppendFailsIffNoEmptyCell(cells, value);
  }

  /** `is_it_a_draw` with the corrected test: every column is full. */
  predicate IsItADrawIntended(columns: seq<Cells>)
  {
    forall c :: 0 <= c < |columns| ==> IsFullIntended(columns[c])
  }

  /** With the corrected test a draw means no play can be placed anywhere. */
  lemma DrawIntendedMeansNoRoom(columns: seq<Cells>, value: CellValue)
    ensures IsItADrawIntended(columns) <==>
              forall c :: 0 <= c < |columns| ==> AppendResult(columns[c], value).Failure?
  {
    forall c | 0 <= c < |columns| ensures IsFullIntended(columns[c]) <==> AppendResult(columns[c], value).Failure? {
      IsFullIntendedMeansNoRoom(columns[c], value);
    }
  }

  /** A full board (every column six O's). */
  function FullBoard(): seq<Cells>
  {
    seq(NUM_COLUMNS, _ => seq(NUM_ROWS, _ => Some(O)))
  }

  /** As written a full column is not reported full: the validator accepts a play into it
      (which then fails in `append`), and a full board is not a draw. */
  lemma FullColumnNotReportedFull()
    ensures IsFullIntended(FullBoard()[0]) && !IsFull(FullBoard()[0])
    ensures IsPlayValid(O_TURN, FullBoard(), Play('O', 0))
    ensures Step(Snapshot(O_TURN, FullBoard()), Play('O', 0)) == Failure(UnableToPerformAction(ColumnFull))
    ensures IsItADrawIntended(FullBoard()) && !IsItADraw(FullBoard())
  {
    forall c | 0 <= c < NUM_COLUMNS ensures IsFullIntended(FullBoard()[c]) {
      CountEmptyZero(FullBoard()[c]);
    }
    AppendFailsIffNoEmptyCell(FullBoard()[0], O);
    assert !IsFull(FullBoard()[0]);
  }

  /** `post_play` with the corrected `is_full`. Returning the comparison is not enough to
      reach DRAW: no statement of the game ever assigns it, so a drawn board only stops the
      turn swap and the state stays with the player who just moved. */
  function PostPlayStateIntended(state: GameState, columns: seq<Cells>): (r: GameState)
    ensures r == DRAW ==> state == DRAW
    ensures IsItADrawIntended(columns) && r != state ==> r in {X_WON, O_WON}
  {
    var matrix := AsMatrix(columns);
    if HasPlayerWon(matrix, Player(X)) then X_WON
    else if HasPlayerWon(matrix, Player(O)) then O_WON
    else if IsItADrawIntended(columns) then state
    else Swapped(state)
  }

  /** A full column without four of a kind stacked: O, O, X, X, O, O. */
  function DrawnColumn(): Cells
  {
    [Some(O), Some(O), Some(X), Some(X), Some(O), Some(O)]
  }

  /** A full board with no winner by the scans as written: every column `DrawnColumn()`.
      No alternating game reaches it, and the intended horizontal scan would find rows of
      one colour; it only shows what `post_play` does on a board recognised as drawn. */
  function DrawnBoard(): seq<Cells>
  {
    seq(NUM_COLUMNS, _ => DrawnColumn())
  }

  lemma DrawnBoardIsDrawn()
    ensures IsItADrawIntended(DrawnBoard())
  {
    CountEmptyZero(DrawnColumn());
    assert forall c :: 0 <= c < NUM_COLUMNS ==> DrawnBoard()[c] == DrawnColumn();
  }

  /** With O in row 1 and X in row 3 of every column, neither player has a scanned window. */
  lemma NoWinnerAcrossRowsOneAndThree(m: Matrix)
    requires forall c :: 0 <= c < |m| ==> |m[c]| == NUM_ROWS && m[c][1] == Some('O') && m[c][3] == Some('X')
    ensures !HasPlayerWon(m, Player(X)) && !HasPlayerWon(m, Player(O))
  {
    forall c, i | 0 <= c < |m| && 0 <= i < 2 ensures !WindowMatches(m[c], i, 'X') {
      assert m[c][1] != Some('X');
    }
    NoWinWithoutRowThree(m, Player(O));
  }

  lemma DrawnBoardHasNoWinner()
    ensures !HasPlayerWon(AsMatrix(DrawnBoard()), Player(X))
    ensures !HasPlayerWon(AsMatrix(DrawnBoard()), Player(O))
  {
    var board := DrawnBoard();
    var m := AsMatrix(board);
    forall c | 0 <= c < |m|
      ensures |m[c]| == NUM_ROWS && m[c][1] == Some('O') && m[c][3] == Some('X')
    {
      assert board[c] == DrawnColumn();
    }
    NoWinnerAcrossRowsOneAndThree(m);
  }

  /** Even with `is_full` corrected, the drawn board is recognised as a draw, yet
      `post_play` from X_TURN leaves X_TURN instead of setting DRAW. */
  lemma FixedIsFullStillNoDraw()
    ensures IsItADrawIntended(DrawnBoard())
    ensures PostPlayStateIntended(X_TURN, DrawnBoard()) == X_TURN
  {
    DrawnBoardIsDrawn();
    DrawnBoardHasNoWinner();
  }

  // ------------------------------------ vertical scan (game.py:50)

  /** The vertical scan over every window start a six-row column has:
      `range(NUM_ROWS - number_to_win + 1)`. */
  function HasPlayerWonVerticallyIntended(matrix: Matrix, player: Player): (r: bool)
    ensures r <==> exists c, i :: 0 <= c < |matrix| && 0 <= i <= NUM_ROWS - NUMBER_TO_WIN
                                  && WindowMatches(matrix[c], i, Letter(player.value))
  {
    ScanColumns(matrix, Letter(player.value), 0, NUM_ROWS - NUMBER_TO_WIN + 1)
  }

  /** The corrected scan finds four of the player's pieces stacked anywhere in a six-cell
      column, and a win it reports is such a run. */
  lemma VerticalIntendedFindsEveryRun(matrix: Matrix, player: Player)
    requires forall c :: 0 <= c < |matrix| ==> |matrix[c]| == NUM_ROWS
    ensures HasPlayerWonVerticallyIntended(matrix, player) <==>
              exists c, i :: 0 <= c < |matrix| && 0 <= i && i + NUMBER_TO_WIN <= |matrix[c]|
                             && WindowMatches(matrix[c], i, Letter(player.value))
  {
  }

  /** A column holding X, X, then four O's. */
  function TopRunColumn(): Cells
  {
    [Some(X), Some(X), Some(O), Some(O), Some(O), Some(O)]
  }

  /** As written the run in rows 2-5 is missed; the corrected scan finds it. */
  lemma TopRunMissed()
    ensures !HasPlayerWonVertically(AsMatrix(EmptyColumns()[0 := TopRunColumn()]), Player(O))
    ensures HasPlayerWonVerticallyIntended(AsMatrix(EmptyColumns()[0 := TopRunColumn()]), Player(O))
  {
    var m := AsMatrix(EmptyColumns()[0 := TopRunColumn()]);
    assert forall c :: 0 <= c < |m| ==> m[c][0] != Some('O') && m[c][1] != Some('O');
    assert WindowMatches(m[0], 2, Letter(O));
  }

  // ------------------------------------- `Grid.place` turn guard (game.py:188-190)

  /** `Grid.place` with a guard that compares the value with the turn:
      `(state == O_TURN and value == CellValue.O) or (state == X_TURN and value == CellValue.X)`. */
  function PlaceResultIntended(state: GameState, columns: seq<Cells>, colIndex: int, value: CellValue)
    : Result<seq<Cells>, Error>
  {
    if !((state == O_TURN && value == O) || (state == X_TURN && value == X)) then
      Failure(UnableToPerformAction(WrongTurn))
    else PlaceResult(state, columns, colIndex, value)
  }

  /** With the corrected guard only the player whose turn it is can place, and for that
      player it behaves as the guard as written. */
  lemma PlaceIntendedChecksTurn(state: GameState, columns: seq<Cells>, colIndex: int, value: CellValue)
    ensures PlaceResultIntended(state, columns, colIndex, value).Success? ==>
              (state == O_TURN && value == O) || (state == X_TURN && value == X)
    ensures (state == O_TURN && value == O) || (state == X_TURN && value == X) ==>
              PlaceResultIntended(state, columns, colIndex, value) == PlaceResult(state, columns, colIndex, value)
  {
  }

  /** As written X can place during O's turn (the vertical test relies on it); with the
      corrected guard it cannot. */
  lemma WrongValueAccepted()
    ensures PlaceResult(O_TURN, EmptyColumns(), 0, X).Success?
    ensures PlaceResultIntended(O_TURN, EmptyColumns(), 0, X) == Failure(UnableToPerformAction(WrongTurn))
  {
    AppendFailsIffNoEmptyCell(EmptyColumns()[0], X);
    assert EmptyColumns()[0][0].None?;
  }
}
