# Connect-4 engine model

A Dafny model of the Connect-4 engine in `connect4/models`: the column of six cells
filled by gravity, the grid of seven columns, the game's state machine (turn order, the
play validator, the win scans, the step after each play, the replay of the event list)
and the one-line-per-event text format of the move history.

The model follows the code as written, including its unfinished parts:

- `Column.is_full` computes its comparison but does not return it. It always answers
  `None`, which is falsy. As a result the validator accepts a play into a full column
  (the play then fails inside `append`), and `is_it_a_draw` never holds.
- DRAW is never reached, for a separate reason: no statement of the game ever assigns it.
  `is_game_over` only returns the draw test, and `post_play` then only skips the turn
  swap. So even with `is_full` fixed, a full board without a winner leaves the state at
  the turn of the player who just moved.
- The vertical scan only checks windows that start at rows 0 and 1.
- The horizontal scan and both diagonal scans are stubs that answer `False`, so only
  vertical wins exist.
- The turn guard of `Grid.place` never looks at the value placed.

The engine's intended design has a four-direction win check, a DRAW state and a validator
that rejects full columns. Where that design and the code differ, this model follows the
code. Module `Intended` is a separately labelled CORRECTED VARIANT for three of these
defects. Nothing else in the model uses it.

Files and modules:

- `wrappers.dfy` (`Wrappers`): `Option`, `Result`.
- `types.dfy` (`Types`): `CellValue`, `GameState`, and the three exceptions the engine
  raises: `UnableToPerformActionError` with its cause, `ValueError`, and `IndexError` from
  `parse_event`.
- `column.dfy` (`Columns`): the `Column` class over an array, updated in place by
  `Append`. Also the value-level functions that specify it: `list.index(None)`, the
  effect of `append`, `as_list` and `is_full`.
- `grid.dfy` (`Grids`): the `Grid` class (seven `Column` objects), `as_matrix`, and the
  effect of `Grid.place`. The game state is passed to `Place` explicitly, in place of the
  source's back-reference from grid to game.
- `game.dfy` (`Games`): the win scans, the validator, the turn swap, `is_game_over`,
  `post_play`, one play (`Step`) and the replay (`Replay`) as functions. Then the `Game`
  class, whose methods change the state and the grid and are proved against those
  functions.
- `game_properties.dfy` (`GameProperties`): lemmas about the game model, including the
  stacking game of the vertical-win test replayed from a new game.
- `events.dfy` (`Events`): `Play`, `Play.__str__` and `parse_event`.
- `history.dfy` (`History`): the text of the event log: `"\n".join`, `str.splitlines`
  and the parse of every line.
- `intended.dfy` (`Intended`): the corrected variant.

The source's `Cell` wrapper becomes `Option<CellValue>`. A `Player` becomes the piece it
places. `Player.place` becomes `Game.PlayerPlace`, because the player's back-reference to
its game is dropped. The event list is a `seq<Option<Play>>`: `parse_event` returns `None`
for a line not starting with "P", and `play_events` skips such entries.

## Model

| member | source | states |
|---|---|---|
| `Columns.FirstNone` | connect4/models/column.py:25 | `cells.index(None)`: the lowest index holding `None`, with every cell below it occupied; no index exactly when no cell is `None` (where Python raises) |
| `Columns.AppendResult` | connect4/models/column.py:23-30 | the effect of `append` on the cell list: it fails with the column-full error exactly when no cell is empty; otherwise the list keeps its length and one empty cell now holds the piece |
| `Columns.IsFull` | connect4/models/column.py:20-21 | as written: never true, because the method returns `None` (no contract; `GameProperties.NeverADraw` and `Intended.FullColumnNotReportedFull` state its consequences) |
| `Columns.AsList` | connect4/models/column.py:16-18 | one entry per cell: `None` for an empty cell, the piece's letter "X"/"O" otherwise |
| `Columns.AsListDeterminesCells` | connect4/models/column.py:16-18 | the `as_list` snapshot loses nothing: equal snapshots mean equal cells |
| `Columns.AppendFailsIffNoEmptyCell` | connect4/models/column.py:23-29 | `append` fails exactly when no cell is `None`, and then with `UnableToPerformActionError` (column full) |
| `Columns.AppendWritesLowestEmpty` | connect4/models/column.py:23-30 | a successful append writes `Cell(value)` at the lowest `None` index and leaves the other cells untouched |
| `Columns.AppendLandsOnTop` | connect4/models/column.py:23-30 | with cells `0..k-1` occupied and the rest empty, the piece lands at index `k` and the column then holds `k+1` pieces at the bottom; with `k` equal to the length, append fails |
| `Columns.AppendUsesOneEmptyCell` | connect4/models/column.py:25-30 | a successful append reduces the count of `None` cells by exactly one |
| `Columns.AppendKeepsGravity` | connect4/models/column.py:23-30 | append preserves the shape "no empty cell below an occupied one" |
| `Columns.Column.constructor` | connect4/models/column.py:10-12 | a default column has exactly 6 cells, all empty |
| `Columns.Column.FromCells` | connect4/models/column.py:10-14 | a column built from a cell list holds exactly those cells |
| `Columns.Column.Append` | connect4/models/column.py:23-30 | the array is changed in place as `AppendResult` says; on the column-full error nothing changes |
| `Grids.AsMatrix` | connect4/models/game.py:169-171 | one list per column, as long as the column, holding each cell's letter or `None` |
| `Grids.PlaceResult` | connect4/models/game.py:187-208 | the effect of `Grid.place` on the cells: success only in O_TURN/X_TURN with an index in range; the list keeps its length, every other column is unchanged, and the target column is the result of its `append` |
| `Grids.EmptyGridIsWellFormed` | connect4/models/game.py:162-167 | a new grid has `NUM_COLUMNS`=7 columns of `NUM_ROWS`=6 cells, all empty |
| `Grids.PlaceErrors` | connect4/models/game.py:187-208 | outside O_TURN/X_TURN, place raises the wrong-turn error whatever the value; in a turn state it raises `ValueError` for an index outside [0, 7); otherwise it fails only on a full column |
| `Grids.PlaceIgnoresValue` | connect4/models/game.py:188-190 | the turn guard never checks the value: X and O succeed or fail alike in either turn state |
| `Grids.PlaceOnlyTargetColumn` | connect4/models/game.py:195-203 | a successful place changes only the target column, through one `append`; it keeps the board shape and adds one piece |
| `Grids.Grid.constructor` | connect4/models/game.py:165-167 | seven new columns of six empty cells, each over its own array |
| `Grids.Grid.Place` | connect4/models/game.py:187-208 | the columns change in place as `PlaceResult` says; on an error nothing changes |
| `Games.ScanWindows` | connect4/models/game.py:50-57 | the inner loop is true iff some window start `j` in the loop's range has all its (slice-clamped) cells equal to the letter |
| `Games.ScanColumns` | connect4/models/game.py:49-59 | the outer loop is true iff some column has such a window |
| `Games.HasPlayerWonVertically` | connect4/models/game.py:45-59 | true iff some column holds the player's letter in all of rows `i..i+3` for `i` in {0, 1}; the rows 2-5 window is never checked |
| `Games.HasPlayerWonHorizontally` | connect4/models/game.py:35-42 | stub: always false (no contract; see `GameProperties.OnlyVerticalScanWins`) |
| `Games.HasPlayerWonTopLeftToBottomRight` | connect4/models/game.py:61-63 | stub: always false (no contract; see `GameProperties.OnlyVerticalScanWins`) |
| `Games.HasPlayerWonTopRightToBottomLeft` | connect4/models/game.py:65-67 | stub: always false (no contract; see `GameProperties.OnlyVerticalScanWins`) |
| `Games.HasPlayerWon` | connect4/models/game.py:69-75 | the OR of the four scans (no contract; `GameProperties.OnlyVerticalScanWins` proves it equals the vertical scan) |
| `Games.ItIsTheCorrectPlayersTurn` | connect4/models/game.py:123-126 | holds only in O_TURN/X_TURN, and only for player "X" or "O" |
| `Games.TheColumnIsValid` | connect4/models/game.py:129-130 | as written, holds exactly for 0 <= column < 7: a full column is not rejected |
| `Games.IsPlayValid` | connect4/models/game.py:118-121 | a valid play is in a turn state and names a column in range |
| `Games.Swapped` | connect4/models/game.py:112-116 | O_TURN becomes X_TURN and only it does; X_TURN becomes O_TURN and only it does; a finished state is kept |
| `Games.IsItADraw` | connect4/models/game.py:91-92 | as written, holds only for a grid with no columns |
| `Games.GameOverCheck` | connect4/models/game.py:94-95 | the state changes only to X_WON or O_WON, and then the game is over; it is never set to DRAW; an answer of "over" without a win comes only from the draw test |
| `Games.PostPlayState` | connect4/models/game.py:97-102 | `post_play` never produces DRAW from another state; when it leaves a turn state on a grid with columns, that is the swapped turn |
| `Games.PlayAPlayResult` | connect4/models/game.py:148-153 | a player other than "X"/"O" changes nothing; a successful play keeps the number of columns and changes no other column |
| `Games.Step` | connect4/models/game.py:133-139 | one iteration of `play_events`: it succeeds only from a turn state, never produces DRAW, keeps 7 columns, and raises only `UnableToPerformActionError` |
| `Games.Replay` | connect4/models/game.py:132-142 | `play_events`: an event list without plays changes nothing and raises nothing; the error it stops with is always `UnableToPerformActionError`; 7 columns are kept |
| `Games.Game.constructor` | connect4/models/game.py:18-25 | a new game is in O_TURN, with no events and a grid of 7 empty columns of 6 cells |
| `Games.Game.SwapTurns` | connect4/models/game.py:112-116 | the new state is `Swapped` of the old one |
| `Games.Game.HasXWon` | connect4/models/game.py:77-82 | answers `has_player_won` for X and sets X_WON exactly then; otherwise the state is unchanged |
| `Games.Game.HasOWon` | connect4/models/game.py:84-89 | answers `has_player_won` for O and sets O_WON exactly then; otherwise the state is unchanged |
| `Games.Game.IsGameOver` | connect4/models/game.py:94-95 | X's win, then O's, then the draw, short-circuiting; the state and the answer agree with `GameOverCheck` |
| `Games.Game.PostPlay` | connect4/models/game.py:97-102 | the turn is swapped unless the game is over |
| `Games.Game.PlayerPlace` | connect4/models/game.py:219-220 | the player's piece is placed through `Grid.place` under the game's state |
| `Games.Game.PlayAPlay` | connect4/models/game.py:148-153 | player "O" places O and "X" places X; any other character places nothing |
| `Games.Game.PlayEvents` | connect4/models/game.py:132-142 | the state and grid afterwards, and the error raised, are those of `Replay` over the events |
| `GameProperties.SwapTurnsFacts` | connect4/models/game.py:112-116 | O_TURN and X_TURN trade places, O_WON/X_WON/DRAW are unchanged, and swapping twice is the identity |
| `GameProperties.PlayValidity` | connect4/models/game.py:118-130 | a play is valid iff the player matches the turn and 0 <= column <= 6; every finished state and every player other than "X"/"O" is rejected |
| `GameProperties.OnlyVerticalScanWins` | connect4/models/game.py:69-75 | `has_player_won` is the OR of four scans; as written only the vertical one can be true |
| `GameProperties.NeverADraw` | connect4/models/game.py:91-92 | `is_it_a_draw` never holds on a grid with columns, because `is_full` answers `None` |
| `GameProperties.DrawIsNeverAssigned` | connect4/models/game.py:94-102 | from any state other than DRAW, neither the game-over check nor `post_play` produces DRAW, whatever the board |
| `GameProperties.NoWinWithoutRowThree` | connect4/models/game.py:45-59 | both scanned windows contain row 3, so a player with no piece in row 3 has not won |
| `GameProperties.StepOutcome` | connect4/models/game.py:132-139 | one play: an invalid play raises; a valid one fails only on a full column; otherwise it is placed, and the state becomes X_WON if X has won, else O_WON if O has won, else the swapped turn; never DRAW |
| `GameProperties.StepKeepsShape` | connect4/models/game.py:148-153 | a successful play keeps seven gravity-shaped columns of six cells and adds one piece |
| `GameProperties.ReplaySplits` | connect4/models/game.py:132-139 | replaying `a + b` is replaying `a` and then `b` from where it stopped, unless `a` raised |
| `GameProperties.ReplayStopsAtFirstFailure` | connect4/models/game.py:132-142 | the first failing play raises, the state is the one before it, and no later event is applied |
| `GameProperties.ReplayKeepsShape` | connect4/models/game.py:132-139 | replay keeps the board shape; without error it adds one piece per play |
| `GameProperties.ReplayNeverDraws` | connect4/models/game.py:91-102 | from any state but DRAW, replay never reaches DRAW |
| `GameProperties.FinishedGameRejectsPlays` | connect4/models/game.py:123-142 | in O_WON/X_WON/DRAW nothing changes; the first play raises |
| `GameProperties.StackingGameOWins` | tests/test_grid.py:4-29 | the stacking game of the test (O in column 0, X in column 1), replayed through `play_events` with alternating turns: O_WON exactly when O's fourth piece lands in column 0, with no earlier win. This is not the test's own sequence of calls: the test calls `o.place` and `x.place` directly while the state stays O_TURN, and passes only because the guard ignores the value (`Intended.WrongValueAccepted`) |
| `GameProperties.WrongPlayerFirst` | connect4/models/game.py:123-126 | X's play on a new game raises and changes nothing |
| `Events.NatToStringDigits` | connect4/models/events.py:11 | the decimal form of a non-negative column is a non-empty run of digits with no leading zero that reads back as the number |
| `Events.ShowShape` | connect4/models/events.py:10-11 | `str(Play(p, c))` is "P", then `p`, then the decimal digits of `c` (after "-" when negative) |
| `Events.Show` | connect4/models/events.py:10-11 | at least three characters: "P", the player, then a digit exactly when the column is not negative |
| `Events.ParseEvent` | connect4/models/events.py:14-18 | `None` exactly for a line not starting with "P"; a play has `line[1]` as player and the digit at index 2 as a column 0..9; `IndexError` exactly when the "P" line is shorter than 3 characters, and `ValueError` otherwise |
| `Events.ParseShowRoundTrip` | connect4/models/events.py:10-18 | `parse_event(str(Play(p, c)))` gives back `Play(p, c)` for every single-digit column |
| `Events.ParseShowKeepsLeadingDigit` | connect4/models/events.py:11-17 | a column of two or more digits reads back as its leading digit alone, so it does not round-trip |
| `Events.ParseShowNegative` | connect4/models/events.py:11-17 | a negative column reads back as `ValueError`, from `int("-")` |
| `Events.ParseEventCases` | connect4/models/events.py:14-18 | a line not starting with "P" is `None`; a "P" line shorter than 3 characters raises `IndexError`; a non-digit at index 2 raises `ValueError`; characters after index 2 are ignored; the player character is not checked |
| `History.SplitLinesJoin` | connect4/models/game.py:30 | `splitlines` undoes `"\n".join` on non-empty lines without line breaks |
| `History.SplitLines` | connect4/models/game.py:30 | `splitlines`: no line returned contains a line-break character; the empty text, and only it, gives no lines |
| `History.SaveText` | connect4/models/game.py:145 | the saved text is empty exactly when the event list is |
| `History.LoadText` | connect4/models/game.py:27-32 | one event per line of the text, each what `parse_event` gives for its line; the empty text loads as no events |
| `History.LoadSaveRoundTrip` | connect4/models/game.py:144-146 | the saved text of an event list parses back to the same list, the empty list included, when every play has a single-digit column and a player that is not a line break |
| `Intended.IsFullIntendedMeansNoRoom` | connect4/models/column.py:20-21 | CORRECTED: "no cell is `None`" holds exactly when `append` has no room |
| `Intended.DrawIntendedMeansNoRoom` | connect4/models/game.py:91-92 | CORRECTED: with the corrected `is_full`, a draw means no column can take a piece |
| `Intended.PostPlayStateIntended` | connect4/models/game.py:97-102 | CORRECTED `is_full` only: `post_play` still never produces DRAW; on a drawn board the state changes only to a win |
| `Intended.FixedIsFullStillNoDraw` | connect4/models/game.py:91-102 | a full board that has no winner by the scans as written (every column O, O, X, X, O, O; not a board a game can reach, and one the intended horizontal scan would call won) is a draw under the corrected `is_full`, yet `post_play` from X_TURN leaves the state at X_TURN |
| `Intended.FullColumnNotReportedFull` | connect4/models/column.py:20-21 | as written, a full column is not reported full, so the validator accepts a play into it that then fails in `append`; a full board is not a draw |
| `Intended.HasPlayerWonVerticallyIntended` | connect4/models/game.py:50 | CORRECTED: the scan covers window starts 0..2, every start a six-row column has |
| `Intended.VerticalIntendedFindsEveryRun` | connect4/models/game.py:45-59 | CORRECTED: on six-cell columns, a win iff four of the player's pieces are stacked anywhere in a column |
| `Intended.TopRunMissed` | connect4/models/game.py:50 | a column X, X, O, O, O, O is not an O win as written, but it is with the corrected scan |
| `Intended.PlaceIntendedChecksTurn` | connect4/models/game.py:188-190 | CORRECTED: only the player whose turn it is can place, and then it behaves as the guard as written |
| `Intended.WrongValueAccepted` | connect4/models/game.py:188-190 | as written, X can place during O_TURN; with the corrected guard this raises the wrong-turn error |

## Left out

- Reading and writing the event log file: `Path.read_text` and `write_text`, the
  `FileNotFoundError` fallback, and the class-level `event_log` path. Only the text is
  modelled: `"\n".join`, `splitlines` and `parse_event`.
- Console output: `print_result_message`, the prints in `post_play`, and the `__str__` of
  `Grid`, `Column` and `Cell`. These render only; `post_play` keeps its effect on the state.
- `connect4/__main__.py`, the command-line glue around the engine.
- The `isinstance` checks in `Grid.place` that raise `TypeError`. Dafny's types rule
  those inputs out.
- The indexing helpers `Column.__getitem__`, `__setitem__`, `__iter__` and
  `Grid.__getitem__`, `__setitem__`. No engine operation uses them. Writing a cell or a
  column by hand could break the gravity shape that `append` keeps.
- Error message texts. This includes the `index` argument of `Column.__init__`, which the
  source drops: the class attribute stays 0 and only appears in the column-full message.
- `Columns.Column.FromCells`: it copies the given list into a new array. In the source the
  column keeps the caller's list, so the caller and the column share one list.
- `Game.check_end_game`: it answers `False` and nothing calls it.
- `Events.ParseEvent`: it accepts only the ASCII digits at index 2. Python's `int` also
  accepts other Unicode decimal digits there; the model reports `ValueError` for them.
- `Columns.IsFull`: it answers `false`. The source returns `None`; in every boolean
  context it is used in, `None` behaves the same as `False`.
- The intended horizontal and diagonal win algorithms. The source has stubs. The diagonal
  tests call methods that do not exist in `game.py`.
- `connect4/models/__init__.py` is not part of this model: it is an older copy of
  `Game`, `Grid` and `Column`, replaced by `game.py` and `column.py`.
  `connect4/scratch.py` is not part of this model either.
- The back-references `Grid.game` and `Player.game`. The game state is passed in instead.

## Findings

| source | as written | input that shows it | evidently intended | confidence | as-written member | corrected member |
|---|---|---|---|---|---|---|
| connect4/models/column.py:20-21 | `is_full` evaluates `self.cells.count(None) == 0` without `return`, so it always answers `None` | a column of six pieces: not reported full; the validator accepts a play into it and no full board is a draw | return the comparison. That alone still never produces DRAW, because nothing assigns that state (`Intended.FixedIsFullStillNoDraw`) | high, not executed | `Intended.FullColumnNotReportedFull` | `Intended.IsFullIntendedMeansNoRoom` |
| connect4/models/game.py:50 | `range(grid.NUM_ROWS - number_to_win)` yields window starts 0 and 1 only | a column X, X, O, O, O, O: no O win reported | `range(grid.NUM_ROWS - number_to_win + 1)`, starts 0..2 | high, not executed | `Intended.TopRunMissed` | `Intended.VerticalIntendedFindsEveryRun` |
| connect4/models/game.py:188-190 | `state == O_TURN and CellValue.O` is true whatever is placed, because an enum member is truthy | `Grid.place(0, CellValue.X)` during O_TURN succeeds | compare the placed value with the turn. The vertical-win test (tests/test_grid.py:9-27) relies on the guard as written: with the corrected guard, its `x.place(1)` at line 12 would raise | medium, not executed | `Intended.WrongValueAccepted` | `Intended.PlaceIntendedChecksTurn` |
