/** The game (class `Game` and `Player` of connect4/models/game.py): whose turn it is, the
    win scans, the play validator, the step after each play and the replay of the event
    list. The pure parts are functions over the game state and the grid's cells; the
    `Game` object at the end updates its state and its grid in place, each method proved
    against those functions. */
module Games {
  import opened Wrappers
  import opened Types
  import opened Columns
  import opened Grids
  import opened Events

  const NUMBER_TO_WIN := 4

  /** `Player`: the piece it places. Its back-reference to the game is dropped. */
  datatype Player = Player(value: CellValue)

  /** The game state and the grid's cells, everything `play_events` reads and changes. */
  datatype Snapshot = Snapshot(state: GameState, columns: seq<Cells>)

  /** What `play_events` leaves behind: the last state reached, and the error that stopped it. */
  datatype Replayed = Replayed(last: Snapshot, error: Option<Error>)

  /** The state and cells of a new `Game`. */
  function Initial(): Snapshot
  {
    Snapshot(O_TURN, EmptyColumns())
  }

  // ---------------------------------------------------------------- win scans

  /** `all(cell == letter for cell in column[i : i + 4])`; the slice is cut short at the end
      of the column, as Python's is. */
  predicate WindowMatches(column: seq<Option<char>>, i: nat, letter: char)
  {
    forall k :: i <= k < i + NUMBER_TO_WIN && k < |column| ==> column[k] == Some(letter)
  }

  /** The inner loop of the vertical scan: windows starting at rows `i` up to `windows - 1`. */
  function ScanWindows(column: seq<Option<char>>, letter: char, i: nat, windows: nat): (r: bool)
    decreases windows - i
    ensures r <==> exists j :: i <= j < windows && WindowMatches(column, j, letter)
  {
    if i >= windows then false
    else WindowMatches(column, i, letter) || ScanWindows(column, letter, i + 1, windows)
  }

  /** The outer loop of the vertical scan: columns `c` onwards. */
  function ScanColumns(matrix: Matrix, letter: char, c: nat, windows: nat): (r: bool)
    decreases |matrix| - c
    ensures r <==> exists d, j :: c <= d < |matrix| && 0 <= j < windows && WindowMatches(matrix[d], j, letter)
  {
    if c >= |matrix| then false
    else ScanWindows(matrix[c], letter, 0, windows) || ScanColumns(matrix, letter, c + 1, windows)
  }

  /** `has_player_won_horizontally`: a stub that always answers `False`. */
  predicate HasPlayerWonHorizontally(matrix: Matrix, player: Player)
  {
    false
  }

  /** `has_player_won_vertically`: the windows scanned start at rows
      `range(NUM_ROWS - number_to_win)`, that is rows 0 and 1 only. */
  function HasPlayerWonVertically(matrix: Matrix, player: Player): (r: bool)
    ensures r <==> exists c, i :: 0 <= c < |matrix| && 0 <= i < 2 && WindowMatches(matrix[c], i, Letter(player.value))
  {
    ScanColumns(matrix, Letter(player.value), 0, NUM_ROWS - NUMBER_TO_WIN)
  }

  /** `has_player_won_top_left_to_bottom_right`: a stub that always answers `False`. */
  predicate HasPlayerWonTopLeftToBottomRight(matrix: Matrix, player: Player)
  {
    false
  }

  /** `has_player_won_top_right_to_bottom_left`: a stub that always answers `False`. */
  predicate HasPlayerWonTopRightToBottomLeft(matrix: Matrix, player: Player)
  {
    false
  }

  /** `has_player_won`: any of the four scans. */
  predicate HasPlayerWon(matrix: Matrix, player: Player)
  {
    || HasPlayerWonHorizontally(matrix, player)
    || HasPlayerWonVertically(matrix, player)
    || HasPlayerWonTopLeftToBottomRight(matrix, player)
    || HasPlayerWonTopRightToBottomLeft(matrix, player)
  }

  // ---------------------------------------------------------------- validator

  /** `it_is_the_correct_players_turn`. */
  predicate ItIsTheCorrectPlayersTurn(state: GameState, play: Play)
    ensures ItIsTheCorrectPlayersTurn(state, play) ==> state in {O_TURN, X_TURN} && play.player in {'X', 'O'}
  {
    (play.player == 'X' && state == X_TURN) || (play.player == 'O' && state == O_TURN)
  }

  /** `the_column_is_valid`: the range test comes first, so an out-of-range column is never
      used as an index. */
  predicate TheColumnIsValid(columns: seq<Cells>, play: Play)
    requires |columns| == NUM_COLUMNS
    ensures TheColumnIsValid(columns, play) <==> 0 <= play.column < |columns|
  {
    0 <= play.column <= 6 && !IsFull(columns[play.column])
  }

  /** `is_play_valid`: both checks. */
  predicate IsPlayValid(state: GameState, columns: seq<Cells>, play: Play)
    requires |columns| == NUM_COLUMNS
    ensures IsPlayValid(state, columns, play) ==> state in {O_TURN, X_TURN} && 0 <= play.column < |columns|
  {
    ItIsTheCorrectPlayersTurn(state, play) && TheColumnIsValid(columns, play)
  }

  // ---------------------------------------------------------------- state machine

  /** `swap_turns`: O_TURN and X_TURN trade places; a finished game keeps its state. */
  function Swapped(state: GameState): (r: GameState)
    ensures state == O_TURN <==> r == X_TURN
    ensures state == X_TURN <==> r == O_TURN
    ensures state !in {O_TURN, X_TURN} ==> r == state
  {
    match state
    case O_TURN => X_TURN
    case X_TURN => O_TURN
    case _ => state
  }

  /** `is_it_a_draw`: every column answers `is_full()`. */
  predicate IsItADraw(columns: seq<Cells>)
    ensures IsItADraw(columns) <==> |columns| == 0
  {
    assert |columns| > 0 ==> !IsFull(columns[0]);
    forall c :: 0 <= c < |columns| ==> IsFull(columns[c])
  }

  /** `is_game_over`, as the state it leaves behind and its answer: X's win is checked
      first, then O's (each setting the state when it holds), then the draw. */
  function GameOverCheck(state: GameState, columns: seq<Cells>): (r: (GameState, bool))
    ensures r.0 != state ==> r.1 && r.0 in {X_WON, O_WON}
    ensures r.0 == DRAW ==> state == DRAW
    ensures r.1 && r.0 !in {X_WON, O_WON} ==> IsItADraw(columns)
  {
    var matrix := AsMatrix(columns);
    if HasPlayerWon(matrix, Player(X)) then (X_WON, true)
    else if HasPlayerWon(matrix, Player(O)) then (O_WON, true)
    else (state, IsItADraw(columns))
  }

  /** The state `post_play` leaves: the game-over check, then a turn swap unless the game is over. */
  function PostPlayState(state: GameState, columns: seq<Cells>): (r: GameState)
    ensures r == DRAW ==> state == DRAW
    ensures r in {O_TURN, X_TURN} && columns != [] ==> state in {O_TURN, X_TURN} && r == Swapped(state)
  {
    var check := GameOverCheck(state, columns);
    if check.1 then check.0 else Swapped(check.0)
  }

  /** `play_a_play`: the matching player places in the play's column; any other player
      character places nothing. */
  function PlayAPlayResult(state: GameState, columns: seq<Cells>, play: Play): (r: Result<seq<Cells>, Error>)
    ensures play.player !in {'X', 'O'} ==> r == Success(columns)
    ensures r.Success? ==> |r.value| == |columns|
    ensures r.Success? ==> forall c :: 0 <= c < |columns| && c != play.column ==> r.value[c] == columns[c]
  {
    if play.player == 'O' then PlaceResult(state, columns, play.column, O)
    else if play.player == 'X' then PlaceResult(state, columns, play.column, X)
    else Success(columns)
  }

  /** One iteration of `play_events` on a play: an invalid play raises, a valid one is
      placed (which can still fail) and followed by `post_play`. */
  function Step(s: Snapshot, play: Play): (r: Result<Snapshot, Error>)
    requires |s.columns| == NUM_COLUMNS
    ensures r.Success? ==> |r.value.columns| == NUM_COLUMNS
    ensures r.Success? ==> s.state in {O_TURN, X_TURN} && r.value.state != DRAW
    ensures r.Failure? ==> r.error.UnableToPerformAction?
  {
    if !IsPlayValid(s.state, s.columns, play) then Failure(UnableToPerformAction(CannotHappen))
    else match PlayAPlayResult(s.state, s.columns, play)
      case Failure(e) => Failure(e)
      case Success(cs) => Success(Snapshot(PostPlayState(s.state, cs), cs))
  }

  /** `play_events`: the events in list order; an entry that is not a play is skipped,
      and the first play that fails stops the replay with everything before it applied. */
  function Replay(s: Snapshot, events: seq<Option<Play>>): (r: Replayed)
    requires |s.columns| == NUM_COLUMNS
    ensures |r.last.columns| == NUM_COLUMNS
    ensures CountPlays(events) == 0 ==> r == Replayed(s, None)
    ensures r.error.Some? ==> r.error.value.UnableToPerformAction?
    decreases |events|
  {
    if events == [] then Replayed(s, None)
    else match events[0]
      case None => Replay(s, events[1..])
      case Some(play) =>
        match Step(s, play)
        case Failure(e) => Replayed(s, Some(e))
        case Success(next) => Replay(next, events[1..])
  }

  /** Number of plays (entries that are not `None`) in an event list. */
  function CountPlays(events: seq<Option<Play>>): nat
  {
    if events == [] then 0 else (if events[0].Some? then 1 else 0) + CountPlays(events[1..])
  }

  // ---------------------------------------------------------------- the game object

  /** `Game`: its state is reassigned by the turn swap and the win checks, and its grid is
      changed in place by the plays. */
  class Game {
    var state: GameState
    const grid: Grid
    const players: (Player, Player)
    var events: seq<Option<Play>>

    ghost predicate Valid()
    {
      grid.Valid() && players == (Player(O), Player(X))
    }

    /** `Game()`: O to play, an empty grid, no events. */
    constructor ()
      ensures Valid()
      ensures fresh(grid) && fresh(grid.Repr())
      ensures state == O_TURN && events == []
      ensures Snapshot(state, grid.Contents()) == Initial()
    {
      state := O_TURN;
      grid := new Grid();
      players := (Player(O), Player(X));
      events := [];
    }

    /** `swap_turns`. */
    method SwapTurns()
      modifies this`state
      ensures state == Swapped(old(state))
    {
      if state == O_TURN {
        state := X_TURN;
      } else if state == X_TURN {
        state := O_TURN;
      }
    }

    /** `has_x_won`: sets X_WON exactly when X has a winning line. */
    method HasXWon() returns (hasWon: bool)
      requires Valid()
      modifies this`state
      ensures hasWon == HasPlayerWon(AsMatrix(grid.Contents()), Player(X))
      ensures state == if hasWon then X_WON else old(state)
    {
      var x := players.1;
      hasWon := HasPlayerWon(AsMatrix(grid.Contents()), x);
      ghost var before := grid.Contents();
      if hasWon {
        state := X_WON;
      }
      assert grid.Contents() == before;
    }

    /** `has_o_won`: sets O_WON exactly when O has a winning line. */
    method HasOWon() returns (hasWon: bool)
      requires Valid()
      modifies this`state
      ensures hasWon == HasPlayerWon(AsMatrix(grid.Contents()), Player(O))
      ensures state == if hasWon then O_WON else old(state)
    {
      var o := players.0;
      hasWon := HasPlayerWon(AsMatrix(grid.Contents()), o);
      ghost var before := grid.Contents();
      if hasWon {
        state := O_WON;
      }
      assert grid.Contents() == before;
    }

    /** `is_game_over`: short-circuits like Python's `or`. */
    method IsGameOver() returns (over: bool)
      requires Valid()
      modifies this`state
      ensures (state, over) == GameOverCheck(old(state), grid.Contents())
    {
      ghost var cells := grid.Contents();
      over := HasXWon();
      assert grid.Contents() == cells;
      if !over {
        over := HasOWon();
        assert grid.Contents() == cells;
      }
      if !over {
        over := IsItADraw(grid.Contents());
      }
    }

    /** `post_play`, without its console output. */
    method PostPlay()
      requires Valid()
      modifies this`state
      ensures state == PostPlayState(old(state), grid.Contents())
    {
      ghost var cells := grid.Contents();
      var over := IsGameOver();
      assert grid.Contents() == cells;
      if !over {
        SwapTurns();
        assert grid.Contents() == cells;
      }
    }

    /** `Player.place`: the player's piece through `Grid.place`, under the game's state. */
    method PlayerPlace(player: Player, colIndex: int) returns (err: Option<Error>)
      requires Valid()
      modifies grid.Repr()
      ensures err.Some? ==> grid.Contents() == old(grid.Contents())
      ensures PlaceResult(state, old(grid.Contents()), colIndex, player.value) ==
                if err.None? then Success(grid.Contents()) else Failure(err.value)
    {
      err := grid.Place(state, colIndex, player.value);
    }

    /** `play_a_play`. */
    method PlayAPlay(play: Play) returns (err: Option<Error>)
      requires Valid()
      modifies grid.Repr()
      ensures err.Some? ==> grid.Contents() == old(grid.Contents())
      ensures PlayAPlayResult(state, old(grid.Contents()), play) ==
                if err.None? then Success(grid.Contents()) else Failure(err.value)
    {
      var (o, x) := players;
      if play.player == 'O' {
        err := PlayerPlace(o, play.column);
      } else if play.player == 'X' {
        err := PlayerPlace(x, play.column);
      } else {
        err := None;
      }
    }

    /** `play_events`: replays `events` in order against the current state and grid. */
    method PlayEvents() returns (err: Option<Error>)
      requires Valid()
      modifies this`state, grid.Repr()
      ensures Replay(Snapshot(old(state), old(grid.Contents())), events) ==
                Replayed(Snapshot(state, grid.Contents()), err)
    {
      for i := 0 to |events|
        invariant Replay(Snapshot(old(state), old(grid.Contents())), events) ==
                  Replay(Snapshot(state, grid.Contents()), events[i..])
      {
        assert events[i..][0] == events[i] && events[i..][1..] == events[i + 1..];
        match events[i]
        case None =>
        case Some(play) =>
          if IsPlayValid(state, grid.Contents(), play) {
            err := PlayAPlay(play);
            if err.Some? {
              return;
            }
            PostPlay();
          } else {
            return Some(UnableToPerformAction(CannotHappen));
          }
      }
      assert events[|events|..] == [];
      err := None;
    }
  }
}
