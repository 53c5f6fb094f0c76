/** Properties of the game model (connect4/models/game.py): the turn swap, the validator,
    the win scans as written, one play, and the replay of an event list. */
module GameProperties {
  import opened Wrappers
  import opened Types
  import opened Columns
  import opened Grids
  import opened Events
  import opened Games

  /** `swap_turns` exchanges the two turn states, keeps the finished ones, and undoes itself. */
  lemma SwapTurnsFacts(state: GameState)
    ensures state == O_TURN ==> Swapped(state) == X_TURN
    ensures state == X_TURN ==> Swapped(state) == O_TURN
    ensures state in {O_WON, X_WON, DRAW} ==> Swapped(state) == state
    ensures Swapped(Swapped(state)) == state
  {
  }

  /** The validator as written: the play is valid exactly when the player's letter matches
      the turn and the column is in [0, 6]. A finished game, or a player other than "X" or
      "O", is always rejected; a full column is not (`is_full` answers `None`). */
  lemma PlayValidity(state: GameState, columns: seq<Cells>, play: Play)
    requires |columns| == NUM_COLUMNS
    ensures IsPlayValid(state, columns, play) <==>
              && ((play.player == 'X' && state == X_TURN) || (play.player == 'O' && state == O_TURN))
              && 0 <= play.column < NUM_COLUMNS
    ensures state in {O_WON, X_WON, DRAW} ==> !IsPlayValid(state, columns, play)
    ensures play.player != 'X' && play.player != 'O' ==> !IsPlayValid(state, columns, play)
  {
  }

  /** As written only the vertical scan can report a win. */
  lemma OnlyVerticalScanWins(matrix: Matrix, player: Player)
    ensures HasPlayerWon(matrix, player) <==> HasPlayerWonVertically(matrix, player)
  {
  }

  /** `is_it_a_draw` never holds on a grid with a column: `all` of falsy answers. */
  lemma NeverADraw(columns: seq<Cells>)
    requires |columns| > 0
    ensures !IsItADraw(columns)
  {
    assert !IsFull(columns[0]);
  }

  /** No statement of the game assigns DRAW: neither the game-over check nor `post_play`
      leads to it from any other state, whatever the board. */
  lemma DrawIsNeverAssigned(state: GameState, columns: seq<Cells>)
    requires state != DRAW
    ensures GameOverCheck(state, columns).0 != DRAW
    ensures PostPlayState(state, columns) != DRAW
  {
  }

  /** Both scanned windows of a six-cell column contain row 3, so without the player's
      letter in row 3 of any column there is no vertical win. */
  lemma NoWinWithoutRowThree(matrix: Matrix, player: Player)
    requires forall c :: 0 <= c < |matrix| ==> |matrix[c]| == NUM_ROWS && matrix[c][3] != Some(Letter(player.value))
    ensures !HasPlayerWon(matrix, player)
  {
  }

  /** One play of `play_events`: rejected by the validator, refused by the full column, or
      placed on top of its column and followed by the win checks (X first) and the swap;
      it never produces DRAW. */
  lemma StepOutcome(s: Snapshot, play: Play)
    requires |s.columns| == NUM_COLUMNS
    ensures !IsPlayValid(s.state, s.columns, play) ==>
              Step(s, play) == Failure(UnableToPerformAction(CannotHappen))
    ensures IsPlayValid(s.state, s.columns, play) ==>
              var v := if play.player == 'X' then X else O;
              var col := s.columns[play.column];
              match AppendResult(col, v)
              case Failure(_) => Step(s, play) == Failure(UnableToPerformAction(ColumnFull))
              case Success(col') =>
                var after := s.columns[play.column := col'];
                var matrix := AsMatrix(after);
                Step(s, play) == Success(Snapshot(
                  if HasPlayerWonVertically(matrix, Player(X)) then X_WON
                  else if HasPlayerWonVertically(matrix, Player(O)) then O_WON
                  else Swapped(s.state), after))
    ensures Step(s, play).Success? ==> Step(s, play).value.state != DRAW
  {
    if IsPlayValid(s.state, s.columns, play) {
      var v := if play.player == 'X' then X else O;
      assert PlayAPlayResult(s.state, s.columns, play) == PlaceResult(s.state, s.columns, play.column, v);
      match AppendResult(s.columns[play.column], v)
      case Failure(_) =>
      case Success(col') => NeverADraw(s.columns[play.column := col']);
    }
  }

  /** A successful play keeps the board shape (seven columns of six cells filled bottom-up)
      and adds exactly one piece. */
  lemma StepKeepsShape(s: Snapshot, play: Play)
    requires WellFormed(s.columns)
    requires Step(s, play).Success?
    ensures WellFormed(Step(s, play).value.columns)
    ensures Pieces(Step(s, play).value.columns) == Pieces(s.columns) + 1
  {
    var v := if play.player == 'X' then X else O;
    assert PlayAPlayResult(s.state, s.columns, play) == PlaceResult(s.state, s.columns, play.column, v);
    PlaceOnlyTargetColumn(s.state, s.columns, play.column, v);
  }

  // ---------------------------------------------------------------- replay

  /** Replaying a history in two parts is replaying it whole: the second part starts where
      the first stopped, unless the first stopped on an error. This is what makes replaying
      the full history agree with applying its plays one at a time. */
  lemma {:induction false} ReplaySplits(s: Snapshot, a: seq<Option<Play>>, b: seq<Option<Play>>)
    requires |s.columns| == NUM_COLUMNS
    ensures Replay(s, a + b) == (var r := Replay(s, a); if r.error.Some? then r else Replay(r.last, b))
    decreases |a|
  {
    if a == [] {
      assert a + b == b;
    } else {
      assert (a + b)[0] == a[0] && (a + b)[1..] == a[1..] + b;
      match a[0]
      case None =>
        ReplaySplits(s, a[1..], b);
      case Some(play) =>
        match Step(s, play)
        case Failure(_) =>
        case Success(next) =>
          ReplaySplits(next, a[1..], b);
    }
  }

  /** The first play that fails stops the replay: the error is reported, the state is the
      one reached before that play, and no later event is applied. */
  lemma ReplayStopsAtFirstFailure(s: Snapshot, before: seq<Option<Play>>, play: Play, after: seq<Option<Play>>)
    requires |s.columns| == NUM_COLUMNS
    requires Replay(s, before).error.None?
    requires Step(Replay(s, before).last, play).Failure?
    ensures Replay(s, before + [Some(play)] + after) ==
              Replayed(Replay(s, before).last, Some(Step(Replay(s, before).last, play).error))
  {
    assert before + [Some(play)] + after == before + ([Some(play)] + after);
    ReplaySplits(s, before, [Some(play)] + after);
    assert ([Some(play)] + after)[1..] == after;
  }

  /** Replay keeps the board shape, and a replay without error adds one piece per play. */
  lemma {:induction false} ReplayKeepsShape(s: Snapshot, events: seq<Option<Play>>)
    requires WellFormed(s.columns)
    ensures WellFormed(Replay(s, events).last.columns)
    ensures Replay(s, events).error.None? ==>
              Pieces(Replay(s, events).last.columns) == Pieces(s.columns) + CountPlays(events)
    decreases |events|
  {
    if events != [] {
      match events[0]
      case None =>
        ReplayKeepsShape(s, events[1..]);
      case Some(play) =>
        match Step(s, play)
        case Failure(_) =>
        case Success(next) =>
          StepKeepsShape(s, play);
          ReplayKeepsShape(next, events[1..]);
    }
  }

  /** As written no replay ever reaches DRAW. */
  lemma {:induction false} ReplayNeverDraws(s: Snapshot, events: seq<Option<Play>>)
    requires |s.columns| == NUM_COLUMNS
    requires s.state != DRAW
    ensures Replay(s, events).last.state != DRAW
    decreases |events|
  {
    if events != [] {
      match events[0]
      case None =>
        ReplayNeverDraws(s, events[1..]);
      case Some(play) =>
        StepOutcome(s, play);
        match Step(s, play)
        case Failure(_) =>
        case Success(next) =>
          ReplayNeverDraws(next, events[1..]);
    }
  }

  /** Once the game is finished nothing changes: the first play in the list raises, and a
      list without plays leaves the game as it is. */
  lemma {:induction false} FinishedGameRejectsPlays(s: Snapshot, events: seq<Option<Play>>)
    requires |s.columns| == NUM_COLUMNS
    requires s.state in {O_WON, X_WON, DRAW}
    ensures Replay(s, events).last == s
    ensures Replay(s, events).error ==
              if CountPlays(events) == 0 then None else Some(UnableToPerformAction(CannotHappen))
    decreases |events|
  {
    if events != [] {
      match events[0]
      case None =>
        FinishedGameRejectsPlays(s, events[1..]);
      case Some(play) =>
    }
  }

  // ---------------------------------------------------------------- a game replayed

  /** `n` pieces of `v` at the bottom of a six-cell column. */
  function Tower(v: CellValue, n: nat): Cells
  {
    seq(NUM_ROWS, i => if i < n then Some(v) else None)
  }

  /** O's tower of `a` pieces in column 0, X's of `b` in column 1, the rest empty. */
  function Towers(a: nat, b: nat): seq<Cells>
  {
    EmptyColumns()[0 := Tower(O, a)][1 := Tower(X, b)]
  }

  /** A play that lands below row 3 while row 3 is empty everywhere wins nothing: the turn
      passes to the other player. */
  lemma StepStacksWithoutWin(s: Snapshot, play: Play, v: CellValue, k: nat)
    requires WellFormed(s.columns)
    requires play.player == Letter(v) && ItIsTheCorrectPlayersTurn(s.state, play)
    requires 0 <= play.column < NUM_COLUMNS && Stacked(s.columns[play.column], k) && k < 3
    requires forall c :: 0 <= c < NUM_COLUMNS ==> s.columns[c][3].None?
    ensures Step(s, play) == Success(Snapshot(Swapped(s.state), s.columns[play.column := s.columns[play.column][k := Some(v)]]))
  {
    AppendLandsOnTop(s.columns[play.column], k, v);
    var after := s.columns[play.column := s.columns[play.column][k := Some(v)]];
    var matrix := AsMatrix(after);
    NoWinWithoutRowThree(matrix, Player(X));
    NoWinWithoutRowThree(matrix, Player(O));
    NeverADraw(after);
  }

  lemma TowerGrows(v: CellValue, n: nat)
    requires n < NUM_ROWS
    ensures Tower(v, n)[n := Some(v)] == Tower(v, n + 1)
  {
  }

  lemma TowersShape(a: nat, b: nat)
    requires a <= NUM_ROWS && b <= NUM_ROWS
    ensures WellFormed(Towers(a, b))
    ensures Stacked(Towers(a, b)[0], a) && Stacked(Towers(a, b)[1], b)
    ensures a <= 3 && b <= 3 ==> forall c :: 0 <= c < NUM_COLUMNS ==> Towers(a, b)[c][3].None?
  {
  }

  lemma OStacksOnColumnZero(a: nat, b: nat)
    requires a < 3 && b <= 3
    ensures Step(Snapshot(O_TURN, Towers(a, b)), Play('O', 0)) == Success(Snapshot(X_TURN, Towers(a + 1, b)))
  {
    TowersShape(a, b);
    StepStacksWithoutWin(Snapshot(O_TURN, Towers(a, b)), Play('O', 0), O, a);
    TowerGrows(O, a);
    assert Towers(a, b)[0 := Towers(a, b)[0][a := Some(O)]] == Towers(a + 1, b);
  }

  lemma XStacksOnColumnOne(a: nat, b: nat)
    requires a <= 3 && b < 3
    ensures Step(Snapshot(X_TURN, Towers(a, b)), Play('X', 1)) == Success(Snapshot(O_TURN, Towers(a, b + 1)))
  {
    TowersShape(a, b);
    StepStacksWithoutWin(Snapshot(X_TURN, Towers(a, b)), Play('X', 1), X, b);
    TowerGrows(X, b);
    assert Towers(a, b)[1 := Towers(a, b)[1][b := Some(X)]] == Towers(a, b + 1);
  }

  lemma FourthOLands()
    ensures PlayAPlayResult(O_TURN, Towers(3, 3), Play('O', 0)) == Success(Towers(4, 3))
  {
    var before := Towers(3, 3);
    TowersShape(3, 3);
    AppendLandsOnTop(before[0], 3, O);
    TowerGrows(O, 3);
    assert before[0 := Tower(O, 4)] == Towers(4, 3);
  }

  lemma FourOsInColumnZeroWin()
    ensures PostPlayState(O_TURN, Towers(4, 3)) == O_WON
  {
    var after := Towers(4, 3);
    var matrix := AsMatrix(after);
    assert forall c :: 0 <= c < NUM_COLUMNS ==> after[c][3] != Some(X);
    NoWinWithoutRowThree(matrix, Player(X));
    assert WindowMatches(matrix[0], 0, Letter(O));
    assert HasPlayerWon(matrix, Player(O));
  }

  lemma FourthOWins()
    ensures Step(Snapshot(O_TURN, Towers(3, 3)), Play('O', 0)) == Success(Snapshot(O_WON, Towers(4, 3)))
  {
    FourthOLands();
    FourOsInColumnZeroWin();
  }

  /** `n` rounds of the stacking game: O plays column 0, then X plays column 1. */
  function Rounds(n: nat): seq<Option<Play>>
  {
    if n == 0 then [] else Rounds(n - 1) + [Some(Play('O', 0)), Some(Play('X', 1))]
  }

  lemma {:induction false} RoundsReplay(n: nat)
    requires n <= 3
    ensures Replay(Snapshot(O_TURN, Towers(0, 0)), Rounds(n)) == Replayed(Snapshot(O_TURN, Towers(n, n)), None)
  {
    if n > 0 {
      RoundsReplay(n - 1);
      ReplaySplits(Snapshot(O_TURN, Towers(0, 0)), Rounds(n - 1), [Some(Play('O', 0)), Some(Play('X', 1))]);
      OStacksOnColumnZero(n - 1, n - 1);
      XStacksOnColumnOne(n, n - 1);
    }
  }

  /** The stacking game of the vertical test, replayed from a new game: three rounds of O
      in column 0 and X in column 1, then O in column 0. Nobody wins until O's fourth piece
      lands in column 0, and then the state is O_WON. */
  lemma StackingGameOWins()
    ensures Replay(Initial(), Rounds(3) + [Some(Play('O', 0))]) == Replayed(Snapshot(O_WON, Towers(4, 3)), None)
  {
    assert Tower(O, 0) == Tower(X, 0) == EmptyColumns()[0];
    assert Towers(0, 0) == EmptyColumns();
    RoundsReplay(3);
    ReplaySplits(Initial(), Rounds(3), [Some(Play('O', 0))]);
    FourthOWins();
  }

  /** A new game rejects X's play: it is O's turn, and nothing changes. */
  lemma WrongPlayerFirst()
    ensures Replay(Initial(), [Some(Play('X', 0))]) ==
              Replayed(Initial(), Some(UnableToPerformAction(CannotHappen)))
  {
  }
}
