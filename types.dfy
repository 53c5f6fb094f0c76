/** The small enumerations shared by the whole engine: the two piece kinds, the five
    game states and the exception classes the engine raises. */
module Types {

  /** `CellValue`: the two kinds of piece. */
  datatype CellValue = X | O

  /** The enum value of a piece, `CellValue.X.value == "X"`, as one character. */
  function Letter(v: CellValue): (c: char)
    ensures c == 'X' <==> v == X
    ensures c == 'O' <==> v == O
  {
    match v
    case X => 'X'
    case O => 'O'
  }

  /** `GameState`: whose turn it is, or how the game ended. */
  datatype GameState = O_TURN | X_TURN | O_WON | X_WON | DRAW

  /** Why an `UnableToPerformActionError` was raised. */
  datatype Reason =
    | WrongTurn       // `Grid.place` called outside O_TURN / X_TURN
    | ColumnFull      // `Column.append` found no empty cell
    | CannotHappen    // `play_events` met a play the validator rejects

  /** The exceptions the engine raises: `UnableToPerformActionError`; the built-in
      `ValueError`, raised by `Grid.place` for a bad column index and by `int` in
      `parse_event` for a column character that is not a digit; and the built-in
      `IndexError`, raised by `parse_event` for a line too short to index. */
  datatype Error = UnableToPerformAction(reason: Reason) | ValueError | IndexError
}
