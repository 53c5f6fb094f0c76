/** The text of the event log (connect4/models/game.py, `save_events` and `load_events`):
    the events are written one per line and read back line by line. Only the text is
    modelled; reading and writing the file is not. */
module History {
  import opened Wrappers
  import opened Types
  import opened Events

  /** `str(event)` for an entry of the event list: a play shows as `P<player><column>`;
      a `None` left by `parse_event` shows as "None". */
  function ShowEvent(e: Option<Play>): string
  {
    match e
    case None => "None"
    case Some(p) => Show(p)
  }

  /** `"\n".join(lines)`. */
  function Join(lines: seq<string>): string
  {
    if |lines| == 0 then ""
    else if |lines| == 1 then lines[0]
    else lines[0] + "\n" + Join(lines[1..])
  }

  /** The text `save_events` writes: every event shown, joined with newlines. */
  function SaveText(events: seq<Option<Play>>): (t: string)
    ensures t == "" <==> events == []
  {
    assert events != [] ==> |ShowEvent(events[0])| > 0;
    Join(seq(|events|, i requires 0 <= i < |events| => ShowEvent(events[i])))
  }

  /** The characters at which Python's `str.splitlines` breaks a line. */
  predicate IsLineBreak(c: char)
  {
    c in {'\n', '\r', '\U{B}', '\U{C}', '\U{1C}', '\U{1D}', '\U{1E}', '\U{85}', '\U{2028}', '\U{2029}'}
  }

  /** Index of the first line break of `text`, or `|text|` when there is none. */
  function FirstBreak(text: string): (i: nat)
    ensures i <= |text|
    ensures forall k :: 0 <= k < i ==> !IsLineBreak(text[k])
    ensures i < |text| ==> IsLineBreak(text[i])
  {
    if text == [] || IsLineBreak(text[0]) then 0 else 1 + FirstBreak(text[1..])
  }

  /** `text.splitlines()`: the lines without their breaks, "\r\n" counting as one break and
      a final break not starting an empty line. */
  function SplitLines(text: string): (r: seq<string>)
    ensures r == [] <==> text == []
    ensures forall i, k :: 0 <= i < |r| && 0 <= k < |r[i]| ==> !IsLineBreak(r[i][k])
    decreases |text|
  {
    if text == [] then []
    else
      var i := FirstBreak(text);
      if i == |text| then [text]
      else
        var next := if text[i] == '\r' && i + 1 < |text| && text[i + 1] == '\n' then i + 2 else i + 1;
        [text[..i]] + SplitLines(text[next..])
  }

  /** `[parse_event(line) for line in lines]`: the first line that raises aborts the load. */
  function ParseAll(lines: seq<string>): (r: Result<seq<Option<Play>>, Error>)
    ensures r.Success? ==> |r.value| == |lines|
    ensures r.Success? ==> forall i :: 0 <= i < |lines| ==> ParseEvent(lines[i]) == Success(r.value[i])
    ensures r.Failure? <==> exists i :: 0 <= i < |lines| && ParseEvent(lines[i]).Failure?
  {
    if lines == [] then Success([])
    else match ParseEvent(lines[0])
      case Failure(e) => Failure(e)
      case Success(e) =>
        match ParseAll(lines[1..])
        case Failure(err) => Failure(err)
        case Success(rest) => Success([e] + rest)
  }

  /** The events `load_events` reads from the text of the log. */
  function LoadText(text: string): (r: Result<seq<Option<Play>>, Error>)
    ensures text == "" ==> r == Success([])
    ensures r.Success? ==> |r.value| == |SplitLines(text)|
    ensures r.Success? ==> forall i :: 0 <= i < |r.value| ==> ParseEvent(SplitLines(text)[i]) == Success(r.value[i])
  {
    ParseAll(SplitLines(text))
  }

  /** An event the log reproduces: no play, or a play whose player is not a line break
      and whose column is a single digit. */
  predicate RoundTrips(e: Option<Play>)
  {
    e.Some? ==> !IsLineBreak(e.value.player) && 0 <= e.value.column <= 9
  }

  // ---------------------------------------------------------------- properties

  /** `splitlines` undoes `"\n".join` on non-empty lines free of line breaks. */
  lemma {:induction false} SplitLinesJoin(lines: seq<string>)
    requires forall i :: 0 <= i < |lines| ==> |lines[i]| > 0
    requires forall i, k :: 0 <= i < |lines| && 0 <= k < |lines[i]| ==> !IsLineBreak(lines[i][k])
    ensures SplitLines(Join(lines)) == lines
    decreases |lines|
  {
    if |lines| == 1 {
      assert FirstBreak(lines[0]) == |lines[0]|;
    } else if |lines| > 1 {
      SplitFirstLine(lines[0], Join(lines[1..]));
      SplitLinesJoin(lines[1..]);
    }
  }

  /** A line free of breaks followed by "\n" is split off as the first line. */
  lemma SplitFirstLine(line: string, rest: string)
    requires forall k :: 0 <= k < |line| ==> !IsLineBreak(line[k])
    ensures SplitLines(line + "\n" + rest) == [line] + SplitLines(rest)
  {
    var text := line + "\n" + rest;
    FirstBreakAt(line, "\n" + rest);
    assert text == line + ("\n" + rest);
    var i := FirstBreak(text);
    assert i == |line| && text[i] == '\n';
    assert text[..i] == line;
    assert text[i + 1..] == rest;
    assert SplitLines(text) == [text[..i]] + SplitLines(text[i + 1..]);
  }

  lemma {:induction false} FirstBreakAt(line: string, rest: string)
    requires forall k :: 0 <= k < |line| ==> !IsLineBreak(line[k])
    requires rest != [] && IsLineBreak(rest[0])
    ensures FirstBreak(line + rest) == |line|
    decreases |line|
  {
    if line != [] {
      assert (line + rest)[1..] == line[1..] + rest;
      FirstBreakAt(line[1..], rest);
    }
  }

  /** Round trip of the whole log: joining the shown events with newlines, splitting the
      text into lines and parsing every line gives back the events, the empty log included. */
  lemma {:induction false} LoadSaveRoundTrip(events: seq<Option<Play>>)
    requires forall i :: 0 <= i < |events| ==> RoundTrips(events[i])
    ensures LoadText(SaveText(events)) == Success(events)
  {
    var lines := seq(|events|, i requires 0 <= i < |events| => ShowEvent(events[i]));
    forall i | 0 <= i < |lines|
      ensures |lines[i]| > 0
      ensures forall k :: 0 <= k < |lines[i]| ==> !IsLineBreak(lines[i][k])
    {
      if events[i].Some? {
        var p := events[i].value;
        assert lines[i] == ['P', p.player, DigitChar(p.column)];
      }
    }
    SplitLinesJoin(lines);
    ParseAllShown(events);
  }

  lemma {:induction false} ParseAllShown(events: seq<Option<Play>>)
    requires forall i :: 0 <= i < |events| ==> RoundTrips(events[i])
    ensures ParseAll(seq(|events|, i requires 0 <= i < |events| => ShowEvent(events[i]))) == Success(events)
    decreases |events|
  {
    if events != [] {
      var lines := seq(|events|, i requires 0 <= i < |events| => ShowEvent(events[i]));
      if events[0].Some? {
        ParseShowRoundTrip(events[0].value);
      }
      assert lines[1..] == seq(|events[1..]|, i requires 0 <= i < |events[1..]| => ShowEvent(events[1..][i]));
      ParseAllShown(events[1..]);
      assert [events[0]] + events[1..] == events;
    }
  }
}
