/** The event-line format (connect4/models/events.py): a play is written `P<player><column>`
    and read back by `parse_event`. */
module Events {
  import opened Wrappers
  import opened Types

  /** `Play`: who plays and in which column. The type hint names "X" and "O", but neither
      the dataclass nor `parse_event` checks it, so the player is any character. */
  datatype Play = Play(player: char, column: int)

  predicate IsDigit(c: char)
  {
    '0' <= c <= '9'
  }

  function DigitChar(d: nat): (c: char)
    requires d < 10
    ensures IsDigit(c)
  {
    ('0' as int + d) as char
  }

  function DigitValue(c: char): nat
    requires IsDigit(c)
  {
    c as int - '0' as int
  }

  /** `str(n)` for a non-negative integer: its decimal digits, most significant first. */
  function NatToString(n: nat): (s: string)
    ensures |s| >= 1
    ensures forall k :: 0 <= k < |s| ==> IsDigit(s[k])
    decreases n
  {
    if n < 10 then [DigitChar(n)] else NatToString(n / 10) + [DigitChar(n % 10)]
  }

  /** `str(i)` for any integer: a minus sign before the digits of a negative one. */
  function IntToString(i: int): string
  {
    if i < 0 then "-" + NatToString(-i) else NatToString(i)
  }

  /** Reads a string of decimal digits back as a number. */
  function DigitsValue(s: string): nat
    requires forall k :: 0 <= k < |s| ==> IsDigit(s[k])
  {
    if s == [] then 0 else 10 * DigitsValue(s[..|s| - 1]) + DigitValue(s[|s| - 1])
  }

  /** The most significant decimal digit of `n`. */
  function LeadingDigit(n: nat): (d: nat)
    ensures d < 10
    ensures n < 10 ==> d == n
    ensures n >= 10 ==> d != n
  {
    if n < 10 then n else LeadingDigit(n / 10)
  }

  /** `Play.__str__`: `f"P{self.player}{self.column}"`. */
  function Show(p: Play): (s: string)
    ensures |s| >= 3 && s[0] == 'P' && s[1] == p.player
    ensures IsDigit(s[2]) <==> p.column >= 0
  {
    "P" + [p.player] + IntToString(p.column)
  }

  /** `parse_event(line)`: a line starting with "P" becomes `Play(line[1], int(line[2]))`
      and anything after index 2 is ignored; any other line gives `None`. */
  function ParseEvent(line: string): (r: Result<Option<Play>, Error>)
    ensures r == Success(None) <==> |line| == 0 || line[0] != 'P'
    ensures r.Success? && r.value.Some? ==>
              && |line| >= 3 && r.value.value.player == line[1]
              && 0 <= r.value.value.column <= 9 && line[2] == DigitChar(r.value.value.column)
    ensures r.Failure? ==> (r.error == IndexError <==> |line| < 3)
    ensures r.Failure? ==> r.error in {IndexError, ValueError}
  {
    if |line| > 0 && line[0] == 'P' then
      if |line| < 3 then Failure(IndexError)
      else if IsDigit(line[2]) then Success(Some(Play(line[1], DigitValue(line[2]))))
      else Failure(ValueError)
    else Success(None)
  }

  // ---------------------------------------------------------------- properties

  /** `str` of a non-negative integer is a non-empty run of digits that reads back as the
      number, with no leading zero. */
  lemma {:induction false} NatToStringDigits(n: nat)
    ensures |NatToString(n)| >= 1
    ensures forall k :: 0 <= k < |NatToString(n)| ==> IsDigit(NatToString(n)[k])
    ensures DigitsValue(NatToString(n)) == n
    ensures NatToString(n)[0] == DigitChar(LeadingDigit(n))
    ensures |NatToString(n)| > 1 ==> NatToString(n)[0] != '0'
    decreases n
  {
    if n >= 10 {
      NatToStringDigits(n / 10);
      var s := NatToString(n);
      assert s[..|s| - 1] == NatToString(n / 10);
    }
  }

  /** The shape of a shown play: "P", then the player, then the digits of the column
      (after a minus sign when it is negative). */
  lemma ShowShape(p: Play)
    ensures var s := Show(p);
      && |s| >= 3 && s[0] == 'P' && s[1] == p.player
      && (p.column >= 0 ==> s[2..] == NatToString(p.column))
      && (p.column < 0 ==> s[2] == '-' && s[3..] == NatToString(-p.column))
  {
    if p.column >= 0 {
      NatToStringDigits(p.column);
      assert Show(p)[2..] == NatToString(p.column);
    } else {
      NatToStringDigits(-p.column);
      assert Show(p)[3..] == NatToString(-p.column);
    }
  }

  /** Round trip: a play with a single-digit column reads back as itself, whatever its
      player character. */
  lemma ParseShowRoundTrip(p: Play)
    requires 0 <= p.column <= 9
    ensures ParseEvent(Show(p)) == Success(Some(p))
  {
    assert Show(p) == ['P', p.player, DigitChar(p.column)];
  }

  /** A column of two or more digits does not round-trip: only its leading digit is read. */
  lemma ParseShowKeepsLeadingDigit(p: Play)
    requires p.column >= 10
    ensures ParseEvent(Show(p)) == Success(Some(Play(p.player, LeadingDigit(p.column))))
    ensures ParseEvent(Show(p)) != Success(Some(p))
  {
    ShowShape(p);
    NatToStringDigits(p.column);
    assert Show(p)[2] == NatToString(p.column)[0];
  }

  /** A negative column does not read back: `int("-")` raises `ValueError`. */
  lemma ParseShowNegative(p: Play)
    requires p.column < 0
    ensures ParseEvent(Show(p)) == Failure(ValueError)
  {
    ShowShape(p);
  }

  /** The cases of `parse_event`: a line not starting with "P" is no event, a "P" line shorter
      than three characters or with a non-digit at index 2 fails, and only the first three
      characters of a line matter. */
  lemma ParseEventCases(line: string)
    ensures (|line| == 0 || line[0] != 'P') <==> ParseEvent(line) == Success(None)
    ensures |line| > 0 && line[0] == 'P' && |line| < 3 ==> ParseEvent(line) == Failure(IndexError)
    ensures |line| >= 3 && line[0] == 'P' && !IsDigit(line[2]) ==> ParseEvent(line) == Failure(ValueError)
    ensures |line| >= 3 ==> ParseEvent(line) == ParseEvent(line[..3])
    ensures ParseEvent(line).Success? && ParseEvent(line).value.Some? ==>
              var p := ParseEvent(line).value.value;
              |line| >= 3 && p.player == line[1] && 0 <= p.column <= 9
  {
  }
}
