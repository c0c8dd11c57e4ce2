/**
 * The elapsed-time label of the record button (components/RecordButton.tsx):
 * whole minutes and the remaining seconds, each padded to two digits.
 */
module RecordTime {
  import opened Wrappers
  import opened Strings

  /** `formatTime(seconds)`: `${mins}:${secs}`, both `padStart(2, '0')`. */
  function FormatTime(seconds: nat): string {
    PadStart(NatToString(seconds / 60), 2, '0') + ":" + PadStart(NatToString(seconds % 60), 2, '0')
  }

  /** Reads a label back: digits, a colon, then exactly two digits worth less than 60. */
  function ParseTime(t: string): Option<nat> {
    if |t| >= 4 && t[|t| - 3] == ':' && AllDigits(t[..|t| - 3]) && AllDigits(t[|t| - 2..])
       && DigitsValue(t[|t| - 2..]) < 60
    then Some(DigitsValue(t[..|t| - 3]) * 60 + DigitsValue(t[|t| - 2..]))
    else None
  }

  lemma SplitAtColon(a: string, b: string)
    ensures var t := a + ":" + b;
      |t| == |a| + 1 + |b| && t[..|a|] == a && t[|a|] == ':' && t[|a| + 1..] == b
  {
    var t := a + ":" + b;
    assert t[..|a|] == a;
    assert t[|a| + 1..] == b;
  }

  /**
   * The label is at least two minute digits, a colon and exactly two second
   * digits; the minute digits read as `seconds / 60` and the second digits as
   * `seconds % 60`, so always 00 to 59.
   */
  lemma FormatTimeFields(seconds: nat)
    ensures var t := FormatTime(seconds);
      && |t| >= 5
      && t[|t| - 3] == ':'
      && AllDigits(t[..|t| - 3]) && DigitsValue(t[..|t| - 3]) == seconds / 60
      && AllDigits(t[|t| - 2..]) && DigitsValue(t[|t| - 2..]) == seconds % 60
  {
    var mins := PadStart(NatToString(seconds / 60), 2, '0');
    var secs := PadStart(NatToString(seconds % 60), 2, '0');
    NatToStringLength(seconds % 60);
    assert |secs| == 2;
    SplitAtColon(mins, secs);
    PaddedNatValue(seconds / 60, 2);
    PaddedNatValue(seconds % 60, 2);
  }

  /** Every label reads back as the number of seconds it was made from. */
  lemma FormatTimeRoundTrip(seconds: nat)
    ensures ParseTime(FormatTime(seconds)) == Some(seconds)
  {
    FormatTimeFields(seconds);
  }

  /** Different elapsed times never show the same label. */
  lemma FormatTimeInjective(a: nat, b: nat)
    requires FormatTime(a) == FormatTime(b)
    ensures a == b
  {
    FormatTimeRoundTrip(a);
    FormatTimeRoundTrip(b);
  }

  /**
   * The label is five characters exactly below 100 minutes; from there on
   * `padStart` does not truncate and the minutes take all their digits.
   */
  lemma FormatTimeLength(seconds: nat)
    ensures |FormatTime(seconds)| == 5 <==> seconds < 6000
    ensures seconds >= 600 ==> |FormatTime(seconds)| == |NatToString(seconds / 60)| + 3
  {
    NatToStringLength(seconds / 60);
    NatToStringLength(seconds % 60);
  }
}
