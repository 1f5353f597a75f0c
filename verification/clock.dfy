/**
  Wall-clock time of day as `QTime::toString("HH:mm:ss")` renders it: two
  zero-padded digits each for hour (0-23), minute and second, separated by ':'.
  The clock itself is not read here; callers pass the time in.
 */
module Clock {
  import opened Wrappers
  import opened Decimal

  datatype TimeOfDay = TimeOfDay(hour: nat, minute: nat, second: nat)

  predicate Valid(t: TimeOfDay) {
    t.hour < 24 && t.minute < 60 && t.second < 60
  }

  /** Zero-padded two-digit text of `n`. */
  function TwoDigits(n: nat): (s: string)
    requires n < 100
    ensures |s| == 2 && AllDigits(s)
    ensures DigitsValue(s) == n
  {
    var s := [DigitChar(n / 10), DigitChar(n % 10)];
    assert s[..1] == [s[0]] && [s[0]][..0] == [];
    assert DigitsValue([s[0]]) == n / 10;
    s
  }

  /** The "HH:mm:ss" text of a time of day. */
  function HhMmSs(t: TimeOfDay): (s: string)
    requires Valid(t)
    ensures |s| == 8 && s[2] == ':' && s[5] == ':'
    ensures s[0..2] == TwoDigits(t.hour) && s[3..5] == TwoDigits(t.minute) && s[6..8] == TwoDigits(t.second)
    ensures ParseHhMmSs(s) == Some(t)
  {
    TwoDigits(t.hour) + ":" + TwoDigits(t.minute) + ":" + TwoDigits(t.second)
  }

  /** Reads "HH:mm:ss" back into a valid time of day. */
  function ParseHhMmSs(s: string): (r: Option<TimeOfDay>)
    ensures r.Some? ==> Valid(r.value)
  {
    if |s| == 8 && s[2] == ':' && s[5] == ':'
       && AllDigits(s[0..2]) && AllDigits(s[3..5]) && AllDigits(s[6..8])
    then
      var t := TimeOfDay(DigitsValue(s[0..2]), DigitsValue(s[3..5]), DigitsValue(s[6..8]));
      if Valid(t) then Some(t) else None
    else None
  }

}
