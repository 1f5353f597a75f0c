/**
  The progress dialog as a value: the bar's range maximum, its value and its
  format text, the lines of the log box, and whether the dialog was closed.
  Every slot of the dialog becomes a pure transition on this record; the time
  of day that `appendLog` stamps on a line is passed in.
 */
module ProgressWindow {
  import opened Wrappers
  import opened CppInt
  import opened Decimal
  import opened Clock
  import opened Seqs

  /** The log document's maximum block count: older lines are dropped first. */
  const MaximumBlockCount: nat := 1000
  const InitialRangeMax: int := 100
  const StartMessage: string := "开始执行强制执行操作..."
  const FinishMessage: string := "强制执行操作完成！"
  const ProgressPrefix: string := "进度："

  /** The bar keeps the widget's own format until `updateProgress` sets one. */
  datatype BarFormat = DefaultFormat | Custom(text: string)

  datatype Window = Window(rangeMax: int, value: int, format: BarFormat, log: seq<string>, closed: bool)

  /** The log never holds more lines than the document allows. */
  predicate Valid(w: Window) {
    |w.log| <= MaximumBlockCount
  }

  // ---------------------------------------------------------------- log lines

  /** A log line: the message stamped with "[HH:mm:ss] ". */
  function LogLine(t: TimeOfDay, message: string): (line: string)
    requires Clock.Valid(t)
    ensures |line| == 11 + |message|
    ensures line[0] == '[' && line[1..9] == HhMmSs(t) && line[9..11] == "] " && line[11..] == message
    ensures ParseLogLine(line) == Some((t, message))
  {
    "[" + HhMmSs(t) + "] " + message
  }

  /** Splits a log line back into its time stamp and message. */
  function ParseLogLine(line: string): Option<(TimeOfDay, string)> {
    if |line| >= 11 && line[0] == '[' && line[9..11] == "] " then
      match ParseHhMmSs(line[1..9])
      case Some(t) => Some((t, line[11..]))
      case None => None
    else None
  }

  // ---------------------------------------------------------------- percentage

  /**
    The percentage shown in the bar text: `value * 100 / maxValue` in C++
    integer division, 0 for an empty range. Within the range it lies in
    [0, 100] and reads 100 exactly when the bar is full.
   */
  function Percent(value: int, maxValue: int): (p: int)
    ensures maxValue <= 0 ==> p == 0
    ensures maxValue > 0 && value >= 0 ==> p * maxValue <= value * 100 < (p + 1) * maxValue
    ensures maxValue > 0 && value < 0 ==> (p - 1) * maxValue < value * 100 <= p * maxValue
    ensures 0 < maxValue && 0 <= value <= maxValue ==> 0 <= p <= 100 && (p == 100 <==> value == maxValue)
  {
    if maxValue > 0 then
      var p := Div(value * 100, maxValue);
      if value >= 0 then InRangePercent(value, maxValue, p); p else p
    else 0
  }

  /** A quotient of `value * 100` by a range maximum the value lies within is in [0, 100], and 100 only at the top. */
  lemma InRangePercent(value: int, maxValue: int, p: int)
    requires 0 < maxValue && value >= 0 && p * maxValue <= value * 100 < (p + 1) * maxValue
    ensures value <= maxValue ==> 0 <= p <= 100 && (p == 100 <==> value == maxValue)
  {
    if value <= maxValue {
      assert 0 * maxValue < (p + 1) * maxValue;
      CancelFactor(0, p + 1, maxValue);
      assert p * maxValue < 101 * maxValue;
      CancelFactor(p, 101, maxValue);
      if value == maxValue {
        assert 100 * maxValue < (p + 1) * maxValue;
        CancelFactor(100, p + 1, maxValue);
      } else {
        assert p * maxValue < 100 * maxValue;
        CancelFactor(p, 100, maxValue);
      }
    }
  }

  /** A larger value never shows a smaller percentage. */
  lemma PercentMonotone(v1: int, v2: int, maxValue: int)
    requires 0 < maxValue && v1 <= v2
    ensures Percent(v1, maxValue) <= Percent(v2, maxValue)
  {
    var p1, p2 := Percent(v1, maxValue), Percent(v2, maxValue);
    if v1 >= 0 {
      assert p1 * maxValue < (p2 + 1) * maxValue;
      CancelFactor(p1, p2 + 1, maxValue);
    } else if v2 < 0 {
      assert (p1 - 1) * maxValue < p2 * maxValue;
      CancelFactor(p1 - 1, p2, maxValue);
    }
  }

  // ---------------------------------------------------------------- bar text

  /** The bar text "进度：<value>/<max> (<percent>%)". */
  function ProgressText(value: int, maxValue: int, percent: int): string {
    ProgressPrefix + IntText(value) + "/" + RangeAndPercentText(maxValue, percent)
  }

  function RangeAndPercentText(maxValue: int, percent: int): string {
    IntText(maxValue) + " (" + IntText(percent) + "%)"
  }

  /** Reads "<max> (<percent>%)", the part of a bar text after the '/'. */
  function ParseRangeAndPercent(tail: string): Option<(int, int)> {
    match IndexOf(tail, ' ')
    case None => None
    case Some(space) =>
      if |tail| < space + 4 || tail[space..space + 2] != " (" || tail[|tail| - 2..] != "%)" then None
      else
        match (ParseInt(tail[..space]), ParseInt(tail[space + 2..|tail| - 2]))
        case (Some(m), Some(p)) => Some((m, p))
        case _ => None
  }

  /** Reads "<value>/<max> (<percent>%)", the part of a bar text after its prefix. */
  function ParseValueAndRange(rest: string): Option<(int, int, int)> {
    match IndexOf(rest, '/')
    case None => None
    case Some(slash) =>
      match (ParseInt(rest[..slash]), ParseRangeAndPercent(rest[slash + 1..]))
      case (Some(v), Some((m, p))) => Some((v, m, p))
      case _ => None
  }

  /** Reads the three numbers back out of a bar text. */
  function ParseProgressText(s: string): Option<(int, int, int)> {
    if |s| < |ProgressPrefix| || s[..|ProgressPrefix|] != ProgressPrefix then None
    else ParseValueAndRange(s[|ProgressPrefix|..])
  }

  /** Where the pieces of "<m> (<p>%)" sit. */
  lemma RangeAndPercentPieces(m: string, p: string)
    requires ' ' !in m
    ensures var tail := m + " (" + p + "%)";
      && IndexOf(tail, ' ') == Some(|m|)
      && |tail| >= |m| + 4 && tail[|m|..|m| + 2] == " (" && tail[|tail| - 2..] == "%)"
      && tail[..|m|] == m && tail[|m| + 2..|tail| - 2] == p
  {
    var tail := m + " (" + p + "%)";
    assert tail == m + [' '] + ("(" + p + "%)");
    IndexOfAfter(m, ' ', "(" + p + "%)");
    assert tail[..|m|] == m;
    assert tail[|m| + 2..|tail| - 2] == p;
  }

  /** Reading "<m> (<p>%)" gives back the numbers of `m` and `p` when `m` has no space. */
  lemma ParseRangeAndPercentOf(m: string, p: string, maxValue: int, percent: int)
    requires ' ' !in m && ParseInt(m) == Some(maxValue) && ParseInt(p) == Some(percent)
    ensures ParseRangeAndPercent(m + " (" + p + "%)") == Some((maxValue, percent))
  {
    RangeAndPercentPieces(m, p);
  }

  lemma RangeAndPercentRoundTrip(maxValue: int, percent: int)
    ensures ParseRangeAndPercent(RangeAndPercentText(maxValue, percent)) == Some((maxValue, percent))
  {
    IntTextRoundTrip(maxValue);
    IntTextRoundTrip(percent);
    IntTextAvoids(maxValue, ' ');
    ParseRangeAndPercentOf(IntText(maxValue), IntText(percent), maxValue, percent);
  }

  /** Reading "<v>/<tail>" gives back the number of `v` and the pair of `tail` when `v` has no '/'. */
  lemma ParseValueAndRangeOf(v: string, tail: string, value: int, maxValue: int, percent: int)
    requires '/' !in v && ParseInt(v) == Some(value)
    requires ParseRangeAndPercent(tail) == Some((maxValue, percent))
    ensures ParseValueAndRange(v + "/" + tail) == Some((value, maxValue, percent))
  {
    ValueAndRangePieces(v, tail);
  }

  /** Where the pieces of "<v>/<tail>" sit. */
  lemma ValueAndRangePieces(v: string, tail: string)
    requires '/' !in v
    ensures var rest := v + "/" + tail;
      && IndexOf(rest, '/') == Some(|v|) && rest[..|v|] == v && rest[|v| + 1..] == tail
  {
    var rest := v + "/" + tail;
    IndexOfAfter(v, '/', tail);
    assert rest[..|v|] == v;
    assert rest[|v| + 1..] == tail;
  }

  /** Reading a bar text gives back what follows its prefix. */
  lemma ParseProgressTextOf(v: string, tail: string)
    ensures ParseProgressText(ProgressPrefix + v + "/" + tail) == ParseValueAndRange(v + "/" + tail)
  {
    var s := ProgressPrefix + v + "/" + tail;
    assert s[..|ProgressPrefix|] == ProgressPrefix;
    assert s[|ProgressPrefix|..] == v + "/" + tail;
  }

  /** The bar text determines the value, the maximum and the percentage it was made from. */
  lemma ProgressTextRoundTrip(value: int, maxValue: int, percent: int)
    ensures ParseProgressText(ProgressText(value, maxValue, percent)) == Some((value, maxValue, percent))
  {
    var v, tail := IntText(value), RangeAndPercentText(maxValue, percent);
    assert ParseInt(v) == Some(value) by {
      IntTextRoundTrip(value);
    }
    assert '/' !in v by {
      IntTextAvoids(value, '/');
    }
    assert ParseRangeAndPercent(tail) == Some((maxValue, percent)) by {
      RangeAndPercentRoundTrip(maxValue, percent);
    }
    assert ParseValueAndRange(v + "/" + tail) == Some((value, maxValue, percent)) by {
      ParseValueAndRangeOf(v, tail, value, maxValue, percent);
    }
    ParseProgressTextOf(v, tail);
  }

  /** Only the shortest text "<m> (<p>%)" reads back as `(m, p)`. */
  lemma RangeAndPercentExact(tail: string, maxValue: int, percent: int)
    requires ParseRangeAndPercent(tail) == Some((maxValue, percent))
    ensures tail == RangeAndPercentText(maxValue, percent)
  {
    var space := IndexOf(tail, ' ').value;
    ParseIntExact(tail[..space], maxValue);
    ParseIntExact(tail[space + 2..|tail| - 2], percent);
    SplitFour(tail, space, space + 2, |tail| - 2);
  }

  /** Only the shortest text "<v>/<m> (<p>%)" reads back as `(v, m, p)`. */
  lemma ValueAndRangeExact(rest: string, value: int, maxValue: int, percent: int)
    requires ParseValueAndRange(rest) == Some((value, maxValue, percent))
    ensures rest == IntText(value) + "/" + RangeAndPercentText(maxValue, percent)
  {
    var slash := IndexOf(rest, '/').value;
    ParseIntExact(rest[..slash], value);
    RangeAndPercentExact(rest[slash + 1..], maxValue, percent);
    SplitAround(rest, slash);
  }

  /**
    A bar text that reads back as `(v, m, p)` is exactly
    "进度：<v>/<m> (<p>%)": no other spelling of the numbers is accepted.
   */
  lemma ProgressTextExact(s: string, value: int, maxValue: int, percent: int)
    requires ParseProgressText(s) == Some((value, maxValue, percent))
    ensures s == ProgressText(value, maxValue, percent)
  {
    ValueAndRangeExact(s[|ProgressPrefix|..], value, maxValue, percent);
    PrependThree(ProgressPrefix, IntText(value), "/", RangeAndPercentText(maxValue, percent), s);
  }

  // ---------------------------------------------------------------- transitions

  /**
    Adds one finished line at the end of the log document. A document that
    already holds `MaximumBlockCount` lines drops its oldest one.
   */
  function AppendLine(w: Window, line: string): (r: Window)
    ensures |r.log| == if |w.log| < MaximumBlockCount then |w.log| + 1 else MaximumBlockCount
    ensures r.log[|r.log| - 1] == line
    ensures |w.log| < MaximumBlockCount ==> r.log[..|w.log|] == w.log
    ensures |w.log| >= MaximumBlockCount ==> r.log[..|r.log| - 1] == w.log[|w.log| - (MaximumBlockCount - 1)..]
    ensures r.rangeMax == w.rangeMax && r.value == w.value && r.format == w.format && r.closed == w.closed
  {
    if |w.log| < MaximumBlockCount then
      w.(log := w.log + [line])
    else
      w.(log := w.log[|w.log| - (MaximumBlockCount - 1)..] + [line])
  }

  /** `appendLog(message)` at time `t`: the new last line reads back as `t` and `message`. */
  function AppendLog(w: Window, t: TimeOfDay, message: string): (r: Window)
    requires Clock.Valid(t)
    ensures |r.log| >= 1 && ParseLogLine(r.log[|r.log| - 1]) == Some((t, message))
  {
    AppendLine(w, LogLine(t, message))
  }

  /** The constructed dialog at time `t`: range 0..100, value 0, the widget's own format, one start line. */
  function Init(t: TimeOfDay): (r: Window)
    requires Clock.Valid(t)
    ensures Valid(r) && !r.closed
    ensures r.rangeMax == InitialRangeMax && r.value == 0 && r.format == DefaultFormat
    ensures |r.log| == 1 && ParseLogLine(r.log[0]) == Some((t, StartMessage))
  {
    AppendLog(Window(InitialRangeMax, 0, DefaultFormat, [], false), t, StartMessage)
  }

  /**
    `updateProgress(value, maxValue)`: the range maximum, the value and the bar
    text change, nothing else does. The arguments are C++ `int`s, and when
    the range is positive the product `value * 100` must not overflow.
   */
  function UpdateProgress(w: Window, value: int, maxValue: int): (r: Window)
    requires IsInt(value) && IsInt(maxValue) && (maxValue > 0 ==> IsInt(value * 100))
    ensures r.rangeMax == maxValue && r.value == value
    ensures r.format.Custom? && ParseProgressText(r.format.text) == Some((value, maxValue, Percent(value, maxValue)))
    ensures r.log == w.log && r.closed == w.closed
  {
    ProgressTextRoundTrip(value, maxValue, Percent(value, maxValue));
    w.(rangeMax := maxValue, value := value, format := Custom(ProgressText(value, maxValue, Percent(value, maxValue))))
  }

  /** `finishProgress()` at time `t`: the completion line is the last log line, then the dialog closes. */
  function FinishProgress(w: Window, t: TimeOfDay): (r: Window)
    requires Clock.Valid(t)
    ensures r.closed
    ensures |r.log| >= 1 && ParseLogLine(r.log[|r.log| - 1]) == Some((t, FinishMessage))
    ensures |w.log| < MaximumBlockCount ==> |r.log| == |w.log| + 1 && r.log[..|w.log|] == w.log
    ensures r.rangeMax == w.rangeMax && r.value == w.value && r.format == w.format
  {
    AppendLog(w, t, FinishMessage).(closed := true)
  }

  // ---------------------------------------------------------------- log history

  /** Appends the lines one after the other, as a series of `appendLog` calls does. */
  function AppendAll(w: Window, lines: seq<string>): Window {
    if |lines| == 0 then w
    else AppendLine(AppendAll(w, lines[..|lines| - 1]), lines[|lines| - 1])
  }

  /** One append keeps the newest lines of the old log followed by the new line. */
  lemma AppendLineKeepsNewest(w: Window, line: string)
    ensures AppendLine(w, line).log == Newest(w.log + [line], MaximumBlockCount)
  {
    var all := w.log + [line];
    if |w.log| >= MaximumBlockCount {
      assert all[|all| - MaximumBlockCount..] == w.log[|w.log| - (MaximumBlockCount - 1)..] + [line];
    }
  }

  lemma KeepsNewestStep(before: Window, earlier: seq<string>, line: string)
    requires before.log == Newest(earlier, MaximumBlockCount)
    ensures AppendLine(before, line).log == Newest(earlier + [line], MaximumBlockCount)
  {
    AppendLineKeepsNewest(before, line);
    NewestAfterNewest(earlier, [line], MaximumBlockCount);
  }

  /**
    After any series of appends the log holds exactly the most recent lines,
    at most `MaximumBlockCount` of them, oldest first.
   */
  lemma {:induction false} AppendAllKeepsNewest(w: Window, lines: seq<string>)
    requires Valid(w)
    ensures Valid(AppendAll(w, lines))
    ensures AppendAll(w, lines).log == Newest(w.log + lines, MaximumBlockCount)
  {
    if |lines| == 0 {
      assert w.log + lines == w.log;
    } else {
      var init, line := lines[..|lines| - 1], lines[|lines| - 1];
      AppendAllKeepsNewest(w, init);
      KeepsNewestStep(AppendAll(w, init), w.log + init, line);
      AppendAllStep(w, lines);
    }
  }

  lemma AppendAllStep(w: Window, lines: seq<string>)
    requires |lines| > 0
    ensures var init, line := lines[..|lines| - 1], lines[|lines| - 1];
      && AppendAll(w, lines) == AppendLine(AppendAll(w, init), line)
      && w.log + lines == w.log + init + [line]
  {
    var init, line := lines[..|lines| - 1], lines[|lines| - 1];
    assert lines == init + [line];
  }
}
