/**
  The worker thread that closes the classroom-control processes, as the
  sequence of observable events its `run()` produces: log lines, progress
  pairs, external commands started (waited on with a time-out, or detached),
  pauses, and the single completion signal.

  Command output is only written to the debug stream and never influences
  what happens next, so the run is a pure function of the process map (its
  entries in the map's iteration order) and the round count.
 */
module KillProcessThread {
  import opened Wrappers
  import opened CppInt
  import opened Decimal

  /** Round count when the constructor is given none. */
  const DefaultRounds: int := 3
  /** Progress units that one round is worth. */
  const ProgressPerRound: int := 100
  /** Time-out for each waited command, in milliseconds. */
  const CommandTimeoutMs: nat := 2000
  /** Pause after each process, in milliseconds. */
  const TargetPauseMs: nat := 200
  /** Pause after each round, in milliseconds. */
  const RoundPauseMs: nat := 1000

  const AllRoundsDoneText: string := "所有轮次执行完成！"
  const ElevationPrefix: string := "Start-Process cmd -ArgumentList '/c "
  const ElevationSuffix: string := "' -Verb RunAs"

  /** One entry of the process map: the executable name and the name shown to the user. */
  datatype Entry = Entry(processName: string, displayName: string)

  /**
    How a command is started: with `waitForFinished(timeoutMs)` after it, or
    detached. A waited command still running at the time-out is not stopped
    there; what happens to it afterwards is not part of the trace.
   */
  datatype Wait = Waited(timeoutMs: nat) | Detached

  /** An external program with its argument list. */
  datatype Command = Command(program: string, args: seq<string>, wait: Wait)

  datatype Event =
    | Log(line: Line)
    | Progress(current: int, total: int)
    | Issue(step: Step)
    | Pause(ms: nat)
    | FinishedKill

  /** A map has each key once; the thread itself never checks this. */
  predicate DistinctKeys(entries: seq<Entry>) {
    forall i, j :: 0 <= i < j < |entries| ==> entries[i].processName != entries[j].processName
  }

  /** The round count is a C++ `int` and the total progress `rounds * 100` does not overflow. */
  predicate ValidRounds(rounds: int) {
    IsInt(rounds * ProgressPerRound)
  }

  /** How many times the round loop runs: none when `rounds` is not positive. */
  function RoundCount(rounds: int): nat {
    if rounds < 0 then 0 else rounds
  }

  // ---------------------------------------------------------------- log lines

  /** What a log line reports; `LineText` renders it as the thread words it. */
  datatype Line =
    | RoundStarted(round: int)
    | Closing(entry: Entry)
    | Executed(processName: string)
    | RoundFinished(round: int)
    | AllRoundsDone

  const RoundStartedPrefix: string := "===== 执行第"
  const RoundStartedSuffix: string := "轮全量进程关闭 ====="
  const RoundFinishedPrefix: string := "第"
  const RoundFinishedSuffix: string := "轮关闭完成，等待1秒..."
  const ClosingPrefix: string := "正在关闭 "
  const ExecutedPrefix: string := "已执行指令："

  /** The command line that is run elevated, and echoed in the log, for a process. */
  function KillCommandLine(processName: string): string {
    "taskkill /F /T /IM " + processName
  }

  /** The line as the thread words it; its first character tells its kind. */
  function LineText(l: Line): (s: string)
    ensures |s| > 0 && s[0] == LeadChar(l)
  {
    match l
    case RoundStarted(round) => RoundStartedPrefix + IntText(round) + RoundStartedSuffix
    case Closing(e) => ClosingPrefix + e.displayName + "（进程：" + e.processName + "）"
    case Executed(processName) => ExecutedPrefix + KillCommandLine(processName)
    case RoundFinished(round) => RoundFinishedPrefix + IntText(round) + RoundFinishedSuffix
    case AllRoundsDone => AllRoundsDoneText
  }

  /** The round number in a round's start or done line, read back from the text. */
  function RoundOfText(s: string): Option<int> {
    if |s| >= |RoundStartedPrefix| + |RoundStartedSuffix|
       && s[..|RoundStartedPrefix|] == RoundStartedPrefix
       && s[|s| - |RoundStartedSuffix|..] == RoundStartedSuffix
    then ParseInt(s[|RoundStartedPrefix|..|s| - |RoundStartedSuffix|])
    else if |s| >= |RoundFinishedPrefix| + |RoundFinishedSuffix|
       && s[..|RoundFinishedPrefix|] == RoundFinishedPrefix
       && s[|s| - |RoundFinishedSuffix|..] == RoundFinishedSuffix
    then ParseInt(s[|RoundFinishedPrefix|..|s| - |RoundFinishedSuffix|])
    else None
  }

  /** The character each kind of line opens with. */
  function LeadChar(l: Line): char {
    match l
    case RoundStarted(_) => '='
    case Closing(_) => '正'
    case Executed(_) => '已'
    case RoundFinished(_) => '第'
    case AllRoundsDone => '所'
  }

  /** Lines of different kinds open with different characters, so they never read alike. */
  lemma LineKinds(a: Line, b: Line)
    ensures LeadChar(a) == LeadChar(b) <==>
      (a.RoundStarted? == b.RoundStarted? && a.Closing? == b.Closing?
       && a.Executed? == b.Executed? && a.RoundFinished? == b.RoundFinished? && a.AllRoundsDone? == b.AllRoundsDone?)
    ensures LeadChar(a) != LeadChar(b) ==> LineText(a) != LineText(b)
  {
  }

  /** The round number of a round's start and done lines can be read back from the text. */
  lemma RoundOfTextRoundTrip(round: int)
    ensures RoundOfText(LineText(RoundStarted(round))) == Some(round)
    ensures RoundOfText(LineText(RoundFinished(round))) == Some(round)
  {
    var n := IntText(round);
    IntTextRoundTrip(round);
    var s := LineText(RoundStarted(round));
    assert s[..|RoundStartedPrefix|] == RoundStartedPrefix;
    assert s[|s| - |RoundStartedSuffix|..] == RoundStartedSuffix;
    assert s[|RoundStartedPrefix|..|s| - |RoundStartedSuffix|] == n;
    var d := LineText(RoundFinished(round));
    assert d[0] == '第';
    assert d[..|RoundStartedPrefix|] != RoundStartedPrefix by {
      assert RoundStartedPrefix[0] == '=';
    }
    assert d[..|RoundFinishedPrefix|] == RoundFinishedPrefix;
    assert d[|d| - |RoundFinishedSuffix|..] == RoundFinishedSuffix;
    assert d[|RoundFinishedPrefix|..|d| - |RoundFinishedSuffix|] == n;
  }

  // ---------------------------------------------------------------- commands

  /** First strategy: a forced tree kill by image name. */
  function TaskkillCommand(processName: string): Command {
    Command("taskkill", ["/F", "/T", "/IM", processName], Waited(CommandTimeoutMs))
  }

  /** Second strategy: delete the process through WMI. */
  function WmicCommand(processName: string): Command {
    Command("wmic", ["process", "where", "name='" + processName + "'", "delete"], Waited(CommandTimeoutMs))
  }

  /**
    `runCommandAsAdmin(command)`: a detached PowerShell that starts `cmd /c
    command` elevated. Nothing waits for it, and the command line can be read
    back out of the arguments.
   */
  function RunCommandAsAdmin(command: string): (c: Command)
    ensures c.program == "powershell" && c.wait == Detached
    ensures |c.args| == 2 && c.args[0] == "-Command"
    ensures ElevatedCommandLine(c) == Some(command)
  {
    var arg := ElevationPrefix + command + ElevationSuffix;
    assert arg[..|ElevationPrefix|] == ElevationPrefix;
    assert arg[|arg| - |ElevationSuffix|..] == ElevationSuffix;
    assert arg[|ElevationPrefix|..|arg| - |ElevationSuffix|] == command;
    Command("powershell", ["-Command", arg], Detached)
  }

  /** The command line inside an elevating PowerShell call, if `c` is one. */
  function ElevatedCommandLine(c: Command): Option<string> {
    if c.program == "powershell" && c.wait == Detached && |c.args| == 2 && c.args[0] == "-Command"
       && |c.args[1]| >= |ElevationPrefix| + |ElevationSuffix|
       && c.args[1][..|ElevationPrefix|] == ElevationPrefix
       && c.args[1][|c.args[1]| - |ElevationSuffix|..] == ElevationSuffix
    then Some(c.args[1][|ElevationPrefix|..|c.args[1]| - |ElevationSuffix|])
    else None
  }

  /** The three ways the thread tries to end a process, in the order it tries them. */
  datatype Step =
    | Taskkill(processName: string)
    | Wmic(processName: string)
    | ElevatedKill(processName: string)

  /** The external command a step starts. */
  function CommandOf(s: Step): Command {
    match s
    case Taskkill(n) => TaskkillCommand(n)
    case Wmic(n) => WmicCommand(n)
    case ElevatedKill(n) => RunCommandAsAdmin(KillCommandLine(n))
  }

  function TargetSteps(processName: string): seq<Step> {
    [Taskkill(processName), Wmic(processName), ElevatedKill(processName)]
  }

  // ---------------------------------------------------------------- trace

  /** `killSingleProcess`: announce, issue the three commands, report the command line. */
  function KillSingleProcess(e: Entry): seq<Event> {
    var n := e.processName;
    [Log(Closing(e)), Issue(Taskkill(n)), Issue(Wmic(n)), Issue(ElevatedKill(n)), Log(Executed(n))]
  }

  /** One pass of the inner loop: the process, then the short pause. */
  function Unit(e: Entry): seq<Event> {
    KillSingleProcess(e) + [Pause(TargetPauseMs)]
  }

  /** The inner loop over the map entries, in order. */
  function TargetsTrace(entries: seq<Entry>): seq<Event> {
    if |entries| == 0 then []
    else TargetsTrace(entries[..|entries| - 1]) + Unit(entries[|entries| - 1])
  }

  /** What a round emits before touching any process. */
  function RoundHead(round: int, total: int): seq<Event> {
    [Log(RoundStarted(round)), Progress(round * ProgressPerRound, total)]
  }

  /** What a round emits after the last process. */
  function RoundTail(round: int): seq<Event> {
    [Log(RoundFinished(round)), Pause(RoundPauseMs)]
  }

  function RoundTrace(entries: seq<Entry>, round: int, total: int): seq<Event> {
    RoundHead(round, total) + TargetsTrace(entries) + RoundTail(round)
  }

  /** Rounds 1..n, in order. */
  function RoundsTrace(entries: seq<Entry>, n: nat, total: int): seq<Event> {
    if n == 0 then [] else RoundsTrace(entries, n - 1, total) + RoundTrace(entries, n, total)
  }

  /** What `run()` emits after the round loop. */
  function Epilogue(total: int): seq<Event> {
    [Log(AllRoundsDone), Progress(total, total), FinishedKill]
  }

  /** The whole event sequence of `run()`. */
  function Trace(entries: seq<Entry>, rounds: int): seq<Event>
    requires ValidRounds(rounds)
  {
    var total := rounds * ProgressPerRound;
    RoundsTrace(entries, RoundCount(rounds), total) + Epilogue(total)
  }

  /** The body of `run()`'s round loop: the inner loop over the map entries, in order. */
  method RunRound(entries: seq<Entry>, round: int, total: int) returns (events: seq<Event>)
    ensures events == RoundTrace(entries, round, total)
  {
    events := RoundHead(round, total);
    var i := 0;
    while i < |entries|
      invariant 0 <= i <= |entries|
      invariant events == RoundHead(round, total) + TargetsTrace(entries[..i])
    {
      assert entries[..i + 1][..i] == entries[..i];
      events := events + Unit(entries[i]);
      i := i + 1;
    }
    assert entries[..i] == entries;
    events := events + RoundTail(round);
  }

  /** `run()`: rounds 1..rounds in order, then the closing events. */
  method Run(entries: seq<Entry>, rounds: int) returns (trace: seq<Event>)
    requires ValidRounds(rounds)
    ensures trace == Trace(entries, rounds)
  {
    var total := rounds * ProgressPerRound;
    trace := [];
    var round := 1;
    while round <= rounds
      invariant 1 <= round <= RoundCount(rounds) + 1
      invariant trace == RoundsTrace(entries, round - 1, total)
    {
      var events := RunRound(entries, round, total);
      trace := trace + events;
      round := round + 1;
    }
    trace := trace + Epilogue(total);
  }
}
