# Classroom-control process shutdown: worker thread and progress dialog

This project models the two components that hold the behaviour of the
E-classroom shutdown tool, and proves properties about them in Dafny.

- **`KillProcessThread`** is the worker thread. It runs `totalRounds` rounds
  (3 by default). In each round it tries to end every process of its process
  map, in the map's key order.
  - For each process, `killSingleProcess` logs an announcement and starts
    three external commands. These are `taskkill /F /T /IM <name>` and
    `wmic process where name='<name>' delete`, each followed by
    `waitForFinished(2000)`, and then a detached PowerShell call (`runCommandAsAdmin`) that
    runs the same `taskkill` elevated. It finishes by logging the elevated
    command line.
  - After each process the thread sleeps 200 ms, and after each round
    1000 ms.
  - Each round begins with a start line and the progress pair
    `(round * 100, rounds * 100)`.
  - After the last round it logs `所有轮次执行完成！`, reports
    `(total, total)` and signals `finishedKill`.

  The model is the run's observable event sequence, a pure function
  `Trace(entries, rounds)`. Its events are log lines, progress pairs, command
  starts, pauses and the completion signal. `Run` and `RunRound` are loop
  methods shaped like `run()` and are proved to produce exactly that
  sequence. Command output goes only to the debug stream and never steers
  the run, so no output appears in the model.
- **`ProgressWindow`** is the progress dialog, modelled as a record with pure
  transitions. The record holds the bar's range maximum, its value, its format
  text, the log document and a closed flag.
  - The constructor gives a range of 0..100, a value of 0 and one start line.
  - `updateProgress(v, m)` sets the range, the value and the text
    `进度：<v>/<m> (<pct>%)`, where `pct` is `v*100/m` with C++ truncating
    division when `m > 0`, and 0 otherwise.
  - `appendLog` adds `[HH:mm:ss] <message>` to a document limited to 1000
    blocks, so the oldest line goes first.
  - `finishProgress` logs `强制执行操作完成！` and closes.

Supporting modules:
- `Decimal` is the text of an `int`, as `QString::arg(int)` writes it, with
  its parser.
- `Clock` is the `HH:mm:ss` text of a time of day, with its parser.
- `CppInt` is the 32-bit range and C++ truncating division.
- `Seqs` holds sequence helpers.
- `Wrappers` holds `Option`.

Log lines are a datatype (`KillProcessThread.Line`), and `LineText` gives the
exact Chinese wording for each one. Commands are likewise a datatype
(`KillProcessThread.Step`), and `CommandOf` gives the program, the argument
list and the wait mode for each one.

Some facts about the thread that the model keeps exactly:
- It reports one progress pair per round (`round * 100`), and none per process.
- It never classifies or reports the outcome of a command.
- A run cannot be cancelled.
- The 1000 ms pause also follows the last round.

## Model

| member | source | states |
|---|---|---|
| KillProcessThread.Run | killprocessthread.cpp:21-44 | the nested loops of `run()` emit exactly `Trace(entries, rounds)`: rounds 1..rounds in order, each one the round block, then the closing log, the progress pair (total, total) and `finishedKill` |
| KillProcessThread.RunRound | killprocessthread.cpp:26-38 | one round emits its start line and progress pair, then each map entry's events in map order, each followed by the 200 ms pause, then its done line and the 1000 ms pause |
| KillProcessThread.RunCommandAsAdmin | killprocessthread.cpp:72-76 | `runCommandAsAdmin(c)` starts `powershell` detached with the arguments `-Command` and a `Start-Process cmd -ArgumentList '/c …' -Verb RunAs` script, from which exactly `c` reads back |
| KillProcessThread.LineText | killprocessthread.cpp:26-64 | every log line the thread writes is non-empty and opens with a character that tells its kind |
| KillProcessThread.LineKinds | killprocessthread.cpp:26-64 | two lines open with the same character exactly when they are of the same kind, so lines of different kinds never have the same text |
| KillProcessThread.RoundOfTextRoundTrip | killprocessthread.cpp:26-37 | the round number can be read back from a round's start line and from its done line |
| KillTraceProperties.ProcessCommands | killprocessthread.cpp:49-64 | one process starts `taskkill [/F,/T,/IM,name]` and then `wmic [process,where,name='name',delete]`, each followed by `waitForFinished(2000)`, then a detached PowerShell whose command line is `taskkill /F /T /IM name`, the same command line that the closing log line echoes |
| KillTraceProperties.ProcessLogLines | killprocessthread.cpp:49-64 | `killSingleProcess` logs exactly two lines: the announcement first and the echo of the command line last |
| KillTraceProperties.CommandsIdentifyStep | killprocessthread.cpp:53-62 | two steps start the same command if and only if they are the same step for the same process |
| KillTraceProperties.TraceLogs | killprocessthread.cpp:25-41 | the log lines of a run are, round by round, the start line, each process's two lines in map order and the done line, followed by the closing line |
| KillTraceProperties.TraceProgress | killprocessthread.cpp:23-42 | the progress pairs of a run are (r*100, rounds*100) for r = 1..rounds, then (total, total) |
| KillTraceProperties.TraceCommands | killprocessthread.cpp:25-35 | the commands of a run are, in every round, the three commands of every process in map order |
| KillTraceProperties.TracePauses | killprocessthread.cpp:34-38 | the pauses of a run are 200 ms after every process and 1000 ms after every round, the last round included |
| KillTraceProperties.FinishedOnceAndLast | killprocessthread.cpp:41-43 | there is exactly one `finishedKill`. It is the last event, and it comes right after the closing log line and the progress pair (total, total) |
| KillTraceProperties.EventCounts | killprocessthread.cpp:25-43 | with R rounds and k entries, a run has R(2+2k)+1 log lines, R+1 progress pairs, 3Rk commands, R(k+1) pauses and one completion signal |
| KillTraceProperties.ProgressFacts | killprocessthread.cpp:23-42 | every progress pair has total rounds*100. The values inside the loop are 100, 200, … and strictly increase. For rounds ≥ 0 every value lies in [0, total] and the sequence never decreases. The last pair is (total, total) |
| KillTraceProperties.LastRoundStartsFull | killprocessthread.cpp:25-27 | the last round already reports (total, total) before it handles any process |
| KillTraceProperties.DefaultRoundsProgress | killprocessthread.h:14 | with the default of 3 rounds, the progress pairs are (100,300), (200,300), (300,300), (300,300) |
| KillTraceProperties.RoundSlice | killprocessthread.cpp:25-39 | round r occupies one contiguous block of RoundLength(k) events, ending where round r+1 begins, so rounds never interleave. A run has rounds*RoundLength(k)+3 events |
| KillTraceProperties.RoundPositions | killprocessthread.cpp:25-38 | within its block, round r starts with its start line and the pair (r*100, total), and ends with its done line and the 1000 ms pause |
| KillTraceProperties.UnitPositions | killprocessthread.cpp:30-35 | in round r, the i-th map entry is handled by the six events at UnitStart(k, r, i): its announcement, three commands, echo line and 200 ms pause |
| KillTraceProperties.RoundIssueCount | killprocessthread.cpp:30-33 | in one round, each command of a process is issued once for every map entry with that key |
| KillTraceProperties.EachEntryOncePerRound | killprocessthread.cpp:30-35 | with distinct keys, each command of each entry is issued exactly once within the block of every round r of the run, and so exactly `rounds` times over the whole run |
| ProgressWindow.Init | progresswindow.cpp:3-55 | after construction the range is 0..100, the value is 0, the bar has its default format, the dialog is open, and the log holds exactly one line, which reads back as the start message at the given time |
| ProgressWindow.UpdateProgress | progresswindow.cpp:60-70 | sets the range maximum to m and the value to v. The format text reads back as (v, m, Percent(v, m)), and by ProgressTextExact that makes it exactly `进度：<v>/<m> (<pct>%)`. The log and the closed flag do not change |
| ProgressWindow.Percent | progresswindow.cpp:67 | 0 when m ≤ 0. Otherwise it is the quotient of v*100 by m truncated toward zero, characterised by its bounds for non-negative and for negative v. For 0 < m and 0 ≤ v ≤ m it lies in [0, 100], and it is 100 exactly when v = m |
| ProgressWindow.PercentMonotone | progresswindow.cpp:67 | for m > 0, a larger value never shows a smaller percentage |
| ProgressWindow.ProgressTextRoundTrip | progresswindow.cpp:64-67 | the text `进度：<v>/<m> (<p>%)` determines v, m and p |
| ProgressWindow.ProgressTextExact | progresswindow.cpp:64-67 | a text that reads back as (v, m, p) is exactly `进度：<v>/<m> (<p>%)`, so no other spelling of the numbers, such as leading zeros, is accepted |
| ProgressWindow.AppendLine | progresswindow.cpp:44 | one line goes at the end. The earlier lines are kept when the document holds fewer than 1000; otherwise the oldest is dropped. The bar fields do not change |
| ProgressWindow.AppendLog | progresswindow.cpp:73-82 | the new last line reads back as the given time and message |
| ProgressWindow.LogLine | progresswindow.cpp:75-77 | a stamped line is `[`, the `HH:mm:ss` time, `] ` and the message, and it reads back as that time and message |
| ProgressWindow.AppendAllKeepsNewest | progresswindow.cpp:44 | from a log within the limit, any series of appends leaves exactly the newest 1000 (or fewer) lines of the old log followed by the appended lines, oldest first, and the log stays within the limit |
| ProgressWindow.FinishProgress | progresswindow.cpp:85-91 | the dialog is closed, its last log line reads back as the completion message at the given time, the earlier lines are kept when there is room, and the bar does not change |
| Decimal.IntTextRoundTrip | progresswindow.cpp:64-67 | the decimal text of any integer reads back as that integer |
| Decimal.IntTextInjective | progresswindow.cpp:64-67 | different integers have different texts |
| Decimal.IntText | progresswindow.cpp:64-67 | the text is non-empty, made of digits and '-', and starts with '-' exactly for negative numbers. It is the shortest form: no leading zero unless the text is "0", and no "-0" |
| Decimal.ParseIntExact | progresswindow.cpp:64-67 | only the shortest text of a number reads back as that number: a text that parses to i is exactly IntText(i) |
| Clock.HhMmSs | progresswindow.cpp:76 | the text of a valid time is eight characters: two-digit hour, minute and second separated by ':'. It reads back as that time |
| CppInt.Div | progresswindow.cpp:67 | C++ `/` for a positive divisor: the quotient is truncated toward zero, bounded from both sides, with the sign of the dividend |

## Left out

- The QThread machinery is not modelled: thread start, the destructor's `quit()`/`wait()`, and cross-thread signal delivery. Events are a sequence in emission order.
- `QThread::msleep` is not modelled as real time. Each sleep is a `Pause(ms)` event.
- What `taskkill`, `wmic` and `powershell` actually do to the system is not modelled, and neither is UAC elevation. Only the command descriptors are modelled.
- The `qDebug` output of the commands' standard output is left out. It has no effect on the run.
- The time of day is a parameter: `QTime::currentTime()` is not read.
- `QApplication::processEvents`, the log's scroll bar, window layout and style sheets are left out. So is the `QMessageBox` in `finishProgress`, whose text hard-codes "3次".
- `QProgressBar`'s own range handling is left out, because it is Qt library code. The record keeps the requested `(value, maxValue)`. Qt instead ignores a `setValue` outside the current range, and a negative maximum passed to `setRange(0, m)` leaves 0 as the only legal value.
- KillProcessThread.ValidRounds: the round count and `rounds * 100` are assumed to fit a C++ `int`, so overflow of `totalProgress` is excluded by a precondition instead of being modelled.
- A `taskkill` or `wmic` command still running when `waitForFinished(2000)` returns is not stopped there. It keeps running while the next command starts. The process is killed when its local `QProcess` is destroyed at the end of `killSingleProcess`, and the destructor waits for it again. Neither that kill nor that second wait appears in the trace.
- ProgressWindow.UpdateProgress: `value` and `maxValue` are C++ `int`s. When `maxValue > 0`, the product `value * 100` is also required to fit an `int`. Its overflow is excluded by a precondition instead of being modelled. The source computes no product when `maxValue <= 0`, and the model requires nothing more there.
- ProgressWindow.AppendLog: the model appends each message as exactly one plain-text line. `QTextEdit::append` inserts text in `Qt::AutoText` mode: a message containing a line break becomes several blocks, and a message that Qt takes for rich text is rendered as HTML, not stored as written. So the read-back of the last line and the 1000-block count hold only for single-line plain-text messages.
- KillProcessThread.LineText: the model inserts names verbatim. In the source, chained `QString::arg` calls can substitute a later argument into a `%<digit>` that appears inside an earlier display or process name. That case is not modelled.
- The main window, the version checker, `up.cpp` and `main.cpp` are not part of this model. How the thread's signals reach the dialog is not modelled.
- No map validation, cancellation, outcome classification or retry loop is modelled. The worker thread has none.
