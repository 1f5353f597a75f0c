/**
  Properties of the worker thread's event trace: what each kind of event
  adds up to over a whole run (log lines, progress pairs, commands, pauses,
  the completion signal), how many of each there are, and where every round
  and every process sits in the sequence.
 */
module KillTraceProperties {
  import opened Wrappers
  import opened Seqs
  import opened KillProcessThread

  // ---------------------------------------------------------------- views

  datatype Kind = LogKind | ProgressKind | IssueKind | PauseKind | FinishKind

  function KindOf(e: Event): Kind {
    match e
    case Log(_) => LogKind
    case Progress(_, _) => ProgressKind
    case Issue(_) => IssueKind
    case Pause(_) => PauseKind
    case FinishedKill => FinishKind
  }

  /** `e` alone if it is of kind `k`, nothing otherwise. */
  function Pick(e: Event, k: Kind): seq<Event> {
    if KindOf(e) == k then [e] else []
  }

  /** The events of kind `k` in `t`, in emission order. */
  function Filter(t: seq<Event>, k: Kind): seq<Event> {
    if |t| == 0 then [] else Filter(t[..|t| - 1], k) + Pick(t[|t| - 1], k)
  }

  lemma {:induction false} FilterAppend(a: seq<Event>, b: seq<Event>, k: Kind)
    ensures Filter(a + b, k) == Filter(a, k) + Filter(b, k)
  {
    if |b| == 0 {
      assert a + b == a;
    } else {
      var init, last := b[..|b| - 1], b[|b| - 1];
      assert (a + b)[..|a + b| - 1] == a + init;
      assert (a + b)[|a + b| - 1] == last;
      FilterAppend(a, init, k);
      assert Filter(a, k) + Filter(init, k) + Pick(last, k) == Filter(a, k) + (Filter(init, k) + Pick(last, k));
    }
  }

  /** No event of kind `k` in `t` when its view is empty. */
  lemma {:induction false} FilterEmpty(t: seq<Event>, k: Kind)
    requires Filter(t, k) == []
    ensures forall i :: 0 <= i < |t| ==> KindOf(t[i]) != k
  {
    if |t| > 0 {
      FilterEmpty(t[..|t| - 1], k);
      assert forall i :: 0 <= i < |t| - 1 ==> t[..|t| - 1][i] == t[i];
    }
  }

  /** The view of a concatenation, from the views of its parts. */
  lemma AppendViews(a: seq<Event>, b: seq<Event>, k: Kind, va: seq<Event>, vb: seq<Event>)
    requires Filter(a, k) == va && Filter(b, k) == vb
    ensures Filter(a + b, k) == va + vb
  {
    FilterAppend(a, b, k);
  }

  lemma FilterStep(t: seq<Event>, j: nat, k: Kind)
    requires j < |t|
    ensures Filter(t[..j + 1], k) == Filter(t[..j], k) + Pick(t[j], k)
  {
    assert t[..j + 1][..j] == t[..j];
  }

  lemma FilterSingle(x: Event, k: Kind)
    ensures Filter([x], k) == Pick(x, k)
  {
    assert [x][..0] == [];
  }

  lemma FilterPair(x: Event, y: Event, k: Kind)
    ensures Filter([x, y], k) == Pick(x, k) + Pick(y, k)
  {
    FilterAppend([x], [y], k);
    assert [x] + [y] == [x, y];
    FilterSingle(x, k);
    FilterSingle(y, k);
  }

  lemma FilterThree(x: Event, y: Event, z: Event, k: Kind)
    ensures Filter([x, y, z], k) == Pick(x, k) + Pick(y, k) + Pick(z, k)
  {
    var t := [x, y, z];
    assert t[..0] == [];
    FilterStep(t, 0, k);
    FilterStep(t, 1, k);
    FilterStep(t, 2, k);
    assert t[..3] == t;
  }

  lemma FilterSix(u: seq<Event>, k: Kind)
    requires |u| == 6
    ensures Filter(u, k) == Pick(u[0], k) + Pick(u[1], k) + Pick(u[2], k) + Pick(u[3], k) + Pick(u[4], k) + Pick(u[5], k)
  {
    var a, b := [u[0], u[1], u[2]], [u[3], u[4], u[5]];
    assert u == a + b;
    FilterThree(u[0], u[1], u[2], k);
    FilterThree(u[3], u[4], u[5], k);
    AppendViews(a, b, k, Pick(u[0], k) + Pick(u[1], k) + Pick(u[2], k), Pick(u[3], k) + Pick(u[4], k) + Pick(u[5], k));
  }

  lemma FilterFive(u: seq<Event>, k: Kind)
    requires |u| == 5
    ensures Filter(u, k) == Pick(u[0], k) + Pick(u[1], k) + Pick(u[2], k) + Pick(u[3], k) + Pick(u[4], k)
  {
    var a, b := [u[0], u[1], u[2]], [u[3], u[4]];
    assert u == a + b;
    FilterThree(u[0], u[1], u[2], k);
    FilterPair(u[3], u[4], k);
    AppendViews(a, b, k, Pick(u[0], k) + Pick(u[1], k) + Pick(u[2], k), Pick(u[3], k) + Pick(u[4], k));
  }

  /** The view of a block framed by two events on each side. */
  lemma FilterFramed(head: seq<Event>, body: seq<Event>, tail: seq<Event>, k: Kind)
    requires |head| == 2 && |tail| == 2
    ensures Filter(head + body + tail, k)
         == Pick(head[0], k) + Pick(head[1], k) + Filter(body, k) + Pick(tail[0], k) + Pick(tail[1], k)
  {
    FilterAppend(head, body, k);
    FilterAppend(head + body, tail, k);
    FilterPair(head[0], head[1], k);
    FilterPair(tail[0], tail[1], k);
    assert head == [head[0], head[1]];
    assert tail == [tail[0], tail[1]];
  }

  // ---------------------------------------------------------------- expected views

  /** The two log lines of one process. */
  function TargetLogs(e: Entry): seq<Event> {
    [Log(Closing(e)), Log(Executed(e.processName))]
  }

  function TargetsLogs(entries: seq<Entry>): seq<Event> {
    if |entries| == 0 then []
    else TargetsLogs(entries[..|entries| - 1]) + TargetLogs(entries[|entries| - 1])
  }

  function RoundLogs(entries: seq<Entry>, round: int): seq<Event> {
    [Log(RoundStarted(round))] + TargetsLogs(entries) + [Log(RoundFinished(round))]
  }

  function RoundsLogs(entries: seq<Entry>, n: nat): seq<Event> {
    if n == 0 then [] else RoundsLogs(entries, n - 1) + RoundLogs(entries, n)
  }

  /** The three commands of one process, as issue events. */
  function TargetIssues(processName: string): seq<Event> {
    [Issue(Taskkill(processName)), Issue(Wmic(processName)), Issue(ElevatedKill(processName))]
  }

  /** The commands of a whole round, process after process. */
  function TargetsIssues(entries: seq<Entry>): seq<Event> {
    if |entries| == 0 then []
    else TargetsIssues(entries[..|entries| - 1]) + TargetIssues(entries[|entries| - 1].processName)
  }

  /** The pauses of one round: one short pause per process, then the round pause. */
  function RoundPauses(k: nat): seq<Event> {
    Repeat([Pause(TargetPauseMs)], k) + [Pause(RoundPauseMs)]
  }

  /** The progress events of rounds 1..n: round r reports r * 100. */
  function LoopProgress(n: nat, total: int): seq<Event> {
    seq(n, i => Progress((i + 1) * ProgressPerRound, total))
  }

  lemma LoopProgressStep(n: nat, total: int)
    requires n >= 1
    ensures LoopProgress(n, total) == LoopProgress(n - 1, total) + [Progress(n * ProgressPerRound, total)]
  {
  }

  // ---------------------------------------------------------------- one process

  lemma UnitFilter(e: Entry, k: Kind)
    ensures Filter(Unit(e), k)
         == Pick(Unit(e)[0], k) + Pick(Unit(e)[1], k) + Pick(Unit(e)[2], k)
          + Pick(Unit(e)[3], k) + Pick(Unit(e)[4], k) + Pick(Unit(e)[5], k)
  {
    FilterSix(Unit(e), k);
  }

  lemma UnitViews(e: Entry)
    ensures Filter(Unit(e), LogKind) == TargetLogs(e)
    ensures Filter(Unit(e), ProgressKind) == []
    ensures Filter(Unit(e), IssueKind) == TargetIssues(e.processName)
    ensures Filter(Unit(e), PauseKind) == [Pause(TargetPauseMs)]
    ensures Filter(Unit(e), FinishKind) == []
  {
    UnitFilter(e, LogKind);
    UnitFilter(e, ProgressKind);
    UnitFilter(e, IssueKind);
    UnitFilter(e, PauseKind);
    UnitFilter(e, FinishKind);
  }

  // ---------------------------------------------------------------- one round

  lemma {:induction false} TargetsViews(entries: seq<Entry>)
    ensures Filter(TargetsTrace(entries), LogKind) == TargetsLogs(entries)
    ensures Filter(TargetsTrace(entries), ProgressKind) == []
    ensures Filter(TargetsTrace(entries), IssueKind) == TargetsIssues(entries)
    ensures Filter(TargetsTrace(entries), PauseKind) == Repeat([Pause(TargetPauseMs)], |entries|)
    ensures Filter(TargetsTrace(entries), FinishKind) == []
  {
    if |entries| > 0 {
      var init := entries[..|entries| - 1];
      var last := entries[|entries| - 1];
      TargetsViews(init);
      UnitViews(last);
      forall k: Kind
        ensures Filter(TargetsTrace(entries), k) == Filter(TargetsTrace(init), k) + Filter(Unit(last), k)
      {
        FilterAppend(TargetsTrace(init), Unit(last), k);
      }
    }
  }

  lemma RoundFilter(entries: seq<Entry>, round: int, total: int, k: Kind)
    ensures Filter(RoundTrace(entries, round, total), k)
         == Pick(Log(RoundStarted(round)), k) + Pick(Progress(round * ProgressPerRound, total), k)
          + Filter(TargetsTrace(entries), k)
          + Pick(Log(RoundFinished(round)), k) + Pick(Pause(RoundPauseMs), k)
  {
    FilterFramed(RoundHead(round, total), TargetsTrace(entries), RoundTail(round), k);
  }

  lemma RoundLogView(entries: seq<Entry>, round: int, total: int)
    ensures Filter(RoundTrace(entries, round, total), LogKind) == RoundLogs(entries, round)
  {
    assert Filter(TargetsTrace(entries), LogKind) == TargetsLogs(entries) by {
      TargetsViews(entries);
    }
    RoundFilter(entries, round, total, LogKind);
    assert Pick(Progress(round * ProgressPerRound, total), LogKind) == [] && Pick(Pause(RoundPauseMs), LogKind) == [];
  }

  lemma RoundProgressView(entries: seq<Entry>, round: int, total: int)
    ensures Filter(RoundTrace(entries, round, total), ProgressKind) == [Progress(round * ProgressPerRound, total)]
  {
    assert Filter(TargetsTrace(entries), ProgressKind) == [] by {
      TargetsViews(entries);
    }
    RoundFilter(entries, round, total, ProgressKind);
    assert Pick(Log(RoundStarted(round)), ProgressKind) == [] && Pick(Log(RoundFinished(round)), ProgressKind) == [];
    assert Pick(Pause(RoundPauseMs), ProgressKind) == [];
  }

  lemma RoundIssueView(entries: seq<Entry>, round: int, total: int)
    ensures Filter(RoundTrace(entries, round, total), IssueKind) == TargetsIssues(entries)
  {
    assert Filter(TargetsTrace(entries), IssueKind) == TargetsIssues(entries) by {
      TargetsViews(entries);
    }
    RoundFilter(entries, round, total, IssueKind);
    assert Pick(Log(RoundStarted(round)), IssueKind) == [] && Pick(Log(RoundFinished(round)), IssueKind) == [];
    assert Pick(Progress(round * ProgressPerRound, total), IssueKind) == [] && Pick(Pause(RoundPauseMs), IssueKind) == [];
  }

  lemma RoundPauseView(entries: seq<Entry>, round: int, total: int)
    ensures Filter(RoundTrace(entries, round, total), PauseKind) == RoundPauses(|entries|)
  {
    assert Filter(TargetsTrace(entries), PauseKind) == Repeat([Pause(TargetPauseMs)], |entries|) by {
      TargetsViews(entries);
    }
    RoundFilter(entries, round, total, PauseKind);
    assert Pick(Log(RoundStarted(round)), PauseKind) == [] && Pick(Log(RoundFinished(round)), PauseKind) == [];
    assert Pick(Progress(round * ProgressPerRound, total), PauseKind) == [];
  }

  lemma RoundFinishView(entries: seq<Entry>, round: int, total: int)
    ensures Filter(RoundTrace(entries, round, total), FinishKind) == []
  {
    assert Filter(TargetsTrace(entries), FinishKind) == [] by {
      TargetsViews(entries);
    }
    RoundFilter(entries, round, total, FinishKind);
    assert Pick(Log(RoundStarted(round)), FinishKind) == [] && Pick(Log(RoundFinished(round)), FinishKind) == [];
    assert Pick(Progress(round * ProgressPerRound, total), FinishKind) == [] && Pick(Pause(RoundPauseMs), FinishKind) == [];
  }

  // ---------------------------------------------------------------- rounds 1..n

  lemma {:induction false} RoundsLogView(entries: seq<Entry>, n: nat, total: int)
    ensures Filter(RoundsTrace(entries, n, total), LogKind) == RoundsLogs(entries, n)
  {
    if n > 0 {
      RoundsLogView(entries, n - 1, total);
      RoundLogView(entries, n, total);
      AppendViews(RoundsTrace(entries, n - 1, total), RoundTrace(entries, n, total), LogKind,
        RoundsLogs(entries, n - 1), RoundLogs(entries, n));
    }
  }

  lemma {:induction false} RoundsProgressView(entries: seq<Entry>, n: nat, total: int)
    ensures Filter(RoundsTrace(entries, n, total), ProgressKind) == LoopProgress(n, total)
  {
    if n > 0 {
      RoundsProgressView(entries, n - 1, total);
      RoundProgressView(entries, n, total);
      AppendViews(RoundsTrace(entries, n - 1, total), RoundTrace(entries, n, total), ProgressKind,
        LoopProgress(n - 1, total), [Progress(n * ProgressPerRound, total)]);
      LoopProgressStep(n, total);
    }
  }

  lemma {:induction false} RoundsIssueView(entries: seq<Entry>, n: nat, total: int)
    ensures Filter(RoundsTrace(entries, n, total), IssueKind) == Repeat(TargetsIssues(entries), n)
  {
    if n > 0 {
      RoundsIssueView(entries, n - 1, total);
      RoundIssueView(entries, n, total);
      AppendViews(RoundsTrace(entries, n - 1, total), RoundTrace(entries, n, total), IssueKind,
        Repeat(TargetsIssues(entries), n - 1), TargetsIssues(entries));
    }
  }

  lemma {:induction false} RoundsPauseView(entries: seq<Entry>, n: nat, total: int)
    ensures Filter(RoundsTrace(entries, n, total), PauseKind) == Repeat(RoundPauses(|entries|), n)
  {
    if n > 0 {
      RoundsPauseView(entries, n - 1, total);
      RoundPauseView(entries, n, total);
      AppendViews(RoundsTrace(entries, n - 1, total), RoundTrace(entries, n, total), PauseKind,
        Repeat(RoundPauses(|entries|), n - 1), RoundPauses(|entries|));
    }
  }

  lemma {:induction false} RoundsFinishView(entries: seq<Entry>, n: nat, total: int)
    ensures Filter(RoundsTrace(entries, n, total), FinishKind) == []
  {
    if n > 0 {
      RoundsFinishView(entries, n - 1, total);
      RoundFinishView(entries, n, total);
      AppendViews(RoundsTrace(entries, n - 1, total), RoundTrace(entries, n, total), FinishKind,
        [], []);
    }
  }

  lemma EpilogueFilter(total: int, k: Kind)
    ensures Filter(Epilogue(total), k) == Pick(Log(AllRoundsDone), k) + Pick(Progress(total, total), k) + Pick(FinishedKill, k)
  {
    FilterThree(Log(AllRoundsDone), Progress(total, total), FinishedKill, k);
  }

  lemma TraceFilter(entries: seq<Entry>, rounds: int, k: Kind)
    requires ValidRounds(rounds)
    ensures Filter(Trace(entries, rounds), k)
         == Filter(RoundsTrace(entries, RoundCount(rounds), rounds * ProgressPerRound), k)
          + Pick(Log(AllRoundsDone), k) + Pick(Progress(rounds * ProgressPerRound, rounds * ProgressPerRound), k)
          + Pick(FinishedKill, k)
  {
    var total := rounds * ProgressPerRound;
    var body := RoundsTrace(entries, RoundCount(rounds), total);
    EpilogueFilter(total, k);
    AppendViews(body, Epilogue(total), k, Filter(body, k),
      Pick(Log(AllRoundsDone), k) + Pick(Progress(total, total), k) + Pick(FinishedKill, k));
  }

  // ---------------------------------------------------------------- the whole run

  /**
    The log lines of a run: for each round in order, its start line, the two
    lines of every process in map order, its done line; then the final line.
   */
  lemma TraceLogs(entries: seq<Entry>, rounds: int)
    requires ValidRounds(rounds)
    ensures Filter(Trace(entries, rounds), LogKind) == RoundsLogs(entries, RoundCount(rounds)) + [Log(AllRoundsDone)]
  {
    TraceFilter(entries, rounds, LogKind);
    RoundsLogView(entries, RoundCount(rounds), rounds * ProgressPerRound);
  }

  /** The progress pairs of a run: (r * 100, total) for rounds r = 1..rounds, then (total, total). */
  lemma TraceProgress(entries: seq<Entry>, rounds: int)
    requires ValidRounds(rounds)
    ensures Filter(Trace(entries, rounds), ProgressKind)
         == LoopProgress(RoundCount(rounds), rounds * ProgressPerRound)
          + [Progress(rounds * ProgressPerRound, rounds * ProgressPerRound)]
  {
    TraceFilter(entries, rounds, ProgressKind);
    RoundsProgressView(entries, RoundCount(rounds), rounds * ProgressPerRound);
  }

  /** The commands of a run: every round issues the three commands of every process, in map order. */
  lemma TraceCommands(entries: seq<Entry>, rounds: int)
    requires ValidRounds(rounds)
    ensures Filter(Trace(entries, rounds), IssueKind) == Repeat(TargetsIssues(entries), RoundCount(rounds))
  {
    TraceFilter(entries, rounds, IssueKind);
    RoundsIssueView(entries, RoundCount(rounds), rounds * ProgressPerRound);
  }

  /** The pauses of a run: 200 ms after every process and 1000 ms after every round, the last one included. */
  lemma TracePauses(entries: seq<Entry>, rounds: int)
    requires ValidRounds(rounds)
    ensures Filter(Trace(entries, rounds), PauseKind) == Repeat(RoundPauses(|entries|), RoundCount(rounds))
  {
    TraceFilter(entries, rounds, PauseKind);
    RoundsPauseView(entries, RoundCount(rounds), rounds * ProgressPerRound);
  }

  /**
    Exactly one `finishedKill`, and it is the last event, right after the
    final log line and the final progress pair (total, total).
   */
  lemma FinishedOnceAndLast(entries: seq<Entry>, rounds: int)
    requires ValidRounds(rounds)
    ensures Filter(Trace(entries, rounds), FinishKind) == [FinishedKill]
    ensures var t, total := Trace(entries, rounds), rounds * ProgressPerRound;
      && |t| >= 3
      && t[|t| - 1] == FinishedKill
      && t[|t| - 2] == Progress(total, total)
      && t[|t| - 3] == Log(AllRoundsDone)
      && forall i :: 0 <= i < |t| - 1 ==> !t[i].FinishedKill?
  {
    var total := rounds * ProgressPerRound;
    var body := RoundsTrace(entries, RoundCount(rounds), total);
    assert Filter(body, FinishKind) == [] by {
      RoundsFinishView(entries, RoundCount(rounds), total);
    }
    TraceFilter(entries, rounds, FinishKind);
    EndsWithEpilogue(body, total);
  }

  /** After a body without completion signal, the closing events put the only one last. */
  lemma EndsWithEpilogue(body: seq<Event>, total: int)
    requires Filter(body, FinishKind) == []
    ensures var t := body + Epilogue(total);
      && |t| >= 3
      && t[|t| - 1] == FinishedKill
      && t[|t| - 2] == Progress(total, total)
      && t[|t| - 3] == Log(AllRoundsDone)
      && forall i :: 0 <= i < |t| - 1 ==> !t[i].FinishedKill?
  {
    var t := body + Epilogue(total);
    FilterEmpty(body, FinishKind);
    forall i | 0 <= i < |t| - 1
      ensures !t[i].FinishedKill?
    {
      if i < |body| {
        assert t[i] == body[i];
      } else {
        assert t[i] == Epilogue(total)[i - |body|];
      }
    }
  }

  // ---------------------------------------------------------------- counts

  lemma {:induction false} TargetsLogsLength(entries: seq<Entry>)
    ensures |TargetsLogs(entries)| == 2 * |entries|
  {
    if |entries| > 0 {
      TargetsLogsLength(entries[..|entries| - 1]);
    }
  }

  lemma {:induction false} RoundsLogsLength(entries: seq<Entry>, n: nat)
    ensures |RoundsLogs(entries, n)| == n * (2 + 2 * |entries|)
  {
    TargetsLogsLength(entries);
    if n > 0 {
      RoundsLogsLength(entries, n - 1);
      assert (n - 1) * (2 + 2 * |entries|) + (2 + 2 * |entries|) == n * (2 + 2 * |entries|);
    }
  }

  lemma {:induction false} TargetsIssuesLength(entries: seq<Entry>)
    ensures |TargetsIssues(entries)| == 3 * |entries|
  {
    if |entries| > 0 {
      TargetsIssuesLength(entries[..|entries| - 1]);
    }
  }

  lemma ThreePerProcess(r: nat, k: nat)
    ensures r * (3 * k) == 3 * r * k
  {
  }

  /**
    For R rounds over k entries: R * (2 + 2k) + 1 log lines, R + 1 progress
    pairs, 3 * R * k commands, R * (k + 1) pauses and one completion signal.
   */
  lemma EventCounts(entries: seq<Entry>, rounds: int)
    requires ValidRounds(rounds)
    ensures var t, r, k := Trace(entries, rounds), RoundCount(rounds), |entries|;
      && |Filter(t, LogKind)| == r * (2 + 2 * k) + 1
      && |Filter(t, ProgressKind)| == r + 1
      && |Filter(t, IssueKind)| == 3 * r * k
      && |Filter(t, PauseKind)| == r * (k + 1)
      && |Filter(t, FinishKind)| == 1
  {
    var t, r, k := Trace(entries, rounds), RoundCount(rounds), |entries|;
    assert |Filter(t, LogKind)| == r * (2 + 2 * k) + 1 by {
      TraceLogs(entries, rounds);
      RoundsLogsLength(entries, r);
    }
    assert |Filter(t, ProgressKind)| == r + 1 by {
      TraceProgress(entries, rounds);
    }
    assert |Filter(t, IssueKind)| == 3 * r * k by {
      TraceCommands(entries, rounds);
      TargetsIssuesLength(entries);
      ThreePerProcess(r, k);
    }
    assert |Filter(t, PauseKind)| == r * (k + 1) by {
      TracePauses(entries, rounds);
    }
    assert |Filter(t, FinishKind)| == 1 by {
      FinishedOnceAndLast(entries, rounds);
    }
  }

  // ---------------------------------------------------------------- progress

  /**
    Progress over a run: in-loop values 100, 200, ..., R * 100 strictly
    increase, every value stays within [0, total] and the whole sequence
    never decreases (for a non-negative round count), and the last pair is
    (total, total).
   */
  lemma ProgressFacts(entries: seq<Entry>, rounds: int)
    requires ValidRounds(rounds)
    ensures var p, r, total := Filter(Trace(entries, rounds), ProgressKind), RoundCount(rounds), rounds * ProgressPerRound;
      && |p| == r + 1
      && p[r] == Progress(total, total)
      && (forall i :: 0 <= i < |p| ==> p[i].Progress? && p[i].total == total)
      && (forall i :: 0 <= i < r ==> p[i].current == (i + 1) * ProgressPerRound)
      && (forall i, j :: 0 <= i < j < r ==> p[i].current < p[j].current)
      && (rounds >= 0 ==> forall i :: 0 <= i < |p| ==> 0 <= p[i].current <= total)
      && (rounds >= 0 ==> forall i, j :: 0 <= i < j < |p| ==> p[i].current <= p[j].current)
  {
    TraceProgress(entries, rounds);
  }

  /** In the last round the progress pair already reads (total, total), before any process of that round is handled. */
  lemma LastRoundStartsFull(entries: seq<Entry>, rounds: int)
    requires ValidRounds(rounds) && rounds >= 1
    ensures var p, total := Filter(Trace(entries, rounds), ProgressKind), rounds * ProgressPerRound;
      |p| == rounds + 1 && p[rounds - 1] == Progress(total, total)
  {
    TraceProgress(entries, rounds);
  }

  // ---------------------------------------------------------------- positions

  /** The number of events in one round over `k` processes. */
  function RoundLength(k: nat): nat {
    4 + 6 * k
  }

  /** Index, in a run over `k` processes, of the first event of process `i` in round `r`. */
  function UnitStart(k: nat, r: nat, i: nat): nat
    requires r >= 1
  {
    (r - 1) * RoundLength(k) + 2 + 6 * i
  }

  lemma {:induction false} UnitBlock(entries: seq<Entry>, i: nat)
    requires i < |entries|
    ensures |TargetsTrace(entries)| == 6 * |entries|
    ensures TargetsTrace(entries)[6 * i .. 6 * i + 6] == Unit(entries[i])
  {
    var init := entries[..|entries| - 1];
    var last := entries[|entries| - 1];
    if i < |entries| - 1 {
      UnitBlock(init, i);
      assert init[i] == entries[i];
    } else if |init| > 0 {
      UnitBlock(init, 0);
    }
    assert TargetsTrace(entries) == TargetsTrace(init) + Unit(last);
  }

  lemma RoundTraceLength(entries: seq<Entry>, round: int, total: int)
    ensures |RoundTrace(entries, round, total)| == RoundLength(|entries|)
  {
    if |entries| > 0 {
      UnitBlock(entries, 0);
    }
  }

  lemma MulLe(a: nat, b: nat, c: nat)
    requires a <= b
    ensures a * c <= b * c
  {
  }

  lemma MulSucc(a: nat, c: nat)
    ensures a * c + c == (a + 1) * c
  {
  }

  lemma {:induction false} RoundsTraceLength(entries: seq<Entry>, n: nat, total: int)
    ensures |RoundsTrace(entries, n, total)| == n * RoundLength(|entries|)
  {
    if n > 0 {
      RoundsTraceLength(entries, n - 1, total);
      RoundTraceLength(entries, n, total);
      MulSucc(n - 1, RoundLength(|entries|));
    }
  }

  /** The first `r` rounds are a prefix of the first `n`. */
  lemma {:induction false} RoundsPrefix(entries: seq<Entry>, n: nat, total: int, r: nat)
    requires r <= n
    ensures RoundsTrace(entries, r, total) <= RoundsTrace(entries, n, total)
  {
    if r < n {
      RoundsPrefix(entries, n - 1, total, r);
    }
  }

  /** Round `r` sits between the end of round `r - 1` and the end of round `r`. */
  lemma RoundBlock(entries: seq<Entry>, n: nat, total: int, r: nat)
    requires 1 <= r <= n
    ensures var before, upto := RoundsTrace(entries, r - 1, total), RoundsTrace(entries, r, total);
      && |before| <= |upto| <= |RoundsTrace(entries, n, total)|
      && RoundsTrace(entries, n, total)[|before| .. |upto|] == RoundTrace(entries, r, total)
  {
    var before, upto := RoundsTrace(entries, r - 1, total), RoundsTrace(entries, r, total);
    var all := RoundsTrace(entries, n, total);
    RoundsPrefix(entries, n, total, r);
    assert all[..|upto|] == upto;
    assert upto == before + RoundTrace(entries, r, total);
    assert all[|before| .. |upto|] == upto[|before|..];
  }

  /** Index, in a run over `k` processes, of the first event of round `r`. */
  function RoundStart(k: nat, r: nat): nat
    requires r >= 1
  {
    (r - 1) * RoundLength(k)
  }

  /**
    Round `r` of a run occupies one contiguous block, right where round
    `r + 1` (or the closing events) begin. The run has
    `rounds * RoundLength(k) + 3` events.
   */
  lemma RoundSlice(entries: seq<Entry>, rounds: int, r: nat)
    requires ValidRounds(rounds) && 1 <= r <= rounds
    ensures var t, k := Trace(entries, rounds), |entries|;
      && |t| == RoundStart(k, rounds + 1) + 3
      && RoundStart(k, r) + RoundLength(k) == RoundStart(k, r + 1) <= RoundStart(k, rounds + 1)
      && t[RoundStart(k, r) .. RoundStart(k, r + 1)] == RoundTrace(entries, r, rounds * ProgressPerRound)
  {
    var total := rounds * ProgressPerRound;
    var k := |entries|;
    var t := Trace(entries, rounds);
    var body := RoundsTrace(entries, rounds, total);
    var lo, hi := RoundStart(k, r), RoundStart(k, r + 1);
    assert lo + RoundLength(k) == hi <= RoundStart(k, rounds + 1) by {
      MulSucc(r - 1, RoundLength(k));
      MulLe(r, rounds, RoundLength(k));
    }
    assert |RoundsTrace(entries, r - 1, total)| == lo && |RoundsTrace(entries, r, total)| == hi
      && |body| == RoundStart(k, rounds + 1) by {
      RoundsTraceLength(entries, r - 1, total);
      RoundsTraceLength(entries, r, total);
      RoundsTraceLength(entries, rounds, total);
    }
    assert body[lo .. hi] == RoundTrace(entries, r, total) by {
      RoundBlock(entries, rounds, total, r);
    }
    assert t == body + Epilogue(total);
  }

  /**
    Round `r` starts with its start line and the progress pair
    (r * 100, total), before any process, and ends with its done line and the
    round pause.
   */
  lemma RoundPositions(entries: seq<Entry>, rounds: int, r: nat)
    requires ValidRounds(rounds) && 1 <= r <= rounds
    ensures var t, k := Trace(entries, rounds), |entries|;
      && RoundStart(k, r) + 4 <= RoundStart(k, r + 1) <= |t|
      && t[RoundStart(k, r)] == Log(RoundStarted(r))
      && t[RoundStart(k, r) + 1] == Progress(r * ProgressPerRound, rounds * ProgressPerRound)
      && t[RoundStart(k, r + 1) - 2] == Log(RoundFinished(r))
      && t[RoundStart(k, r + 1) - 1] == Pause(RoundPauseMs)
  {
    var k := |entries|;
    var t := Trace(entries, rounds);
    var round := RoundTrace(entries, r, rounds * ProgressPerRound);
    var lo, hi := RoundStart(k, r), RoundStart(k, r + 1);
    assert lo + RoundLength(k) == hi <= |t| && t[lo .. hi] == round by {
      RoundSlice(entries, rounds, r);
    }
    assert |round| == RoundLength(k) by {
      RoundTraceLength(entries, r, rounds * ProgressPerRound);
    }
    assert t[lo] == round[0] && t[lo + 1] == round[1];
    assert t[hi - 2] == round[|round| - 2] && t[hi - 1] == round[|round| - 1];
  }

  /** Inside a round, process `i` takes the six events after the round's first two. */
  lemma RoundUnit(entries: seq<Entry>, round: int, total: int, i: nat)
    requires i < |entries|
    ensures 8 + 6 * i <= |RoundTrace(entries, round, total)|
    ensures RoundTrace(entries, round, total)[2 + 6 * i .. 8 + 6 * i] == Unit(entries[i])
  {
    var head, body, tail := RoundHead(round, total), TargetsTrace(entries), RoundTail(round);
    UnitBlock(entries, i);
    SliceWithin(head + body + tail, 2, 2 + |body|, body, 6 * i, 6 * i + 6, Unit(entries[i]));
  }

  /**
    The `i`-th process of the map is handled in round `r` by the six events
    starting at `UnitStart(k, r, i)`: its announcement, its three commands,
    its echo line and the short pause.
   */
  lemma UnitPositions(entries: seq<Entry>, rounds: int, r: nat, i: nat)
    requires ValidRounds(rounds) && 1 <= r <= rounds && i < |entries|
    ensures var t, s := Trace(entries, rounds), UnitStart(|entries|, r, i);
      && s + 6 <= RoundStart(|entries|, r + 1) <= |t|
      && t[s .. s + 6] == Unit(entries[i])
  {
    var total := rounds * ProgressPerRound;
    var k := |entries|;
    var t := Trace(entries, rounds);
    var lo, hi := RoundStart(k, r), RoundStart(k, r + 1);
    var round := RoundTrace(entries, r, total);
    RoundSlice(entries, rounds, r);
    RoundUnit(entries, r, total, i);
    SliceWithin(t, lo, hi, round, 2 + 6 * i, 8 + 6 * i, Unit(entries[i]));
  }

  // ---------------------------------------------------------------- each process once per round

  /** How often `name` is a key among the entries. */
  function NameCount(entries: seq<Entry>, name: string): nat {
    if |entries| == 0 then 0
    else NameCount(entries[..|entries| - 1], name) + (if entries[|entries| - 1].processName == name then 1 else 0)
  }

  /** Different steps start different commands, so the commands issued name the process they target. */
  lemma CommandsIdentifyStep(a: Step, b: Step)
    ensures CommandOf(a) == CommandOf(b) <==> a == b
  {
    if CommandOf(a) == CommandOf(b) {
      var c := CommandOf(a);
      if a.Wmic? {
        var arg := c.args[2];
        assert arg[6..|arg| - 1] == a.processName;
        assert CommandOf(b).args[2][6..|arg| - 1] == b.processName;
      } else if a.ElevatedKill? {
        assert ElevatedCommandLine(c) == Some(KillCommandLine(a.processName));
        assert ElevatedCommandLine(c) == Some(KillCommandLine(b.processName));
        assert KillCommandLine(a.processName)[19..] == a.processName;
        assert KillCommandLine(b.processName)[19..] == b.processName;
      }
    }
  }

  lemma TargetIssuesCount(n: string, x: Step)
    ensures multiset(TargetIssues(n))[Issue(x)] == if x.processName == n then 1 else 0
  {
    assert multiset(TargetIssues(n)) == multiset{Issue(Taskkill(n))} + multiset{Issue(Wmic(n))} + multiset{Issue(ElevatedKill(n))};
  }

  /** Per round, each of a process's commands is issued once per map entry with that key. */
  lemma {:induction false} RoundIssueCount(entries: seq<Entry>, x: Step)
    ensures multiset(TargetsIssues(entries))[Issue(x)] == NameCount(entries, x.processName)
  {
    if |entries| > 0 {
      var init := entries[..|entries| - 1];
      var last := entries[|entries| - 1];
      RoundIssueCount(init, x);
      TargetIssuesCount(last.processName, x);
      assert multiset(TargetsIssues(entries)) == multiset(TargetsIssues(init)) + multiset(TargetIssues(last.processName));
    }
  }

  /** A key that occurs once in a map with distinct keys is counted once. */
  lemma {:induction false} DistinctNameCount(entries: seq<Entry>, i: nat)
    requires DistinctKeys(entries) && i < |entries|
    ensures NameCount(entries, entries[i].processName) == 1
  {
    var init := entries[..|entries| - 1];
    var name := entries[i].processName;
    if i < |entries| - 1 {
      DistinctNameCount(init, i);
      assert init[i] == entries[i];
    } else {
      AbsentNameCount(init, name);
    }
  }

  lemma {:induction false} AbsentNameCount(entries: seq<Entry>, name: string)
    requires forall j :: 0 <= j < |entries| ==> entries[j].processName != name
    ensures NameCount(entries, name) == 0
  {
    if |entries| > 0 {
      var init := entries[..|entries| - 1];
      assert forall j :: 0 <= j < |init| ==> init[j] == entries[j];
      AbsentNameCount(init, name);
    }
  }

  /**
    With distinct keys, every entry's three commands are each issued exactly
    once in the block of every round `r`, so exactly `rounds` times over the run.
   */
  lemma EachEntryOncePerRound(entries: seq<Entry>, rounds: int, r: nat, i: nat, j: nat)
    requires ValidRounds(rounds) && DistinctKeys(entries) && 1 <= r <= rounds && i < |entries| && j < 3
    ensures var t, k, x := Trace(entries, rounds), |entries|, Issue(TargetSteps(entries[i].processName)[j]);
      && RoundStart(k, r) <= RoundStart(k, r + 1) <= |t|
      && multiset(Filter(t[RoundStart(k, r) .. RoundStart(k, r + 1)], IssueKind))[x] == 1
      && multiset(Filter(t, IssueKind))[x] == RoundCount(rounds)
  {
    var t, k := Trace(entries, rounds), |entries|;
    var total := rounds * ProgressPerRound;
    var x := Issue(TargetSteps(entries[i].processName)[j]);
    assert multiset(TargetsIssues(entries))[x] == 1 by {
      RoundIssueCount(entries, TargetSteps(entries[i].processName)[j]);
      DistinctNameCount(entries, i);
    }
    RoundSlice(entries, rounds, r);
    assert Filter(RoundTrace(entries, r, total), IssueKind) == TargetsIssues(entries) by {
      RoundIssueView(entries, r, total);
    }
    assert Filter(t, IssueKind) == Repeat(TargetsIssues(entries), RoundCount(rounds)) by {
      TraceCommands(entries, rounds);
    }
    RepeatMultiset(TargetsIssues(entries), RoundCount(rounds), x);
  }

  // ---------------------------------------------------------------- commands

  /**
    What handling one process starts: `taskkill /F /T /IM <name>` and
    `wmic process where name='<name>' delete`, each followed by
    `waitForFinished(2000)`, then a detached elevating PowerShell call whose command line is
    exactly the one the following log line echoes.
   */
  lemma ProcessCommands(e: Entry)
    ensures var u, n := KillSingleProcess(e), e.processName;
      && |u| == 5 && u[1].Issue? && u[2].Issue? && u[3].Issue?
      && CommandOf(u[1].step) == Command("taskkill", ["/F", "/T", "/IM", n], Waited(2000))
      && CommandOf(u[2].step) == Command("wmic", ["process", "where", "name='" + n + "'", "delete"], Waited(2000))
      && CommandOf(u[3].step).program == "powershell" && CommandOf(u[3].step).wait == Detached
      && ElevatedCommandLine(CommandOf(u[3].step)) == Some("taskkill /F /T /IM " + n)
      && u[4].Log? && LineText(u[4].line) == ExecutedPrefix + ElevatedCommandLine(CommandOf(u[3].step)).value
  {
  }

  /**
    `killSingleProcess` logs exactly two lines: first the announcement naming
    the display name and the process, last the echo of the elevated command
    line.
   */
  lemma ProcessLogLines(e: Entry)
    ensures var u, logs := KillSingleProcess(e), Filter(KillSingleProcess(e), LogKind);
      && |logs| == 2 && logs[0] == u[0] && logs[1] == u[|u| - 1]
      && logs[0] == Log(Closing(e)) && logs[1] == Log(Executed(e.processName))
  {
    var u := KillSingleProcess(e);
    assert Filter(u, LogKind) == [u[0], u[4]] by {
      FilterFive(u, LogKind);
      assert Pick(u[1], LogKind) == [] && Pick(u[2], LogKind) == [] && Pick(u[3], LogKind) == [];
    }
  }

  /**
    With the default of three rounds the progress pairs are (100, 300),
    (200, 300), (300, 300) and the final (300, 300).
   */
  lemma DefaultRoundsProgress(entries: seq<Entry>)
    ensures ValidRounds(DefaultRounds)
    ensures Filter(Trace(entries, DefaultRounds), ProgressKind)
         == [Progress(100, 300), Progress(200, 300), Progress(300, 300), Progress(300, 300)]
  {
    TraceProgress(entries, DefaultRounds);
    assert LoopProgress(3, 300) == [Progress(100, 300), Progress(200, 300), Progress(300, 300)];
  }
}
