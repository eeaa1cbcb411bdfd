/** Runs of the sniffer's command handler and watchdog over time. */
module Watchdog {
  import opened Bytes
  import opened CanbusProtocol
  import opened FilterRules
  import opened Sniffer

  // ---- A command and a watchdog turn are one step each ----

  datatype Event =
    | Command(command: nat, data: seq<byte>, sorted: seq<CanFilterRule>)
    | RawData                                       // a message for the data listener of the external service
    | CanFrame(source: Source, frame: seq<byte>)
    | Tick

  datatype Timed = Timed(at: int, event: Event)

  datatype Watched = Watched(core: SnifferState, clock: int, lastTick: int)

  function Started(at: int): Watched {
    Watched(SnifferState(true, false, false, at, [], [], [], []), at, at)
  }

  /** Time does not run backwards, filter payloads are sorted, frames are frames, and the watchdog's turns come no
      more than `period` apart. */
  ghost predicate Possible(w: Watched, t: Timed, period: nat) {
    && w.clock <= t.at <= w.lastTick + period
    && (t.event.Command? ==> SortResult(t.event.command, t.event.data, t.event.sorted))
    && (t.event.CanFrame? ==> !t.event.source.External? && IsFrame(t.event.frame))
    && SortedById(w.core.rules)
  }

  function Step(w: Watched, t: Timed): Watched
    requires SortedById(w.core.rules) && (t.event.CanFrame? ==> IsFrame(t.event.frame))
  {
    match t.event
    case Command(command, data, sorted) => Watched(AfterCommand(w.core, t.at, command, data, sorted), t.at, w.lastTick)
    case RawData => Watched(AfterCanData(w.core, t.at, External, []), t.at, w.lastTick)
    case CanFrame(source, frame) => Watched(AfterCanData(w.core, t.at, source, frame), t.at, w.lastTick)
    case Tick => Watched(AfterTick(w.core, t.at), t.at, t.at)
  }

  ghost predicate IsRun(w: Watched, run: seq<Timed>, period: nat)
    decreases run
  {
    run == [] || (Possible(w, run[0], period) && IsRun(Step(w, run[0]), run[1..], period))
  }

  function After(w: Watched, run: seq<Timed>, period: nat): Watched
    requires IsRun(w, run, period)
    decreases run
  {
    if run == [] then w else After(Step(w, run[0]), run[1..], period)
  }

  /** When the last message from the external service came, or `start` if none has. */
  function LastMessage(run: seq<Timed>, start: int): int {
    if run == [] then start
    else
      var last := run[|run| - 1];
      if last.event.Command? || last.event.RawData? then last.at else LastMessage(run[..|run| - 1], start)
  }

  /** The rules of the last filter command. */
  function LastRules(run: seq<Timed>, start: seq<CanFilterRule>): seq<CanFilterRule> {
    if run == [] then start
    else
      var e := run[|run| - 1].event;
      if e.Command? && e.command == CMD_SET_FILTERS then e.sorted else LastRules(run[..|run| - 1], start)
  }

  ghost predicate WatchInv(w: Watched) {
    && w.core.running
    && (w.core.logging ==> w.core.connected)
    && (w.core.connected ==> w.lastTick <= w.core.lastExternal + TIMEOUT_MS)
    && w.core.lastExternal <= w.clock && w.lastTick <= w.clock
  }

  lemma StepKeepsWatchInv(w: Watched, t: Timed, period: nat)
    requires WatchInv(w) && Possible(w, t, period)
    ensures WatchInv(Step(w, t)) && Step(w, t).clock <= Step(w, t).lastTick + period
    ensures Step(w, t).core.lastExternal == LastMessage([t], w.core.lastExternal)
    ensures Step(w, t).core.rules == LastRules([t], w.core.rules)
  {
    hide Judge, IsFrame, SortResult, SortedById;
    assert [t][..0] == [];
  }

  lemma {:induction false} LastAppends(t: Timed, run: seq<Timed>, start: int, rules: seq<CanFilterRule>)
    ensures LastMessage([t] + run, start) == LastMessage(run, LastMessage([t], start))
    ensures LastRules([t] + run, rules) == LastRules(run, LastRules([t], rules))
  {
    if run == [] {
      assert [t] + run == [t];
    } else {
      var front := run[..|run| - 1];
      LastAppends(t, front, start, rules);
      assert ([t] + run)[..|run|] == [t] + front;
      assert ([t] + run)[|run|] == run[|run| - 1];
    }
  }

  lemma {:induction false} RunKeepsWatchInv(w: Watched, run: seq<Timed>, period: nat)
    requires WatchInv(w) && w.clock <= w.lastTick + period && IsRun(w, run, period)
    ensures var w' := After(w, run, period);
            && WatchInv(w') && w'.clock <= w'.lastTick + period
            && w'.core.lastExternal == LastMessage(run, w.core.lastExternal)
            && w'.core.rules == LastRules(run, w.core.rules)
    decreases run
  {
    if run != [] {
      hide WatchInv, Step, Possible;
      StepKeepsWatchInv(w, run[0], period);
      RunKeepsWatchInv(Step(w, run[0]), run[1..], period);
      LastAppends(run[0], run[1..], w.core.lastExternal, w.core.rules);
      assert run == [run[0]] + run[1..];
    }
  }

  /** The table is sorted in every run, so that part of `Possible` never excludes an event. */
  lemma {:induction false} TablesStaySorted(w: Watched, run: seq<Timed>, period: nat)
    requires SortedById(w.core.rules) && IsRun(w, run, period)
    ensures SortedById(After(w, run, period).core.rules)
    decreases run
  {
    hide SortedById, Step, IsFrame, SortResult;
    if run != [] {
      StepKeepsSorted(w, run[0], period);
      TablesStaySorted(Step(w, run[0]), run[1..], period);
    }
  }

  lemma StepKeepsSorted(w: Watched, t: Timed, period: nat)
    requires Possible(w, t, period)
    ensures SortedById(Step(w, t).core.rules)
  {
    hide SortedById, Judge, IsFrame;
  }

  /** Logging is only ever on while the external service counts as connected. */
  lemma LoggingImpliesConnected(start: int, run: seq<Timed>, period: nat)
    requires IsRun(Started(start), run, period)
    ensures After(Started(start), run, period).core.logging ==> After(Started(start), run, period).core.connected
  {
    RunKeepsWatchInv(Started(start), run, period);
  }

  /** It goes off at the latest 1500 ms and one watchdog period after the last message. */
  lemma LoggingEndsInTime(start: int, run: seq<Timed>, period: nat)
    requires IsRun(Started(start), run, period)
    ensures var w := After(Started(start), run, period);
            w.core.logging ==> w.clock <= LastMessage(run, start) + TIMEOUT_MS + period
  {
    RunKeepsWatchInv(Started(start), run, period);
  }

  /** Losing the connection keeps the filters: the table is always the last one loaded. */
  lemma RulesAreTheLastLoaded(start: int, run: seq<Timed>, period: nat)
    requires IsRun(Started(start), run, period)
    ensures After(Started(start), run, period).core.rules == LastRules(run, [])
  {
    RunKeepsWatchInv(Started(start), run, period);
  }

  // ---- Logging and connection, told from messages and ticks alone ----

  /** What a command asks of logging: 0x1004 to be on, 0x1005 to be off, a heartbeat (0x1008) what its first byte
      says. */
  function Asked(command: nat, data: seq<byte>, otherwise: bool): bool {
    if command == 0x1004 then true
    else if command == 0x1005 then false
    else if command == 0x1008 && |data| >= 32 then data[0] != 0
    else otherwise
  }

  /** Logging is as last asked, unless a tick since came more than 1500 ms after the last message before it. */
  function LoggingAfter(run: seq<Timed>, start: int): bool {
    if run == [] then false
    else
      var front, last := run[..|run| - 1], run[|run| - 1];
      if last.event.Command? then Asked(last.event.command, last.event.data, LoggingAfter(front, start))
      else LoggingAfter(front, start) && (last.event.Tick? ==> last.at - LastMessage(front, start) <= 1500)
  }

  /** The same for the connection, which any command makes. */
  function ConnectedAfter(run: seq<Timed>, start: int): bool {
    if run == [] then false
    else
      var front, last := run[..|run| - 1], run[|run| - 1];
      last.event.Command? ||
      (ConnectedAfter(front, start) && (last.event.Tick? ==> last.at - LastMessage(front, start) <= 1500))
  }

  lemma {:induction false} RunWithoutLast(w: Watched, run: seq<Timed>, period: nat)
    requires IsRun(w, run, period) && run != []
    ensures var front, last := run[..|run| - 1], run[|run| - 1];
            && IsRun(w, front, period) && Possible(After(w, front, period), last, period)
            && After(w, run, period) == Step(After(w, front, period), last)
    decreases run
  {
    hide Step, IsFrame, SortedById, SortResult;
    if |run| > 1 {
      RunWithoutLast(Step(w, run[0]), run[1..], period);
      assert run[..|run| - 1][1..] == run[1..][..|run| - 2];
    }
  }

  lemma StepLogs(w: Watched, t: Timed, period: nat)
    requires WatchInv(w) && Possible(w, t, period)
    ensures var core, overdue := Step(w, t).core, t.event.Tick? && t.at - w.core.lastExternal > 1500;
            && core.logging == (if t.event.Command? then Asked(t.event.command, t.event.data, w.core.logging)
                                else w.core.logging && !overdue)
            && core.connected == (t.event.Command? || (w.core.connected && !overdue))
  {
    hide Judge, IsFrame, SortedById, SortResult;
  }

  /** Over every run, both directions: logging and connection are exactly that. */
  lemma {:induction false} LoggingAndConnectionExactly(start: int, run: seq<Timed>, period: nat)
    requires IsRun(Started(start), run, period)
    ensures After(Started(start), run, period).core.logging == LoggingAfter(run, start)
    ensures After(Started(start), run, period).core.connected == ConnectedAfter(run, start)
  {
    hide Step, Possible, LastMessage;
    if run != [] {
      var front := run[..|run| - 1];
      RunWithoutLast(Started(start), run, period);
      LoggingAndConnectionExactly(start, front, period);
      RunKeepsWatchInv(Started(start), front, period);
      hide WatchInv;
      StepLogs(After(Started(start), front, period), run[|run| - 1], period);
    }
  }

  /** A tick changes a sniffer exactly when it is connected and the last message is more than 1500 ms old; then logging
      and connection go off and nothing else changes. */
  lemma TickResetsExactlyWhenOverdue(start: int, run: seq<Timed>, at: int, period: nat)
    requires IsRun(Started(start), run + [Timed(at, Tick)], period)
    ensures IsRun(Started(start), run, period)
    ensures var before := After(Started(start), run, period).core;
            After(Started(start), run + [Timed(at, Tick)], period).core ==
            if ConnectedAfter(run, start) && at - LastMessage(run, start) > 1500
            then before.(logging := false, connected := false) else before
  {
    hide Possible, LastMessage, ConnectedAfter;
    var all := run + [Timed(at, Tick)];
    assert all[..|all| - 1] == run && all[|all| - 1] == Timed(at, Tick);
    RunWithoutLast(Started(start), all, period);
    LoggingAndConnectionExactly(start, run, period);
    RunKeepsWatchInv(Started(start), run, period);
  }

  /** No tick comes more than 1500 ms after the last message before it. */
  predicate Timely(run: seq<Timed>, start: int) {
    run == [] ||
    (Timely(run[..|run| - 1], start) &&
     (run[|run| - 1].event.Tick? ==> run[|run| - 1].at - LastMessage(run[..|run| - 1], start) <= 1500))
  }

  /** What the last command with a say in it asked of logging. */
  function LastAsked(run: seq<Timed>): bool {
    if run == [] then false
    else
      var last := run[|run| - 1].event;
      var before := LastAsked(run[..|run| - 1]);
      if last.Command? then Asked(last.command, last.data, before) else before
  }

  /** While messages come in time, logging stays as last asked. */
  lemma {:induction false} LoggingStaysAsAsked(start: int, run: seq<Timed>, period: nat)
    requires IsRun(Started(start), run, period) && Timely(run, start)
    ensures After(Started(start), run, period).core.logging == LastAsked(run)
  {
    LoggingAndConnectionExactly(start, run, period);
    TimelyLogging(run, start);
  }

  lemma {:induction false} TimelyLogging(run: seq<Timed>, start: int)
    requires Timely(run, start)
    ensures LoggingAfter(run, start) == LastAsked(run)
  {
    hide LastMessage;
    if run != [] {
      TimelyLogging(run[..|run| - 1], start);
    }
  }
}
