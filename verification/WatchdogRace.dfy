/** The command handler and the watchdog with the step boundaries they have in the code: what they write outside the
    lock, and when. */
module WatchdogRace {
  import opened Bytes
  import opened CanbusProtocol
  import S = Sniffer

  /** What a command asks of logging; a heartbeat asks for one or the other too. */
  datatype Wish = SwitchOn | SwitchOff | Neither

  datatype Handler = Idle | Entered(wish: Wish) | Stamped(wish: Wish)

  datatype Turn = Sleeping | Decided | LoggingCleared

  datatype State = State(
    logging: bool,
    connected: bool,
    lastExternal: int,
    clock: int,                 // when the clock was last read; it is read under the lock
    handler: Handler,           // of the external service's one thread
    turn: Turn)                 // of the watchdog

  datatype Step =
    | Connects(wish: Wish)      // a command is received: the connection is noted, without the lock
    | Stamps(at: int)           // then the time, with it
    | Acts(wish: Wish)          // then the command is carried out
    | RawData(at: int)          // the data listener only notes the time
    | Looks(at: int)            // the watchdog looks at connection and time, under the lock
    | ClearsLogging             // it has decided to reset: logging first
    | Disconnects               // then the connection

  function Init(start: int): State {
    State(false, false, start, start, Idle, Sleeping)
  }

  predicate Enabled(s: State, step: Step) {
    match step
    case Connects(_) => s.handler.Idle?
    case Stamps(at) => s.handler.Entered? && s.clock <= at
    case Acts(wish) => s.handler == Stamped(wish)
    case RawData(at) => s.handler.Idle? && s.clock <= at
    case Looks(at) => s.turn.Sleeping? && s.clock <= at
    case ClearsLogging => s.turn.Decided?
    case Disconnects => s.turn.LoggingCleared?
  }

  function Next(s: State, step: Step): State {
    match step
    case Connects(wish) => s.(connected := true, handler := Entered(wish))
    case Stamps(at) =>
      s.(lastExternal := at, clock := at, handler := if s.handler.Entered? then Stamped(s.handler.wish) else s.handler)
    case Acts(wish) => s.(logging := if wish.Neither? then s.logging else wish.SwitchOn?, handler := Idle)
    case RawData(at) => s.(lastExternal := at, clock := at)
    case Looks(at) =>
      s.(clock := at, turn := if s.connected && at - s.lastExternal > S.TIMEOUT_MS then Decided else s.turn)
    case ClearsLogging => s.(logging := false, turn := LoggingCleared)
    case Disconnects => s.(connected := false, turn := Sleeping)
  }

  /** The state after the first `n` steps. */
  function At(start: int, steps: seq<Step>, n: nat): State
    requires n <= |steps|
  {
    if n == 0 then Init(start) else Next(At(start, steps, n - 1), steps[n - 1])
  }

  ghost predicate IsRun(start: int, steps: seq<Step>) {
    forall n: nat :: n < |steps| ==> Enabled(At(start, steps, n), steps[n])
  }

  lemma EnabledAt(start: int, steps: seq<Step>, n: nat)
    requires IsRun(start, steps) && n < |steps|
    ensures Enabled(At(start, steps, n), steps[n])
  {
    hide At, Enabled;
  }

  lemma AtNext(start: int, steps: seq<Step>, n: nat)
    requires n < |steps|
    ensures At(start, steps, n + 1) == Next(At(start, steps, n), steps[n])
  {
  }

  // ---- The steps and the sniffer's operations ----

  /** What a state is of the sniffer. */
  predicate Shows(s: State, core: S.SnifferState) {
    s.logging == core.logging && s.connected == core.connected && s.lastExternal == core.lastExternal
  }

  function WishOf(command: nat, data: seq<byte>): Wish {
    if command == 0x1004 then SwitchOn
    else if command == 0x1005 then SwitchOff
    else if command == 0x1008 && |data| >= 32 then (if data[0] != 0 then SwitchOn else SwitchOff)
    else Neither
  }

  /** Undisturbed, the three steps of a command are the sniffer's command handler, whatever the command. */
  lemma CommandSteps(s: State, core: S.SnifferState, at: int, command: nat, data: seq<byte>, sorted: seq<CanFilterRule>)
    requires Shows(s, core) && core.running && s.handler.Idle?
    ensures var wish := WishOf(command, data);
            Shows(Next(Next(Next(s, Connects(wish)), Stamps(at)), Acts(wish)),
                  S.AfterCommand(core, at, command, data, sorted))
  {
  }

  /** And the three steps of a turn are the watchdog's, which ends with the look if that decides nothing. */
  lemma TurnSteps(s: State, core: S.SnifferState, at: int)
    requires Shows(s, core) && s.turn.Sleeping?
    ensures var looked := Next(s, Looks(at));
            Shows(if looked.turn.Decided? then Next(Next(looked, ClearsLogging), Disconnects) else looked,
                  S.AfterTick(core, at))
  {
  }

  // ---- What a state says about the steps before it ----

  lemma {:induction false} EnteredBy(start: int, steps: seq<Step>, n: nat) returns (p: nat)
    requires IsRun(start, steps) && n <= |steps| && !At(start, steps, n).handler.Idle?
    ensures p < n && steps[p] == Connects(At(start, steps, n).handler.wish)
    ensures forall k :: p < k < n ==> !steps[k].Connects?
  {
    hide IsRun;
    EnabledAt(start, steps, n - 1);
    if steps[n - 1].Connects? {
      p := n - 1;
    } else {
      p := EnteredBy(start, steps, n - 1);
    }
  }

  lemma {:induction false} ClearedBy(start: int, steps: seq<Step>, n: nat) returns (c: nat)
    requires n <= |steps| && At(start, steps, n).turn.LoggingCleared?
    ensures c < n && steps[c].ClearsLogging? && forall k :: c < k < n ==> !steps[k].ClearsLogging?
  {
    if steps[n - 1].ClearsLogging? {
      c := n - 1;
    } else {
      c := ClearedBy(start, steps, n - 1);
    }
  }

  lemma {:induction false} SwitchedOnBy(start: int, steps: seq<Step>, n: nat) returns (a: nat)
    requires n <= |steps| && At(start, steps, n).logging
    ensures a < n && steps[a] == Acts(SwitchOn)
    ensures forall k :: a < k < n ==> steps[k] != Acts(SwitchOff) && !steps[k].ClearsLogging?
  {
    if steps[n - 1] == Acts(SwitchOn) {
      a := n - 1;
    } else {
      a := SwitchedOnBy(start, steps, n - 1);
    }
  }

  lemma {:induction false} DisconnectedBy(start: int, steps: seq<Step>, p: nat, n: nat) returns (i: nat)
    requires p < n <= |steps| && steps[p].Connects? && !At(start, steps, n).connected
    ensures p < i < n && steps[i].Disconnects?
  {
    if steps[n - 1].Disconnects? {
      i := n - 1;
    } else {
      i := DisconnectedBy(start, steps, p, n - 1);
    }
  }

  lemma {:induction false} StaysOn(start: int, steps: seq<Step>, a: nat, n: nat)
    requires a < n <= |steps| && steps[a] == Acts(SwitchOn)
    requires forall k :: a < k < n ==> steps[k] != Acts(SwitchOff) && !steps[k].ClearsLogging?
    ensures At(start, steps, n).logging
  {
    if a < n - 1 {
      StaysOn(start, steps, a, n - 1);
    }
  }

  lemma {:induction false} StaysDisconnected(start: int, steps: seq<Step>, i: nat, n: nat)
    requires i < n <= |steps| && steps[i].Disconnects? && forall k :: i < k < n ==> !steps[k].Connects?
    ensures !At(start, steps, n).connected
  {
    if i < n - 1 {
      StaysDisconnected(start, steps, i, n - 1);
    }
  }

  // ---- Logging implies connected, exactly when ----

  ghost predicate Throughout(start: int, steps: seq<Step>) {
    forall n: nat :: n <= |steps| ==> At(start, steps, n).logging ==> At(start, steps, n).connected
  }

  /** One command to switch logging on: it connects at `p` and acts at `a`. */
  ghost predicate SwitchOnCommand(steps: seq<Step>, p: nat, a: nat) {
    && p < a < |steps| && steps[p] == Connects(SwitchOn) && steps[a] == Acts(SwitchOn)
    && forall k :: p < k < a ==> !steps[k].Connects?
  }

  /** One reset by the watchdog: it clears logging at `c` and disconnects at `i`. */
  ghost predicate Reset(steps: seq<Step>, c: nat, i: nat) {
    && c < i < |steps| && steps[c].ClearsLogging? && steps[i].Disconnects?
    && forall k :: c < k < i ==> !steps[k].ClearsLogging?
  }

  /** The command connects before the reset disconnects, yet acts after the reset cleared logging, and no other command
      switches logging off before the disconnect. */
  ghost predicate Collision(steps: seq<Step>, p: nat, a: nat, c: nat, i: nat) {
    && SwitchOnCommand(steps, p, a) && Reset(steps, c, i)
    && p < i && c < a
    && forall k :: a < k < i ==> steps[k] != Acts(SwitchOff)
  }

  lemma CollisionBreaksIt(start: int, steps: seq<Step>, p: nat, a: nat, c: nat, i: nat)
    requires Collision(steps, p, a, c, i)
    ensures !Throughout(start, steps)
  {
    if a < i {
      StaysOn(start, steps, a, i);
      assert At(start, steps, i + 1).logging && !At(start, steps, i + 1).connected;
    } else {
      StaysDisconnected(start, steps, i, a);
      assert At(start, steps, a + 1).logging && !At(start, steps, a + 1).connected;
    }
  }

  lemma OnlyACollisionBreaksIt(start: int, steps: seq<Step>, n: nat) returns (p: nat, a: nat, c: nat, i: nat)
    requires IsRun(start, steps) && n <= |steps|
    requires At(start, steps, n).logging && !At(start, steps, n).connected
    ensures Collision(steps, p, a, c, i)
  {
    hide IsRun;
    a := SwitchedOnBy(start, steps, n);
    EnabledAt(start, steps, a);
    p := EnteredBy(start, steps, a);
    i := DisconnectedBy(start, steps, p, n);
    EnabledAt(start, steps, i);
    c := ClearedBy(start, steps, i);
    hide At;
    assert c != a && !(a < c < n);
  }

  /** In every run, logging implies connected in all states if and only if no command to switch logging on collides
      with a reset. */
  lemma LoggingImpliesConnectedExactlyWithoutCollision(start: int, steps: seq<Step>)
    requires IsRun(start, steps)
    ensures Throughout(start, steps) <==> !exists p, a, c, i :: Collision(steps, p, a, c, i)
  {
    hide At, Collision;
    forall p, a, c, i | Collision(steps, p, a, c, i)
      ensures !Throughout(start, steps)
    {
      CollisionBreaksIt(start, steps, p, a, c, i);
    }
    if !Throughout(start, steps) {
      var n: nat :| n <= |steps| && At(start, steps, n).logging && !At(start, steps, n).connected;
      var p, a, c, i := OnlyACollisionBreaksIt(start, steps, n);
    }
  }

  // ---- Logging ends in time ----

  /** When the watchdog last looked, or `start` if it has not. */
  function LastLook(start: int, steps: seq<Step>, n: nat): int
    requires n <= |steps|
  {
    if n == 0 then start
    else if steps[n - 1].Looks? then steps[n - 1].at else LastLook(start, steps, n - 1)
  }

  /** The watchdog's looks come no more than `period` apart. */
  ghost predicate LooksWithin(start: int, steps: seq<Step>, period: nat) {
    forall n: nat :: n < |steps| && steps[n].Looks? ==> steps[n].at <= LastLook(start, steps, n) + period
  }

  /** A connection that a look left alone was not silent too long then; one that a look gave up was not much longer. */
  ghost predicate TimelyAt(s: State, lastLook: int, period: nat) {
    && lastLook <= s.clock
    && (s.connected && !s.handler.Entered? && s.turn.Sleeping? ==> lastLook <= s.lastExternal + S.TIMEOUT_MS)
    && (!s.handler.Entered? && s.turn.Decided? ==> lastLook <= s.lastExternal + S.TIMEOUT_MS + period)
  }

  lemma StepIsTimely(s: State, step: Step, lastLook: int, period: nat)
    requires TimelyAt(s, lastLook, period) && Enabled(s, step)
    requires step.Looks? ==> step.at <= lastLook + period
    ensures TimelyAt(Next(s, step), if step.Looks? then step.at else lastLook, period)
  {
  }

  lemma {:induction false} RunIsTimely(start: int, steps: seq<Step>, n: nat, period: nat)
    requires IsRun(start, steps) && LooksWithin(start, steps, period) && n <= |steps|
    ensures TimelyAt(At(start, steps, n), LastLook(start, steps, n), period)
  {
    hide IsRun, LooksWithin, At, LastLook, TimelyAt, Enabled, Next;
    if n == 0 {
      StartIsTimely(start, steps, period);
    } else {
      RunIsTimely(start, steps, n - 1, period);
      EnabledAt(start, steps, n - 1);
      AtNext(start, steps, n - 1);
      LookNext(start, steps, n - 1, period);
      StepIsTimely(At(start, steps, n - 1), steps[n - 1], LastLook(start, steps, n - 1), period);
    }
  }

  lemma StartIsTimely(start: int, steps: seq<Step>, period: nat)
    ensures TimelyAt(At(start, steps, 0), LastLook(start, steps, 0), period)
  {
  }

  lemma LookNext(start: int, steps: seq<Step>, n: nat, period: nat)
    requires LooksWithin(start, steps, period) && n < |steps|
    ensures LastLook(start, steps, n + 1) == if steps[n].Looks? then steps[n].at else LastLook(start, steps, n)
    ensures steps[n].Looks? ==> steps[n].at <= LastLook(start, steps, n) + period
  {
  }

  /** In a run without collisions, a look that finds logging on comes at the latest 1500 ms and one period after the
      last message; if it comes more than 1500 ms after it, the reset it begins switches logging off. The handler may be
      anywhere but between noting the connection and noting the time of a message. */
  lemma LoggingEndsInTime(start: int, steps: seq<Step>, n: nat, period: nat)
    requires IsRun(start, steps) && LooksWithin(start, steps, period) && n < |steps| && steps[n].Looks?
    requires !exists p, a, c, i :: Collision(steps, p, a, c, i)
    requires At(start, steps, n).logging && !At(start, steps, n).handler.Entered?
    ensures steps[n].at <= At(start, steps, n).lastExternal + S.TIMEOUT_MS + period
    ensures steps[n].at > At(start, steps, n).lastExternal + S.TIMEOUT_MS ==> At(start, steps, n + 1).turn.Decided?
  {
    LoggingImpliesConnectedExactlyWithoutCollision(start, steps);
    RunIsTimely(start, steps, n, period);
    EnabledAt(start, steps, n);
    AtNext(start, steps, n);
    hide IsRun, At;
  }

  // ---- It happens, and it stays ----

  /** A sniffer that has been idle for more than the timeout receives its first command, to switch logging on. The
      connection is noted before the time is, so the watchdog sees a connected client that has long been silent. */
  function FirstCommand(start: int): seq<Step> {
    var late := start + S.TIMEOUT_MS + 1;
    [Connects(SwitchOn), Looks(late), Stamps(late), ClearsLogging, Acts(SwitchOn), Disconnects]
  }

  lemma FirstCommandCollides(start: int)
    ensures IsRun(start, FirstCommand(start))
    ensures Collision(FirstCommand(start), 0, 4, 3, 5)
    ensures Stuck(At(start, FirstCommand(start), 6))
  {
    var steps := FirstCommand(start);
    var late := start + S.TIMEOUT_MS + 1;
    assert At(start, steps, 0) == Init(start);
    assert At(start, steps, 1) == State(false, true, start, start, Entered(SwitchOn), Sleeping);
    assert At(start, steps, 2) == State(false, true, start, late, Entered(SwitchOn), Decided);
    assert At(start, steps, 3) == State(false, true, late, late, Stamped(SwitchOn), Decided);
    assert At(start, steps, 4) == State(false, true, late, late, Stamped(SwitchOn), LoggingCleared);
    assert At(start, steps, 5) == State(true, true, late, late, Idle, LoggingCleared);
    assert At(start, steps, 6) == State(true, false, late, late, Idle, Sleeping);
  }

  /** Logging without a connection, and nothing under way that would change it. */
  predicate Stuck(s: State) {
    s.logging && !s.connected && s.handler.Idle? && s.turn.Sleeping?
  }

  /** Once so, it stays so until the next command: the watchdog never switches logging off. */
  lemma {:induction false} LoggingWithoutConnectionStays(start: int, steps: seq<Step>, n: nat, m: nat)
    requires IsRun(start, steps) && n <= m <= |steps| && Stuck(At(start, steps, n))
    requires forall k :: n <= k < m ==> !steps[k].Connects?
    ensures Stuck(At(start, steps, m))
  {
    hide IsRun, At;
    if n < m {
      LoggingWithoutConnectionStays(start, steps, n, m - 1);
      EnabledAt(start, steps, m - 1);
      AtNext(start, steps, m - 1);
    }
  }
}
