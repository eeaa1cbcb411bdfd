/** What the supervisor of a `CommunicationObj` is for: the link comes up, stays up, and comes up again. */
module Supervision {
  import opened CommunicationRun
  import opened FrameQueue
  import opened Wrappers

  ghost predicate BySupervisor(events: seq<Event>) {
    forall i :: 0 <= i < |events| ==> events[i].SupervisorStep?
  }

  /** Steps of the supervisor alone lead from one state to the other. */
  ghost predicate SupervisorReaches(s: State, s': State) {
    exists events :: BySupervisor(events) && IsRun(s, events) && After(s, events) == s'
  }

  lemma SupervisorReachesItself(s: State)
    ensures SupervisorReaches(s, s)
  {
    hide Enabled, Next;
    assert BySupervisor([]) && IsRun(s, []) && After(s, []) == s;
  }

  /** One more step at the end. */
  lemma SupervisorGoesOn(a: State, b: State, openOk: bool, c: State)
    requires SupervisorReaches(a, b) && Enabled(b, SupervisorStep(openOk)) && Next(b, SupervisorStep(openOk)) == c
    ensures SupervisorReaches(a, c)
  {
    hide Enabled, Next;
    var events :| BySupervisor(events) && IsRun(a, events) && After(a, events) == b;
    var step := SupervisorStep(openOk);
    assert [step][1..] == [];
    assert IsRun(b, [step]) && After(b, [step]) == c;
    RunsCompose(a, events, [step]);
    assert BySupervisor(events + [step]);
  }

  lemma SupervisorReachesTransitive(a: State, b: State, c: State)
    requires SupervisorReaches(a, b) && SupervisorReaches(b, c)
    ensures SupervisorReaches(a, c)
  {
    hide Enabled, Next;
    var first :| BySupervisor(first) && IsRun(a, first) && After(a, first) == b;
    var second :| BySupervisor(second) && IsRun(b, second) && After(b, second) == c;
    RunsCompose(a, first, second);
    assert BySupervisor(first + second);
  }

  /** The link is down: both threads are out of their loops, and the supervisor is in its own. */
  predicate Down(s: State) {
    && s.reconnect && !s.running && !RxLive(s.rx) && !WorkerLive(s.worker)
    && s.supervisor in {SupLoop, SupCheck, SupSleep}
  }

  /** The link is up: both threads are in their loops over an empty ring of their own. */
  predicate Up(s: State) {
    s.running && RxLive(s.rx) && WorkerLive(s.worker) && s.ring == Some(Queue(s.blocks, [], None))
  }

  lemma DownStops(s: State)
    requires Down(s) && !s.fault && (s.rx.RxAbsent? <==> s.worker.WorkerAbsent?)
    ensures SupervisorReaches(s, s.(supervisor := SupStopped, rx := RxAbsent, worker := WorkerAbsent))
  {
    hide SupervisorReaches;
    SupervisorReachesItself(s);
    if s.supervisor.SupSleep? {
      SupervisorGoesOn(s, s, true, s.(supervisor := SupLoop));
    }
    if !s.supervisor.SupCheck? {
      SupervisorGoesOn(s, s.(supervisor := SupLoop), true, s.(supervisor := SupCheck));
    }
    var entered := s.(supervisor := SupTask(StopEnter));
    SupervisorGoesOn(s, s.(supervisor := SupCheck), true, entered);
    if s.rx.RxAbsent? {
      SupervisorGoesOn(s, entered, true, s.(supervisor := SupStopped));
    } else {
      SupervisorGoesOn(s, entered, true, s.(supervisor := SupTask(StopUnblock)));
      DownJoins(s, s.(supervisor := SupTask(StopUnblock)));
    }
  }

  lemma DownJoins(s: State, s': State)
    requires SupervisorReaches(s, s') && s'.supervisor == SupTask(StopUnblock)
    requires !s'.running && !RxLive(s'.rx) && !WorkerLive(s'.worker) && !s'.fault
    ensures SupervisorReaches(s, s'.(supervisor := SupStopped, rx := RxAbsent, worker := WorkerAbsent))
  {
    hide SupervisorReaches;
    var joinsRx := s'.(supervisor := SupTask(StopJoinRx));
    var joinsWorker := s'.(supervisor := SupTask(StopJoinWorker), rx := RxAbsent);
    var closes := s'.(supervisor := SupTask(StopClose), rx := RxAbsent, worker := WorkerAbsent);
    SupervisorGoesOn(s, s', true, joinsRx);
    SupervisorGoesOn(s, joinsRx, true, joinsWorker);
    SupervisorGoesOn(s, joinsWorker, true, closes);
    SupervisorGoesOn(s, closes, true, closes.(supervisor := SupStopped));
  }

  lemma StoppedOpens(s: State, openOk: bool)
    requires s.supervisor.SupStopped? && s.reconnect && !s.running && Joined(s) && !s.fault
    ensures SupervisorReaches(s, s.(supervisor := if openOk then SupTask(StartRing) else SupSleep))
  {
    hide SupervisorReaches;
    SupervisorReachesItself(s);
    SupervisorGoesOn(s, s, true, s.(supervisor := SupTask(StartEnter)));
    SupervisorGoesOn(s, s.(supervisor := SupTask(StartEnter)), true, s.(supervisor := SupTask(StartOpen)));
    SupervisorGoesOn(s, s.(supervisor := SupTask(StartOpen)), openOk,
                     s.(supervisor := if openOk then SupTask(StartRing) else SupSleep));
  }

  lemma OpenedStarts(s: State) returns (s': State)
    requires s.supervisor == SupTask(StartRing) && Joined(s) && !s.fault && s.blocks >= 2
    ensures SupervisorReaches(s, s') && Up(s') && s'.log == LogNewRing(s.log) && s'.owner == s.owner && !s'.fault
    ensures s'.rx == RxCheck && s'.worker == WorkerCheck && s'.blocks == s.blocks
  {
    hide SupervisorReaches, LogNewRing;
    SupervisorReachesItself(s);
    var t := s.(ring := Some(Queue(s.blocks, [], None)), log := LogNewRing(s.log));
    var t1 := t.(supervisor := SupTask(StartRunning));
    var t2 := t.(running := true, supervisor := SupTask(StartRx));
    var t3 := t.(running := true, rx := RxCheck, supervisor := SupTask(StartWorker));
    s' := t.(running := true, rx := RxCheck, worker := WorkerCheck, supervisor := SupSleep);
    SupervisorGoesOn(s, s, true, t1);
    SupervisorGoesOn(s, t1, true, t2);
    SupervisorGoesOn(s, t2, true, t3);
    SupervisorGoesOn(s, t3, true, s');
  }

  lemma DownComesUp(s: State) returns (s': State)
    requires Down(s) && !s.fault && s.blocks >= 2 && (s.rx.RxAbsent? <==> s.worker.WorkerAbsent?)
    ensures SupervisorReaches(s, s') && Up(s') && s'.log == LogNewRing(s.log) && s'.owner == s.owner && !s'.fault
    ensures s'.rx == RxCheck && s'.worker == WorkerCheck && s'.blocks == s.blocks
  {
    hide SupervisorReaches, LogNewRing;
    DownStops(s);
    var stopped := s.(supervisor := SupStopped, rx := RxAbsent, worker := WorkerAbsent);
    StoppedOpens(stopped, true);
    var withLink := stopped.(supervisor := SupTask(StartRing));
    s' := OpenedStarts(withLink);
    SupervisorReachesTransitive(s, stopped, withLink);
    SupervisorReachesTransitive(s, withLink, s');
  }

  /** Whenever the link is down, the supervisor alone brings it up again, once an open succeeds. */
  lemma SupervisorReconnects(s: State, blocks: nat)
    requires blocks >= 2 && Reachable(s, blocks, true) && Down(s)
    ensures exists s' :: SupervisorReaches(s, s') && Up(s')
  {
    ReachableInv(s, blocks, true);
    hide Reachable, SupervisorReaches, LogInv, RingInv;
    var s' := DownComesUp(s);
  }

  /** An open that fails leaves the link down, so the same holds again. */
  lemma FailedOpenIsRetried(s: State, blocks: nat)
    requires blocks >= 2 && Reachable(s, blocks, true) && s.reconnect && s.supervisor == SupTask(StartOpen)
    ensures Enabled(s, SupervisorStep(false)) && Down(Next(s, SupervisorStep(false)))
    ensures exists s' :: SupervisorReaches(Next(s, SupervisorStep(false)), s') && Up(s')
  {
    ReachableInv(s, blocks, true);
    hide Reachable, SupervisorReaches, LogInv, RingInv;
    var s' := DownComesUp(Next(s, SupervisorStep(false)));
  }

  lemma Spawned(blocks: nat)
    ensures Reachable(Init(blocks, true).(reconnect := true, supervisor := SupLoop), blocks, true)
  {
    var s, go := Init(blocks, true), OwnerStep(true);
    var spawning := s.(reconnect := true, owner := OwnerSpawn);
    var spawned := s.(reconnect := true, supervisor := SupLoop);
    RunOf(spawning, go, [], spawned);
    RunOf(s, OwnerCallsStart, [go], spawning);
    hide Enabled, Next, Init;
    assert IsRun(s, [OwnerCallsStart] + [go]) && After(s, [OwnerCallsStart] + [go]) == spawned;
  }

  lemma ReachableGoesOn(s: State, e: Event, blocks: nat, supervised: bool, s': State)
    requires Reachable(s, blocks, supervised) && Enabled(s, e) && Next(s, e) == s'
    ensures Reachable(s', blocks, supervised)
  {
    hide Enabled, Next, Init;
    var events :| IsRun(Init(blocks, supervised), events) && After(Init(blocks, supervised), events) == s;
    assert [e][1..] == [];
    assert IsRun(s, [e]) && After(s, [e]) == s';
    RunsCompose(Init(blocks, supervised), events, [e]);
  }

  lemma SupervisorReachesReachable(s: State, blocks: nat, s': State)
    requires Reachable(s, blocks, true) && SupervisorReaches(s, s')
    ensures Reachable(s', blocks, true)
  {
    hide Enabled, Next, Init;
    var first :| IsRun(Init(blocks, true), first) && After(Init(blocks, true), first) == s;
    var second :| BySupervisor(second) && IsRun(s, second) && After(s, second) == s';
    RunsCompose(Init(blocks, true), first, second);
  }

  lemma FirstUp(blocks: nat) returns (s: State)
    requires blocks >= 2
    ensures Reachable(s, blocks, true) && Up(s) && s.rx == RxCheck && s.worker == WorkerCheck
    ensures s.log == Init(blocks, true).log && !s.fault && s.blocks == blocks
  {
    hide Reachable, SupervisorReaches;
    var spawned := Init(blocks, true).(reconnect := true, supervisor := SupLoop);
    Spawned(blocks);
    s := DownComesUp(spawned);
    SupervisorReachesReachable(spawned, blocks, s);
    assert LogNewRing(spawned.log) == spawned.log;
  }

  /** In reconnectable mode the link does come up. */
  lemma SupervisedModeStarts(blocks: nat)
    requires blocks >= 2
    ensures exists s :: Reachable(s, blocks, true) && Up(s)
  {
    hide Reachable, Up;
    var s := FirstUp(blocks);
  }

  lemma FirstFrameRead(blocks: nat, frame: Frame) returns (s: State)
    requires blocks >= 2
    ensures Reachable(s, blocks, true) && s.running && s.worker == WorkerCheck && !s.fault && s.blocks == blocks
    ensures s.ring == Some(Queue(blocks, [frame], None)) && s.log == Log([frame], [Waiting], [0], None, [], [])
  {
    var up := FirstUp(blocks);
    hide Reachable;
    var reading, pushing := up.(rx := RxRead), up.(rx := RxPush(frame));
    ReachableGoesOn(up, RxStep(Timeout), blocks, true, reading);
    ReachableGoesOn(reading, RxStep(Got(frame)), blocks, true, pushing);
    s := Next(pushing, RxStep(Timeout));
    assert s.log.waiting == [0] && s.log.fates == [Waiting] && s.log.offered == [frame];
    ReachableGoesOn(pushing, RxStep(Timeout), blocks, true, s);
  }

  /** And any frame read first can reach the callback. */
  lemma FirstFrameReachesTheCallback(blocks: nat, frame: Frame)
    requires blocks >= 2
    ensures exists s ::
              Reachable(s, blocks, true) && s.log.offered == s.log.callbacks == [frame] && s.worker.WorkerCallback?
  {
    var s := FirstFrameRead(blocks, frame);
    hide Reachable;
    var waits, takes := s.(worker := WorkerWait), WorkerNext(s.(worker := WorkerWait));
    ReachableGoesOn(s, WorkerStep, blocks, true, waits);
    ReachableGoesOn(waits, WorkerStep, blocks, true, takes);
    assert takes.ring == Some(Queue(blocks, [], Some(frame))) && takes.log.taken == Some(0);
    var calls := WorkerNext(takes);
    ReachableGoesOn(takes, WorkerStep, blocks, true, calls);
    assert calls.log.callbacks == [frame] && calls.log.offered == [frame] && calls.worker.WorkerCallback?;
  }

  /** While the object runs, no thread has left its loop, and the supervisor is not about to stop it. */
  ghost predicate StaysUp(s: State) {
    s.running ==> !s.rx.RxExited? && !s.worker.WorkerExited? && s.supervisor != SupTask(StopEnter)
  }

  lemma TaskStaysUp(s: State, task: Task, openOk: bool)
    requires TaskInv(s, task) && TaskEnabled(s, task) && !s.dirtyStart
    requires s.running ==> !s.rx.RxExited? && !s.worker.WorkerExited?
    ensures var s' := TaskStep(s, task, openOk).0;
            && (s'.running ==> !s'.rx.RxExited? && !s'.worker.WorkerExited?)
            && (s.running && !s'.running ==> task.StopEnter?)
  {
    hide LogNewRing;
  }

  lemma TaskLeadsOn(s: State, task: Task, openOk: bool)
    ensures TaskStep(s, task, openOk).1 != Some(StopEnter)
  {
    hide LogNewRing;
  }

  lemma ControllersStayUp(s: State, openOk: bool)
    requires ControlInv(s) && s.supervised && StaysUp(s) && !s.fault
    ensures Enabled(s, OwnerStep(openOk)) ==> StaysUp(OwnerNext(s, openOk))
    ensures Enabled(s, SupervisorStep(openOk)) ==> StaysUp(SupervisorNext(s, openOk))
  {
    if s.owner.OwnerTask? && TaskEnabled(s, s.owner.task) {
      TaskStaysUp(s, s.owner.task, openOk);
      TaskStepKeepsControllers(s, s.owner.task, openOk);
    }
    if s.supervisor.SupTask? && TaskEnabled(s, s.supervisor.task) {
      TaskStaysUp(s, s.supervisor.task, openOk);
      TaskLeadsOn(s, s.supervisor.task, openOk);
    }
    hide TaskStep, TaskInv, TaskEnabled;
  }

  lemma RxStaysUp(s: State, result: ReadResult)
    requires StaysUp(s)
    ensures StaysUp(RxNext(s, result))
  {
    hide LogPush;
  }

  lemma WorkerStaysUp(s: State)
    requires StaysUp(s)
    ensures StaysUp(WorkerNext(s))
  {
    WorkerStopsNothing(s);
    WorkerExitsWhenStopped(s);
    hide WorkerNext;
  }

  lemma WorkerExitsWhenStopped(s: State)
    ensures WorkerNext(s).worker.WorkerExited? ==> s.worker.WorkerExited? || !s.running
    ensures WorkerNext(s).supervisor == s.supervisor
  {
    hide LogTake, LogHandOver, LogDiscard;
  }

  lemma StepStaysUp(s: State, e: Event)
    requires Inv(s) && s.supervised && StaysUp(s) && Enabled(s, e)
    ensures StaysUp(Next(s, e))
  {
    hide StaysUp, LogInv, RingInv, ControlInv, OwnerNext, SupervisorNext, RxNext, WorkerNext, TaskEnabled;
    match e
    case OwnerStep(openOk) => ControllersStayUp(s, openOk);
    case SupervisorStep(openOk) => ControllersStayUp(s, openOk);
    case RxStep(result) => RxStaysUp(s, result);
    case WorkerStep => WorkerStaysUp(s);
    case OwnerCallsStart => OwnerStaysUp(s);
    case OwnerCallsStop => OwnerStaysUp(s);
  }

  lemma OwnerStaysUp(s: State)
    requires StaysUp(s)
    ensures StaysUp(Next(s, OwnerCallsStart)) && StaysUp(Next(s, OwnerCallsStop))
  {
  }

  lemma {:induction false} RunStaysUp(s: State, events: seq<Event>)
    requires Inv(s) && s.supervised && StaysUp(s) && IsRun(s, events)
    ensures StaysUp(After(s, events))
    decreases events
  {
    hide Inv, StaysUp, Enabled, Next;
    if events != [] {
      StepStaysUp(s, events[0]);
      StepKeepsInv(s, events[0]);
      StepKeepsSettings(s, events[0]);
      RunStaysUp(Next(s, events[0]), events[1..]);
    }
  }

  lemma ReachableStaysUp(s: State, blocks: nat)
    requires blocks >= 2 && Reachable(s, blocks, true)
    ensures StaysUp(s) && Inv(s) && s.supervised && !s.fault
  {
    ReachableInv(s, blocks, true);
    var events :| IsRun(Init(blocks, true), events) && After(Init(blocks, true), events) == s;
    InitInv(blocks, true);
    hide Inv, IsRun, After;
    RunStaysUp(Init(blocks, true), events);
    SupervisedIsFaultFree(s);
  }

  /** A running object outside `start()` and `stop()` has both threads at work on a ring. */
  lemma RunningMeansServed(s: State, blocks: nat)
    requires blocks >= 2 && Reachable(s, blocks, true)
    requires s.running && !s.supervisor.SupTask? && !s.owner.OwnerTask?
    ensures RxLive(s.rx) && WorkerLive(s.worker) && s.ring.Some?
  {
    ReachableStaysUp(s, blocks);
    hide Reachable, LogInv;
  }

  /** Only a read error or the owner's `stop()` ever stops it; the supervisor never does, nor does a timeout. */
  lemma OnlyErrorsAndTheOwnerStopIt(s: State, e: Event, blocks: nat)
    requires blocks >= 2 && Reachable(s, blocks, true) && Enabled(s, e)
    ensures s.running && !Next(s, e).running ==>
              (e.RxStep? && s.rx.RxReport?) || (e.OwnerStep? && s.owner == OwnerTask(StopEnter))
    ensures Next(s, e).rx.RxReport? && !s.rx.RxReport? ==> e.RxStep? && s.rx.RxRead? && e.result.Failed?
  {
    ReachableStaysUp(s, blocks);
    hide Reachable, LogInv, RingInv, OwnerNext, SupervisorNext, WorkerNext, LogPush;
    match e
    case OwnerStep(openOk) => OwnerStops(s, openOk);
    case SupervisorStep(openOk) => SupervisorStopsNothing(s, openOk);
    case WorkerStep => WorkerStopsNothing(s);
    case _ =>
  }

  lemma WorkerStopsNothing(s: State)
    ensures WorkerNext(s).running == s.running && WorkerNext(s).rx == s.rx
  {
    hide LogTake, LogHandOver, LogDiscard;
  }

  lemma TaskReportsNothing(s: State, task: Task, openOk: bool)
    ensures TaskStep(s, task, openOk).0.rx.RxReport? ==> s.rx.RxReport?
    ensures s.running && !TaskStep(s, task, openOk).0.running ==> task.StopEnter?
  {
    hide LogNewRing;
  }

  lemma OwnerStops(s: State, openOk: bool)
    ensures s.running && !OwnerNext(s, openOk).running ==> s.owner == OwnerTask(StopEnter)
    ensures OwnerNext(s, openOk).rx.RxReport? ==> s.rx.RxReport?
  {
    hide TaskStep;
    if s.owner.OwnerTask? {
      TaskReportsNothing(s, s.owner.task, openOk);
    }
  }

  lemma SupervisorStopsNothing(s: State, openOk: bool)
    requires StaysUp(s)
    ensures s.running ==> SupervisorNext(s, openOk).running
    ensures SupervisorNext(s, openOk).rx.RxReport? ==> s.rx.RxReport?
  {
    hide TaskStep;
    if s.supervisor.SupTask? {
      TaskReportsNothing(s, s.supervisor.task, openOk);
    }
  }

  // ---- stop() ----

  /** When `stop()` returns to the owner, in whichever mode, the object does not run and no thread is left. */
  lemma StopLeavesNothing(s: State, openOk: bool, blocks: nat, supervised: bool)
    requires blocks >= 2 && Reachable(s, blocks, supervised) && Enabled(s, OwnerStep(openOk))
    requires s.owner in {OwnerTask(StopEnter), OwnerTask(StopClose)} && Next(s, OwnerStep(openOk)).owner.OwnerIdle?
    ensures var s' := Next(s, OwnerStep(openOk));
            !s'.running && s'.rx.RxAbsent? && s'.worker.WorkerAbsent? && s'.supervisor.SupAbsent?
  {
    ReachableInv(s, blocks, supervised);
    hide Reachable, LogInv, RingInv;
  }

  /** In reconnectable mode nothing is left either whenever `stop()` was the last call. */
  lemma StoppedMeansJoined(s: State, blocks: nat)
    requires blocks >= 2 && Reachable(s, blocks, true) && s.owner.OwnerIdle? && !s.reconnect
    ensures !s.running && s.rx.RxAbsent? && s.worker.WorkerAbsent? && s.supervisor.SupAbsent?
  {
    ReachableInv(s, blocks, true);
    SupervisedIsFaultFree(s);
    hide Reachable, LogInv, RingInv;
  }

  function TaskLeft(task: Task): nat {
    match task
    case StopEnter => 5 case StopUnblock => 4 case StopJoinRx => 3 case StopJoinWorker => 2 case StopClose => 1
    case StartEnter => 6 case StartOpen => 5 case StartRing => 4 case StartRunning => 3 case StartRx => 2
    case StartWorker => 1
  }

  /** How many steps the supervisor needs at most to leave its loop, once it is told to. */
  function SupervisorLeft(supervisor: Supervisor): nat {
    match supervisor
    case SupAbsent => 0
    case SupExited => 0
    case SupLoop => 1
    case SupSleep => 2
    case SupStopped => 1
    case SupTask(task) => 2 + TaskLeft(task)
    case SupCheck => 8
  }

  function ControlLeft(s: State): nat {
    match s.owner
    case OwnerJoin => 6 + SupervisorLeft(s.supervisor)
    case OwnerTask(task) => TaskLeft(task)
    case _ => 0
  }

  function RxLeft(rx: Rx): nat {
    match rx
    case RxRead => 2 case RxPush(_) => 2 case RxCheck => 1 case RxReport => 1 case _ => 0
  }

  function WorkerLeft(worker: Worker): nat {
    match worker
    case WorkerTaken => 3 case WorkerCallback => 3 case WorkerRelease => 2 case WorkerCheck => 1 case WorkerWait => 1
    case _ => 0
  }

  ghost predicate Stopping(s: State) {
    s.supervised && !s.reconnect && (s.owner.OwnerJoin? || s.owner.OwnerTask?)
  }

  predicate SameControl(s: State, s': State) {
    s'.supervised == s.supervised && s'.reconnect == s.reconnect && s'.owner == s.owner && s'.supervisor == s.supervisor
  }

  /** An RX thread of a stopped object gets nearer to the end of its loop with each of its steps. */
  lemma RxLeaves(s: State)
    requires !s.fault && RxLive(s.rx) && !s.running && RingInv(s)
    ensures Enabled(s, RxStep(Timeout))
    ensures var s' := Next(s, RxStep(Timeout));
            RxLeft(s'.rx) < RxLeft(s.rx) && s'.worker == s.worker && SameControl(s, s')
  {
    hide LogPush;
  }

  /** And so does its worker. */
  lemma WorkerLeaves(s: State)
    requires !s.fault && WorkerLive(s.worker) && !s.running && RingInv(s)
    ensures Enabled(s, WorkerStep)
    ensures var s' := Next(s, WorkerStep);
            WorkerLeft(s'.worker) < WorkerLeft(s.worker) && s'.rx == s.rx && SameControl(s, s')
  {
    hide LogTake, LogHandOver, LogDiscard;
  }

  /** A join waits for a thread. */
  predicate Blocked(s: State) {
    if s.owner.OwnerTask? then !TaskEnabled(s, s.owner.task)
    else s.supervisor.SupTask? && !TaskEnabled(s, s.supervisor.task)
  }

  lemma BlockedIsStopped(s: State)
    requires ControlInv(s) && Stopping(s) && Blocked(s)
    ensures !s.running
  {
  }

  lemma SupervisorLeaves(s: State)
    requires ControlInv(s) && Stopping(s) && !s.fault && !Blocked(s) && s.owner.OwnerJoin? && !s.supervisor.SupExited?
    ensures Enabled(s, SupervisorStep(false))
    ensures var s' := Next(s, SupervisorStep(false));
            SupervisorLeft(s'.supervisor) < SupervisorLeft(s.supervisor) && s'.owner == s.owner && !s'.reconnect
  {
    hide LogNewRing;
  }

  lemma OwnerGetsOn(s: State)
    requires ControlInv(s) && Stopping(s) && !s.fault && !Blocked(s)
    requires s.owner.OwnerTask? || s.supervisor.SupExited?
    ensures Enabled(s, OwnerStep(true))
    ensures var s' := Next(s, OwnerStep(true));
            ControlLeft(s') < ControlLeft(s) && !s'.reconnect && (s'.owner.OwnerTask? || s'.owner.OwnerIdle?)
  {
    hide LogNewRing;
  }

  /** Some step always brings a call of `stop()` nearer to its return. */
  lemma StopGetsOn(s: State) returns (e: Event)
    requires Inv(s) && Stopping(s)
    ensures Enabled(s, e) && Inv(Next(s, e))
    ensures var s' := Next(s, e);
            && (Stopping(s') || (s'.supervised && !s'.reconnect && s'.owner.OwnerIdle?))
            && (ControlLeft(s') < ControlLeft(s) ||
                (ControlLeft(s') == ControlLeft(s) &&
                 RxLeft(s'.rx) + WorkerLeft(s'.worker) < RxLeft(s.rx) + WorkerLeft(s.worker)))
  {
    SupervisedIsFaultFree(s);
    if Blocked(s) {
      BlockedIsStopped(s);
      if RxLive(s.rx) {
        e := RxStep(Timeout);
        RxLeaves(s);
      } else {
        e := WorkerStep;
        WorkerLeaves(s);
      }
    } else if s.owner.OwnerTask? || s.supervisor.SupExited? {
      e := OwnerStep(true);
      OwnerGetsOn(s);
    } else {
      e := SupervisorStep(false);
      SupervisorLeaves(s);
    }
    StepKeepsInv(s, e);
    StepKeepsSettings(s, e);
    hide Inv, Next, Enabled, RingInv, ControlInv, LogInv, Blocked;
  }

  lemma {:induction false} StopReturnsFrom(s: State) returns (events: seq<Event>)
    requires Inv(s) && Stopping(s)
    ensures IsRun(s, events) && Inv(After(s, events))
    ensures After(s, events).supervised && After(s, events).owner.OwnerIdle? && !After(s, events).reconnect
    decreases ControlLeft(s), RxLeft(s.rx) + WorkerLeft(s.worker)
  {
    hide Inv, Next, Enabled;
    var e := StopGetsOn(s);
    var s' := Next(s, e);
    if Stopping(s') {
      var rest := StopReturnsFrom(s');
      events := [e] + rest;
      assert events[1..] == rest;
    } else {
      events := [e];
      assert events[1..] == [];
    }
  }

  /** However the threads stand when `stop()` is called, it can return, and then nothing is left. */
  lemma StopCanReturn(s: State, blocks: nat)
    requires blocks >= 2 && Reachable(s, blocks, true) && s.owner.OwnerIdle? && s.reconnect
    ensures exists events :: events != [] && events[0] == OwnerCallsStop && IsRun(s, events) && AllStopped(s, events)
  {
    ReachableInv(s, blocks, true);
    hide Reachable, Inv, Next, Enabled, AllStopped;
    StopIsCalled(s);
    var called := Next(s, OwnerCallsStop);
    var rest := StopReturnsFrom(called);
    var events := [OwnerCallsStop] + rest;
    assert events[1..] == rest;
    assert IsRun(s, events) && After(s, events) == After(called, rest);
    ReturnedStop(s, events);
  }

  lemma StopIsCalled(s: State)
    requires Inv(s) && s.supervised && s.owner.OwnerIdle? && s.reconnect
    ensures Enabled(s, OwnerCallsStop) && Inv(Next(s, OwnerCallsStop)) && Stopping(Next(s, OwnerCallsStop))
  {
    SupervisedIsFaultFree(s);
    StepKeepsInv(s, OwnerCallsStop);
    hide Inv;
  }

  lemma ReturnedStop(s: State, events: seq<Event>)
    requires var s' := After(s, events); Inv(s') && s'.supervised && s'.owner.OwnerIdle? && !s'.reconnect
    ensures AllStopped(s, events)
  {
    SupervisedIsFaultFree(After(s, events));
    hide After, LogInv, RingInv;
  }

  ghost predicate AllStopped(s: State, events: seq<Event>) {
    var s' := After(s, events);
    && s'.owner.OwnerIdle? && s'.supervisor.SupAbsent? && !s'.reconnect
    && !s'.running && s'.rx.RxAbsent? && s'.worker.WorkerAbsent?
  }
}
