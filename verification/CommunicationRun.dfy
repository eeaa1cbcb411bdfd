/** The threads of a `CommunicationObj` as a step system: an owner, the supervisor, the RX thread and the worker,
    interleaved in any order, together with the fate of every frame the RX thread read. */
module CommunicationRun {
  import opened Bytes
  import opened FrameQueue
  import opened Wrappers

  type Frame = seq<byte>

  // ---- State ----

  /** What has become of a frame since it was read. */
  datatype Fate = Refused | Evicted | Waiting | Taken | HandedOver | Discarded | FreedWithRing

  /** Bookkeeping beside the program: frames are named by the order in which they were read. */
  datatype Log = Log(
    offered: seq<Frame>,
    fates: seq<Fate>,
    waiting: seq<nat>,        // the frames in the ring
    taken: Option<nat>,       // the frame taken out of the ring and not yet handed over
    handed: seq<nat>,         // the frames given to the callback, in order
    callbacks: seq<Frame>)    // what the callback was actually given

  /** The RX thread; `RxAbsent` also says that its handle is not joinable. */
  datatype Rx = RxAbsent | RxCheck | RxRead | RxPush(frame: Frame) | RxReport | RxExited

  datatype Worker =
    WorkerAbsent | WorkerCheck | WorkerWait | WorkerTaken | WorkerCallback | WorkerRelease | WorkerExited

  /** Where a call of `stop()` or `start()` stands. */
  datatype Task =
    | StopEnter | StopUnblock | StopJoinRx | StopJoinWorker | StopClose
    | StartEnter | StartOpen | StartRing | StartRunning | StartRx | StartWorker

  datatype Supervisor = SupAbsent | SupLoop | SupCheck | SupTask(task: Task) | SupStopped | SupSleep | SupExited

  datatype Owner = OwnerIdle | OwnerSpawn | OwnerJoin | OwnerTask(task: Task)

  datatype State = State(
    blocks: nat,
    supervised: bool,         // reconnectable mode, or start() and stop() called directly
    running: bool,
    reconnect: bool,
    rx: Rx,
    worker: Worker,
    supervisor: Supervisor,
    owner: Owner,
    ring: Option<Queue<Frame>>,
    log: Log,
    dirtyStart: bool,         // some start() opened the connection while a handle was joinable
    fault: bool)              // a live ring was freed or a joinable handle overwritten

  datatype ReadResult = Got(frame: Frame) | Timeout | Failed

  datatype Event =
    | OwnerCallsStart
    | OwnerCallsStop
    | OwnerStep(openOk: bool)
    | SupervisorStep(openOk: bool)
    | RxStep(result: ReadResult)
    | WorkerStep

  function Init(blocks: nat, supervised: bool): State {
    State(blocks, supervised, false, false, RxAbsent, WorkerAbsent, SupAbsent, OwnerIdle, None,
          Log([], [], [], None, [], []), false, false)
  }

  // ---- Frames ----

  function SetFate(fates: seq<Fate>, name: nat, fate: Fate): (r: seq<Fate>)
    ensures |r| == |fates|
  {
    if name < |fates| then fates[name := fate] else fates
  }

  function LogEvict(log: Log): Log {
    if log.waiting == [] then log
    else log.(fates := SetFate(log.fates, log.waiting[0], Evicted), waiting := log.waiting[1..])
  }

  function LogOffer(log: Log, frame: Frame, stored: bool): Log {
    var log' := log.(offered := log.offered + [frame]);
    if stored then log'.(fates := log.fates + [Waiting], waiting := log.waiting + [|log.offered|])
    else log'.(fates := log.fates + [Fate.Refused])
  }

  function LogPush(log: Log, frame: Frame, outcome: Outcome): Log {
    LogOffer(if outcome.StoredByEviction? then LogEvict(log) else log, frame, !outcome.Refused?)
  }

  function LogTake(log: Log): Log {
    if log.waiting == [] then log
    else log.(fates := SetFate(log.fates, log.waiting[0], Taken), waiting := log.waiting[1..],
              taken := Some(log.waiting[0]))
  }

  function LogHandOver(log: Log, frame: Frame): Log {
    if log.taken.None? then log
    else log.(fates := SetFate(log.fates, log.taken.value, HandedOver), taken := None,
              handed := log.handed + [log.taken.value], callbacks := log.callbacks + [frame])
  }

  function LogDiscard(log: Log): Log {
    if log.taken.None? then log
    else log.(fates := SetFate(log.fates, log.taken.value, Discarded), taken := None)
  }

  /** The frames still waiting are freed with the ring they wait in. */
  function LogNewRing(log: Log): Log {
    log.(fates := Free(log.fates), waiting := [])
  }

  // ---- Steps ----

  predicate RxLive(rx: Rx) { !rx.RxAbsent? && !rx.RxExited? }

  predicate WorkerLive(worker: Worker) { !worker.WorkerAbsent? && !worker.WorkerExited? }

  predicate Joinable(s: State) { !s.rx.RxAbsent? || !s.worker.WorkerAbsent? }

  /** A join waits until its thread has left its loop. */
  predicate TaskEnabled(s: State, task: Task) {
    match task
    case StopJoinRx => !RxLive(s.rx)
    case StopJoinWorker => !WorkerLive(s.worker)
    case _ => true
  }

  /** One step of `stop()` or `start()`; the second result is where the call stands next, if it has not returned. */
  function TaskStep(s: State, task: Task, openOk: bool): (State, Option<Task>) {
    match task
    case StopEnter =>
      if !s.running && !Joinable(s) then (s, None) else (s.(running := false), Some(StopUnblock))
    case StopUnblock => (s, Some(StopJoinRx))
    case StopJoinRx => (s.(rx := RxAbsent), Some(StopJoinWorker))
    case StopJoinWorker => (s.(worker := WorkerAbsent), Some(StopClose))
    case StopClose => (s, None)
    case StartEnter =>
      if s.running then (s, None) else (s, Some(StartOpen))
    case StartOpen =>
      if openOk then (s.(dirtyStart := s.dirtyStart || Joinable(s)), Some(StartRing)) else (s, None)
    case StartRing =>
      if RxLive(s.rx) || WorkerLive(s.worker) || s.blocks < 2 then (s.(fault := true), None)
      else (s.(ring := Some(Queue(s.blocks, [], None)), log := LogNewRing(s.log)), Some(StartRunning))
    case StartRunning => (s.(running := true), Some(StartRx))
    case StartRx => if s.rx.RxAbsent? then (s.(rx := RxCheck), Some(StartWorker)) else (s.(fault := true), None)
    case StartWorker => if s.worker.WorkerAbsent? then (s.(worker := WorkerCheck), None) else (s.(fault := true), None)
  }

  predicate RxEnabled(s: State) { RxLive(s.rx) }

  function RxNext(s: State, result: ReadResult): State {
    match s.rx
    case RxCheck => s.(rx := if s.running then RxRead else RxExited)
    case RxRead =>
      (match result
       case Got(frame) => s.(rx := RxPush(frame))
       case Timeout => s.(rx := RxCheck)
       case Failed => s.(rx := if s.running then RxReport else RxCheck))
    case RxPush(frame) =>
      if s.ring.None? then s.(fault := true)
      else s.(rx := RxCheck, ring := Some(s.ring.value.Push(frame)),
              log := LogPush(s.log, frame, s.ring.value.PushOutcome()))
    case RxReport => s.(running := false, rx := RxExited)
    case _ => s
  }

  /** The condition variable lets the worker go on when there is a frame or the object stopped running. */
  predicate WorkerEnabled(s: State) {
    WorkerLive(s.worker) && (s.worker.WorkerWait? && s.ring.Some? ==> s.ring.value.waiting != [] || !s.running)
  }

  function WorkerNext(s: State): State {
    match s.worker
    case WorkerCheck => s.(worker := if s.running then WorkerWait else WorkerExited)
    case WorkerWait =>
      if !s.running then s.(worker := WorkerExited)
      else if s.ring.None? || s.ring.value.waiting == [] then s.(fault := true)
      else s.(worker := WorkerTaken, ring := Some(s.ring.value.Take()), log := LogTake(s.log))
    case WorkerTaken =>
      if !s.running then s.(worker := WorkerRelease, log := LogDiscard(s.log))
      else if s.ring.None? || s.ring.value.inFlight.None? then s.(fault := true)
      else s.(worker := WorkerCallback, log := LogHandOver(s.log, s.ring.value.inFlight.value))
    case WorkerCallback => s.(worker := WorkerRelease)
    case WorkerRelease =>
      if s.ring.None? then s.(fault := true)
      else s.(worker := WorkerCheck, ring := Some(s.ring.value.Release()))
    case _ => s
  }

  function SupervisorNext(s: State, openOk: bool): State {
    match s.supervisor
    case SupLoop => s.(supervisor := if s.reconnect then SupCheck else SupExited)
    case SupCheck => s.(supervisor := if s.running then SupSleep else SupTask(StopEnter))
    case SupTask(task) =>
      var (s', next) := TaskStep(s, task, openOk);
      s'.(supervisor := if next.Some? then SupTask(next.value)
                        else if task.StopEnter? || task.StopClose? then SupStopped else SupSleep)
    case SupStopped => s.(supervisor := if s.reconnect then SupTask(StartEnter) else SupExited)
    case SupSleep => s.(supervisor := SupLoop)
    case _ => s
  }

  function OwnerNext(s: State, openOk: bool): State {
    match s.owner
    case OwnerIdle => s
    case OwnerSpawn =>
      if s.supervisor.SupAbsent? then s.(supervisor := SupLoop, owner := OwnerIdle) else s.(fault := true)
    case OwnerJoin => s.(supervisor := SupAbsent, owner := OwnerTask(StopEnter))
    case OwnerTask(task) =>
      var (s', next) := TaskStep(s, task, openOk);
      s'.(owner := if next.Some? then OwnerTask(next.value) else OwnerIdle)
  }

  predicate Enabled(s: State, e: Event) {
    && !s.fault
    && match e
       case OwnerCallsStart => s.owner.OwnerIdle?
       case OwnerCallsStop => s.owner.OwnerIdle?
       case OwnerStep(_) =>
         && !s.owner.OwnerIdle?
         && (s.owner.OwnerJoin? ==> s.supervisor.SupAbsent? || s.supervisor.SupExited?)
         && (s.owner.OwnerTask? ==> TaskEnabled(s, s.owner.task))
       case SupervisorStep(_) =>
         && !s.supervisor.SupAbsent? && !s.supervisor.SupExited?
         && (s.supervisor.SupTask? ==> TaskEnabled(s, s.supervisor.task))
       case RxStep(_) => RxEnabled(s)
       case WorkerStep => WorkerEnabled(s)
  }

  function Next(s: State, e: Event): State {
    match e
    case OwnerCallsStart =>
      if !s.supervised then s.(owner := OwnerTask(StartEnter))
      else if s.reconnect then s
      else s.(reconnect := true, owner := OwnerSpawn)
    case OwnerCallsStop =>
      if !s.supervised then s.(owner := OwnerTask(StopEnter))
      else if !s.reconnect then s
      else s.(reconnect := false, owner := OwnerJoin)
    case OwnerStep(openOk) => OwnerNext(s, openOk)
    case SupervisorStep(openOk) => SupervisorNext(s, openOk)
    case RxStep(result) => RxNext(s, result)
    case WorkerStep => WorkerNext(s)
  }

  ghost predicate IsRun(s: State, events: seq<Event>)
    decreases events
  {
    events == [] || (Enabled(s, events[0]) && IsRun(Next(s, events[0]), events[1..]))
  }

  function After(s: State, events: seq<Event>): State
    decreases events
  {
    if events == [] then s else After(Next(s, events[0]), events[1..])
  }

  // ---- What every step keeps ----

  ghost predicate Increasing(names: seq<nat>) {
    forall i, j :: 0 <= i < j < |names| ==> names[i] < names[j]
  }

  function Count(fates: seq<Fate>, fate: Fate): nat {
    if fates == [] then 0 else Count(fates[..|fates| - 1], fate) + (if fates[|fates| - 1] == fate then 1 else 0)
  }

  /** `names` are frames with the given fate, oldest first, and all of them. */
  ghost predicate Lists(names: seq<nat>, fates: seq<Fate>, fate: Fate) {
    && Increasing(names)
    && (forall i :: 0 <= i < |names| ==> names[i] < |fates| && fates[names[i]] == fate)
    && |names| == Count(fates, fate)
  }

  function TakenNames(log: Log): seq<nat> {
    if log.taken.Some? then [log.taken.value] else []
  }

  /** Frames are handed over in the order read: whatever was handed over is older than whatever still may be. */
  ghost predicate LogInv(log: Log) {
    && |log.fates| == |log.offered|
    && Lists(log.waiting, log.fates, Waiting)
    && Lists(TakenNames(log), log.fates, Taken)
    && Lists(log.handed, log.fates, HandedOver)
    && (forall i, j :: 0 <= i < |log.handed| && 0 <= j < |log.waiting| ==> log.handed[i] < log.waiting[j])
    && (log.taken.Some? ==>
          && (forall i :: 0 <= i < |log.handed| ==> log.handed[i] < log.taken.value)
          && (forall j :: 0 <= j < |log.waiting| ==> log.taken.value < log.waiting[j]))
    && |log.callbacks| == |log.handed|
    && (forall i :: 0 <= i < |log.handed| ==> log.callbacks[i] == log.offered[log.handed[i]])
  }

  ghost predicate RingInv(s: State) {
    match s.ring
    case None => s.log.waiting == [] && s.log.taken.None? && s.rx.RxAbsent? && s.worker.WorkerAbsent?
    case Some(q) =>
      && q.Valid() && q.blocks == s.blocks
      && |q.waiting| == |s.log.waiting|
      && (forall i: nat :: i < |q.waiting| ==>
           s.log.waiting[i] < |s.log.offered| && q.waiting[i] == s.log.offered[s.log.waiting[i]])
      && (q.inFlight.Some? <==> s.worker in {WorkerTaken, WorkerCallback, WorkerRelease})
      && (s.log.taken.Some? <==> s.worker.WorkerTaken?)
      && (s.log.taken.Some? ==>
           s.log.taken.value < |s.log.offered| && q.inFlight == Some(s.log.offered[s.log.taken.value]))
  }

  /** Both handles are joinable, or neither is and the object is not running. */
  ghost predicate Paired(s: State) {
    && (s.rx.RxAbsent? <==> s.worker.WorkerAbsent?)
    && (s.rx.RxAbsent? ==> !s.running)
  }

  ghost predicate Joined(s: State) {
    s.rx.RxAbsent? && s.worker.WorkerAbsent?
  }

  ghost predicate TaskInv(s: State, task: Task) {
    match task
    case StopEnter => Paired(s) && !s.dirtyStart
    case StopUnblock => !s.running && !s.rx.RxAbsent? && !s.worker.WorkerAbsent? && !s.dirtyStart
    case StopJoinRx => !s.running && !s.rx.RxAbsent? && !s.worker.WorkerAbsent? && !s.dirtyStart
    case StopJoinWorker => !s.running && s.rx.RxAbsent? && !s.worker.WorkerAbsent? && !s.dirtyStart
    case StopClose => !s.running && Joined(s) && !s.dirtyStart
    case StartEnter => Paired(s) && !s.dirtyStart
    case StartOpen => !s.running && Paired(s) && !s.dirtyStart
    case StartRing => !s.running && Paired(s) && (s.dirtyStart <==> !Joined(s))
    case StartRunning =>
      s.ring.Some? && !s.running && (s.rx.RxAbsent? <==> s.worker.WorkerAbsent?) && (s.dirtyStart <==> !Joined(s))
    case StartRx => s.ring.Some? && (s.rx.RxAbsent? <==> s.worker.WorkerAbsent?) && (s.dirtyStart <==> !Joined(s))
    case StartWorker => s.ring.Some? && !s.rx.RxAbsent? && s.worker.WorkerAbsent? && !s.dirtyStart
  }

  /** At most one thread is inside `start()` or `stop()`, and it finds the handles as that call needs them. */
  ghost predicate ControlInv(s: State) {
    && (!s.supervised ==> s.supervisor.SupAbsent? && (s.owner.OwnerIdle? || s.owner.OwnerTask?))
    && (s.supervised && s.owner.OwnerTask? ==>
         s.owner.task in {StopEnter, StopUnblock, StopJoinRx, StopJoinWorker, StopClose})
    && (s.supervised ==> !s.dirtyStart)
    && (s.supervised ==> (s.reconnect <==> s.owner.OwnerSpawn? || (s.owner.OwnerIdle? && !s.supervisor.SupAbsent?)))
    && (match s.owner
        case OwnerSpawn => s.supervisor.SupAbsent?
        case OwnerJoin => !s.supervisor.SupAbsent?
        case OwnerTask(task) => s.supervisor.SupAbsent? && TaskInv(s, task)
        case OwnerIdle => true)
    && (match s.supervisor
        case SupAbsent =>
          (s.supervised && !s.owner.OwnerTask? ==> Joined(s) && !s.running) &&
          (s.owner.OwnerIdle? ==> Paired(s) && !s.dirtyStart)
        case SupTask(task) => TaskInv(s, task) && (task.StartEnter? || task.StartOpen? ==> Joined(s))
        case SupStopped => Joined(s) && !s.running
        case _ => Paired(s))
  }

  ghost predicate Inv(s: State) {
    && s.blocks >= 2
    && (!s.fault ==> LogInv(s.log) && RingInv(s) && ControlInv(s))
    && (s.fault ==> s.dirtyStart && !s.supervised)
  }

  // ---- Every step keeps the invariant ----

  lemma InitInv(blocks: nat, supervised: bool)
    requires blocks >= 2
    ensures Inv(Init(blocks, supervised))
  {
  }

  lemma {:induction false} CountUpdate(fates: seq<Fate>, n: nat, to: Fate, fate: Fate)
    requires n < |fates|
    ensures Count(fates[n := to], fate) ==
            Count(fates, fate) - (if fates[n] == fate then 1 else 0) + (if to == fate then 1 else 0)
  {
    var last := |fates| - 1;
    if n < last {
      CountUpdate(fates[..last], n, to, fate);
      assert fates[n := to][..last] == fates[..last][n := to];
    } else {
      assert fates[n := to][..last] == fates[..last];
    }
  }

  lemma CountAppend(fates: seq<Fate>, last: Fate, fate: Fate)
    ensures Count(fates + [last], fate) == Count(fates, fate) + (if last == fate then 1 else 0)
  {
    assert (fates + [last])[..|fates|] == fates;
  }

  /** Changing one frame's fate leaves the lists of all other fates as they are. */
  lemma ListsUpdate(names: seq<nat>, fates: seq<Fate>, fate: Fate, n: nat, to: Fate)
    requires Lists(names, fates, fate) && n < |fates| && fates[n] != fate && to != fate
    ensures Lists(names, fates[n := to], fate)
  {
    CountUpdate(fates, n, to, fate);
  }

  lemma ListsRemoveFirst(names: seq<nat>, fates: seq<Fate>, fate: Fate, to: Fate)
    requires Lists(names, fates, fate) && names != [] && to != fate
    ensures Lists(names[1..], fates[names[0] := to], fate)
  {
    CountUpdate(fates, names[0], to, fate);
  }

  lemma ListsAddLast(names: seq<nat>, fates: seq<Fate>, n: nat, to: Fate)
    requires Lists(names, fates, to) && n < |fates| && fates[n] != to
    requires forall i :: 0 <= i < |names| ==> names[i] < n
    ensures Lists(names + [n], fates[n := to], to)
  {
    CountUpdate(fates, n, to, to);
  }

  lemma ListsAppend(names: seq<nat>, fates: seq<Fate>, fate: Fate, last: Fate)
    requires Lists(names, fates, fate)
    ensures Lists(if last == fate then names + [|fates|] else names, fates + [last], fate)
  {
    CountAppend(fates, last, fate);
    hide Count;
  }

  lemma LogEvictInv(log: Log)
    requires LogInv(log)
    ensures LogInv(LogEvict(log))
  {
    if log.waiting != [] {
      ListsRemoveFirst(log.waiting, log.fates, Waiting, Evicted);
      ListsUpdate(TakenNames(log), log.fates, Taken, log.waiting[0], Evicted);
      ListsUpdate(log.handed, log.fates, HandedOver, log.waiting[0], Evicted);
    }
  }

  lemma LogOfferInv(log: Log, frame: Frame, stored: bool)
    requires LogInv(log)
    ensures LogInv(LogOffer(log, frame, stored))
  {
    hide Count, Lists;
    var last := if stored then Waiting else Fate.Refused;
    InRange(log);
    ListsAppend(log.waiting, log.fates, Waiting, last);
    ListsAppend(TakenNames(log), log.fates, Taken, last);
    ListsAppend(log.handed, log.fates, HandedOver, last);
  }

  lemma InRange(log: Log)
    requires LogInv(log)
    ensures forall i :: 0 <= i < |log.handed| ==> log.handed[i] < |log.offered|
    ensures forall i :: 0 <= i < |log.waiting| ==> log.waiting[i] < |log.offered|
    ensures log.taken.Some? ==> log.taken.value < |log.offered|
  {
    assert log.taken.Some? ==> TakenNames(log)[0] == log.taken.value;
  }

  lemma LogTakeInv(log: Log)
    requires LogInv(log) && log.taken.None?
    ensures LogInv(LogTake(log))
  {
    if log.waiting != [] {
      var n := log.waiting[0];
      ListsRemoveFirst(log.waiting, log.fates, Waiting, Taken);
      ListsAddLast([], log.fates, n, Taken);
      ListsUpdate(log.handed, log.fates, HandedOver, n, Taken);
    }
  }

  lemma LogHandOverInv(log: Log, frame: Frame)
    requires LogInv(log)
    requires log.taken.Some? ==> log.taken.value < |log.offered| && frame == log.offered[log.taken.value]
    ensures LogInv(LogHandOver(log, frame))
  {
    if log.taken.Some? {
      var n := log.taken.value;
      assert TakenNames(log)[0] == n;
      ListsUpdate(log.waiting, log.fates, Waiting, n, HandedOver);
      ListsRemoveFirst(TakenNames(log), log.fates, Taken, HandedOver);
      ListsAddLast(log.handed, log.fates, n, HandedOver);
    }
  }

  lemma LogDiscardInv(log: Log)
    requires LogInv(log)
    ensures LogInv(LogDiscard(log))
  {
    if log.taken.Some? {
      var n := log.taken.value;
      assert TakenNames(log)[0] == n;
      ListsUpdate(log.waiting, log.fates, Waiting, n, Discarded);
      ListsRemoveFirst(TakenNames(log), log.fates, Taken, Discarded);
      ListsUpdate(log.handed, log.fates, HandedOver, n, Discarded);
    }
  }

  function Free(fates: seq<Fate>): (r: seq<Fate>)
    ensures |r| == |fates|
    ensures forall i :: 0 <= i < |fates| ==> r[i] == if fates[i] == Waiting then FreedWithRing else fates[i]
  {
    seq(|fates|, i requires 0 <= i < |fates| => if fates[i] == Waiting then FreedWithRing else fates[i])
  }

  lemma {:induction false} CountFree(fates: seq<Fate>, fate: Fate)
    requires fate != FreedWithRing
    ensures Count(Free(fates), fate) == if fate == Waiting then 0 else Count(fates, fate)
  {
    if fates != [] {
      CountFree(fates[..|fates| - 1], fate);
      assert Free(fates)[..|fates| - 1] == Free(fates[..|fates| - 1]);
    }
  }

  lemma LogNewRingInv(log: Log)
    requires LogInv(log)
    ensures LogInv(LogNewRing(log))
  {
    CountFree(log.fates, Waiting);
    CountFree(log.fates, Taken);
    CountFree(log.fates, HandedOver);
  }

  lemma RxKeepsControl(s: State, result: ReadResult)
    requires ControlInv(s) && !s.fault && RxEnabled(s) && s.ring.Some?
    ensures ControlInv(RxNext(s, result))
  {
    hide LogOffer, LogEvict;
  }

  lemma RxKeepsRing(s: State, result: ReadResult)
    requires RingInv(s) && LogInv(s.log) && !s.fault && RxEnabled(s)
    ensures RingInv(RxNext(s, result)) && LogInv(RxNext(s, result).log) && !RxNext(s, result).fault
  {
    hide LogInv, LogPush;
    if s.rx.RxPush? {
      PushKeepsRing(s, s.rx.frame);
      hide Queue.Push, Queue.PushOutcome;
    }
  }

  lemma PushKeepsRing(s: State, frame: Frame)
    requires RingInv(s) && LogInv(s.log) && s.ring.Some?
    ensures var q := s.ring.value;
            var s' := s.(ring := Some(q.Push(frame)), log := LogPush(s.log, frame, q.PushOutcome()));
            RingInv(s') && LogInv(s'.log)
  {
    hide LogInv;
    var evict := s.ring.value.PushOutcome().StoredByEviction?;
    LogEvictInv(s.log);
    LogOfferInv(if evict then LogEvict(s.log) else s.log, frame, !s.ring.value.PushOutcome().Refused?);
  }

  lemma WorkerKeepsControl(s: State)
    requires ControlInv(s) && !s.fault && WorkerEnabled(s) && s.ring.Some?
    ensures ControlInv(WorkerNext(s))
  {
    hide LogTake, LogHandOver, LogDiscard;
  }

  lemma TakeKeepsRing(s: State)
    requires RingInv(s) && LogInv(s.log) && s.worker.WorkerWait? && s.ring.value.waiting != []
    ensures var s' := s.(worker := WorkerTaken, ring := Some(s.ring.value.Take()), log := LogTake(s.log));
            RingInv(s') && LogInv(s'.log)
  {
    LogTakeInv(s.log);
    InRange(s.log);
    hide LogInv;
  }

  lemma HandOverKeepsRing(s: State)
    requires RingInv(s) && LogInv(s.log) && s.worker.WorkerTaken?
    ensures s.ring.Some? && s.ring.value.inFlight.Some?
    ensures var s' := s.(worker := WorkerCallback, log := LogHandOver(s.log, s.ring.value.inFlight.value));
            RingInv(s') && LogInv(s'.log)
    ensures var s' := s.(worker := WorkerRelease, log := LogDiscard(s.log));
            RingInv(s') && LogInv(s'.log)
  {
    hide LogInv;
    LogHandOverInv(s.log, s.ring.value.inFlight.value);
    LogDiscardInv(s.log);
  }

  lemma WorkerKeepsRing(s: State)
    requires RingInv(s) && LogInv(s.log) && !s.fault && WorkerEnabled(s)
    ensures RingInv(WorkerNext(s)) && LogInv(WorkerNext(s).log) && !WorkerNext(s).fault
  {
    hide LogInv, LogTake, LogHandOver, LogDiscard;
    if s.worker.WorkerWait? && s.running {
      hide RingInv;
      RingWhenLive(s);
      TakeKeepsRing(s);
    } else if s.worker.WorkerTaken? {
      hide RingInv;
      HandOverKeepsRing(s);
    }
  }

  lemma TaskStepControl(s: State, task: Task, openOk: bool)
    requires s.blocks >= 2 && TaskInv(s, task) && TaskEnabled(s, task)
    ensures var (s', next) := TaskStep(s, task, openOk);
            && (s'.fault && !s.fault ==> s'.dirtyStart)
            && (!s'.fault && next.Some? ==> TaskInv(s', next.value))
            && (!s'.fault && next.None? ==> Paired(s') && !s'.dirtyStart)
            && (task.StopEnter? || task.StopClose? ==> next.None? ==> Joined(s') && !s'.running)
            && (Joined(s) ==> s'.dirtyStart == s.dirtyStart)
  {
    hide LogNewRing;
  }

  lemma TaskStepRing(s: State, task: Task, openOk: bool)
    requires RingInv(s) && LogInv(s.log) && TaskInv(s, task) && TaskEnabled(s, task) && s.blocks >= 2
    ensures var s' := TaskStep(s, task, openOk).0;
            !s'.fault ==> RingInv(s') && LogInv(s'.log)
  {
    hide LogInv;
    LogNewRingInv(s.log);
  }

  lemma TaskStepKeepsSettings(s: State, task: Task, openOk: bool)
    ensures TaskStep(s, task, openOk).0.supervised == s.supervised && TaskStep(s, task, openOk).0.blocks == s.blocks
  {
    hide LogNewRing;
  }

  lemma TaskStepKeepsControllers(s: State, task: Task, openOk: bool)
    ensures var s' := TaskStep(s, task, openOk).0;
            s'.reconnect == s.reconnect && s'.owner == s.owner && s'.supervisor == s.supervisor
  {
    hide LogNewRing;
  }

  /** Where the controllers stand is no matter of the threads. */
  lemma ThreadsOnly(s: State, owner: Owner, supervisor: Supervisor, task: Task)
    ensures var t := s.(owner := owner, supervisor := supervisor);
            && TaskInv(t, task) == TaskInv(s, task) && Paired(t) == Paired(s) && Joined(t) == Joined(s)
  {
  }

  lemma OwnerTaskKeepsControl(s: State, openOk: bool)
    requires s.blocks >= 2 && ControlInv(s) && Enabled(s, OwnerStep(openOk)) && s.owner.OwnerTask?
    ensures var s' := OwnerNext(s, openOk);
            && (!s'.fault ==> ControlInv(s'))
            && (s'.fault ==> s'.dirtyStart && !s.supervised)
  {
    var (t, next) := TaskStep(s, s.owner.task, openOk);
    TaskStepControl(s, s.owner.task, openOk);
    TaskStepKeepsSettings(s, s.owner.task, openOk);
    TaskStepKeepsControllers(s, s.owner.task, openOk);
    OwnerTaskLeads(s, openOk);
    hide TaskStep, TaskEnabled;
    ThreadsOnly(t, OwnerNext(s, openOk).owner, t.supervisor, if next.Some? then next.value else StopEnter);
    hide TaskInv, Paired, Joined;
  }

  lemma OwnerTaskLeads(s: State, openOk: bool)
    requires s.owner.OwnerTask?
    ensures var next := TaskStep(s, s.owner.task, openOk).1;
            s.owner.task in {StopEnter, StopUnblock, StopJoinRx, StopJoinWorker, StopClose} && next.Some? ==>
              next.value in {StopEnter, StopUnblock, StopJoinRx, StopJoinWorker, StopClose}
  {
    hide LogNewRing, Joinable;
  }

  lemma SupervisorTaskKeepsControl(s: State, openOk: bool)
    requires s.blocks >= 2 && ControlInv(s) && Enabled(s, SupervisorStep(openOk)) && s.supervisor.SupTask?
    ensures var s' := SupervisorNext(s, openOk);
            && (!s'.fault ==> ControlInv(s'))
            && (s'.fault ==> s'.dirtyStart && !s.supervised)
  {
    var (t, next) := TaskStep(s, s.supervisor.task, openOk);
    TaskStepControl(s, s.supervisor.task, openOk);
    TaskStepKeepsSettings(s, s.supervisor.task, openOk);
    TaskStepKeepsControllers(s, s.supervisor.task, openOk);
    ThreadsOnly(t, t.owner, SupervisorNext(s, openOk).supervisor, if next.Some? then next.value else StopEnter);
    hide LogNewRing;
  }

  lemma TaskKeepsControl(s: State, e: Event)
    requires s.blocks >= 2 && ControlInv(s) && Enabled(s, e)
    requires (e.SupervisorStep? && s.supervisor.SupTask?) || (e.OwnerStep? && s.owner.OwnerTask?)
    ensures !Next(s, e).fault ==> ControlInv(Next(s, e))
    ensures Next(s, e).fault ==> Next(s, e).dirtyStart && !s.supervised
  {
    hide ControlInv, OwnerNext, SupervisorNext;
    if e.OwnerStep? {
      OwnerTaskKeepsControl(s, e.openOk);
    } else {
      SupervisorTaskKeepsControl(s, e.openOk);
    }
  }

  lemma TaskKeepsRing(s: State, e: Event)
    requires s.blocks >= 2 && RingInv(s) && LogInv(s.log) && ControlInv(s) && Enabled(s, e)
    requires (e.SupervisorStep? && s.supervisor.SupTask?) || (e.OwnerStep? && s.owner.OwnerTask?)
    ensures !Next(s, e).fault ==> RingInv(Next(s, e)) && LogInv(Next(s, e).log)
  {
    hide LogInv, TaskStep, TaskInv;
    TaskStepRing(s, if e.OwnerStep? then s.owner.task else s.supervisor.task, e.openOk);
  }

  lemma ControllerKeepsInv(s: State, e: Event)
    requires Inv(s) && Enabled(s, e) && !e.RxStep? && !e.WorkerStep?
    requires !(e.SupervisorStep? && s.supervisor.SupTask?) && !(e.OwnerStep? && s.owner.OwnerTask?)
    ensures Inv(Next(s, e))
  {
    hide LogInv;
  }

  lemma StepKeepsInv(s: State, e: Event)
    requires Inv(s) && Enabled(s, e)
    ensures Inv(Next(s, e))
  {
    hide LogInv, RingInv, ControlInv, RxNext, WorkerNext, TaskStep;
    StepKeepsSettings(s, e);
    if e.RxStep? {
      RingWhenLive(s);
      RxKeepsControl(s, e.result);
      RxKeepsRing(s, e.result);
    } else if e.WorkerStep? {
      RingWhenLive(s);
      WorkerKeepsControl(s);
      WorkerKeepsRing(s);
    } else if (e.SupervisorStep? && s.supervisor.SupTask?) || (e.OwnerStep? && s.owner.OwnerTask?) {
      TaskKeepsControl(s, e);
      TaskKeepsRing(s, e);
    } else {
      ControllerKeepsInv(s, e);
    }
  }

  lemma RingWhenLive(s: State)
    requires RingInv(s)
    ensures RxLive(s.rx) || WorkerLive(s.worker) ==> s.ring.Some?
  {
  }

  lemma {:induction false} RunKeepsInv(s: State, events: seq<Event>)
    requires Inv(s) && IsRun(s, events)
    ensures Inv(After(s, events))
    decreases events
  {
    hide Inv;
    if events != [] {
      StepKeepsInv(s, events[0]);
      RunKeepsInv(Next(s, events[0]), events[1..]);
    }
  }

  lemma {:induction false} RunKeepsSettings(s: State, events: seq<Event>)
    ensures After(s, events).supervised == s.supervised && After(s, events).blocks == s.blocks
    decreases events
  {
    if events != [] {
      StepKeepsSettings(s, events[0]);
      RunKeepsSettings(Next(s, events[0]), events[1..]);
    }
  }

  lemma StepKeepsSettings(s: State, e: Event)
    ensures Next(s, e).supervised == s.supervised && Next(s, e).blocks == s.blocks
  {
    hide TaskStep, RxNext, WorkerNext, OwnerNext, SupervisorNext;
    match e
    case OwnerStep(openOk) => ControllersKeepSettings(s, openOk);
    case SupervisorStep(openOk) => ControllersKeepSettings(s, openOk);
    case RxStep(result) => RxKeepsSettings(s, result);
    case WorkerStep => WorkerKeepsSettings(s);
    case _ =>
  }

  lemma ControllersKeepSettings(s: State, openOk: bool)
    ensures OwnerNext(s, openOk).supervised == SupervisorNext(s, openOk).supervised == s.supervised
    ensures OwnerNext(s, openOk).blocks == SupervisorNext(s, openOk).blocks == s.blocks
  {
    hide TaskStep;
    if s.owner.OwnerTask? {
      TaskStepKeepsSettings(s, s.owner.task, openOk);
    }
    if s.supervisor.SupTask? {
      TaskStepKeepsSettings(s, s.supervisor.task, openOk);
    }
  }

  lemma RxKeepsSettings(s: State, result: ReadResult)
    ensures RxNext(s, result).supervised == s.supervised && RxNext(s, result).blocks == s.blocks
  {
    hide LogPush;
  }

  lemma WorkerKeepsSettings(s: State)
    ensures WorkerNext(s).supervised == s.supervised && WorkerNext(s).blocks == s.blocks
  {
    hide LogTake, LogHandOver, LogDiscard;
  }

  lemma {:induction false} RunsCompose(s: State, first: seq<Event>, second: seq<Event>)
    requires IsRun(s, first) && IsRun(After(s, first), second)
    ensures IsRun(s, first + second) && After(s, first + second) == After(After(s, first), second)
    decreases first
  {
    hide Enabled, Next;
    if first == [] {
      assert first + second == second;
    } else {
      RunsCompose(Next(s, first[0]), first[1..], second);
      assert (first + second)[1..] == first[1..] + second;
    }
  }

  lemma SupervisedIsFaultFree(s: State)
    requires Inv(s) && s.supervised
    ensures !s.fault
  {
    hide LogInv, RingInv, ControlInv;
  }

  /** Only the worker itself moves on while it is alive. */
  lemma OthersLeaveLiveWorker(s: State, e: Event)
    requires Inv(s) && Enabled(s, e) && !Next(s, e).fault && WorkerLive(s.worker) && !e.WorkerStep?
    ensures Next(s, e).worker == s.worker
  {
    hide LogInv, RingInv, LogPush, LogNewRing;
  }

  /** A callback begins exactly when the worker, still running, goes on from a block it has taken. */
  lemma CallbackStep(s: State, e: Event)
    requires Inv(s) && Enabled(s, e) && !Next(s, e).fault
    ensures if e.WorkerStep? && s.worker.WorkerTaken? && s.running then
              && s.ring.Some? && s.ring.value.inFlight.Some?
              && Next(s, e).worker.WorkerCallback?
              && Next(s, e).log.callbacks == s.log.callbacks + [s.ring.value.inFlight.value]
            else Next(s, e).log.callbacks == s.log.callbacks
  {
    hide RxNext, WorkerNext, OwnerNext, SupervisorNext, LogInv, ControlInv;
    match e
    case WorkerStep => WorkerCalls(s);
    case RxStep(result) => RxCallsNothing(s, result);
    case OwnerStep(openOk) => OwnerCallsNothing(s, openOk);
    case SupervisorStep(openOk) => SupervisorCallsNothing(s, openOk);
    case _ =>
  }

  lemma WorkerCalls(s: State)
    requires RingInv(s)
    ensures if s.worker.WorkerTaken? && s.running then
              && s.ring.Some? && s.ring.value.inFlight.Some?
              && WorkerNext(s).worker.WorkerCallback?
              && WorkerNext(s).log.callbacks == s.log.callbacks + [s.ring.value.inFlight.value]
            else WorkerNext(s).log.callbacks == s.log.callbacks
  {
    hide SetFate;
  }

  lemma RxCallsNothing(s: State, result: ReadResult)
    ensures RxNext(s, result).log.callbacks == s.log.callbacks
  {
    hide LogPush;
    if s.rx.RxPush? && s.ring.Some? {
      LogsOffer(s.log, s.rx.frame, s.ring.value.PushOutcome());
    }
  }

  lemma OwnerCallsNothing(s: State, openOk: bool)
    ensures OwnerNext(s, openOk).log.callbacks == s.log.callbacks
  {
    hide TaskStep;
    if s.owner.OwnerTask? {
      TaskCallsNothing(s, s.owner.task, openOk);
    }
  }

  lemma SupervisorCallsNothing(s: State, openOk: bool)
    ensures SupervisorNext(s, openOk).log.callbacks == s.log.callbacks
  {
    hide TaskStep;
    if s.supervisor.SupTask? {
      TaskCallsNothing(s, s.supervisor.task, openOk);
    }
  }

  lemma TaskCallsNothing(s: State, task: Task, openOk: bool)
    ensures TaskStep(s, task, openOk).0.log.callbacks == s.log.callbacks
  {
    hide TaskStep, LogNewRing;
    TaskStepLog(s, task, openOk);
    LogsOffer(s.log, [], Stored);
  }

  // ---- Whole runs ----

  ghost predicate Reachable(s: State, blocks: nat, supervised: bool) {
    exists events :: IsRun(Init(blocks, supervised), events) && After(Init(blocks, supervised), events) == s
  }

  lemma ReachableInv(s: State, blocks: nat, supervised: bool)
    requires blocks >= 2 && Reachable(s, blocks, supervised)
    ensures Inv(s) && s.supervised == supervised && s.blocks == blocks
  {
    var events :| IsRun(Init(blocks, supervised), events) && After(Init(blocks, supervised), events) == s;
    InitInv(blocks, supervised);
    RunKeepsInv(Init(blocks, supervised), events);
    RunKeepsSettings(Init(blocks, supervised), events);
  }

  /** In reconnectable mode no handle is ever overwritten and no ring in use is ever freed:
      every `start()` works with both threads joined. */
  lemma SupervisedStartFindsThreadsJoined(s: State, blocks: nat)
    requires blocks >= 2 && Reachable(s, blocks, true)
    ensures !s.fault
    ensures s.supervisor.SupTask? && s.supervisor.task in {StartEnter, StartOpen, StartRing, StartRunning, StartRx} ==>
              s.rx.RxAbsent? && s.worker.WorkerAbsent?
    ensures s.supervisor.SupTask? && s.supervisor.task.StartWorker? ==> s.worker.WorkerAbsent?
    ensures s.owner.OwnerTask? ==>
              s.supervisor.SupAbsent? && s.owner.task in {StopEnter, StopUnblock, StopJoinRx, StopJoinWorker, StopClose}
  {
    ReachableInv(s, blocks, true);
    hide LogInv, RingInv;
  }

  /** What the owner did: whether a `start()` opened the connection since the last call of `stop()`, and whether one
      ever did so again before another such call. */
  datatype Calls = Calls(isOpen: bool, again: bool)

  function Noted(calls: Calls, s: State, e: Event): Calls {
    if e.OwnerCallsStop? then calls.(isOpen := false)
    else if e.OwnerStep? && e.openOk && s.owner == OwnerTask(StartOpen) then Calls(true, calls.again || calls.isOpen)
    else calls
  }

  function CallsIn(calls: Calls, s: State, events: seq<Event>): Calls
    decreases events
  {
    if events == [] then calls else CallsIn(Noted(calls, s, events[0]), Next(s, events[0]), events[1..])
  }

  ghost predicate CallsInv(s: State, calls: Calls) {
    && !s.supervised
    && (s.dirtyStart <==> calls.again)
    && (!s.fault ==>
          match s.owner
          case OwnerIdle => calls.isOpen <==> Joinable(s)
          case OwnerTask(task) =>
            (match task
             case StartEnter => calls.isOpen <==> Joinable(s)
             case StartOpen => calls.isOpen <==> Joinable(s)
             case StartRing => calls.isOpen
             case StartRunning => calls.isOpen
             case StartRx => calls.isOpen
             case StartWorker => calls.isOpen
             case _ => !calls.isOpen)
          case _ => true)
  }

  lemma OwnerKeepsCalls(s: State, openOk: bool, calls: Calls)
    requires ControlInv(s) && CallsInv(s, calls) && Enabled(s, OwnerStep(openOk))
    ensures CallsInv(OwnerNext(s, openOk), Noted(calls, s, OwnerStep(openOk)))
  {
    hide LogNewRing;
  }

  lemma StepKeepsCalls(s: State, e: Event, calls: Calls)
    requires Inv(s) && CallsInv(s, calls) && Enabled(s, e)
    ensures CallsInv(Next(s, e), Noted(calls, s, e))
  {
    hide OwnerNext, LogInv, RingInv, LogPush, LogTake, LogHandOver, LogDiscard;
    if e.OwnerStep? {
      OwnerKeepsCalls(s, e.openOk, calls);
    }
  }

  lemma {:induction false} RunKeepsCalls(s: State, events: seq<Event>, calls: Calls)
    requires Inv(s) && CallsInv(s, calls) && IsRun(s, events)
    ensures CallsInv(After(s, events), CallsIn(calls, s, events))
    decreases events
  {
    hide Inv, CallsInv, Enabled, Next, Noted;
    if events != [] {
      StepKeepsInv(s, events[0]);
      StepKeepsCalls(s, events[0], calls);
      RunKeepsCalls(Next(s, events[0]), events[1..], Noted(calls, s, events[0]));
    }
  }

  /** Without the supervisor the object survives its calls exactly when no `start()` opens the connection again before
      another call of `stop()`. */
  lemma DirectStartFaultsExactlyWhenOpenedAgain(blocks: nat, events: seq<Event>)
    requires blocks >= 2 && IsRun(Init(blocks, false), events)
    requires var s := After(Init(blocks, false), events); s.fault || s.owner.OwnerIdle?
    ensures After(Init(blocks, false), events).fault <==>
            CallsIn(Calls(false, false), Init(blocks, false), events).again
  {
    var init := Init(blocks, false);
    InitInv(blocks, false);
    RunKeepsInv(init, events);
    RunKeepsSettings(init, events);
    RunKeepsCalls(init, events, Calls(false, false));
    hide LogInv, RingInv, CallsIn, After;
  }

  function StartedState(): State {
    Init(2, false).(running := true, rx := RxCheck, worker := WorkerCheck, ring := Some(Queue(2, [], None)))
  }

  function FailedState(): State {
    StartedState().(running := false, rx := RxExited)
  }

  lemma RunOf(s: State, e: Event, rest: seq<Event>, s': State)
    requires Enabled(s, e) && Next(s, e) == s' && IsRun(s', rest)
    ensures IsRun(s, [e] + rest) && After(s, [e] + rest) == After(s', rest)
  {
    hide Enabled, Next;
    assert ([e] + rest)[1..] == rest;
  }

  function OpenedState(): State {
    Init(2, false).(owner := OwnerTask(StartRing))
  }

  lemma FirstOpen() returns (events: seq<Event>)
    ensures IsRun(Init(2, false), events) && After(Init(2, false), events) == OpenedState()
  {
    var go := OwnerStep(true);
    var s := Init(2, false);
    RunOf(s.(owner := OwnerTask(StartOpen)), go, [], OpenedState());
    RunOf(s.(owner := OwnerTask(StartEnter)), go, [go], s.(owner := OwnerTask(StartOpen)));
    RunOf(s, OwnerCallsStart, [go, go], s.(owner := OwnerTask(StartEnter)));
    events := [OwnerCallsStart] + [go, go];
  }

  function RunningState(): State {
    Init(2, false).(ring := Some(Queue(2, [], None)), running := true, owner := OwnerTask(StartRx))
  }

  lemma FirstRing() returns (events: seq<Event>)
    ensures IsRun(OpenedState(), events) && After(OpenedState(), events) == RunningState()
  {
    var go := OwnerStep(true);
    var s := Init(2, false).(ring := Some(Queue(2, [], None)), owner := OwnerTask(StartRunning));
    assert LogNewRing(s.log) == s.log;
    RunOf(s, go, [], RunningState());
    RunOf(OpenedState(), go, [go], s);
    events := [go] + [go];
  }

  lemma FirstThreads() returns (events: seq<Event>)
    ensures IsRun(RunningState(), events) && After(RunningState(), events) == StartedState()
  {
    var go := OwnerStep(true);
    var s := RunningState().(rx := RxCheck, owner := OwnerTask(StartWorker));
    RunOf(s, go, [], StartedState());
    RunOf(RunningState(), go, [go], s);
    events := [go] + [go];
  }

  lemma FirstStart() returns (events: seq<Event>)
    ensures IsRun(Init(2, false), events) && After(Init(2, false), events) == StartedState()
  {
    hide Enabled, Next, Init, OpenedState, RunningState, StartedState;
    var opening := FirstOpen();
    var ring := FirstRing();
    var starting := FirstThreads();
    RunsCompose(OpenedState(), ring, starting);
    RunsCompose(Init(2, false), opening, ring + starting);
    events := opening + (ring + starting);
  }

  lemma ReadFails() returns (events: seq<Event>)
    ensures IsRun(StartedState(), events) && After(StartedState(), events) == FailedState()
  {
    var s := StartedState();
    var failing := RxStep(Failed);
    RunOf(s.(rx := RxReport), failing, [], FailedState());
    RunOf(s.(rx := RxRead), failing, [failing], s.(rx := RxReport));
    RunOf(s, failing, [failing, failing], s.(rx := RxRead));
    events := [failing] + [failing, failing];
  }

  lemma SecondStart() returns (events: seq<Event>)
    ensures IsRun(FailedState(), events) && After(FailedState(), events).fault
  {
    var go := OwnerStep(true);
    var s := FailedState();
    var faulty := s.(dirtyStart := true, fault := true);
    RunOf(s.(dirtyStart := true, owner := OwnerTask(StartRing)), go, [], faulty);
    RunOf(s.(owner := OwnerTask(StartOpen)), go, [go], s.(dirtyStart := true, owner := OwnerTask(StartRing)));
    RunOf(s.(owner := OwnerTask(StartEnter)), go, [go, go], s.(owner := OwnerTask(StartOpen)));
    RunOf(s, OwnerCallsStart, [go, go, go], s.(owner := OwnerTask(StartEnter)));
    events := [OwnerCallsStart] + [go, go, go];
  }

  /** An RX error followed by `start()` without `stop()` does just that. */
  lemma DirectRestartAfterErrorFaults()
    ensures exists s :: Reachable(s, 2, false) && s.fault
  {
    hide Enabled, Next, Init, StartedState, FailedState;
    var first := FirstStart();
    var failing := ReadFails();
    var second := SecondStart();
    RunsCompose(StartedState(), failing, second);
    RunsCompose(Init(2, false), first, failing + second);
    var s := After(Init(2, false), first + (failing + second));
    assert Reachable(s, 2, false) && s.fault;
  }

  /** The callback is given frames that were read, unchanged, in the order read and each at most once. */
  lemma CallbacksAreFramesReadInOrder(s: State, blocks: nat, supervised: bool)
    requires blocks >= 2 && Reachable(s, blocks, supervised) && !s.fault
    ensures Increasing(s.log.handed) && |s.log.callbacks| == |s.log.handed|
    ensures forall i :: 0 <= i < |s.log.callbacks| ==>
              s.log.handed[i] < |s.log.offered| && s.log.callbacks[i] == s.log.offered[s.log.handed[i]]
  {
    ReachableInv(s, blocks, supervised);
    hide RingInv, ControlInv;
  }

  /** The frames `read()` returned during a run. */
  function Reads(s: State, events: seq<Event>): seq<Frame>
    decreases events
  {
    if events == [] then [] else ReadIn(s, events[0]) + Reads(Next(s, events[0]), events[1..])
  }

  function ReadIn(s: State, e: Event): seq<Frame> {
    if e.RxStep? && e.result.Got? && s.rx.RxRead? then [e.result.frame] else []
  }

  function Pending(rx: Rx): seq<Frame> {
    if rx.RxPush? then [rx.frame] else []
  }

  lemma LogsOffer(log: Log, frame: Frame, outcome: Outcome)
    ensures LogNewRing(log).offered == log.offered
    ensures LogTake(log).offered == LogHandOver(log, frame).offered == LogDiscard(log).offered == log.offered
    ensures LogPush(log, frame, outcome).offered == log.offered + [frame]
    ensures LogPush(log, frame, outcome).callbacks == LogNewRing(log).callbacks == log.callbacks
  {
    hide SetFate, Free;
  }

  lemma TaskStepLog(s: State, task: Task, openOk: bool)
    ensures TaskStep(s, task, openOk).0.log in {s.log, LogNewRing(s.log)}
  {
    hide LogNewRing;
  }

  lemma TaskStepOffersNothing(s: State, task: Task, openOk: bool)
    requires TaskEnabled(s, task)
    ensures Pending(TaskStep(s, task, openOk).0.rx) == Pending(s.rx)
  {
    hide LogNewRing;
  }

  lemma ControllerOffersNothing(s: State, e: Event)
    requires Enabled(s, e) && !e.RxStep? && !e.WorkerStep?
    ensures Next(s, e).log.offered == s.log.offered && Pending(Next(s, e).rx) == Pending(s.rx)
  {
    hide TaskStep, LogNewRing, LogTake, LogHandOver, LogDiscard, LogPush;
    LogsOffer(s.log, [], Stored);
    if e.OwnerStep? && s.owner.OwnerTask? {
      TaskStepLog(s, s.owner.task, e.openOk);
      TaskStepOffersNothing(s, s.owner.task, e.openOk);
    } else if e.SupervisorStep? && s.supervisor.SupTask? {
      TaskStepLog(s, s.supervisor.task, e.openOk);
      TaskStepOffersNothing(s, s.supervisor.task, e.openOk);
    }
  }

  lemma WorkerOffersNothing(s: State)
    ensures WorkerNext(s).log.offered == s.log.offered
  {
    hide LogTake, LogHandOver, LogDiscard;
    LogsOffer(s.log, [], Stored);
    if s.ring.Some? && s.ring.value.inFlight.Some? {
      LogsOffer(s.log, s.ring.value.inFlight.value, Stored);
    }
    hide LogPush, LogNewRing;
  }

  lemma WorkerLeavesRx(s: State)
    ensures WorkerNext(s).rx == s.rx
  {
    hide LogTake, LogHandOver, LogDiscard;
  }

  lemma RxOffersReads(s: State, result: ReadResult)
    requires RxEnabled(s)
    ensures RxNext(s, result).log.offered + Pending(RxNext(s, result).rx) ==
            s.log.offered + Pending(s.rx) + ReadIn(s, RxStep(result))
  {
    hide LogPush;
    var offered := s.log.offered;
    if s.rx.RxPush? {
      if s.ring.Some? {
        LogsOffer(s.log, s.rx.frame, s.ring.value.PushOutcome());
        assert offered + [s.rx.frame] + [] == offered + [s.rx.frame];
      }
    } else {
      assert offered + [] == offered;
    }
  }

  lemma StepOffersReads(s: State, e: Event)
    requires Enabled(s, e)
    ensures Next(s, e).log.offered + Pending(Next(s, e).rx) == s.log.offered + Pending(s.rx) + ReadIn(s, e)
  {
    hide RxNext, WorkerNext, SupervisorNext, OwnerNext, Pending;
    if e.RxStep? {
      RxOffersReads(s, e.result);
    } else if e.WorkerStep? {
      WorkerOffersNothing(s);
      WorkerLeavesRx(s);
    } else {
      ControllerOffersNothing(s, e);
    }
  }

  lemma {:induction false} RunOffersReads(s: State, events: seq<Event>)
    requires IsRun(s, events)
    ensures After(s, events).log.offered + Pending(After(s, events).rx) ==
            s.log.offered + Pending(s.rx) + Reads(s, events)
    decreases events
  {
    hide Enabled, Next, Pending, ReadIn;
    if events != [] {
      StepOffersReads(s, events[0]);
      RunOffersReads(Next(s, events[0]), events[1..]);
    }
  }

  /** The frames offered to the ring are the frames read, in that order; the last one may be on its way. */
  lemma OfferedAreTheFramesRead(blocks: nat, supervised: bool, events: seq<Event>)
    requires IsRun(Init(blocks, supervised), events)
    ensures var s := After(Init(blocks, supervised), events);
            s.log.offered + Pending(s.rx) == Reads(Init(blocks, supervised), events)
  {
    hide Enabled, Next;
    RunOffersReads(Init(blocks, supervised), events);
  }

  lemma {:induction false} CountsAddUp(fates: seq<Fate>)
    ensures |fates| == Count(fates, Fate.Refused) + Count(fates, Evicted) + Count(fates, Waiting) +
            Count(fates, Taken) +
                       Count(fates, HandedOver) + Count(fates, Discarded) + Count(fates, FreedWithRing)
  {
    if fates != [] {
      CountsAddUp(fates[..|fates| - 1]);
    }
  }

  /** No frame is lost track of or counted twice: each one read is refused, evicted, still queued, being taken,
      handed over, dropped because the object stopped, or freed with an old ring. */
  lemma FramesAreConserved(s: State, blocks: nat, supervised: bool)
    requires blocks >= 2 && Reachable(s, blocks, supervised) && !s.fault
    ensures |s.log.offered| ==
              Count(s.log.fates, Fate.Refused) + Count(s.log.fates, Evicted)
              + (if s.ring.Some? then |s.ring.value.waiting| else 0) + (if s.worker.WorkerTaken? then 1 else 0)
              + |s.log.callbacks| + Count(s.log.fates, Discarded) + Count(s.log.fates, FreedWithRing)
  {
    ReachableInv(s, blocks, supervised);
    CountsAddUp(s.log.fates);
    hide ControlInv, Count;
  }

  /** What a push may do to the other frames: while a block is being processed nothing is evicted and one block more
      stays free; otherwise at most the oldest frame goes. */
  lemma OverflowPolicy(s: State, blocks: nat, supervised: bool, result: ReadResult)
    requires blocks >= 2 && Reachable(s, blocks, supervised) && !s.fault && s.rx.RxPush?
    ensures s.ring.Some?
    ensures var s' := RxNext(s, result);
            && s'.ring.Some?
            && var (old_, new_, fates) := (s.ring.value.waiting, s'.ring.value.waiting, s.log.fates);
            if s.worker in {WorkerTaken, WorkerCallback, WorkerRelease} then
              && |new_| <= blocks - 2
              && s'.log.fates == fates + [if |old_| < blocks - 2 then Waiting else Fate.Refused]
              && new_ == (if |old_| < blocks - 2 then old_ + [s.rx.frame] else old_)
            else
              && |new_| <= blocks - 1
              && (|old_| < blocks - 1 ==> s'.log.fates == fates + [Waiting] && new_ == old_ + [s.rx.frame])
              && (|old_| == blocks - 1 ==>
                    && s.log.waiting != [] && s.log.waiting[0] < |fates|
                    && s'.log.fates == fates[s.log.waiting[0] := Evicted] + [Waiting]
                    && new_ == old_[1..] + [s.rx.frame])
  {
    ReachableInv(s, blocks, supervised);
    hide ControlInv, Count, Increasing;
  }

  /** From the moment a block is taken until the worker itself releases it, no step of any thread changes or frees it,
      short of the fault that only a direct `start()` can commit. */
  lemma BlockBeingProcessedIsStable(s: State, e: Event, blocks: nat, supervised: bool)
    requires blocks >= 2 && Reachable(s, blocks, supervised) && Enabled(s, e) && !Next(s, e).fault
    requires s.ring.Some? && s.ring.value.inFlight.Some?
    requires !(e.WorkerStep? && s.worker.WorkerRelease?)
    ensures Next(s, e).ring.Some? && Next(s, e).ring.value.inFlight == s.ring.value.inFlight
  {
    ReachableInv(s, blocks, supervised);
    hide Reachable, LogInv, ControlInv, TaskStep, LogPush, LogTake, LogHandOver, LogDiscard;
    if e.OwnerStep? && s.owner.OwnerTask? {
      TaskKeepsRingInUse(s, s.owner.task, e.openOk);
    } else if e.SupervisorStep? && s.supervisor.SupTask? {
      TaskKeepsRingInUse(s, s.supervisor.task, e.openOk);
    }
  }

  lemma TaskKeepsRingInUse(s: State, task: Task, openOk: bool)
    requires WorkerLive(s.worker) && !s.fault
    ensures var s' := TaskStep(s, task, openOk).0; !s'.fault ==> s'.ring == s.ring
  {
    hide LogNewRing;
  }
}
