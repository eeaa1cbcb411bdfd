/** The whole sniffer at work: the threads of both buses, each handling its frames in three separate steps (filter,
    send, log), interleaved with commands from the network and the watchdog. */
module Bridge {
  import opened Bytes
  import opened CanbusProtocol
  import opened FilterRules
  import opened Sniffer
  import Comm = CommunicationRun
  import FE = FilterEngine

  /** How far the worker of a bus is with the frame its callback was given. */
  datatype Handling = Idle | Given(frame: seq<byte>) | Judged(verdict: Verdict) | SentOn(verdict: Verdict)

  /** One frame judged: its place among the callbacks of its bus, the rules then in force and the outcome. */
  datatype Judgement = Judgement(name: nat, frame: seq<byte>, rules: seq<CanFilterRule>, verdict: Verdict)

  /** How much had been reported, and of how many judgements, when a frame last went unlogged. */
  datatype Mark = Mark(external: nat, judged: nat)

  datatype Lane = Lane(comm: Comm.State, handling: Handling, judged: seq<Judgement>, mark: Mark)

  /** Which bus frames come from. */
  datatype Side = FromSystem | FromComputer

  datatype State = State(core: SnifferState, system: Lane, computer: Lane)

  datatype Event =
    | BusStep(side: Side, e: Comm.Event)
    | Judging(side: Side)
    | Sending(side: Side)
    | Logging(side: Side)
    | Packet(at: int, datagram: seq<byte>, sorted: seq<CanFilterRule>)
    | WatchdogTurn(at: int)
    | Stopping

  function LaneOf(s: State, side: Side): Lane {
    if side.FromSystem? then s.system else s.computer
  }

  function WithLane(s: State, side: Side, lane: Lane): State {
    if side.FromSystem? then s.(system := lane) else s.(computer := lane)
  }

  function SourceOf(side: Side): Source {
    if side.FromSystem? then CarSystem else CarComputer
  }

  /** What was sent to the bus opposite to `side`. */
  function Out(core: SnifferState, side: Side): seq<Sent> {
    if side.FromSystem? then core.toComputer else core.toSystem
  }

  function Init(blocks: nat, at: int): State {
    var lane := Lane(Comm.Init(blocks, true), Idle, [], Mark(0, 0));
    State(SnifferState(true, false, false, at, [], [], [], []), lane, lane)
  }

  // ---- Steps ----

  /** A bus reads whole frames, and its worker leaves the callback when the sniffer is done with the frame. */
  ghost predicate BusEnabled(lane: Lane, e: Comm.Event) {
    && Comm.Enabled(lane.comm, e)
    && (e.RxStep? && e.result.Got? ==> IsFrame(e.result.frame))
    && (e.WorkerStep? && lane.comm.worker.WorkerCallback? ==> lane.handling.Idle?)
  }

  predicate EntersCallback(comm: Comm.State, e: Comm.Event) {
    e.WorkerStep? && comm.worker.WorkerTaken? && comm.running
  }

  function LaneBusStep(lane: Lane, e: Comm.Event): Lane {
    var comm := Comm.Next(lane.comm, e);
    var given := EntersCallback(lane.comm, e) && comm.log.callbacks != [];
    lane.(comm := comm,
          handling := if given then Given(comm.log.callbacks[|comm.log.callbacks| - 1]) else lane.handling)
  }

  ghost predicate CanJudge(s: State, side: Side) {
    var lane := LaneOf(s, side);
    && lane.handling.Given? && IsFrame(lane.handling.frame) && SortedById(s.core.rules)
    && |lane.comm.log.callbacks| > 0
  }

  function LaneJudge(lane: Lane, source: Source, core: SnifferState): Lane
    requires lane.handling.Given? && IsFrame(lane.handling.frame) && SortedById(core.rules) &&
             |lane.comm.log.callbacks| > 0
  {
    if !core.running then lane.(handling := Idle)
    else
      var frame := lane.handling.frame;
      var verdict := Judge(core.rules, source, frame);
      lane.(handling := Judged(verdict),
            judged := lane.judged + [Judgement(|lane.comm.log.callbacks| - 1, frame, core.rules, verdict)])
  }

  function OnDelivery(core: SnifferState, at: int, delivery: Delivery, sorted: seq<CanFilterRule>): SnifferState {
    match delivery
    case Command(command, _, data) => AfterCommand(core, at, command, data, sorted)
    case Data(_) => core.(lastExternal := at)
  }

  function OnDeliveries(core: SnifferState, at: int, deliveries: seq<Delivery>,
                        sorted: seq<CanFilterRule>): SnifferState
    decreases |deliveries|
  {
    if deliveries == [] then core
    else OnDeliveries(OnDelivery(core, at, deliveries[0], sorted), at, deliveries[1..], sorted)
  }

  function DeliveriesOf(datagram: seq<byte>): seq<Delivery> {
    ProcessPacket(Received(datagram), true)
  }

  ghost predicate SortsIn(deliveries: seq<Delivery>, sorted: seq<CanFilterRule>) {
    forall d :: d in deliveries && d.Command? ==> SortResult(d.command, d.data, sorted)
  }

  ghost predicate Enabled(s: State, e: Event) {
    match e
    case BusStep(side, step) => BusEnabled(LaneOf(s, side), step)
    case Judging(side) => CanJudge(s, side)
    case Sending(side) => LaneOf(s, side).handling.Judged?
    case Logging(side) => LaneOf(s, side).handling.SentOn?
    case Packet(_, datagram, sorted) => SortsIn(DeliveriesOf(datagram), sorted)
    case WatchdogTurn(_) => true
    case Stopping => true
  }

  ghost function Next(s: State, e: Event): State
    requires Enabled(s, e)
  {
    match e
    case BusStep(side, step) => WithLane(s, side, LaneBusStep(LaneOf(s, side), step))
    case Judging(side) => WithLane(s, side, LaneJudge(LaneOf(s, side), SourceOf(side), s.core))
    case Sending(side) =>
      var lane := LaneOf(s, side);
      WithLane(s, side, lane.(handling := SentOn(lane.handling.verdict)))
        .(core := SendOn(s.core, SourceOf(side), lane.handling.verdict))
    case Logging(side) =>
      var lane := LaneOf(s, side);
      WithLane(s, side, LaneLogged(lane, s.core)).(core := LogFrame(s.core, SourceOf(side), lane.handling.verdict))
    case Packet(at, datagram, sorted) => s.(core := OnDeliveries(s.core, at, DeliveriesOf(datagram), sorted))
    case WatchdogTurn(at) => s.(core := AfterTick(s.core, at))
    case Stopping => s.(core := s.core.(running := false))
  }

  function LaneLogged(lane: Lane, core: SnifferState): Lane {
    lane.(handling := Idle, mark := if core.logging then lane.mark else Mark(|core.external|, |lane.judged|))
  }

  // ---- Projections of the traces ----

  function BridgedIn(out: seq<Sent>): seq<seq<byte>> {
    if out == [] then []
    else
      var last := out[|out| - 1];
      BridgedIn(out[..|out| - 1]) + (if last.Bridged? then [last.frame] else [])
  }

  /** The judgements that let their frame through. */
  function Passed(judged: seq<Judgement>): seq<Judgement> {
    if judged == [] then []
    else
      var last := judged[|judged| - 1];
      Passed(judged[..|judged| - 1]) + (if last.verdict.forward then [last] else [])
  }

  function Images(judged: seq<Judgement>): (images: seq<seq<byte>>)
    ensures |images| == |judged|
    ensures forall i :: 0 <= i < |judged| ==> images[i] == judged[i].verdict.data
  {
    seq(|judged|, i requires 0 <= i < |judged| => judged[i].verdict.data)
  }

  predicate ReportFrom(report: Report, side: Side) {
    report.FrameReport? && report.command in {LogCommand(SourceOf(side), true), LogCommand(SourceOf(side), false)}
  }

  function ReportsFrom(external: seq<Report>, side: Side): seq<Report> {
    if external == [] then []
    else
      var last := external[|external| - 1];
      ReportsFrom(external[..|external| - 1], side) + (if ReportFrom(last, side) then [last] else [])
  }

  /** The log message a judged frame deserves. */
  function ReportOf(j: Judgement, side: Side): Report {
    FrameReport(LogCommand(SourceOf(side), j.verdict.forward), j.verdict.data)
  }

  function Reports(judged: seq<Judgement>, side: Side): (reports: seq<Report>)
    ensures |reports| == |judged|
    ensures forall i :: 0 <= i < |judged| ==> reports[i] == ReportOf(judged[i], side)
  {
    seq(|judged|, i requires 0 <= i < |judged| => ReportOf(judged[i], side))
  }

  /** The judgements whose frame has been sent on, as far as it was to be: all but one just made. */
  function SentOf(judged: seq<Judgement>, handling: Handling): seq<Judgement> {
    if handling.Judged? && judged != [] then judged[..|judged| - 1] else judged
  }

  /** The same for a lane, and the judgements also logged. */
  function SentPart(lane: Lane): seq<Judgement> {
    SentOf(lane.judged, lane.handling)
  }

  function LoggedPart(lane: Lane): seq<Judgement> {
    if (lane.handling.Judged? || lane.handling.SentOn?) && lane.judged != [] then lane.judged[..|lane.judged| - 1]
    else lane.judged
  }

  lemma BridgedAppend(out: seq<Sent>, last: Sent)
    ensures BridgedIn(out + [last]) == BridgedIn(out) + (if last.Bridged? then [last.frame] else [])
  {
    assert (out + [last])[..|out|] == out;
  }

  lemma PassedAppend(judged: seq<Judgement>, last: Judgement)
    ensures Passed(judged + [last]) == Passed(judged) + (if last.verdict.forward then [last] else [])
  {
    assert (judged + [last])[..|judged|] == judged;
  }

  lemma ReportsAppend(external: seq<Report>, last: Report, side: Side)
    ensures ReportsFrom(external + [last], side) ==
            ReportsFrom(external, side) + (if ReportFrom(last, side) then [last] else [])
  {
    assert (external + [last])[..|external|] == external;
  }

  // ---- What every step keeps ----

  ghost predicate GoodRules(rules: seq<CanFilterRule>) {
    SortedById(rules) && |rules| <= 157
  }

  ghost predicate GoodJudgement(lane: Lane, side: Side, j: Judgement) {
    && j.name < |lane.comm.log.callbacks| && j.frame == lane.comm.log.callbacks[j.name]
    && GoodRules(j.rules) && IsFrame(j.frame)
    && j.verdict == Judge(j.rules, SourceOf(side), j.frame)
  }

  /** The judgements are of callbacks, in order, and agree with what the worker is doing. */
  ghost predicate LaneInv(lane: Lane, side: Side) {
    && (forall i :: 0 <= i < |lane.judged| ==> GoodJudgement(lane, side, lane.judged[i]))
    && (forall i, j :: 0 <= i < j < |lane.judged| ==> lane.judged[i].name < lane.judged[j].name)
    && (!lane.handling.Idle? ==> lane.comm.worker.WorkerCallback?)
    && (lane.handling.Given? ==>
          && |lane.comm.log.callbacks| > 0
          && lane.handling.frame == lane.comm.log.callbacks[|lane.comm.log.callbacks| - 1]
          && IsFrame(lane.handling.frame)
          && (lane.judged != [] ==> lane.judged[|lane.judged| - 1].name < |lane.comm.log.callbacks| - 1))
    && (lane.handling.Judged? || lane.handling.SentOn? ==>
          lane.judged != [] && lane.judged[|lane.judged| - 1].verdict == lane.handling.verdict)
  }

  ghost predicate FramesOnly(comm: Comm.State) {
    forall i :: 0 <= i < |comm.log.offered + Comm.Pending(comm.rx)| ==>
      IsFrame((comm.log.offered + Comm.Pending(comm.rx))[i])
  }

  ghost predicate CommInv(comm: Comm.State) {
    Comm.Inv(comm) && comm.supervised && !comm.fault && FramesOnly(comm)
  }

  /** The traces are exactly what the judgements called for; the reports since the mark, as nothing went unlogged
      since. */
  ghost predicate TraceInv(lane: Lane, side: Side, core: SnifferState) {
    SentInv(lane, Out(core, side)) && LoggedInv(lane, side, core.external)
  }

  ghost predicate SentInv(lane: Lane, out: seq<Sent>) {
    BridgedIn(out) == Images(Passed(SentPart(lane)))
  }

  ghost predicate LoggedInv(lane: Lane, side: Side, external: seq<Report>) {
    && lane.mark.external <= |external| && lane.mark.judged <= |LoggedPart(lane)|
    && ReportsFrom(external[lane.mark.external..], side) == Reports(LoggedPart(lane)[lane.mark.judged..], side)
  }

  ghost predicate SideInv(s: State, side: Side) {
    && CommInv(LaneOf(s, side).comm)
    && LaneInv(LaneOf(s, side), side)
    && TraceInv(LaneOf(s, side), side, s.core)
  }

  ghost predicate Inv(s: State) {
    GoodRules(s.core.rules) && SideInv(s, FromSystem) && SideInv(s, FromComputer)
  }

  // ---- Every step keeps it ----

  lemma BusKeepsComm(lane: Lane, e: Comm.Event)
    requires CommInv(lane.comm) && BusEnabled(lane, e)
    ensures CommInv(Comm.Next(lane.comm, e))
  {
    hide Comm.Enabled, Comm.Next, Comm.Inv, IsFrame;
    Comm.StepKeepsInv(lane.comm, e);
    Comm.StepKeepsSettings(lane.comm, e);
    Comm.SupervisedIsFaultFree(Comm.Next(lane.comm, e));
    Comm.StepOffersReads(lane.comm, e);
  }

  lemma BusKeepsLane(lane: Lane, side: Side, e: Comm.Event)
    requires CommInv(lane.comm) && LaneInv(lane, side) && BusEnabled(lane, e)
    ensures LaneInv(LaneBusStep(lane, e), side)
    ensures SentPart(LaneBusStep(lane, e)) == SentPart(lane) && LoggedPart(LaneBusStep(lane, e)) == LoggedPart(lane)
  {
    hide Comm.Next, Comm.Inv, IsFrame, Judge, SortedById, GoodRules;
    BusKeepsComm(lane, e);
    Comm.CallbackStep(lane.comm, e);
    if !lane.handling.Idle? && !e.WorkerStep? {
      Comm.OthersLeaveLiveWorker(lane.comm, e);
    }
    if EntersCallback(lane.comm, e) {
      CallbacksAreFrames(lane.comm, Comm.Next(lane.comm, e));
    }
    var lane' := LaneBusStep(lane, e);
    forall i | 0 <= i < |lane.judged|
      ensures GoodJudgement(lane', side, lane.judged[i])
    {
      assert GoodJudgement(lane, side, lane.judged[i]);
    }
  }

  lemma CallbacksAreFrames(before: Comm.State, after: Comm.State)
    requires CommInv(before) && before.worker.WorkerTaken?
    ensures before.ring.Some? && before.ring.value.inFlight.Some? && IsFrame(before.ring.value.inFlight.value)
  {
    hide IsFrame, Comm.ControlInv, Comm.LogInv;
    var name := before.log.taken.value;
    assert (before.log.offered + Comm.Pending(before.rx))[name] == before.log.offered[name];
  }

  lemma JudgingKeepsLane(lane: Lane, side: Side, core: SnifferState)
    requires LaneInv(lane, side) && lane.handling.Given? && GoodRules(core.rules)
    ensures IsFrame(lane.handling.frame) && |lane.comm.log.callbacks| > 0
    ensures var lane' := LaneJudge(lane, SourceOf(side), core);
            LaneInv(lane', side) && SentPart(lane') == SentPart(lane) && LoggedPart(lane') == LoggedPart(lane)
  {
    hide IsFrame, Judge, SortedById;
    var lane' := LaneJudge(lane, SourceOf(side), core);
    forall i | 0 <= i < |lane'.judged|
      ensures GoodJudgement(lane', side, lane'.judged[i])
    {
      if i < |lane.judged| {
        assert GoodJudgement(lane, side, lane.judged[i]);
      }
    }
  }

  lemma SendingExtends(lane: Lane, out: seq<Sent>)
    requires lane.handling.Judged? && lane.judged != [] &&
             lane.judged[|lane.judged| - 1].verdict == lane.handling.verdict
    requires SentInv(lane, out)
    ensures var verdict := lane.handling.verdict;
            SentInv(lane.(handling := SentOn(verdict)), if verdict.forward then out + [Bridged(verdict.data)] else out)
  {
    hide Images, BridgedIn, Passed;
    var front, last := lane.judged[..|lane.judged| - 1], lane.judged[|lane.judged| - 1];
    assert lane.judged == front + [last];
    BridgedAppend(out, Bridged(last.verdict.data));
    PassedAppend(front, last);
    ImagesAppend(Passed(front), last);
    assert Passed(front) + [] == Passed(front);
  }

  lemma SendingKeepsTraces(lane: Lane, side: Side, other: Lane, core: SnifferState)
    requires LaneInv(lane, side) && lane.handling.Judged?
    requires TraceInv(lane, side, core) && TraceInv(other, Opposite(side), core)
    ensures var lane' := lane.(handling := SentOn(lane.handling.verdict));
            var core' := SendOn(core, SourceOf(side), lane.handling.verdict);
            && LaneInv(lane', side)
            && TraceInv(lane', side, core') && TraceInv(other, Opposite(side), core')
            && core'.rules == core.rules
  {
    LastJudged(lane, side);
    LaneForgets(lane, side, SentOn(lane.handling.verdict), lane.mark);
    SendingExtends(lane, Out(core, side));
    SendingSparesLog(lane, side, core.external);
    hide LaneInv, SentInv, LoggedInv;
  }

  lemma SendingSparesLog(lane: Lane, side: Side, external: seq<Report>)
    requires lane.handling.Judged? && LoggedInv(lane, side, external)
    ensures LoggedInv(lane.(handling := SentOn(lane.handling.verdict)), side, external)
  {
    hide ReportsFrom, Reports;
    assert LoggedPart(lane.(handling := SentOn(lane.handling.verdict))) == LoggedPart(lane);
  }

  lemma LastJudged(lane: Lane, side: Side)
    requires LaneInv(lane, side) && (lane.handling.Judged? || lane.handling.SentOn?)
    ensures lane.judged != [] && lane.judged[|lane.judged| - 1].verdict == lane.handling.verdict
  {
    hide GoodJudgement;
  }

  lemma ImagesAppend(judged: seq<Judgement>, last: Judgement)
    ensures Images(judged + [last]) == Images(judged) + [last.verdict.data]
  {
  }

  function Opposite(side: Side): Side {
    if side.FromSystem? then FromComputer else FromSystem
  }

  /** The invariant of a lane does not mind what its worker does next with the frame it has judged. */
  lemma LaneForgets(lane: Lane, side: Side, next: Handling, mark: Mark)
    requires LaneInv(lane, side) && (lane.handling.Judged? || lane.handling.SentOn?)
    requires next == SentOn(lane.handling.verdict) || next.Idle?
    ensures LaneInv(lane.(handling := next, mark := mark), side)
  {
    hide IsFrame, Judge, SortedById, GoodRules;
    var lane' := lane.(handling := next, mark := mark);
    forall i | 0 <= i < |lane.judged|
      ensures GoodJudgement(lane', side, lane.judged[i])
    {
      assert GoodJudgement(lane, side, lane.judged[i]);
    }
  }

  lemma LoggingExtends(lane: Lane, side: Side, external: seq<Report>)
    requires lane.handling.SentOn? && lane.judged != [] &&
             lane.judged[|lane.judged| - 1].verdict == lane.handling.verdict
    requires LoggedInv(lane, side, external)
    ensures LoggedInv(lane.(handling := Idle), side,
                      external + [FrameReport(LogCommand(SourceOf(side), lane.handling.verdict.forward),
                                              lane.handling.verdict.data)])
  {
    hide ReportsFrom;
    var front, last := lane.judged[..|lane.judged| - 1], lane.judged[|lane.judged| - 1];
    var (m, n, report) := (lane.mark.external, lane.mark.judged, ReportOf(last, side));
    ReportsAppend(external[m..], report, side);
    assert (external + [report])[m..] == external[m..] + [report];
    assert lane.judged[n..] == front[n..] + [last];
    assert Reports(front[n..] + [last], side) == Reports(front[n..], side) + [report];
  }

  lemma LoggingSparesOther(other: Lane, side: Side, external: seq<Report>, report: Report)
    requires LoggedInv(other, Opposite(side), external) && !ReportFrom(report, Opposite(side))
    ensures LoggedInv(other, Opposite(side), external + [report])
  {
    hide ReportsFrom, Reports;
    var m := other.mark.external;
    ReportsAppend(external[m..], report, Opposite(side));
    assert (external + [report])[m..] == external[m..] + [report];
    assert ReportsFrom(external[m..], Opposite(side)) + [] == ReportsFrom(external[m..], Opposite(side));
  }

  lemma LoggingKeepsTraces(lane: Lane, side: Side, other: Lane, core: SnifferState)
    requires LaneInv(lane, side) && lane.handling.SentOn?
    requires TraceInv(lane, side, core) && TraceInv(other, Opposite(side), core)
    ensures var lane', core' := LaneLogged(lane, core), LogFrame(core, SourceOf(side), lane.handling.verdict);
            && LaneInv(lane', side)
            && TraceInv(lane', side, core') && TraceInv(other, Opposite(side), core')
            && core'.rules == core.rules
  {
    hide LaneInv, SentInv, LoggedInv, ReportFrom, LogCommand;
    LastJudged(lane, side);
    LaneForgets(lane, side, Idle, LaneLogged(lane, core).mark);
    LoggingSparesSent(lane, Out(core, side), LaneLogged(lane, core).mark);
    var verdict := lane.handling.verdict;
    if core.logging {
      LoggingExtends(lane, side, core.external);
      ReportIsOneSided(verdict, side);
      LoggingSparesOther(other, side, core.external,
          FrameReport(LogCommand(SourceOf(side), verdict.forward), verdict.data));
    } else {
      FreshMark(lane.(handling := Idle), side, core.external);
    }
  }

  lemma ReportIsOneSided(verdict: Verdict, side: Side)
    ensures !ReportFrom(FrameReport(LogCommand(SourceOf(side), verdict.forward), verdict.data), Opposite(side))
  {
  }

  lemma LoggingSparesSent(lane: Lane, out: seq<Sent>, mark: Mark)
    requires lane.handling.SentOn? && SentInv(lane, out)
    ensures SentInv(lane.(handling := Idle, mark := mark), out)
  {
    hide BridgedIn, Passed, Images;
    assert SentPart(lane.(handling := Idle, mark := mark)) == SentPart(lane);
  }

  lemma FreshMark(lane: Lane, side: Side, external: seq<Report>)
    requires lane.handling.Idle?
    ensures LoggedInv(lane.(mark := Mark(|external|, |lane.judged|)), side, external)
  {
    assert external[|external|..] == [] && lane.judged[|lane.judged|..] == [];
  }

  /** What the other threads do to the sniffer's state leaves the bridged frames and the frame reports alone. */
  ghost predicate SameTraces(core: SnifferState, core': SnifferState) {
    && BridgedIn(core'.toSystem) == BridgedIn(core.toSystem)
    && BridgedIn(core'.toComputer) == BridgedIn(core.toComputer)
    && |core.external| <= |core'.external|
    && (forall m, side :: 0 <= m <= |core.external| ==>
          ReportsFrom(core'.external[m..], side) == ReportsFrom(core.external[m..], side))
  }

  lemma CommandKeepsTraces(core: SnifferState, at: int, command: U32, data: seq<byte>, sorted: seq<CanFilterRule>)
    requires GoodRules(core.rules) && SortResult(command, data, sorted) && |data| <= 3944
    ensures var core' := AfterCommand(core, at, command, data, sorted);
            SameTraces(core, core') && GoodRules(core'.rules)
  {
    hide SortedById, DecodeRules, BridgedIn, ReportsFrom;
    if command == CMD_SET_FILTERS {
      FE.SameSize(sorted, DecodeRules(FE.Truncated(data)));
    }
    BridgedAppend(core.toSystem, Injected(data));
    BridgedAppend(core.toComputer, Injected(data));
    if |data| >= KEEP_ALIVE_SIZE {
      var report := StatusReport(data[0] != 0);
      forall m, side | 0 <= m <= |core.external|
        ensures ReportsFrom((core.external + [report])[m..], side) == ReportsFrom(core.external[m..], side)
      {
        ReportsAppend(core.external[m..], report, side);
        assert (core.external + [report])[m..] == core.external[m..] + [report];
      }
    }
  }

  /** No command reaching the sniffer by UDP carries more than 3944 bytes, hence no filter command more than 157
      rules. */
  lemma DeliveredFits(datagram: seq<byte>, d: Delivery)
    requires d in DeliveriesOf(datagram) && d.Command?
    ensures |d.data| <= 3944
  {
    hide EncodeV1;
    DeliveredCommandWasEncoded(Received(datagram), d.command, d.time, d.data);
  }

  lemma {:induction false} DeliveriesKeepTraces(core: SnifferState, at: int, deliveries: seq<Delivery>,
                                                sorted: seq<CanFilterRule>)
    requires GoodRules(core.rules) && SortsIn(deliveries, sorted)
    requires forall d :: d in deliveries && d.Command? ==> |d.data| <= 3944
    ensures var core' := OnDeliveries(core, at, deliveries, sorted);
            SameTraces(core, core') && GoodRules(core'.rules)
    decreases |deliveries|
  {
    hide GoodRules, BridgedIn, ReportsFrom, AfterCommand, SortResult;
    if deliveries != [] {
      var d := deliveries[0];
      if d.Command? {
        CommandKeepsTraces(core, at, d.command, d.data, sorted);
        DeliveriesKeepTraces(AfterCommand(core, at, d.command, d.data, sorted), at, deliveries[1..], sorted);
      } else {
        DeliveriesKeepTraces(core.(lastExternal := at), at, deliveries[1..], sorted);
      }
    }
  }

  lemma CoreStepKeepsInv(s: State, core: SnifferState)
    requires Inv(s) && SameTraces(s.core, core) && GoodRules(core.rules)
    ensures Inv(s.(core := core))
  {
    hide CommInv, LaneInv, GoodRules, BridgedIn, ReportsFrom, Images, Reports;
  }

  lemma SideStepKeepsInv(s: State, e: Event)
    requires Inv(s) && Enabled(s, e) && (e.Sending? || e.Logging?)
    ensures Inv(Next(s, e))
  {
    hide CommInv, LaneInv, GoodRules, TraceInv, SendOn, LogFrame;
    var lane, other := LaneOf(s, e.side), LaneOf(s, Opposite(e.side));
    if e.Sending? {
      SendingKeepsTraces(lane, e.side, other, s.core);
    } else {
      LoggingKeepsTraces(lane, e.side, other, s.core);
    }
  }

  lemma JudgingKeepsInv(s: State, side: Side)
    requires Inv(s) && CanJudge(s, side)
    ensures Inv(Next(s, Judging(side)))
  {
    hide CommInv, LaneInv, GoodRules, LaneJudge, BridgedIn, ReportsFrom, Images, Reports, SentPart, LoggedPart;
    JudgingKeepsLane(LaneOf(s, side), side, s.core);
    JudgingKeepsComm(LaneOf(s, side), side, s.core);
  }

  lemma PacketKeepsInv(s: State, at: int, datagram: seq<byte>, sorted: seq<CanFilterRule>)
    requires Inv(s) && SortsIn(DeliveriesOf(datagram), sorted)
    ensures Inv(s.(core := OnDeliveries(s.core, at, DeliveriesOf(datagram), sorted)))
  {
    hide GoodRules, SideInv, DeliveriesOf, OnDeliveries;
    forall d | d in DeliveriesOf(datagram) && d.Command?
      ensures |d.data| <= 3944
    {
      DeliveredFits(datagram, d);
    }
    DeliveriesKeepTraces(s.core, at, DeliveriesOf(datagram), sorted);
    CoreStepKeepsInv(s, OnDeliveries(s.core, at, DeliveriesOf(datagram), sorted));
  }

  lemma QuietStepKeepsInv(s: State, e: Event)
    requires Inv(s) && Enabled(s, e) && (e.WatchdogTurn? || e.Stopping?)
    ensures Inv(Next(s, e))
  {
    hide SideInv, GoodRules, BridgedIn, ReportsFrom;
    CoreStepKeepsInv(s, Next(s, e).core);
  }

  lemma StepKeepsInv(s: State, e: Event)
    requires Inv(s) && Enabled(s, e)
    ensures Inv(Next(s, e))
  {
    hide Inv, BusEnabled, LaneBusStep, LaneJudge, OnDeliveries, DeliveriesOf, CanJudge, SendOn, LogFrame, AfterTick;
    match e
    case BusStep(side, step) => BusStepKeepsInv(s, side, step);
    case Judging(side) => JudgingKeepsInv(s, side);
    case Sending(_) => SideStepKeepsInv(s, e);
    case Logging(_) => SideStepKeepsInv(s, e);
    case Packet(at, datagram, sorted) => PacketKeepsInv(s, at, datagram, sorted);
    case WatchdogTurn(_) => QuietStepKeepsInv(s, e);
    case Stopping => QuietStepKeepsInv(s, e);
  }

  lemma JudgingKeepsComm(lane: Lane, side: Side, core: SnifferState)
    requires LaneInv(lane, side) && lane.handling.Given? && GoodRules(core.rules)
    ensures IsFrame(lane.handling.frame) && |lane.comm.log.callbacks| > 0 && SortedById(core.rules)
    ensures LaneJudge(lane, SourceOf(side), core).comm == lane.comm &&
            LaneJudge(lane, SourceOf(side), core).mark == lane.mark
  {
    hide IsFrame, Judge, SortedById;
  }

  lemma BusStepKeepsInv(s: State, side: Side, e: Comm.Event)
    requires Inv(s) && BusEnabled(LaneOf(s, side), e)
    ensures Inv(Next(s, BusStep(side, e)))
  {
    hide CommInv, LaneInv, GoodRules, BusEnabled, Comm.Next, BridgedIn, ReportsFrom, Images, Reports, SentPart;
    hide LoggedPart;
    BusKeepsComm(LaneOf(s, side), e);
    BusKeepsLane(LaneOf(s, side), side, e);
  }

  // ---- Whole runs ----

  ghost predicate IsRun(s: State, events: seq<Event>)
    decreases events
  {
    events == [] || (Enabled(s, events[0]) && IsRun(Next(s, events[0]), events[1..]))
  }

  ghost function After(s: State, events: seq<Event>): State
    requires IsRun(s, events)
    decreases events
  {
    if events == [] then s else After(Next(s, events[0]), events[1..])
  }

  lemma InitSide(blocks: nat, at: int, side: Side)
    requires blocks >= 2
    ensures SideInv(Init(blocks, at), side)
  {
    Comm.InitInv(blocks, true);
    hide Comm.Inv;
  }

  lemma InitInv(blocks: nat, at: int)
    requires blocks >= 2
    ensures Inv(Init(blocks, at))
  {
    hide SideInv;
    InitSide(blocks, at, FromSystem);
    InitSide(blocks, at, FromComputer);
  }

  lemma {:induction false} RunKeepsInv(s: State, events: seq<Event>)
    requires Inv(s) && IsRun(s, events)
    ensures Inv(After(s, events))
    decreases events
  {
    hide Inv, Enabled, Next;
    if events != [] {
      StepKeepsInv(s, events[0]);
      RunKeepsInv(Next(s, events[0]), events[1..]);
    }
  }

  /** The steps of one bus's own threads in a run. */
  function BusSteps(events: seq<Event>, side: Side): seq<Comm.Event> {
    if events == [] then []
    else (if events[0].BusStep? && events[0].side == side then [events[0].e] else []) + BusSteps(events[1..], side)
  }

  lemma StepOnBus(s: State, e: Event, side: Side)
    requires Enabled(s, e)
    ensures if e.BusStep? && e.side == side
            then Comm.Enabled(LaneOf(s, side).comm, e.e) &&
              LaneOf(Next(s, e), side).comm == Comm.Next(LaneOf(s, side).comm, e.e)
            else LaneOf(Next(s, e), side).comm == LaneOf(s, side).comm
  {
    hide Comm.Next, Comm.Enabled, OnDeliveries, DeliveriesOf, Judge, SendOn, LogFrame, AfterTick, IsFrame;
    hide SortsIn, EntersCallback;
  }

  /** Seen from one bus, a run of the whole is a run of that bus's threads. */
  lemma {:induction false} RunOnBus(s: State, events: seq<Event>, side: Side)
    requires IsRun(s, events)
    ensures Comm.IsRun(LaneOf(s, side).comm, BusSteps(events, side))
    ensures LaneOf(After(s, events), side).comm == Comm.After(LaneOf(s, side).comm, BusSteps(events, side))
    decreases events
  {
    hide Enabled, Next, Comm.Next, Comm.Enabled;
    if events != [] {
      StepOnBus(s, events[0], side);
      RunOnBus(Next(s, events[0]), events[1..], side);
      if events[0].BusStep? && events[0].side == side {
        assert BusSteps(events, side)[1..] == BusSteps(events[1..], side);
      } else {
        assert BusSteps(events, side) == BusSteps(events[1..], side);
      }
    }
  }

  /** The frames a bus delivered during a run. */
  function FramesRead(blocks: nat, events: seq<Event>, side: Side): seq<seq<byte>> {
    Comm.Reads(Comm.Init(blocks, true), BusSteps(events, side))
  }

  /** `judged` judges frames among `frames`, each at most once and in order (`at` tells which), by a plain first-match
      scan of its rules. */
  ghost predicate JudgesInOrder(judged: seq<Judgement>, at: seq<nat>, frames: seq<seq<byte>>, side: Side) {
    && |at| == |judged| && Comm.Increasing(at)
    && forall i :: 0 <= i < |judged| ==>
         && at[i] < |frames| && judged[i].frame == frames[at[i]]
         && IsFrame(judged[i].frame)
         && judged[i].verdict ==
            JudgeByScan(judged[i].rules, if side.FromSystem? then CarSystem else CarComputer, judged[i].frame)
  }

  /** The judgement of a step that judges: by a scan of the table in force when it is taken. */
  ghost function JudgedBy(s: State, e: Event, side: Side): seq<Judgement>
    requires Enabled(s, e)
  {
    if e == Judging(side) && s.core.running then
      var lane := LaneOf(s, side);
      var verdict := JudgeByScan(s.core.rules, SourceOf(side), lane.handling.frame);
      [Judgement(|lane.comm.log.callbacks| - 1, lane.handling.frame, s.core.rules, verdict)]
    else []
  }

  /** All judgements of a run about frames of one side, in order. */
  ghost function JudgedIn(s: State, events: seq<Event>, side: Side): seq<Judgement>
    requires IsRun(s, events)
    decreases events
  {
    if events == [] then []
    else JudgedBy(s, events[0], side) + JudgedIn(Next(s, events[0]), events[1..], side)
  }

  lemma StepJudges(s: State, e: Event, side: Side)
    requires Inv(s) && Enabled(s, e)
    ensures LaneOf(Next(s, e), side).judged == LaneOf(s, side).judged + JudgedBy(s, e, side)
  {
    hide SideInv, GoodRules, BusEnabled, OnDeliveries, DeliveriesOf, Judge, JudgeByScan, SendOn, LogFrame, AfterTick;
    hide IsFrame, SortsIn, EntersCallback, Comm.Next;
    var judged := LaneOf(s, side).judged;
    assert judged + [] == judged;
    if e == Judging(side) {
      IndexedJudgeIsScan(s.core.rules, SourceOf(side), LaneOf(s, side).handling.frame);
    }
  }

  lemma {:induction false} RunJudges(s: State, events: seq<Event>, side: Side)
    requires Inv(s) && IsRun(s, events)
    ensures LaneOf(After(s, events), side).judged == LaneOf(s, side).judged + JudgedIn(s, events, side)
    decreases events
  {
    hide Inv, Enabled, Next, LaneOf, JudgedBy;
    if events != [] {
      StepJudges(s, events[0], side);
      StepKeepsInv(s, events[0]);
      RunJudges(Next(s, events[0]), events[1..], side);
    }
  }

  lemma IndexedJudgeIsScan(rules: seq<CanFilterRule>, source: Source, frame: seq<byte>)
    requires GoodRules(rules) && IsFrame(frame)
    ensures Judge(rules, source, frame) == JudgeByScan(rules, source, frame)
  {
    hide FE.IndexedRules, FirstHit, Scan;
    var end := DATA_AT + frame[4];
    FE.QueryIsLinearScan(rules, MaskedId(U32At(frame, 0)), source, frame[DATA_AT..end]);
  }

  lemma JudgedByScan(lane: Lane, side: Side, j: Judgement)
    requires LaneInv(lane, side) && j in lane.judged
    ensures GoodJudgement(lane, side, j) && j.verdict == JudgeByScan(j.rules, SourceOf(side), j.frame)
  {
    hide GoodRules, IsFrame, Judge, JudgeByScan;
    var k :| 0 <= k < |lane.judged| && lane.judged[k] == j;
    assert GoodJudgement(lane, side, lane.judged[k]);
    IndexedJudgeIsScan(j.rules, SourceOf(side), j.frame);
  }

  /** Which of the frames read each of these judgements was of. */
  lemma JudgementsAreOfFramesRead(lane: Lane, side: Side, judged: seq<Judgement>) returns (at: seq<nat>)
    requires CommInv(lane.comm) && LaneInv(lane, side)
    requires forall i :: 0 <= i < |judged| ==> judged[i] in lane.judged
    requires forall i, j :: 0 <= i < j < |judged| ==> judged[i].name < judged[j].name
    ensures JudgesInOrder(judged, at, lane.comm.log.offered, side)
  {
    hide CommInv, LaneInv, GoodRules, IsFrame, Judge, JudgeByScan, Comm.Increasing;
    var handed := lane.comm.log.handed;
    CallbackOrigins(lane.comm);
    forall i | 0 <= i < |judged|
      ensures GoodJudgement(lane, side, judged[i]) &&
              judged[i].verdict == JudgeByScan(judged[i].rules, SourceOf(side), judged[i].frame)
    {
      JudgedByScan(lane, side, judged[i]);
    }
    OriginsIncrease(handed, judged);
    at := seq(|judged|, i requires 0 <= i < |judged| => handed[judged[i].name]);
  }

  lemma OriginsIncrease(handed: seq<nat>, judged: seq<Judgement>)
    requires Comm.Increasing(handed)
    requires forall i :: 0 <= i < |judged| ==> judged[i].name < |handed|
    requires forall i, j :: 0 <= i < j < |judged| ==> judged[i].name < judged[j].name
    ensures Comm.Increasing(seq(|judged|, i requires 0 <= i < |judged| => handed[judged[i].name]))
  {
  }

  lemma CallbackOrigins(comm: Comm.State)
    requires CommInv(comm)
    ensures |comm.log.callbacks| == |comm.log.handed| && Comm.Increasing(comm.log.handed)
    ensures forall i :: 0 <= i < |comm.log.callbacks| ==>
              comm.log.handed[i] < |comm.log.offered| && comm.log.callbacks[i] == comm.log.offered[comm.log.handed[i]]
  {
    hide Comm.RingInv, Comm.ControlInv, FramesOnly;
  }

  lemma RunFacts(blocks: nat, start: int, events: seq<Event>, side: Side)
    requires blocks >= 2 && IsRun(Init(blocks, start), events)
    ensures var s := After(Init(blocks, start), events);
            && SideInv(s, side)
            && LaneOf(s, side).comm.log.offered + Comm.Pending(LaneOf(s, side).comm.rx) ==
                 FramesRead(blocks, events, side)
  {
    hide SideInv, GoodRules, Comm.Next, Comm.Enabled, Enabled, Next;
    InitInv(blocks, start);
    RunKeepsInv(Init(blocks, start), events);
    RunOnBus(Init(blocks, start), events, side);
    Comm.OfferedAreTheFramesRead(blocks, true, BusSteps(events, side));
  }

  /** What the filter step asks of the state holds whenever a frame waits for it. */
  lemma JudgingIsNeverBlocked(blocks: nat, start: int, events: seq<Event>, side: Side)
    requires blocks >= 2 && IsRun(Init(blocks, start), events)
    ensures var s := After(Init(blocks, start), events);
            LaneOf(s, side).handling.Given? <==> Enabled(s, Judging(side))
  {
    hide Next, CommInv, TraceInv, GoodJudgement, IsFrame, SortedById;
    InitInv(blocks, start);
    RunKeepsInv(Init(blocks, start), events);
    assert SideInv(After(Init(blocks, start), events), side);
  }

  /** No run of the sniffer reaches a table whose counters have wrapped: the index is exact for every id, with no
      assumption on what is sent over the network. */
  lemma ReachableTablesAreExact(blocks: nat, start: int, events: seq<Event>, id: nat)
    requires blocks >= 2 && IsRun(Init(blocks, start), events)
    ensures var rules := After(Init(blocks, start), events).core.rules;
            && SortedById(rules) && |rules| <= 157
            && FE.IndexedRules(rules, id) == Group(rules, id)
  {
    hide Comm.Next, Comm.Enabled, Enabled, Next, SideInv, SortedById, FE.IndexedRules, Group, FE.NumEqual;
    InitInv(blocks, start);
    RunKeepsInv(Init(blocks, start), events);
    FE.IndexIsExactUpTo255(After(Init(blocks, start), events).core.rules, id);
  }

  /** And a table sent by a client arrives, whole and unchanged, exactly when it has at most 157 rules. */
  lemma FiltersArriveExactlyUpTo157(time: Time, rules: seq<CanFilterRule>)
    requires |rules| <= FE.MAX_RULES
    ensures var payload := EncodeRules(rules);
            && DeliveriesOf(EncodeV1(CMD_SET_FILTERS, time, payload)) ==
                 (if |rules| <= 157 then [Command(CMD_SET_FILTERS, time, payload)] else [])
            && DecodeRules(FE.Truncated(payload)) == rules
  {
    hide EncodeV1, EncodeRules, DecodeRules, ProcessPacket, Received;
    RulesRoundTrip(rules);
    MessageArrivesExactlyWhenItFits(CMD_SET_FILTERS, time, EncodeRules(rules));
  }

  /** The judgements at the end of a run, or a later part of them, are of frames read during the run. */
  lemma JudgedWereRead(blocks: nat, start: int, events: seq<Event>, side: Side, from: nat)
    requires blocks >= 2 && IsRun(Init(blocks, start), events)
    requires from <= |LaneOf(After(Init(blocks, start), events), side).judged|
    ensures var judged := LaneOf(After(Init(blocks, start), events), side).judged[from..];
            exists at :: JudgesInOrder(judged, at, FramesRead(blocks, events, side), side)
  {
    hide Enabled, Next, FramesRead, CommInv, GoodJudgement, TraceInv;
    RunFacts(blocks, start, events, side);
    var lane := LaneOf(After(Init(blocks, start), events), side);
    var judged := lane.judged[from..];
    var at := JudgementsAreOfFramesRead(lane, side, judged);
    hide JudgesInOrder, LaneInv;
    JudgesOfPrefix(judged, at, lane.comm.log.offered, Comm.Pending(lane.comm.rx), side);
  }

  /** Over every run, the frames judged are, in order and each at most once, frames read from the bus; the verdict is
      that of a scan of the table in force at the time; and what is bridged onto the bus opposite to `side` are the
      images of those that passed, in order, and nothing else. */
  lemma BridgedFramesAreFilteredFramesRead(blocks: nat, start: int, events: seq<Event>, side: Side)
    requires blocks >= 2 && IsRun(Init(blocks, start), events)
    ensures var s, judged := After(Init(blocks, start), events), JudgedIn(Init(blocks, start), events, side);
            && (exists at :: JudgesInOrder(judged, at, FramesRead(blocks, events, side), side))
            && BridgedIn(if side.FromSystem? then s.core.toComputer else s.core.toSystem) ==
               Images(Passed(SentOf(judged, LaneOf(s, side).handling)))
  {
    hide Enabled, Next, FramesRead, CommInv, LaneInv, LoggedInv, Inv, JudgesInOrder, Passed, Images, BridgedIn;
    RunFacts(blocks, start, events, side);
    InitInv(blocks, start);
    RunJudges(Init(blocks, start), events, side);
    JudgedWereRead(blocks, start, events, side, 0);
    var judged := LaneOf(After(Init(blocks, start), events), side).judged;
    assert judged[0..] == judged == JudgedIn(Init(blocks, start), events, side);
  }

  lemma JudgesOfPrefix(judged: seq<Judgement>, at: seq<nat>, frames: seq<seq<byte>>, more: seq<seq<byte>>, side: Side)
    requires JudgesInOrder(judged, at, frames, side)
    ensures JudgesInOrder(judged, at, frames + more, side)
  {
    hide JudgeByScan, IsFrame;
  }

  // ---- Injections ----

  function InjectedIn(out: seq<Sent>): seq<seq<byte>> {
    if out == [] then []
    else
      var last := out[|out| - 1];
      InjectedIn(out[..|out| - 1]) + (if last.Injected? then [last.frame] else [])
  }

  lemma InjectedAppend(out: seq<Sent>, last: Sent)
    ensures InjectedIn(out + [last]) == InjectedIn(out) + (if last.Injected? then [last.frame] else [])
  {
    assert (out + [last])[..|out|] == out;
  }

  /** The command that injects onto the bus opposite to `side`. */
  function InjectionCommand(side: Side): nat {
    if side.FromSystem? then CMD_CANBUS_TO_CAR else CMD_CANBUS_TO_SYSTEM
  }

  /** The payloads of the commands of one kind among what a packet delivers. */
  function PayloadsIn(deliveries: seq<Delivery>, command: nat): seq<seq<byte>> {
    if deliveries == [] then []
    else
      (if deliveries[0].Command? && deliveries[0].command == command then [deliveries[0].data] else []) +
      PayloadsIn(deliveries[1..], command)
  }

  ghost function PayloadsBy(s: State, e: Event, command: nat): seq<seq<byte>> {
    if e.Packet? && s.core.running then PayloadsIn(DeliveriesOf(e.datagram), command) else []
  }

  /** The payloads of the commands of one kind that a running sniffer receives in a run, in order. */
  ghost function Payloads(s: State, events: seq<Event>, command: nat): seq<seq<byte>>
    requires IsRun(s, events)
    decreases events
  {
    if events == [] then []
    else PayloadsBy(s, events[0], command) + Payloads(Next(s, events[0]), events[1..], command)
  }

  lemma DeliveryInjects(core: SnifferState, at: int, d: Delivery, sorted: seq<CanFilterRule>, side: Side)
    ensures var core' := OnDelivery(core, at, d, sorted);
            && core'.running == core.running
            && InjectedIn(Out(core', side)) == InjectedIn(Out(core, side)) +
                 (if core.running && d.Command? && d.command == InjectionCommand(side) then [d.data] else [])
  {
    if d.Command? {
      InjectedAppend(Out(core, side), Injected(d.data));
    }
    hide InjectedIn;
    assert InjectedIn(Out(core, side)) + [] == InjectedIn(Out(core, side));
  }

  lemma Regroup(a: seq<seq<byte>>, b: seq<seq<byte>>, c: seq<seq<byte>>)
    ensures (a + b) + c == a + (b + c) && a + [] == a
  {
  }

  lemma {:induction false} DeliveriesInject(core: SnifferState, at: int, deliveries: seq<Delivery>,
                                            sorted: seq<CanFilterRule>, side: Side)
    ensures var core' := OnDeliveries(core, at, deliveries, sorted);
            && InjectedIn(Out(core', side)) ==
               InjectedIn(Out(core, side)) +
                   (if core.running then PayloadsIn(deliveries, InjectionCommand(side)) else [])
            && core'.running == core.running
    decreases |deliveries|
  {
    hide InjectedIn, OnDelivery, Out, InjectionCommand;
    if deliveries == [] {
      assert InjectedIn(Out(core, side)) + [] == InjectedIn(Out(core, side));
    } else {
      var d := deliveries[0];
      var first := if d.Command? && d.command == InjectionCommand(side) then [d.data] else [];
      DeliveryInjects(core, at, d, sorted, side);
      DeliveriesInject(OnDelivery(core, at, d, sorted), at, deliveries[1..], sorted, side);
      Regroup(InjectedIn(Out(core, side)), first, PayloadsIn(deliveries[1..], InjectionCommand(side)));
    }
  }

  lemma StepInjects(s: State, e: Event, side: Side)
    requires Enabled(s, e)
    ensures InjectedIn(Out(Next(s, e).core, side)) ==
            InjectedIn(Out(s.core, side)) + PayloadsBy(s, e, InjectionCommand(side))
  {
    hide BusEnabled, CanJudge, LaneBusStep, LaneJudge, OnDeliveries, DeliveriesOf, SortsIn;
    if e.Packet? {
      DeliveriesInject(s.core, e.at, DeliveriesOf(e.datagram), e.sorted, side);
    } else if e.Sending? {
      InjectedAppend(Out(s.core, side), Bridged(LaneOf(s, e.side).handling.verdict.data));
    }
    hide InjectedIn;
  }

  lemma {:induction false} RunInjects(s: State, events: seq<Event>, side: Side)
    requires IsRun(s, events)
    ensures InjectedIn(Out(After(s, events).core, side)) ==
            InjectedIn(Out(s.core, side)) + Payloads(s, events, InjectionCommand(side))
    decreases events
  {
    hide Enabled, Next, InjectedIn, PayloadsBy, Out, InjectionCommand;
    if events != [] {
      StepInjects(s, events[0], side);
      RunInjects(Next(s, events[0]), events[1..], side);
    }
  }

  /** Everything else on a bus is an injection command's payload, in the order the commands came. */
  lemma OtherFramesAreInjections(s: State, events: seq<Event>)
    requires IsRun(s, events)
    ensures InjectedIn(After(s, events).core.toComputer) ==
            InjectedIn(s.core.toComputer) + Payloads(s, events, CMD_CANBUS_TO_CAR)
    ensures InjectedIn(After(s, events).core.toSystem) ==
            InjectedIn(s.core.toSystem) + Payloads(s, events, CMD_CANBUS_TO_SYSTEM)
  {
    hide Enabled, Next, InjectedIn, PayloadsBy;
    RunInjects(s, events, FromSystem);
    RunInjects(s, events, FromComputer);
  }

  // ---- Status replies ----

  function StatusesIn(external: seq<Report>): seq<bool> {
    if external == [] then []
    else
      var last := external[|external| - 1];
      StatusesIn(external[..|external| - 1]) + (if last.StatusReport? then [last.loggingActive] else [])
  }

  /** A heartbeat of at least 32 bytes is answered with what its first byte asks of logging. */
  function Answers(heartbeats: seq<seq<byte>>): seq<bool> {
    if heartbeats == [] then []
    else (if |heartbeats[0]| >= 32 then [heartbeats[0][0] != 0] else []) + Answers(heartbeats[1..])
  }

  lemma StatusAppend(external: seq<Report>, last: Report)
    ensures StatusesIn(external + [last]) ==
            StatusesIn(external) + (if last.StatusReport? then [last.loggingActive] else [])
  {
    assert (external + [last])[..|external|] == external;
  }

  lemma {:induction false} AnswersConcat(a: seq<seq<byte>>, b: seq<seq<byte>>)
    ensures Answers(a + b) == Answers(a) + Answers(b)
  {
    if a == [] {
      assert a + b == b;
    } else {
      AnswersConcat(a[1..], b);
      assert (a + b)[1..] == a[1..] + b;
      var first := if |a[0]| >= 32 then [a[0][0] != 0] else [];
      assert first + (Answers(a[1..]) + Answers(b)) == (first + Answers(a[1..])) + Answers(b);
    }
  }

  lemma DeliveryAnswers(core: SnifferState, at: int, d: Delivery, sorted: seq<CanFilterRule>)
    ensures var core' := OnDelivery(core, at, d, sorted);
            && core'.running == core.running
            && StatusesIn(core'.external) == StatusesIn(core.external) +
                 (if core.running then Answers(PayloadsIn([d], CMD_KEEP_ALIVE_TO_SNIFFER)) else [])
  {
    OneAnswer(d);
    hide Answers, PayloadsIn;
    if d.Command? && |d.data| >= 32 {
      StatusAppend(core.external, StatusReport(d.data[0] != 0));
    }
    hide StatusesIn;
    assert StatusesIn(core.external) + [] == StatusesIn(core.external);
  }

  lemma OneAnswer(d: Delivery)
    ensures Answers(PayloadsIn([d], CMD_KEEP_ALIVE_TO_SNIFFER)) ==
            if d.Command? && d.command == 0x1008 && |d.data| >= 32 then [d.data[0] != 0] else []
  {
    assert [d][1..] == [];
    if d.Command? {
      assert [d.data][1..] == [] && [d.data] + [] == [d.data];
    }
  }

  lemma FirstPayloads(deliveries: seq<Delivery>, command: nat)
    requires deliveries != []
    ensures PayloadsIn(deliveries, command) ==
            PayloadsIn([deliveries[0]], command) + PayloadsIn(deliveries[1..], command)
  {
    assert [deliveries[0]][1..] == [];
  }

  lemma {:induction false} DeliveriesAnswer(core: SnifferState, at: int, deliveries: seq<Delivery>,
                                            sorted: seq<CanFilterRule>)
    ensures var core' := OnDeliveries(core, at, deliveries, sorted);
            && core'.running == core.running
            && StatusesIn(core'.external) == StatusesIn(core.external) +
                 (if core.running then Answers(PayloadsIn(deliveries, CMD_KEEP_ALIVE_TO_SNIFFER)) else [])
    decreases |deliveries|
  {
    hide OnDelivery, StatusesIn, Answers;
    if deliveries != [] {
      DeliveryAnswers(core, at, deliveries[0], sorted);
      DeliveriesAnswer(OnDelivery(core, at, deliveries[0], sorted), at, deliveries[1..], sorted);
      FirstPayloads(deliveries, CMD_KEEP_ALIVE_TO_SNIFFER);
      hide PayloadsIn;
      AnswersConcat(PayloadsIn([deliveries[0]], CMD_KEEP_ALIVE_TO_SNIFFER),
                    PayloadsIn(deliveries[1..], CMD_KEEP_ALIVE_TO_SNIFFER));
    } else {
      NoAnswers(StatusesIn(core.external));
    }
  }

  lemma NoAnswers(statuses: seq<bool>)
    ensures Answers(PayloadsIn([], CMD_KEEP_ALIVE_TO_SNIFFER)) == [] && statuses + [] == statuses
  {
  }

  lemma StepAnswers(s: State, e: Event)
    requires Enabled(s, e)
    ensures StatusesIn(Next(s, e).core.external) ==
            StatusesIn(s.core.external) + Answers(PayloadsBy(s, e, CMD_KEEP_ALIVE_TO_SNIFFER))
  {
    hide BusEnabled, CanJudge, LaneBusStep, LaneJudge, OnDeliveries, DeliveriesOf, SortsIn, PayloadsIn;
    if e.Packet? {
      DeliveriesAnswer(s.core, e.at, DeliveriesOf(e.datagram), e.sorted);
    } else if e.Logging? {
      var verdict := LaneOf(s, e.side).handling.verdict;
      StatusAppend(s.core.external, FrameReport(LogCommand(SourceOf(e.side), verdict.forward), verdict.data));
    }
    hide StatusesIn;
    assert StatusesIn(s.core.external) + [] == StatusesIn(s.core.external);
  }

  /** The status messages to the client are the answers to its heartbeats, one each and in order, and nothing else. */
  lemma {:induction false} StatusesAnswerHeartbeats(s: State, events: seq<Event>)
    requires IsRun(s, events)
    ensures StatusesIn(After(s, events).core.external) ==
            StatusesIn(s.core.external) + Answers(Payloads(s, events, CMD_KEEP_ALIVE_TO_SNIFFER))
    decreases events
  {
    hide Enabled, Next, StatusesIn, PayloadsBy;
    if events == [] {
      assert StatusesIn(s.core.external) + Answers([]) == StatusesIn(s.core.external);
    } else {
      hide Answers;
      StepAnswers(s, events[0]);
      StatusesAnswerHeartbeats(Next(s, events[0]), events[1..]);
      AnswersConcat(PayloadsBy(s, events[0], CMD_KEEP_ALIVE_TO_SNIFFER),
                    Payloads(Next(s, events[0]), events[1..], CMD_KEEP_ALIVE_TO_SNIFFER));
    }
  }

  // ---- The table in force ----

  /** A table after these filter payloads: the last of them sorted, or the table there was before. */
  ghost predicate TableAfter(before: seq<CanFilterRule>, payloads: seq<seq<byte>>, rules: seq<CanFilterRule>) {
    if payloads == [] then rules == before else IsSortOf(rules, DecodeRules(payloads[|payloads| - 1]))
  }

  lemma DeliveryLoads(core: SnifferState, at: int, d: Delivery, sorted: seq<CanFilterRule>)
    requires SortsIn([d], sorted) && (d.Command? ==> |d.data| <= 3944)
    ensures var core' := OnDelivery(core, at, d, sorted);
            && core'.running == core.running
            && TableAfter(core.rules, if core.running then PayloadsIn([d], CMD_SET_FILTERS) else [], core'.rules)
  {
    hide IsSortOf, DecodeRules;
    assert d in [d] && [d][1..] == [];
  }

  lemma {:induction false} DeliveriesLoad(core: SnifferState, at: int, deliveries: seq<Delivery>,
                                          sorted: seq<CanFilterRule>)
    requires SortsIn(deliveries, sorted) && forall d :: d in deliveries && d.Command? ==> |d.data| <= 3944
    ensures var core' := OnDeliveries(core, at, deliveries, sorted);
            && core'.running == core.running
            && TableAfter(core.rules, if core.running then PayloadsIn(deliveries, CMD_SET_FILTERS) else [], core'.rules)
    decreases |deliveries|
  {
    hide OnDelivery, IsSortOf, DecodeRules, SortResult;
    if deliveries != [] {
      DeliveryLoads(core, at, deliveries[0], sorted);
      DeliveriesLoad(OnDelivery(core, at, deliveries[0], sorted), at, deliveries[1..], sorted);
      assert [deliveries[0]][1..] == [];
    }
  }

  lemma StepLoads(s: State, e: Event)
    requires Enabled(s, e)
    ensures TableAfter(s.core.rules, PayloadsBy(s, e, CMD_SET_FILTERS), Next(s, e).core.rules)
  {
    hide BusEnabled, CanJudge, LaneBusStep, LaneJudge, OnDeliveries, DeliveriesOf, SortsIn, IsSortOf, DecodeRules;
    hide PayloadsIn;
    if e.Packet? {
      forall d | d in DeliveriesOf(e.datagram) && d.Command?
        ensures |d.data| <= 3944
      {
        DeliveredFits(e.datagram, d);
      }
      DeliveriesLoad(s.core, e.at, DeliveriesOf(e.datagram), e.sorted);
    }
  }

  /** The table in force is always the last one received, sorted; before any it is empty. */
  lemma {:induction false} TableInForceIsTheLastReceived(s: State, events: seq<Event>)
    requires IsRun(s, events)
    ensures TableAfter(s.core.rules, Payloads(s, events, CMD_SET_FILTERS), After(s, events).core.rules)
    decreases events
  {
    hide Enabled, Next, PayloadsBy, IsSortOf, DecodeRules;
    if events != [] {
      StepLoads(s, events[0]);
      TableInForceIsTheLastReceived(Next(s, events[0]), events[1..]);
    }
  }

  // ---- Logging ----

  function FramesWith(reports: seq<Report>, command: nat): seq<seq<byte>> {
    if reports == [] then []
    else
      var last := reports[|reports| - 1];
      FramesWith(reports[..|reports| - 1], command) +
      (if last.FrameReport? && last.command == command then [last.frame] else [])
  }

  /** The judgements that blocked their frame. */
  function Blocked(judged: seq<Judgement>): seq<Judgement> {
    if judged == [] then []
    else
      var last := judged[|judged| - 1];
      Blocked(judged[..|judged| - 1]) + (if last.verdict.forward then [] else [last])
  }

  lemma {:induction false} FramesOfSide(external: seq<Report>, side: Side, forward: bool)
    ensures FramesWith(ReportsFrom(external, side), LogCommand(SourceOf(side), forward)) ==
            FramesWith(external, LogCommand(SourceOf(side), forward))
  {
    if external != [] {
      var front, last := external[..|external| - 1], external[|external| - 1];
      FramesOfSide(front, side, forward);
      FramesAppend(ReportsFrom(front, side), last, LogCommand(SourceOf(side), forward));
      assert ReportsFrom(front, side) + [] == ReportsFrom(front, side);
    }
  }

  lemma FramesAppend(reports: seq<Report>, last: Report, command: nat)
    ensures FramesWith(reports + [last], command) ==
            FramesWith(reports, command) + (if last.FrameReport? && last.command == command then [last.frame] else [])
  {
    assert (reports + [last])[..|reports|] == reports;
  }

  lemma SnocFacts(front: seq<Judgement>, last: Judgement, side: Side)
    ensures Reports(front + [last], side) == Reports(front, side) + [ReportOf(last, side)]
    ensures Blocked(front + [last]) == Blocked(front) + (if last.verdict.forward then [] else [last])
    ensures LogCommand(SourceOf(side), true) != LogCommand(SourceOf(side), false)
  {
    assert (front + [last])[..|front|] == front;
  }

  lemma {:induction false} FramesOfReports(judged: seq<Judgement>, side: Side)
    ensures FramesWith(Reports(judged, side), LogCommand(SourceOf(side), true)) == Images(Passed(judged))
    ensures FramesWith(Reports(judged, side), LogCommand(SourceOf(side), false)) == Images(Blocked(judged))
  {
    if judged != [] {
      var front, last := judged[..|judged| - 1], judged[|judged| - 1];
      FramesOfReports(front, side);
      assert judged == front + [last];
      hide FramesWith, Reports, Passed, Blocked, Images, LogCommand;
      SnocFacts(front, last, side);
      PassedAppend(front, last);
      FramesAppend(Reports(front, side), ReportOf(last, side), LogCommand(SourceOf(side), true));
      FramesAppend(Reports(front, side), ReportOf(last, side), LogCommand(SourceOf(side), false));
      ImagesAppend(Passed(front), last);
      ImagesAppend(Blocked(front), last);
      assert Passed(front) + [] == Passed(front) && Blocked(front) + [] == Blocked(front);
    }
  }

  lemma {:induction false} PassedConcat(a: seq<Judgement>, b: seq<Judgement>)
    ensures Passed(a + b) == Passed(a) + Passed(b)
  {
    if b == [] {
      assert a + b == a;
    } else {
      PassedConcat(a, b[..|b| - 1]);
      assert (a + b)[..|a + b| - 1] == a + b[..|b| - 1];
    }
  }

  /** Whenever a frame of this side comes to be logged, logging is on. */
  ghost predicate LoggedThroughout(s: State, events: seq<Event>, side: Side)
    requires IsRun(s, events)
    decreases events
  {
    events == [] ||
    ((events[0] == Logging(side) ==> s.core.logging) && LoggedThroughout(Next(s, events[0]), events[1..], side))
  }

  /** The mark moves only when a frame of that bus is judged, sent on and then not logged. */
  lemma MarkMovesOnlyWhenUnlogged(s: State, e: Event, side: Side)
    requires Enabled(s, e)
    ensures LaneOf(Next(s, e), side).mark != LaneOf(s, side).mark ==> e == Logging(side) && !s.core.logging
  {
    hide Comm.Next, Comm.Enabled, OnDeliveries, DeliveriesOf, Judge, SendOn, LogFrame, AfterTick, IsFrame, SortsIn;
    hide EntersCallback;
  }

  lemma {:induction false} DeliveriesReport(core: SnifferState, at: int, deliveries: seq<Delivery>,
                                            sorted: seq<CanFilterRule>)
    ensures core.external <= OnDeliveries(core, at, deliveries, sorted).external
    decreases |deliveries|
  {
    if deliveries != [] {
      DeliveriesReport(OnDelivery(core, at, deliveries[0], sorted), at, deliveries[1..], sorted);
    }
  }

  lemma StepReports(s: State, e: Event)
    requires Enabled(s, e)
    ensures s.core.external <= Next(s, e).core.external
  {
    hide BusEnabled, CanJudge, LaneBusStep, LaneJudge, OnDeliveries, DeliveriesOf, SortsIn;
    if e.Packet? {
      DeliveriesReport(s.core, e.at, DeliveriesOf(e.datagram), e.sorted);
    }
  }

  lemma {:induction false} LoggedRunKeepsMark(s: State, events: seq<Event>, side: Side)
    requires IsRun(s, events) && LoggedThroughout(s, events, side)
    ensures LaneOf(After(s, events), side).mark == LaneOf(s, side).mark
    ensures s.core.external <= After(s, events).core.external
    decreases events
  {
    hide Enabled, Next, LaneOf;
    if events != [] {
      MarkMovesOnlyWhenUnlogged(s, events[0], side);
      StepReports(s, events[0]);
      LoggedRunKeepsMark(Next(s, events[0]), events[1..], side);
    }
  }

  lemma {:induction false} RunsCompose(s: State, first: seq<Event>, second: seq<Event>)
    requires IsRun(s, first) && IsRun(After(s, first), second)
    ensures IsRun(s, first + second) && After(s, first + second) == After(After(s, first), second)
    decreases first
  {
    hide Enabled, Next;
    if first == [] {
      assert first + second == second;
    } else {
      RunsCompose(Next(s, first[0]), first[1..], second);
      assert (first + second)[1..] == first[1..] + second;
    }
  }

  lemma {:induction false} ReportsFromConcat(a: seq<Report>, b: seq<Report>, side: Side)
    ensures ReportsFrom(a + b, side) == ReportsFrom(a, side) + ReportsFrom(b, side)
  {
    if b == [] {
      assert a + b == a;
    } else {
      ReportsFromConcat(a, b[..|b| - 1], side);
      assert (a + b)[..|a + b| - 1] == a + b[..|b| - 1];
    }
  }

  /** Between two moments at which a lane is idle and none of whose frames went unlogged, what was reported about its
      side are the reports of its judgements. */
  lemma ReportsSince(before: Lane, after: Lane, side: Side, external: seq<Report>, log: seq<Report>,
                     judged: seq<Judgement>)
    requires before.handling.Idle? && LoggedInv(before, side, external)
    requires after.handling.Idle? && LoggedInv(after, side, external + log)
    requires after.mark == before.mark && after.judged == before.judged + judged
    ensures ReportsFrom(log, side) == Reports(judged, side)
  {
    hide ReportsFrom, Reports;
    var m := before.mark;
    RestOfConcat(external, log, m.external);
    RestOfConcat(before.judged, judged, m.judged);
    ReportsFromConcat(external[m.external..], log, side);
    ReportsConcat(before.judged[m.judged..], judged, side);
    SameRest(ReportsFrom(external[m.external..], side), ReportsFrom(log, side), Reports(judged, side));
  }

  lemma RestOfConcat<T>(a: seq<T>, b: seq<T>, n: nat)
    requires n <= |a|
    ensures (a + b)[n..] == a[n..] + b
  {
  }

  lemma SameRest(common: seq<Report>, a: seq<Report>, b: seq<Report>)
    requires common + a == common + b
    ensures a == b
  {
    assert (common + a)[|common|..] == a && (common + b)[|common|..] == b;
  }

  lemma ReportsConcat(a: seq<Judgement>, b: seq<Judgement>, side: Side)
    ensures Reports(a + b, side) == Reports(a, side) + Reports(b, side)
  {
  }

  /** What a part of a run judges, bridges and reports, while all frames of the side are logged. */
  lemma LoggedPartOfARun(blocks: nat, start: int, before: seq<Event>, during: seq<Event>, side: Side)
    requires blocks >= 2 && IsRun(Init(blocks, start), before) && IsRun(After(Init(blocks, start), before), during)
    requires var s := After(Init(blocks, start), before);
             && LoggedThroughout(s, during, side)
             && LaneOf(s, side).handling.Idle? && LaneOf(After(s, during), side).handling.Idle?
    ensures var s := After(Init(blocks, start), before);
            var s', judged := After(s, during), JudgedIn(s, during, side);
            && s.core.external <= s'.core.external
            && ReportsFrom(s'.core.external[|s.core.external|..], side) == Reports(judged, side)
            && BridgedIn(Out(s'.core, side)) == BridgedIn(Out(s.core, side)) + Images(Passed(judged))
            && LaneOf(s', side).judged == LaneOf(s, side).judged + judged
            && LaneInv(LaneOf(s', side), side)
  {
    hide Enabled, Next, CommInv, LaneInv, LoggedInv, GoodRules, Passed, Images, BridgedIn, ReportsFrom, Reports;
    var s := After(Init(blocks, start), before);
    var s', judged := After(s, during), JudgedIn(s, during, side);
    InitInv(blocks, start);
    RunKeepsInv(Init(blocks, start), before);
    RunKeepsInv(s, during);
    RunJudges(s, during, side);
    LoggedRunKeepsMark(s, during, side);
    assert SideInv(s, side) && SideInv(s', side);
    var log := s'.core.external[|s.core.external|..];
    assert s'.core.external == s.core.external + log;
    ReportsSince(LaneOf(s, side), LaneOf(s', side), side, s.core.external, log, judged);
    PassedConcat(LaneOf(s, side).judged, judged);
    ImagesConcat(Passed(LaneOf(s, side).judged), Passed(judged));
  }

  /** In any part of a run in which no frame of a side goes unlogged, begun and ended between two frames: the frames
      judged meanwhile are frames read from the bus, in order and each once, under the tables then in force, and each of
      them is reported once, in order. The reports with the side's "forwarded" code carry exactly the frames sent on to
      the other bus meanwhile, those with its "blocked" code exactly the frames that were stopped, as read. */
  lemma LogMirrorsTheBridge(blocks: nat, start: int, before: seq<Event>, during: seq<Event>, side: Side)
    requires blocks >= 2 && IsRun(Init(blocks, start), before) && IsRun(After(Init(blocks, start), before), during)
    requires var s := After(Init(blocks, start), before);
             && LoggedThroughout(s, during, side)
             && LaneOf(s, side).handling.Idle? && LaneOf(After(s, during), side).handling.Idle?
    ensures var s := After(Init(blocks, start), before);
            var s', judged := After(s, during), JudgedIn(s, during, side);
            && (exists at :: JudgesInOrder(judged, at, FramesRead(blocks, before + during, side), side))
            && s.core.external <= s'.core.external
            && var log := s'.core.external[|s.core.external|..];
            && ReportsFrom(log, side) == Reports(judged, side)
            && (side.FromSystem? ==>
                  && BridgedIn(s'.core.toComputer) ==
                     BridgedIn(s.core.toComputer) + FramesWith(log, CMD_CAN_MSG_FROM_SYSTEM)
                  && FramesWith(log, CMD_CAN_MSG_BLOCKED_FROM_SYSTEM) == Images(Blocked(judged)))
            && (side.FromComputer? ==>
                  && BridgedIn(s'.core.toSystem) ==
                     BridgedIn(s.core.toSystem) + FramesWith(log, CMD_CAN_MSG_FROM_COMPUTER)
                  && FramesWith(log, CMD_CAN_MSG_BLOCKED_FROM_COMPUTER) == Images(Blocked(judged)))
            && forall i :: 0 <= i < |judged| && !judged[i].verdict.forward ==> judged[i].verdict.data == judged[i].frame
  {
    hide Enabled, Next, CommInv, LaneInv, JudgesInOrder, FramesRead;
    hide Images, Passed, Blocked, Reports, ReportsFrom, BridgedIn, FramesWith;
    LoggedPartOfARun(blocks, start, before, during, side);
    RunsCompose(Init(blocks, start), before, during);
    var s := After(Init(blocks, start), before);
    var s', judged := After(s, during), JudgedIn(s, during, side);
    var log := s'.core.external[|s.core.external|..];
    JudgedWereRead(blocks, start, before + during, side, |LaneOf(s, side).judged|);
    assert LaneOf(s', side).judged[|LaneOf(s, side).judged|..] == judged;
    FramesOfSide(log, side, true);
    FramesOfSide(log, side, false);
    FramesOfReports(judged, side);
    forall i | 0 <= i < |judged| && !judged[i].verdict.forward
      ensures judged[i].verdict.data == judged[i].frame
    {
      BlockedIsUnchanged(LaneOf(s', side), side, judged[i]);
    }
  }

  lemma StepReportsOnlyLogged(s: State, e: Event, side: Side)
    requires Inv(s) && Enabled(s, e) && !(e == Logging(side) && s.core.logging)
    ensures ReportsFrom(Next(s, e).core.external, side) == ReportsFrom(s.core.external, side)
  {
    hide SideInv, BusEnabled, CanJudge, LaneBusStep, LaneJudge, OnDeliveries, DeliveriesOf, GoodRules, ReportsFrom;
    assert s.core.external[0..] == s.core.external;
    match e
    case Packet(at, datagram, sorted) =>
      forall d | d in DeliveriesOf(datagram) && d.Command?
        ensures |d.data| <= 3944
      {
        DeliveredFits(datagram, d);
      }
      DeliveriesKeepTraces(s.core, at, DeliveriesOf(datagram), sorted);
      assert Next(s, e).core.external[0..] == Next(s, e).core.external;
    case Logging(other) =>
      var verdict := LaneOf(s, other).handling.verdict;
      ReportsAppend(s.core.external, FrameReport(LogCommand(SourceOf(other), verdict.forward), verdict.data), side);
      assert ReportsFrom(s.core.external, side) + [] == ReportsFrom(s.core.external, side);
    case _ =>
  }

  /** No frame of this side comes to be logged while logging is on. */
  ghost predicate NeverLogged(s: State, events: seq<Event>, side: Side)
    requires IsRun(s, events)
    decreases events
  {
    events == [] ||
    (!(events[0] == Logging(side) && s.core.logging) && NeverLogged(Next(s, events[0]), events[1..], side))
  }

  lemma {:induction false} UnloggedRunReports(s: State, events: seq<Event>, side: Side)
    requires Inv(s) && IsRun(s, events) && NeverLogged(s, events, side)
    ensures ReportsFrom(After(s, events).core.external, side) == ReportsFrom(s.core.external, side)
    decreases events
  {
    hide Inv, Enabled, Next, ReportsFrom;
    if events != [] {
      StepReportsOnlyLogged(s, events[0], side);
      StepKeepsInv(s, events[0]);
      UnloggedRunReports(Next(s, events[0]), events[1..], side);
    }
  }

  /** While logging is off, no frame is reported. */
  lemma NothingIsReportedUnlogged(blocks: nat, start: int, before: seq<Event>, during: seq<Event>, side: Side)
    requires blocks >= 2 && IsRun(Init(blocks, start), before) && IsRun(After(Init(blocks, start), before), during)
    requires NeverLogged(After(Init(blocks, start), before), during, side)
    ensures var s := After(Init(blocks, start), before);
            forall command :: (side.FromSystem? && command in {0x2001, 0x2003}) ||
                              (side.FromComputer? && command in {0x2002, 0x2004}) ==>
              FramesWith(After(s, during).core.external, command) == FramesWith(s.core.external, command)
  {
    hide Enabled, Next, ReportsFrom, FramesWith, Inv;
    var s := After(Init(blocks, start), before);
    InitInv(blocks, start);
    RunKeepsInv(Init(blocks, start), before);
    UnloggedRunReports(s, during, side);
    FramesOfSide(s.core.external, side, true);
    FramesOfSide(s.core.external, side, false);
    FramesOfSide(After(s, during).core.external, side, true);
    FramesOfSide(After(s, during).core.external, side, false);
  }

  // ---- No frame given to the callback is left out ----

  /** While the sniffer runs, every callback is judged, the last one maybe not yet. */
  ghost predicate AllJudged(s: State, side: Side) {
    var lane := LaneOf(s, side);
    s.core.running ==>
      && |lane.comm.log.callbacks| == |lane.judged| + (if lane.handling.Given? then 1 else 0)
      && forall i :: 0 <= i < |lane.judged| ==> lane.judged[i].name == i
  }

  lemma BusStepJudgesAll(lane: Lane, side: Side, e: Comm.Event)
    requires CommInv(lane.comm) && LaneInv(lane, side) && BusEnabled(lane, e)
    requires |lane.comm.log.callbacks| == |lane.judged| + (if lane.handling.Given? then 1 else 0)
    ensures var lane' := LaneBusStep(lane, e);
            && |lane'.comm.log.callbacks| == |lane'.judged| + (if lane'.handling.Given? then 1 else 0)
            && lane'.judged == lane.judged
  {
    hide Comm.Next, Comm.Inv, IsFrame, GoodJudgement;
    BusKeepsComm(lane, e);
    Comm.CallbackStep(lane.comm, e);
  }

  lemma OtherStepsJudgeAll(s: State, e: Event, side: Side)
    requires Enabled(s, e) && !e.BusStep? && AllJudged(s, side)
    ensures AllJudged(Next(s, e), side)
  {
    hide BusEnabled, OnDeliveries, DeliveriesOf, SortsIn, Judge, IsFrame, SortedById;
    if e.Packet? {
      DeliveriesInject(s.core, e.at, DeliveriesOf(e.datagram), e.sorted, side);
    }
  }

  lemma BusStepOnLanes(s: State, side: Side, e: Comm.Event, other: Side)
    requires Enabled(s, BusStep(side, e))
    ensures var s' := Next(s, BusStep(side, e));
            && s'.core == s.core
            && LaneOf(s', other) == if other == side then LaneBusStep(LaneOf(s, side), e) else LaneOf(s, other)
  {
    hide LaneBusStep, BusEnabled;
  }

  lemma BusStepKeepsAllJudged(s: State, side: Side, e: Comm.Event, other: Side)
    requires SideInv(s, side) && Enabled(s, BusStep(side, e)) && AllJudged(s, other)
    ensures AllJudged(Next(s, BusStep(side, e)), other)
  {
    hide LaneBusStep, BusEnabled, LaneOf, CommInv, LaneInv, TraceInv, Next;
    BusStepOnLanes(s, side, e, other);
    if s.core.running && other == side {
      BusStepJudgesAll(LaneOf(s, side), side, e);
    }
  }

  lemma StepJudgesAll(s: State, e: Event, side: Side)
    requires Inv(s) && Enabled(s, e) && AllJudged(s, side)
    ensures AllJudged(Next(s, e), side)
  {
    hide AllJudged, Next, Enabled, SideInv;
    if e.BusStep? {
      assert e.side == FromSystem || e.side == FromComputer;
      BusStepKeepsAllJudged(s, e.side, e.e, side);
    } else {
      OtherStepsJudgeAll(s, e, side);
    }
  }

  lemma {:induction false} RunJudgesAll(s: State, events: seq<Event>, side: Side)
    requires Inv(s) && IsRun(s, events) && AllJudged(s, side)
    ensures AllJudged(After(s, events), side)
    decreases events
  {
    hide Inv, Enabled, Next, AllJudged;
    if events != [] {
      StepJudgesAll(s, events[0], side);
      StepKeepsInv(s, events[0]);
      RunJudgesAll(Next(s, events[0]), events[1..], side);
    }
  }

  /** In a run that has not been stopped the frames judged are exactly the frames given to the callback, in order, save
      the one it may just have been given. */
  lemma EveryCallbackIsJudged(blocks: nat, start: int, events: seq<Event>, side: Side)
    requires blocks >= 2 && IsRun(Init(blocks, start), events) && After(Init(blocks, start), events).core.running
    ensures var lane := LaneOf(After(Init(blocks, start), events), side);
            var judged, callbacks := JudgedIn(Init(blocks, start), events, side), lane.comm.log.callbacks;
            && |callbacks| == |judged| + (if lane.handling.Given? then 1 else 0)
            && forall i :: 0 <= i < |judged| ==> judged[i].frame == callbacks[i]
  {
    hide Enabled, Next, CommInv, TraceInv, IsFrame, GoodRules, Judge;
    var init := Init(blocks, start);
    InitInv(blocks, start);
    RunJudgesAll(init, events, side);
    RunJudges(init, events, side);
    RunKeepsInv(init, events);
    assert SideInv(After(init, events), side);
    var lane := LaneOf(After(init, events), side);
    forall i | 0 <= i < |lane.judged|
      ensures lane.judged[i].frame == lane.comm.log.callbacks[i]
    {
      assert GoodJudgement(lane, side, lane.judged[i]);
    }
  }

  /** Undisturbed, the three steps a frame is handled in are the sniffer's handler. */
  lemma HandlingSteps(s: State, side: Side, now: int)
    requires Inv(s) && Enabled(s, Judging(side))
    ensures var judged := Next(s, Judging(side));
            var frame := LaneOf(s, side).handling.frame;
            IsFrame(frame) && SortedById(s.core.rules) &&
            if !s.core.running then
              LaneOf(judged, side).handling.Idle? && judged.core == AfterCanData(s.core, now, SourceOf(side), frame)
            else
              && Enabled(judged, Sending(side)) && Enabled(Next(judged, Sending(side)), Logging(side))
              && var logged := Next(Next(judged, Sending(side)), Logging(side));
              && LaneOf(logged, side).handling.Idle?
              && logged.core == AfterCanData(s.core, now, SourceOf(side), frame)
  {
    hide SideInv, IsFrame, SortedById, Judge, BusEnabled, SortsIn, SendOn, LogFrame;
  }

  lemma ImagesConcat(a: seq<Judgement>, b: seq<Judgement>)
    ensures Images(a + b) == Images(a) + Images(b)
  {
  }

  lemma BlockedIsUnchanged(lane: Lane, side: Side, j: Judgement)
    requires LaneInv(lane, side) && j in lane.judged
    ensures !j.verdict.forward ==> j.verdict.data == j.frame
  {
    hide Judge, IsFrame;
    var k :| 0 <= k < |lane.judged| && lane.judged[k] == j;
    assert GoodJudgement(lane, side, lane.judged[k]);
    JudgeChangesDataOnly(j.rules, SourceOf(side), j.frame);
  }

  // ---- After the end ----

  lemma {:induction false} StoppedIgnoresDeliveries(core: SnifferState, at: int, deliveries: seq<Delivery>,
                                                    sorted: seq<CanFilterRule>)
    requires !core.running
    ensures var core' := OnDeliveries(core, at, deliveries, sorted);
            core' == core.(lastExternal := core'.lastExternal)
    decreases |deliveries|
  {
    if deliveries != [] {
      StoppedIgnoresDeliveries(OnDelivery(core, at, deliveries[0], sorted), at, deliveries[1..], sorted);
    }
  }

  /** What a stopped sniffer no longer changes: its table, what was judged, what was injected. */
  ghost predicate SameWork(s: State, s': State, side: Side) {
    && !s'.core.running
    && s'.core.rules == s.core.rules
    && LaneOf(s', side).judged == LaneOf(s, side).judged
    && InjectedIn(Out(s'.core, side)) == InjectedIn(Out(s.core, side))
    && (s'.core.logging ==> s.core.logging)
  }

  lemma StoppedLaneStep(s: State, e: Event, side: Side)
    requires Enabled(s, e) && !s.core.running && (e.Judging? || e.Sending? || e.Logging?)
    ensures SameWork(s, Next(s, e), side)
  {
    hide IsFrame, SortedById, Judge, BusEnabled, SortsIn, LaneBusStep, OnDeliveries, AfterTick, LogCommand;
    if e.Sending? {
      InjectedAppend(Out(s.core, side), Bridged(LaneOf(s, e.side).handling.verdict.data));
    }
    hide InjectedIn;
  }

  lemma StoppedStep(s: State, e: Event, side: Side)
    requires Enabled(s, e) && !s.core.running
    ensures SameWork(s, Next(s, e), side)
  {
    hide BusEnabled, IsFrame, SortedById, OnDeliveries, DeliveriesOf, SortsIn, InjectedIn;
    if e.Judging? || e.Sending? || e.Logging? {
      StoppedLaneStep(s, e, side);
      hide Next, SameWork;
    } else {
      if e.Packet? {
        StoppedIgnoresDeliveries(s.core, e.at, DeliveriesOf(e.datagram), e.sorted);
      }
      hide Comm.Next;
    }
  }

  lemma {:induction false} StoppedRun(s: State, events: seq<Event>, side: Side)
    requires IsRun(s, events) && !s.core.running
    ensures SameWork(s, After(s, events), side)
    decreases events
  {
    hide Enabled, Next, InjectedIn, Out, LaneOf;
    if events != [] {
      StoppedStep(s, events[0], side);
      StoppedRun(Next(s, events[0]), events[1..], side);
    }
  }

  /** Once stopping has begun, whatever still arrives, no frame is judged, no table loaded, nothing injected and logging
      not switched on; a frame judged before may still be sent and logged. */
  lemma NothingBeginsAfterStopping(s: State, events: seq<Event>, side: Side)
    requires IsRun(s, events) && events != [] && events[0].Stopping?
    ensures SameWork(s, After(s, events), side)
  {
    hide BusEnabled, InjectedIn;
    StoppedRun(Next(s, Stopping), events[1..], side);
  }
}
