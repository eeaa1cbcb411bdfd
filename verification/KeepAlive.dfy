/** The heartbeat of the client against the sniffer's watchdog, over a network that delays and loses messages. */
module KeepAlive {
  import opened Bytes
  import opened CanbusProtocol
  import opened SnifferClient
  import opened Wrappers
  import S = Sniffer
  import B = Bridge

  /** Times in milliseconds. */
  datatype Network = Network(
    interval: nat,      // the client's keep-alive interval
    overshoot: nat,     // how much longer than asked a sleep may take
    delay: nat,         // the least transit time of a message
    jitter: nat,        // how much longer it may take, its handling included
    losses: nat,        // how many messages in a row may be lost
    largest: nat)       // how large the payload of a user's command may be

  /** What a message may carry to get through the sniffer's receive path. */
  const MAX_PAYLOAD: nat := UDP_FRAME_SIZE - HEADER_SIZE

  datatype Message = Message(sent: int, arrived: bool)

  datatype State = State(
    now: int,
    lastSent: int,
    wake: int,                  // when the keep-alive loop's sleep ends
    sends: seq<int>,            // the times at which the client sent anything
    carried: seq<Message>,      // the messages that were not lost
    lost: nat,                  // messages lost since the last of those
    connected: bool,
    lastMessage: int,           // at first the start of the sniffer
    noted: Option<nat>,         // the message whose arrival has set `connected` and not yet `lastMessage`
    heard: bool,                // some message has set both
    fired: bool,                // the watchdog has timed out on a client it had heard from
    raced: nat)                 // how often it timed out before it had

  datatype Event =
    | LoopTurn(isLost: bool, extra: nat)
    | UserSends(isLost: bool, size: nat)
    | TimePasses(duration: nat)
    | Notes(which: nat)           // the handler notes the connection
    | Stamps                      // and then the time
    | WatchdogLooks

  /** The client starts; nothing has been sent for at least an interval. */
  ghost predicate IsInit(net: Network, s: State) {
    && s.wake == s.now && s.lastSent + net.interval <= s.now
    && s.sends == [] && s.carried == [] && s.lost == 0
    && !s.connected && s.lastMessage <= s.now && s.noted.None? && !s.heard && !s.fired && s.raced == 0
  }

  function Gap(net: Network): nat {
    net.interval + net.overshoot
  }

  /** No timer and no message is overdue. */
  ghost predicate MayWaitUntil(net: Network, s: State, time: int) {
    && time <= s.wake
    && forall i :: 0 <= i < |s.carried| && !s.carried[i].arrived ==> time <= s.carried[i].sent + net.delay + net.jitter
  }

  ghost predicate Enabled(net: Network, s: State, e: Event) {
    match e
    case LoopTurn(isLost, extra) =>
      s.now == s.wake && s.lastSent <= s.now && extra <= net.overshoot && (isLost ==> s.lost < net.losses)
    case UserSends(isLost, size) => size <= net.largest && (isLost ==> s.lost < net.losses)
    case TimePasses(duration) => MayWaitUntil(net, s, s.now + duration)
    case Notes(which) =>
      && s.noted.None? && which < |s.carried| && !s.carried[which].arrived
      && s.carried[which].sent + net.delay <= s.now
    case Stamps => s.noted.Some?
    case WatchdogLooks => true
  }

  function Send(s: State, isLost: bool): State {
    var s' := s.(lastSent := s.now, sends := s.sends + [s.now]);
    if isLost then s'.(lost := s.lost + 1) else s'.(lost := 0, carried := s.carried + [Message(s.now, false)])
  }

  /** A command whose payload is too large is sent, but the sniffer drops it whole. */
  function SendCommand(s: State, isLost: bool, size: nat): State {
    if size <= MAX_PAYLOAD then Send(s, isLost) else s.(lastSent := s.now, sends := s.sends + [s.now])
  }

  function Next(net: Network, s: State, e: Event): State {
    match e
    case LoopTurn(isLost, extra) =>
      if s.now < s.lastSent then s
      else
        var (sends, sleep) := KeepAliveTurn(net.interval, s.now - s.lastSent);
        (if sends then Send(s, isLost) else s).(wake := s.now + sleep + extra)
    case UserSends(isLost, size) => SendCommand(s, isLost, size)
    case TimePasses(duration) => s.(now := s.now + duration)
    case Notes(which) => s.(noted := Some(which), connected := true)
    case Stamps =>
      if s.noted.None? || s.noted.value >= |s.carried| then s
      else
        var which := s.noted.value;
        s.(carried := s.carried[which := s.carried[which].(arrived := true)],
           noted := None, lastMessage := s.now, heard := true)
    case WatchdogLooks =>
      if !TimesOut(s) then s
      else if s.heard then s.(connected := false, fired := true)
      else s.(connected := false, raced := s.raced + 1)
  }

  predicate TimesOut(s: State) {
    s.connected && s.now - s.lastMessage > S.TIMEOUT_MS
  }

  ghost predicate IsRun(net: Network, s: State, events: seq<Event>)
    decreases events
  {
    events == [] || (Enabled(net, s, events[0]) && IsRun(net, Next(net, s, events[0]), events[1..]))
  }

  function After(net: Network, s: State, events: seq<Event>): State
    decreases events
  {
    if events == [] then s else After(net, Next(net, s, events[0]), events[1..])
  }

  /** A message gets through exactly when its payload is no larger than that. */
  lemma ArrivesExactlyUpTo(command: U32, time: Time, payload: seq<byte>)
    requires |payload| <= MAX_DATA
    ensures B.DeliveriesOf(EncodeV1(command, time, payload)) != [] <==> |payload| <= MAX_PAYLOAD
  {
    hide EncodeV1, ProcessPacket, Received;
    MessageArrivesExactlyWhenItFits(command, time, payload);
  }

  // ---- Invariant ----

  function Times(n: nat, unit: nat): (t: nat) {
    if n == 0 then 0 else Times(n - 1, unit) + unit
  }

  lemma {:induction false} TimesIsProduct(n: nat, unit: nat)
    ensures Times(n, unit) == n * unit
  {
    if n > 0 {
      TimesIsProduct(n - 1, unit);
    }
  }

  lemma {:induction false} TimesMonotone(m: nat, n: nat, unit: nat)
    requires m <= n
    ensures Times(m, unit) <= Times(n, unit)
  {
    if m < n {
      TimesMonotone(m, n - 1, unit);
    }
  }

  ghost predicate ClientInv(net: Network, s: State) {
    && s.lastSent <= s.now <= s.wake
    && (s.sends == [] ==> s.wake == s.now && s.carried == [] && s.lastSent + net.interval <= s.now)
    && (s.sends != [] ==> s.lastSent == s.sends[|s.sends| - 1] && s.wake <= s.lastSent + Gap(net))
    && (forall i :: 0 < i < |s.sends| ==> s.sends[i - 1] <= s.sends[i] <= s.sends[i - 1] + Gap(net))
  }

  /** How far apart the messages that were not lost were sent. */
  ghost predicate SpacingInv(net: Network, s: State) {
    && s.lost <= net.losses
    && (s.carried != [] ==> s.lastSent <= s.carried[|s.carried| - 1].sent + Times(s.lost, Gap(net)))
    && (forall i :: 0 < i < |s.carried| ==>
         s.carried[i].sent <= s.carried[i - 1].sent + Times(net.losses + 1, Gap(net)))
  }

  /** When messages arrive. */
  ghost predicate TransitInv(net: Network, s: State) {
    && (forall i :: 0 <= i < |s.carried| ==> s.carried[i].sent <= s.now)
    && (forall i :: 0 <= i < |s.carried| && s.carried[i].arrived ==> s.carried[i].sent + net.delay <= s.lastMessage)
    && (forall i :: 0 <= i < |s.carried| && !s.carried[i].arrived ==>
         s.now <= s.carried[i].sent + net.delay + net.jitter)
    && (s.heard ==> exists i :: 0 <= i < |s.carried| && s.carried[i].arrived)
    && s.lastMessage <= s.now
  }

  ghost predicate ChannelInv(net: Network, s: State) {
    SpacingInv(net, s) && TransitInv(net, s)
  }

  /** Before the first message has noted its time, a connection is that message's; it can be given up only once. */
  ghost predicate HandlerInv(net: Network, s: State) {
    && (s.connected ==> s.heard || s.noted.Some?)
    && (s.noted.Some? ==>
          && s.noted.value < |s.carried| && !s.carried[s.noted.value].arrived
          && s.carried[s.noted.value].sent + net.delay <= s.now)
    && (s.raced > 0 ==> s.raced == 1 && (s.heard || (s.noted.Some? && !s.connected)))
  }

  ghost predicate Inv(net: Network, s: State) {
    ClientInv(net, s) && ChannelInv(net, s) && HandlerInv(net, s)
  }

  lemma LosingKeepsChannel(net: Network, s: State)
    requires ClientInv(net, s) && ChannelInv(net, s) && s.lost < net.losses
    ensures ChannelInv(net, Send(s, true))
  {
    assert s.sends == [] ==> s.carried == [];
    assert Times(s.lost + 1, Gap(net)) == Times(s.lost, Gap(net)) + Gap(net);
    hide Times, Gap;
  }

  lemma CarryingKeepsChannel(net: Network, s: State)
    requires ClientInv(net, s) && ChannelInv(net, s)
    ensures ChannelInv(net, Send(s, false))
  {
    CarryingKeepsSpacing(net, s);
    CarryingKeepsTransit(net, s);
    hide SpacingInv, TransitInv, Send;
  }

  lemma CarryingKeepsSpacing(net: Network, s: State)
    requires ClientInv(net, s) && SpacingInv(net, s)
    ensures SpacingInv(net, Send(s, false))
  {
    assert s.sends == [] ==> s.carried == [];
    assert Times(s.lost + 1, Gap(net)) == Times(s.lost, Gap(net)) + Gap(net);
    assert Times(0, Gap(net)) == 0;
    TimesMonotone(s.lost + 1, net.losses + 1, Gap(net));
    hide Times, Gap;
  }

  lemma CarryingKeepsTransit(net: Network, s: State)
    requires TransitInv(net, s)
    ensures TransitInv(net, Send(s, false))
  {
    if s.heard {
      var i :| 0 <= i < |s.carried| && s.carried[i].arrived;
      assert Send(s, false).carried[i].arrived;
    }
  }

  /** All that the client's bounds need to know of a send. */
  lemma SendKeepsClient(net: Network, s: State, s': State)
    requires ClientInv(net, s) && s'.now == s'.lastSent == s.now && s'.sends == s.sends + [s.now]
    requires s.now <= s'.wake <= s.now + Gap(net)
    ensures ClientInv(net, s')
  {
    hide Gap;
  }

  lemma SendKeepsChannel(net: Network, s: State, isLost: bool)
    requires ClientInv(net, s) && ChannelInv(net, s) && (isLost ==> s.lost < net.losses)
    ensures ChannelInv(net, Send(s, isLost))
  {
    hide ClientInv, ChannelInv, Send;
    if isLost {
      LosingKeepsChannel(net, s);
    } else {
      CarryingKeepsChannel(net, s);
    }
  }

  lemma TurnKeepsChannel(net: Network, s: State, isLost: bool, extra: nat)
    requires ClientInv(net, s) && ChannelInv(net, s) && Enabled(net, s, LoopTurn(isLost, extra))
    ensures ChannelInv(net, Next(net, s, LoopTurn(isLost, extra)))
  {
    hide ClientInv, ChannelInv;
    var (sends, sleep) := KeepAliveTurn(net.interval, s.now - s.lastSent);
    if sends {
      SendKeepsChannel(net, s, isLost);
      ChannelIgnoresWake(net, Send(s, isLost), s.now + sleep + extra);
    } else {
      ChannelIgnoresWake(net, s, s.now + sleep + extra);
    }
  }

  lemma ChannelIgnoresWake(net: Network, s: State, wake: int)
    requires ChannelInv(net, s)
    ensures ChannelInv(net, s.(wake := wake))
  {
    hide Times, Gap;
  }

  lemma StampKeepsChannel(net: Network, s: State)
    requires ChannelInv(net, s) && HandlerInv(net, s) && s.noted.Some?
    ensures ChannelInv(net, Next(net, s, Stamps))
  {
    hide Gap, Times;
    assert Next(net, s, Stamps).carried[s.noted.value].arrived;
  }

  lemma QuietStepKeepsChannel(net: Network, s: State, e: Event)
    requires ChannelInv(net, s) && Enabled(net, s, e) && (e.TimePasses? || e.WatchdogLooks? || e.Notes?)
    ensures ChannelInv(net, Next(net, s, e))
  {
    hide Times, Gap;
  }

  lemma StepKeepsChannel(net: Network, s: State, e: Event)
    requires Inv(net, s) && Enabled(net, s, e) && net.largest <= MAX_PAYLOAD
    ensures ChannelInv(net, Next(net, s, e))
  {
    hide ClientInv, ChannelInv, HandlerInv;
    match e
    case LoopTurn(isLost, extra) => TurnKeepsChannel(net, s, isLost, extra);
    case UserSends(isLost, size) => SendKeepsChannel(net, s, isLost);
    case Stamps => StampKeepsChannel(net, s);
    case _ => QuietStepKeepsChannel(net, s, e);
  }

  lemma StepKeepsHandler(net: Network, s: State, e: Event)
    requires HandlerInv(net, s) && Enabled(net, s, e)
    ensures HandlerInv(net, Next(net, s, e))
  {
    hide MayWaitUntil;
  }

  lemma StepKeepsInv(net: Network, s: State, e: Event)
    requires Inv(net, s) && Enabled(net, s, e) && net.largest <= MAX_PAYLOAD
    ensures Inv(net, Next(net, s, e))
  {
    StepKeepsChannel(net, s, e);
    hide ChannelInv, Enabled, Next;
    StepKeepsHandler(net, s, e);
    StepKeepsClient(net, s, e);
    hide ClientInv, HandlerInv;
  }

  lemma CommandKeepsClient(net: Network, s: State, isLost: bool, size: nat)
    requires ClientInv(net, s)
    ensures ClientInv(net, SendCommand(s, isLost, size))
  {
    WakesWithinGap(net, s);
    hide ClientInv, Gap;
    SendKeepsClient(net, s, SendCommand(s, isLost, size));
  }

  lemma WakesWithinGap(net: Network, s: State)
    requires ClientInv(net, s)
    ensures s.now <= s.wake <= s.now + Gap(net)
  {
    hide Gap;
  }

  lemma TurnKeepsClient(net: Network, s: State, isLost: bool, extra: nat)
    requires ClientInv(net, s) && Enabled(net, s, LoopTurn(isLost, extra))
    ensures ClientInv(net, Next(net, s, LoopTurn(isLost, extra)))
  {
    var (sends, sleep) := KeepAliveTurn(net.interval, s.now - s.lastSent);
    if sends {
      hide ClientInv;
      SendKeepsClient(net, s, Next(net, s, LoopTurn(isLost, extra)));
    }
  }

  /** The client's own bounds hold whatever becomes of its messages. */
  lemma StepKeepsClient(net: Network, s: State, e: Event)
    requires ClientInv(net, s) && Enabled(net, s, e)
    ensures ClientInv(net, Next(net, s, e))
  {
    match e
    case LoopTurn(isLost, extra) =>
      hide ClientInv;
      TurnKeepsClient(net, s, isLost, extra);
    case UserSends(isLost, size) =>
      hide ClientInv;
      CommandKeepsClient(net, s, isLost, size);
    case _ =>
      hide Gap;
  }

  lemma {:induction false} RunKeepsClient(net: Network, s: State, events: seq<Event>)
    requires ClientInv(net, s) && IsRun(net, s, events)
    ensures ClientInv(net, After(net, s, events))
    decreases events
  {
    hide ClientInv, Enabled, Next;
    if events != [] {
      StepKeepsClient(net, s, events[0]);
      RunKeepsClient(net, Next(net, s, events[0]), events[1..]);
    }
  }

  lemma {:induction false} RunKeepsInv(net: Network, s: State, events: seq<Event>)
    requires Inv(net, s) && IsRun(net, s, events) && net.largest <= MAX_PAYLOAD
    ensures Inv(net, After(net, s, events))
    decreases events
  {
    hide Inv, Enabled, Next;
    if events != [] {
      StepKeepsInv(net, s, events[0]);
      RunKeepsInv(net, Next(net, s, events[0]), events[1..]);
    }
  }

  /** Whatever else the user sends in between, the client is never silent for longer than an interval and one
      overshoot. */
  lemma ClientIsNeverSilentForLong(net: Network, s: State, events: seq<Event>)
    requires IsInit(net, s) && IsRun(net, s, events)
    ensures var s' := After(net, s, events);
            && (forall i :: 0 < i < |s'.sends| ==> s'.sends[i] - s'.sends[i - 1] <= Gap(net))
            && (s'.sends != [] ==> s'.now - s'.sends[|s'.sends| - 1] <= Gap(net))
  {
    RunKeepsClient(net, s, events);
  }

  ghost predicate Spaced(net: Network, s: State) {
    && (forall i :: 0 < i < |s.sends| ==> s.sends[i] >= s.sends[i - 1] + net.interval)
    && (s.sends != [] ==> s.lastSent == s.sends[|s.sends| - 1])
  }

  /** Left alone, the client does not send more often than its interval says. */
  lemma {:induction false} HeartbeatsAreSpaced(net: Network, s: State, events: seq<Event>)
    requires Spaced(net, s) && IsRun(net, s, events)
    requires forall i :: 0 <= i < |events| ==> !events[i].UserSends?
    ensures Spaced(net, After(net, s, events))
    decreases events
  {
    if events != [] {
      StepKeepsSpaced(net, s, events[0]);
      hide Spaced, Enabled, Next;
      HeartbeatsAreSpaced(net, Next(net, s, events[0]), events[1..]);
    }
  }

  lemma StepKeepsSpaced(net: Network, s: State, e: Event)
    requires Spaced(net, s) && Enabled(net, s, e) && !e.UserSends?
    ensures Spaced(net, Next(net, s, e))
  {
    hide MayWaitUntil;
  }

  /** A message that arrived and after which the next one carried, if any, has not. */
  lemma {:induction false} LastArrival(carried: seq<Message>, i: nat) returns (last: nat)
    requires i < |carried| && carried[i].arrived
    ensures i <= last < |carried| && carried[last].arrived && (last + 1 < |carried| ==> !carried[last + 1].arrived)
    decreases |carried| - i
  {
    if i + 1 < |carried| && carried[i + 1].arrived {
      last := LastArrival(carried, i + 1);
    } else {
      last := i;
    }
  }

  lemma BoundedSilence(net: Network, s: State)
    requires Inv(net, s) && s.heard
    ensures s.now - s.lastMessage <= Times(net.losses + 1, Gap(net)) + net.jitter
  {
    var i :| 0 <= i < |s.carried| && s.carried[i].arrived;
    var last := LastArrival(s.carried, i);
    TimesMonotone(s.lost + 1, net.losses + 1, Gap(net));
    if last + 1 < |s.carried| {
      assert s.carried[last + 1].sent <= s.carried[last].sent + Times(net.losses + 1, Gap(net));
    }
  }

  /** So a sniffer that has heard from its client goes on hearing from it within this time, if no command is too large
      for it. */
  lemma SilenceIsBounded(net: Network, s: State, events: seq<Event>)
    requires IsInit(net, s) && IsRun(net, s, events) && net.largest <= MAX_PAYLOAD
    ensures var s' := After(net, s, events);
            s'.heard ==> s'.now - s'.lastMessage <= (net.losses + 1) * Gap(net) + net.jitter
  {
    hide Enabled, Next;
    RunKeepsInv(net, s, events);
    if After(net, s, events).heard {
      hide Inv;
      BoundedSilence(net, After(net, s, events));
      TimesIsProduct(net.losses + 1, Gap(net));
    }
  }

  lemma {:induction false} NeverFires(net: Network, s: State, events: seq<Event>)
    requires Inv(net, s) && !s.fired && IsRun(net, s, events) && net.largest <= MAX_PAYLOAD
    requires Times(net.losses + 1, Gap(net)) + net.jitter <= S.TIMEOUT_MS
    ensures !After(net, s, events).fired
    decreases events
  {
    if events != [] {
      hide Inv, Enabled;
      if s.heard {
        BoundedSilence(net, s);
      }
      StepKeepsInv(net, s, events[0]);
      NeverFires(net, Next(net, s, events[0]), events[1..]);
    }
  }

  /** Where the watchdog can still time out: between the two steps of the first message, and there only once. */
  lemma FalseAlarmsAreAtTheFirstMessage(net: Network, s: State, events: seq<Event>)
    requires IsInit(net, s) && IsRun(net, s, events) && net.largest <= MAX_PAYLOAD
    requires (net.losses + 1) * Gap(net) + net.jitter <= S.TIMEOUT_MS
    ensures var s' := After(net, s, events);
            && (TimesOut(s') ==>
                  s'.noted.Some? && s'.raced == 0 &&
                  forall i :: 0 <= i < |s'.carried| ==> !s'.carried[i].arrived)
            && s'.raced <= 1
  {
    hide Enabled, Next;
    InitInv(net, s);
    RunKeepsInv(net, s, events);
    SilenceIsBounded(net, s, events);
    hide Gap;
    var s' := After(net, s, events);
    if TimesOut(s') {
      NothingHeard(net, s, events);
    }
  }

  lemma {:induction false} NothingHeard(net: Network, s: State, events: seq<Event>)
    requires IsRun(net, s, events) && !After(net, s, events).heard
    requires forall i :: 0 <= i < |s.carried| ==> !s.carried[i].arrived
    ensures var s' := After(net, s, events); !s.heard && forall i :: 0 <= i < |s'.carried| ==> !s'.carried[i].arrived
    decreases events
  {
    if events != [] {
      if (exists i :: 0 <= i < |Next(net, s, events[0]).carried| && Next(net, s, events[0]).carried[i].arrived) ||
         Next(net, s, events[0]).heard {
        StaysHeard(net, Next(net, s, events[0]), events[1..]);
      }
      hide Enabled;
      NothingHeard(net, Next(net, s, events[0]), events[1..]);
    }
  }

  lemma {:induction false} StaysHeard(net: Network, s: State, events: seq<Event>)
    requires s.heard
    ensures After(net, s, events).heard
    decreases events
  {
    if events != [] {
      StaysHeard(net, Next(net, s, events[0]), events[1..]);
    }
  }

  // ---- The bound is exact ----

  ghost predicate Reaches(net: Network, s: State, s': State) {
    exists events :: IsRun(net, s, events) && After(net, s, events) == s'
  }

  lemma StepReaches(net: Network, s: State, e: Event)
    requires Enabled(net, s, e)
    ensures Reaches(net, s, Next(net, s, e))
  {
    hide Enabled, Next;
    assert [e][1..] == [];
    assert IsRun(net, s, [e]) && After(net, s, [e]) == Next(net, s, e);
  }

  lemma {:induction false} RunsCompose(net: Network, s: State, first: seq<Event>, second: seq<Event>)
    requires IsRun(net, s, first) && IsRun(net, After(net, s, first), second)
    ensures IsRun(net, s, first + second) && After(net, s, first + second) == After(net, After(net, s, first), second)
    decreases first
  {
    hide Enabled, Next;
    if first == [] {
      assert first + second == second;
    } else {
      RunsCompose(net, Next(net, s, first[0]), first[1..], second);
      assert (first + second)[1..] == first[1..] + second;
    }
  }

  lemma ReachesTransitive(net: Network, a: State, b: State, c: State)
    requires Reaches(net, a, b) && Reaches(net, b, c)
    ensures Reaches(net, a, c)
  {
    var first :| IsRun(net, a, first) && After(net, a, first) == b;
    var second :| IsRun(net, b, second) && After(net, b, second) == c;
    RunsCompose(net, a, first, second);
  }

  /** Wait for the loop's timer, then take its turn. */
  lemma WaitAndTurn(net: Network, s: State, isLost: bool) returns (s': State)
    requires s.now == s.lastSent && s.wake == s.now + Gap(net)
    requires MayWaitUntil(net, s, s.wake) && (isLost ==> s.lost < net.losses)
    ensures Reaches(net, s, s')
    ensures s' == Send(s.(now := s.wake), isLost).(wake := s.wake + Gap(net))
  {
    var waited := Next(net, s, TimePasses(Gap(net)));
    StepReaches(net, s, TimePasses(Gap(net)));
    StepReaches(net, waited, LoopTurn(isLost, net.overshoot));
    s' := Next(net, waited, LoopTurn(isLost, net.overshoot));
    ReachesTransitive(net, s, waited, s');
  }

  /** The first message arrives at once and the next `n` are lost. */
  lemma {:induction false} LoseSome(net: Network, s: State, n: nat) returns (s': State)
    requires s.now == s.lastSent && s.wake == s.now + Gap(net)
    requires s.lost + n <= net.losses && s.carried == [Message(0, true)]
    ensures Reaches(net, s, s')
    ensures s'.now == s'.lastSent == s.now + Times(n, Gap(net)) && s'.wake == s'.now + Gap(net)
    ensures s'.carried == s.carried && s'.lost == s.lost + n
    ensures s'.connected == s.connected && s'.lastMessage == s.lastMessage && s'.heard == s.heard
  {
    if n == 0 {
      s' := s;
      assert IsRun(net, s, []) && After(net, s, []) == s;
    } else {
      var middle := LoseSome(net, s, n - 1);
      s' := WaitAndTurn(net, middle, true);
      ReachesTransitive(net, s, middle, s');
    }
  }

  /** Everything is then delayed as long as possible. */
  lemma {:induction false} DelayUntil(net: Network, s: State, time: int) returns (s': State)
    requires s.now == s.lastSent && s.wake == s.now + Gap(net) && Gap(net) > 0
    requires s.now <= time <= s.now + net.delay + net.jitter
    requires forall i :: 0 <= i < |s.carried| && !s.carried[i].arrived ==>
             time <= s.carried[i].sent + net.delay + net.jitter
    ensures Reaches(net, s, s')
    ensures s'.now == time && s'.connected == s.connected && s'.lastMessage == s.lastMessage && s'.heard == s.heard
    decreases time - s.now
  {
    if time <= s.wake {
      StepReaches(net, s, TimePasses(time - s.now));
      s' := Next(net, s, TimePasses(time - s.now));
    } else {
      var middle := WaitAndTurn(net, s, false);
      s' := DelayUntil(net, middle, time);
      ReachesTransitive(net, s, middle, s');
    }
  }

  function Start(net: Network, lastMessage: int): State {
    State(0, 0 - net.interval, 0, [], [], 0, false, lastMessage, None, false, false, 0)
  }

  /** The first message of a client that starts with it arrives at once. */
  lemma FirstArrives(net: Network, extra: nat) returns (s: State)
    requires net.interval > 0 && net.delay == 0 && extra <= net.overshoot
    ensures IsInit(net, Start(net, 0)) && Reaches(net, Start(net, 0), s)
    ensures s == State(0, 0, net.interval + extra, [0], [Message(0, true)], 0, true, 0, None, true, false, 0)
  {
    var s0, turn := Start(net, 0), LoopTurn(false, extra);
    var s1 := Next(net, s0, turn);
    var s2 := Next(net, s1, Notes(0));
    s := Next(net, s2, Stamps);
    StepReaches(net, s0, turn);
    StepReaches(net, s1, Notes(0));
    StepReaches(net, s2, Stamps);
    ReachesTransitive(net, s0, s1, s2);
    ReachesTransitive(net, s0, s2, s);
  }

  /** At any interval the first message can race, if it comes more than 1500 ms after the sniffer started. */
  lemma FirstMessageCanRace(net: Network)
    requires net.interval > 0 && net.delay == 0
    ensures exists s, s' :: IsInit(net, s) && Reaches(net, s, s') && s'.raced == 1
  {
    var s0, turn := Start(net, 0 - S.TIMEOUT_MS - 1), LoopTurn(false, 0);
    var s1 := Next(net, s0, turn);
    var s2 := Next(net, s1, Notes(0));
    var s3 := Next(net, s2, WatchdogLooks);
    StepReaches(net, s0, turn);
    StepReaches(net, s1, Notes(0));
    StepReaches(net, s2, WatchdogLooks);
    ReachesTransitive(net, s0, s1, s2);
    ReachesTransitive(net, s0, s2, s3);
    assert IsInit(net, s0) && s3.raced == 1;
  }

  lemma SlowHeartbeatFires(net: Network)
    requires net.interval > 0 && net.delay == 0
    requires Times(net.losses + 1, Gap(net)) + net.jitter > S.TIMEOUT_MS
    ensures exists s, s' :: IsInit(net, s) && Reaches(net, s, s') && s'.fired
  {
    var s0 := Start(net, 0);
    var s2 := FirstArrives(net, net.overshoot);
    var s3 := LoseSome(net, s2, net.losses);
    ReachesTransitive(net, s0, s2, s3);
    var s4 := WaitAndTurn(net, s3, false);
    ReachesTransitive(net, s0, s3, s4);
    var s5 := DelayUntil(net, s4, s4.now + net.jitter);
    ReachesTransitive(net, s0, s4, s5);
    StepReaches(net, s5, WatchdogLooks);
    var s6 := Next(net, s5, WatchdogLooks);
    ReachesTransitive(net, s0, s5, s6);
    assert IsInit(net, s0) && s6.fired;
  }

  /** Commands that are too large can take the place of every heartbeat: sent just before each of the loop's turns,
      they make it believe that the sniffer has heard from it. */
  lemma {:induction false} CommandsReplaceHeartbeats(net: Network, s: State, n: nat) returns (s': State)
    requires s.now == s.wake && s.lastSent <= s.now && s.carried == [Message(0, true)]
    requires net.interval > 0 && net.largest > MAX_PAYLOAD
    ensures Reaches(net, s, s')
    ensures s'.now == s'.wake >= s.now + n && s'.lastSent <= s'.now && s'.carried == s.carried
    ensures s'.connected == s.connected && s'.lastMessage == s.lastMessage && s'.heard == s.heard
  {
    if n == 0 {
      s' := s;
      assert IsRun(net, s, []) && After(net, s, []) == s;
    } else {
      var middle := CommandsReplaceHeartbeats(net, s, n - 1);
      s' := OneReplaced(net, middle);
      ReachesTransitive(net, s, middle, s');
    }
  }

  lemma OneReplaced(net: Network, s: State) returns (s': State)
    requires s.now == s.wake && s.lastSent <= s.now && s.carried == [Message(0, true)]
    requires net.interval > 0 && net.largest > MAX_PAYLOAD
    ensures Reaches(net, s, s')
    ensures s'.now == s'.wake > s.now && s'.lastSent <= s'.now && s'.carried == s.carried
    ensures s'.connected == s.connected && s'.lastMessage == s.lastMessage && s'.heard == s.heard
  {
    var command := UserSends(false, MAX_PAYLOAD + 1);
    var turn, wait := LoopTurn(false, 0), TimePasses(net.interval);
    var s1 := Next(net, s, command);
    var s2 := Next(net, s1, turn);
    s' := Next(net, s2, wait);
    StepReaches(net, s, command);
    StepReaches(net, s1, turn);
    StepReaches(net, s2, wait);
    ReachesTransitive(net, s, s1, s2);
    ReachesTransitive(net, s, s2, s');
  }

  lemma LargeCommandsFire(net: Network)
    requires net.interval > 0 && net.delay == 0 && net.largest > MAX_PAYLOAD
    ensures exists s, s' :: IsInit(net, s) && Reaches(net, s, s') && s'.fired
  {
    var s0 := Start(net, 0);
    var wait := TimePasses(net.interval);
    var s2 := FirstArrives(net, 0);
    var s3 := Next(net, s2, wait);
    StepReaches(net, s2, wait);
    ReachesTransitive(net, s0, s2, s3);
    var s4 := CommandsReplaceHeartbeats(net, s3, S.TIMEOUT_MS + 1);
    ReachesTransitive(net, s0, s3, s4);
    var s5 := Next(net, s4, WatchdogLooks);
    StepReaches(net, s4, WatchdogLooks);
    ReachesTransitive(net, s0, s4, s5);
    assert IsInit(net, s0) && s5.fired;
  }

  /** On any network with these figures and whatever its user does, the watchdog never mistakes a live client it has
      heard from for a dead one exactly when (losses + 1) * (interval + overshoot) + jitter is at most 1500 ms and no
      command has a payload of more than 3944 bytes. */
  lemma HeartbeatSufficesExactly(interval: nat, overshoot: nat, jitter: nat, losses: nat, largest: nat)
    requires interval > 0
    ensures (forall delay: nat, s, s' ::
               var net := Network(interval, overshoot, delay, jitter, losses, largest);
               IsInit(net, s) && Reaches(net, s, s') ==> !s'.fired)
            <==> largest <= 3944 && (losses + 1) * (interval + overshoot) + jitter <= 1500
  {
    TimesIsProduct(losses + 1, interval + overshoot);
    hide IsInit, Times;
    if largest > MAX_PAYLOAD {
      LargeCommandsFire(Network(interval, overshoot, 0, jitter, losses, largest));
    } else if (losses + 1) * (interval + overshoot) + jitter > S.TIMEOUT_MS {
      SlowHeartbeatFires(Network(interval, overshoot, 0, jitter, losses, largest));
    } else {
      forall delay: nat, s, s' |
        var net := Network(interval, overshoot, delay, jitter, losses, largest); IsInit(net, s) && Reaches(net, s, s')
        ensures !s'.fired
      {
        var net := Network(interval, overshoot, delay, jitter, losses, largest);
        var events :| IsRun(net, s, events) && After(net, s, events) == s';
        InitInv(net, s);
        NeverFires(net, s, events);
      }
    }
  }

  lemma InitInv(net: Network, s: State)
    requires IsInit(net, s)
    ensures Inv(net, s) && !s.fired
  {
  }

  /** The watchdog of this model times out exactly when a turn of the sniffer's changes the sniffer. */
  lemma TimesOutLikeTheSniffer(s: State, core: S.SnifferState)
    requires core.connected == s.connected && core.lastExternal == s.lastMessage
    ensures TimesOut(s) <==> S.AfterTick(core, s.now) != core
  {
  }

  // ---- The heartbeat's contents ----

  /** The client's switch commands, once received, switch the sniffer's logging as asked. */
  lemma SwitchCommandSwitchesLogging(core: S.SnifferState, at: int, enable: bool, time: Time,
                                     sorted: seq<CanFilterRule>)
    requires core.running
    ensures B.OnDeliveries(core, at, B.DeliveriesOf(EncodeV1(LoggingCommand(enable), time, [])), sorted) ==
            core.(connected := true, lastExternal := at, logging := enable)
  {
    hide EncodeV1, ProcessPacket;
    MessageArrivesExactlyWhenItFits(LoggingCommand(enable), time, []);
    assert Deliveries(LoggingCommand(enable), time, []) == [Command(LoggingCommand(enable), time, [])];
  }

  /** A keep-alive message, once received, connects the sniffer and sets its logging to what the client wants. */
  lemma KeepAliveSyncsLogging(core: S.SnifferState, at: int, logging: bool, time: Time, sorted: seq<CanFilterRule>)
    requires core.running
    ensures var datagram := EncodeV1(CMD_KEEP_ALIVE_TO_SNIFFER, time, KeepAlivePayload(logging));
            var core' := B.OnDeliveries(core, at, B.DeliveriesOf(datagram), sorted);
            core'.connected && core'.logging == logging && core'.lastExternal == at &&
            core'.external == core.external + [S.StatusReport(logging)]
  {
    hide EncodeV1, ProcessPacket;
    var payload := KeepAlivePayload(logging);
    MessageArrivesExactlyWhenItFits(CMD_KEEP_ALIVE_TO_SNIFFER, time, payload);
    assert Deliveries(CMD_KEEP_ALIVE_TO_SNIFFER, time, payload) == [Command(CMD_KEEP_ALIVE_TO_SNIFFER, time, payload)];
  }
}
