/** The sniffer between the two buses: bridging, logging, commands and the watchdog. */
module Sniffer {
  import opened Bytes
  import opened CanbusProtocol
  import opened FilterRules
  import FE = FilterEngine

  const TIMEOUT_MS: int := 1500
  const MAX_FRAME: nat := 72
  const DATA_AT: nat := 8               // offset of the data bytes in a `can_frame`; the length is byte 4
  const KEEP_ALIVE_SIZE: nat := 32

  /** Where a frame sent to a bus came from. */
  datatype Sent = Bridged(frame: seq<byte>) | Injected(frame: seq<byte>)

  /** A message to the external service; a status reply is reduced to its logging flag. */
  datatype Report = FrameReport(command: nat, frame: seq<byte>) | StatusReport(loggingActive: bool)

  datatype SnifferState = SnifferState(
    running: bool,
    logging: bool,
    connected: bool,
    lastExternal: int,                  // time of the last external message, in milliseconds
    rules: seq<CanFilterRule>,
    toSystem: seq<Sent>,
    toComputer: seq<Sent>,
    external: seq<Report>)

  /** A classic or FD frame as the bus delivers it. */
  predicate IsFrame(frame: seq<byte>) {
    16 <= |frame| <= MAX_FRAME && DATA_AT + frame[4] <= |frame|
  }

  // ---- One frame ----

  /** What the filter makes of a frame: whether it goes on, and its bytes then. */
  function Judge(rules: seq<CanFilterRule>, source: Source, frame: seq<byte>): (verdict: Verdict)
    requires SortedById(rules) && IsFrame(frame)
    ensures |verdict.data| >= DATA_AT
  {
    var end := DATA_AT + frame[4];
    var verdict := FirstHit(FE.IndexedRules(rules, MaskedId(U32At(frame, 0))), source, frame[DATA_AT..end]);
    Verdict(verdict.forward, frame[..DATA_AT] + verdict.data + frame[end..])
  }

  /** The same by a linear scan of the table. */
  function JudgeByScan(rules: seq<CanFilterRule>, source: Source, frame: seq<byte>): Verdict
    requires IsFrame(frame)
  {
    var end := DATA_AT + frame[4];
    var verdict := Scan(rules, MaskedId(U32At(frame, 0)), source, frame[DATA_AT..end]);
    Verdict(verdict.forward, frame[..DATA_AT] + verdict.data + frame[end..])
  }

  lemma {:induction false} FirstHitKeepsBlockedData(rules: seq<CanFilterRule>, source: Source, data: seq<byte>)
    ensures |FirstHit(rules, source, data).data| == |data|
    ensures !FirstHit(rules, source, data).forward ==> FirstHit(rules, source, data).data == data
  {
    hide Hits;
    if rules != [] {
      FirstHitKeepsBlockedData(rules[1..], source, data);
    }
  }

  /** A frame keeps its length, id, length byte and everything behind its data; a blocked one keeps every byte. */
  lemma JudgeChangesDataOnly(rules: seq<CanFilterRule>, source: Source, frame: seq<byte>)
    requires SortedById(rules) && IsFrame(frame)
    ensures var verdict := Judge(rules, source, frame);
            && |verdict.data| == |frame|
            && verdict.data[..8] == frame[..8]
            && verdict.data[8 + frame[4]..] == frame[8 + frame[4]..]
            && (!verdict.forward ==> verdict.data == frame)
  {
    hide FirstHit;
    var end := DATA_AT + frame[4];
    FirstHitKeepsBlockedData(FE.IndexedRules(rules, MaskedId(U32At(frame, 0))), source, frame[DATA_AT..end]);
    assert frame == frame[..DATA_AT] + frame[DATA_AT..end] + frame[end..];
  }

  /** A frame's fields: id, number of data bytes, three bytes that do not matter here, the data, the rest of the struct.
      It is judged by id and data, and only the data change. */
  lemma JudgedByIdAndData(rules: seq<CanFilterRule>, source: Source,
                          id: U32, pad: seq<byte>, data: seq<byte>, rest: seq<byte>)
    requires |pad| == 3 && 8 <= |data| + |rest| <= 64
    ensures var head := U32Bytes(id) + [|data|] + pad;
            var verdict := Scan(rules, id % 2048, source, data);
            && IsFrame(head + data + rest)
            && JudgeByScan(rules, source, head + data + rest) == Verdict(verdict.forward, head + verdict.data + rest)
  {
    hide Scan;
    var head := U32Bytes(id) + [|data|] + pad;
    var frame := head + data + rest;
    assert frame[0..4] == U32Bytes(id) && frame[4] == |data|;
    U32AtBytes(frame, 0, id);
    assert frame[..8] == head && frame[8..8 + |data|] == data && frame[8 + |data|..] == rest;
  }

  function SendOn(s: SnifferState, source: Source, verdict: Verdict): SnifferState {
    if !verdict.forward then s
    else match source
      case CarSystem => s.(toComputer := s.toComputer + [Bridged(verdict.data)])
      case CarComputer => s.(toSystem := s.toSystem + [Bridged(verdict.data)])
      case External => s
  }

  function LogCommand(source: Source, forward: bool): nat {
    if forward then (if source.CarSystem? then CMD_CAN_MSG_FROM_SYSTEM else CMD_CAN_MSG_FROM_COMPUTER)
    else (if source.CarSystem? then CMD_CAN_MSG_BLOCKED_FROM_SYSTEM else CMD_CAN_MSG_BLOCKED_FROM_COMPUTER)
  }

  function LogFrame(s: SnifferState, source: Source, verdict: Verdict): SnifferState {
    if !s.logging then s
    else s.(external := s.external + [FrameReport(LogCommand(source, verdict.forward), verdict.data)])
  }

  function AfterCanData(s: SnifferState, now: int, source: Source, frame: seq<byte>): SnifferState
    requires SortedById(s.rules) && (source.External? || IsFrame(frame))
  {
    if source.External? then s.(lastExternal := now)
    else if !s.running then s
    else
      var verdict := Judge(s.rules, source, frame);
      LogFrame(SendOn(s, source, verdict), source, verdict)
  }

  // ---- Commands and watchdog ----

  /** `sorted` is what `std::sort` makes of the rules in a filter command. */
  ghost predicate SortResult(command: nat, data: seq<byte>, sorted: seq<CanFilterRule>) {
    command == CMD_SET_FILTERS ==> IsSortOf(sorted, DecodeRules(FE.Truncated(data)))
  }

  function AfterCommand(s: SnifferState, now: int, command: nat, data: seq<byte>,
                        sorted: seq<CanFilterRule>): SnifferState {
    if !s.running then s
    else
      var s1 := s.(connected := true, lastExternal := now);
      if command == CMD_SET_FILTERS then s1.(rules := sorted)
      else if command == CMD_CANBUS_TO_SYSTEM then s1.(toSystem := s1.toSystem + [Injected(data)])
      else if command == CMD_CANBUS_TO_CAR then s1.(toComputer := s1.toComputer + [Injected(data)])
      else if command == CMD_KEEP_ALIVE_TO_SNIFFER then
        if |data| < KEEP_ALIVE_SIZE then s1
        else s1.(logging := data[0] != 0, external := s1.external + [StatusReport(data[0] != 0)])
      else if command == CMD_EXTERNAL_SERVICE_LOGGING_ON then s1.(logging := true)
      else if command == CMD_EXTERNAL_SERVICE_LOGGING_OFF then s1.(logging := false)
      else s1
  }

  /** One turn of the watchdog loop after its sleep. */
  function AfterTick(s: SnifferState, now: int): SnifferState {
    if s.connected && now - s.lastExternal > TIMEOUT_MS then s.(logging := false, connected := false) else s
  }

  lemma FrameParts(buffer: seq<byte>, frame: seq<byte>, end: nat)
    requires DATA_AT <= end <= |frame| <= |buffer| && buffer[..|frame|] == frame
    ensures frame == buffer[..DATA_AT] + buffer[DATA_AT..end] + buffer[end..][..|frame| - end]
    ensures frame[..DATA_AT] == buffer[..DATA_AT] && frame[end..] == buffer[end..][..|frame| - end]
  {
  }

  // ---- The object ----

  /** What is handed on to the service that owns the sniffer. */
  datatype SystemCommand = SystemCommand(command: nat, data: seq<byte>)

  class Sniffer {
    var running: bool
    var logging: bool
    var connected: bool
    var lastExternal: int
    const engine: FE.FilterEngine
    var toSystem: seq<Sent>
    var toComputer: seq<Sent>
    var external: seq<Report>
    var hasSystemCallback: bool
    var systemCommands: seq<SystemCommand>

    ghost predicate Valid()
      reads this, engine, engine.rules, engine.idLookup, engine.idCounts
    {
      engine.Valid()
    }

    ghost function Abs(): SnifferState
      requires Valid()
      reads this, engine, engine.rules, engine.idLookup, engine.idCounts
    {
      SnifferState(running, logging, connected, lastExternal, engine.Table(), toSystem, toComputer, external)
    }

    constructor (now: int)
      ensures Valid() && fresh(engine) && fresh(engine.rules) && fresh(engine.idLookup) && fresh(engine.idCounts)
      ensures Abs() == SnifferState(false, false, false, now, [], [], [], [])
      ensures !hasSystemCallback && systemCommands == []
    {
      hasSystemCallback, systemCommands := false, [];
      running, logging, connected, lastExternal := false, false, false, now;
      toSystem, toComputer, external := [], [], [];
      engine := new FE.FilterEngine();
    }

    method SetSystemCallback()
      modifies this`hasSystemCallback
      ensures hasSystemCallback
    {
      hasSystemCallback := true;
    }

    method HandleCanData(now: int, source: Source, data: seq<byte>)
      requires Valid() && (source.External? || IsFrame(data))
      modifies this`lastExternal, this`toSystem, this`toComputer, this`external
      ensures Valid() && Abs() == AfterCanData(old(Abs()), now, source, data)
    {
      if source.External? {
        lastExternal := now;
        return;
      }
      if !running {
        return;
      }
      var shouldForward, image := Filter(source, data);
      hide Judge;
      if shouldForward {
        if source.CarSystem? {
          toComputer := toComputer + [Bridged(image)];
        } else {
          toSystem := toSystem + [Bridged(image)];
        }
      }
      if logging {
        var command;
        if shouldForward {
          command := if source.CarSystem? then CMD_CAN_MSG_FROM_SYSTEM else CMD_CAN_MSG_FROM_COMPUTER;
        } else {
          command := if source.CarSystem? then CMD_CAN_MSG_BLOCKED_FROM_SYSTEM else CMD_CAN_MSG_BLOCKED_FROM_COMPUTER;
        }
        external := external + [FrameReport(command, image)];
      }
    }

    /** The frame is copied to a local buffer, which the filter engine then works on. */
    method Filter(source: Source, data: seq<byte>) returns (shouldForward: bool, image: seq<byte>)
      requires Valid() && IsFrame(data)
      ensures Valid() && Verdict(shouldForward, image) == Judge(engine.Table(), source, data)
    {
      hide FirstHit, FE.IndexedRules, FromLittleEndian, MaskedId, SortedById;
      var buffer := new byte[MAX_FRAME](_ => 0);
      var copyLen := if |data| < MAX_FRAME then |data| else MAX_FRAME;
      forall i | 0 <= i < copyLen { buffer[i] := data[i]; }
      var dlc := buffer[4];
      var end := DATA_AT + dlc;
      assert buffer[0..4] == data[0..4] && buffer[DATA_AT..end] == data[DATA_AT..end];
      assert buffer[0..4][0..4] == data[0..4];
      var canId := U32At(buffer[0..4], 0);
      ghost var before := buffer[..];
      shouldForward := engine.Process(canId, buffer, DATA_AT, dlc, source);
      image := buffer[..copyLen];
      FrameParts(before, data, end);
      FrameParts(buffer[..], image, end);
      assert before[..DATA_AT] == buffer[..][..DATA_AT] && before[end..] == buffer[..][end..];
    }

    method SetLoggingState(enable: bool)
      modifies this`logging
      ensures logging == enable
    {
      if logging != enable {
        logging := enable;
      }
    }

    method OnCommandReceived(now: int, command: nat, data: seq<byte>, sorted: seq<CanFilterRule>)
      requires Valid() && SortResult(command, data, sorted)
      modifies this, engine, engine.rules, engine.idLookup, engine.idCounts
      ensures Valid() && Abs() == AfterCommand(old(Abs()), now, command, data, sorted)
      ensures hasSystemCallback == old(hasSystemCallback)
      ensures var handedOn := running && hasSystemCallback && command in {CMD_SET_PARAMS, CMD_GET_PARAMS_REQ};
              systemCommands == old(systemCommands) + (if handedOn then [SystemCommand(command, data)] else [])
    {
      if !running {
        return;
      }
      if !connected {
        connected := true;
      }
      lastExternal := now;
      if command == CMD_SET_FILTERS {
        engine.LoadRules(data, sorted);
      } else if command == CMD_CANBUS_TO_SYSTEM {
        toSystem := toSystem + [Injected(data)];
      } else if command == CMD_CANBUS_TO_CAR {
        toComputer := toComputer + [Injected(data)];
      } else if command == CMD_KEEP_ALIVE_TO_SNIFFER {
        if |data| >= KEEP_ALIVE_SIZE {
          var requestedLogging := data[0] != 0;
          if requestedLogging != logging {
            SetLoggingState(requestedLogging);
          }
          external := external + [StatusReport(logging)];
        }
      } else if command == CMD_EXTERNAL_SERVICE_LOGGING_ON {
        SetLoggingState(true);
      } else if command == CMD_EXTERNAL_SERVICE_LOGGING_OFF {
        SetLoggingState(false);
      } else if command == CMD_SET_PARAMS || command == CMD_GET_PARAMS_REQ {
        if hasSystemCallback {
          systemCommands := systemCommands + [SystemCommand(command, data)];
        }
      }
    }

    method WatchdogTick(now: int)
      requires Valid()
      modifies this`logging, this`connected
      ensures Valid() && Abs() == AfterTick(old(Abs()), now)
    {
      var timeOutDetected := false;
      if connected {
        var elapsed := now - lastExternal;
        if elapsed > TIMEOUT_MS {
          timeOutDetected := true;
        }
      }
      if timeOutDetected {
        SetLoggingState(false);
        connected := false;
      }
    }
  }
}
