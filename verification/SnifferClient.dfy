/** The client library: encoding commands, the keep-alive turn and the queue of received messages. */
module SnifferClient {
  import opened Bytes
  import opened CanbusProtocol
  import opened Wrappers

  datatype QueuedMessage = QueuedMessage(command: U32, time: Time, data: seq<byte>)

  function Heartbeat(logging: bool): seq<byte> {
    EncodeV1(CMD_KEEP_ALIVE_TO_SNIFFER, Zeros(8), KeepAlivePayload(logging))
  }

  /** One turn of the keep-alive loop: whether it sends, and how long it then sleeps. */
  function KeepAliveTurn(interval: nat, sinceLastSent: nat): (bool, nat) {
    if sinceLastSent >= interval then (true, interval) else (false, interval - sinceLastSent)
  }

  function KeepAlivePayload(logging: bool): (payload: seq<byte>)
    ensures |payload| == 32
  {
    [if logging then 1 else 0] + Zeros(31)
  }

  function LoggingCommand(enable: bool): U32 {
    if enable then CMD_EXTERNAL_SERVICE_LOGGING_ON else CMD_EXTERNAL_SERVICE_LOGGING_OFF
  }

  predicate IsQueued(command: U32) {
    command in {CMD_CAN_MSG_FROM_SYSTEM, CMD_CAN_MSG_FROM_COMPUTER, CMD_CAN_MSG_BLOCKED_FROM_SYSTEM,
                CMD_CAN_MSG_BLOCKED_FROM_COMPUTER, CMD_GET_PARAMS_RES}
  }

  /** What the client keeps are the four kinds of log message and the parameters. */
  lemma QueuedAreLogsAndParameters(command: U32)
    ensures IsQueued(command) <==> 0x2001 <= command <= 0x2004 || command == 0x2006
  {
  }

  class SnifferClient {
    const keepAliveInterval: nat
    var lastSentTime: nat
    var isConnected: bool
    var lastRecvTime: nat
    var desiredLoggingState: bool
    var queue: seq<QueuedMessage>

    constructor (interval: nat)
      ensures keepAliveInterval == interval && lastSentTime == 0 && lastRecvTime == 0
      ensures !isConnected && !desiredLoggingState && queue == []
    {
      keepAliveInterval := interval;
      lastSentTime, isConnected, lastRecvTime, desiredLoggingState, queue := 0, false, 0, false, [];
    }

    /** The struct is zeroed, filled field by field and cut to the bytes in use. */
    method SendRawCommand(now: nat, command: U32, payload: seq<byte>) returns (datagram: seq<byte>)
      requires |payload| <= MAX_DATA
      modifies this`lastSentTime
      ensures datagram == EncodeV1(command, Zeros(8), payload) && lastSentTime == now
    {
      var msg := new byte[HEADER_SIZE + MAX_DATA](_ => 0);
      var commandBytes, sizeBytes := U32Bytes(command), U32Bytes(|payload|);
      forall i | 0 <= i < 5 { msg[i] := V1_MAGIC[i]; }
      forall i | 8 <= i < 12 { msg[i] := commandBytes[i - 8]; }
      forall i | 148 <= i < 152 { msg[i] := sizeBytes[i - 148]; }
      if |payload| > 0 {
        forall i | HEADER_SIZE <= i < HEADER_SIZE + |payload| { msg[i] := payload[i - HEADER_SIZE]; }
      }
      datagram := msg[..HEADER_SIZE + |payload|];
      assert forall i :: 0 <= i < |datagram| ==> datagram[i] == EncodeV1(command, Zeros(8), payload)[i];
      lastSentTime := now;
    }

    method SetLoggingEnabled(now: nat, enable: bool) returns (datagram: seq<byte>)
      modifies this`lastSentTime, this`desiredLoggingState
      ensures desiredLoggingState == enable && lastSentTime == now
      ensures datagram == EncodeV1(LoggingCommand(enable), Zeros(8), [])
    {
      desiredLoggingState := enable;
      datagram := SendRawCommand(now, LoggingCommand(enable), []);
    }

    /** The loop body up to its sleep; the clock and the time stamps are read in one step. */
    method KeepAlive(now: nat) returns (sent: seq<seq<byte>>, sleep: nat)
      requires lastSentTime <= now && lastRecvTime <= now
      modifies this`lastSentTime, this`isConnected
      ensures var (sends, wait) := KeepAliveTurn(keepAliveInterval, now - old(lastSentTime));
              && sleep == wait
              && sent == (if sends then [Heartbeat(desiredLoggingState)] else [])
              && lastSentTime == (if sends then now else old(lastSentTime))
      ensures isConnected <==> old(isConnected) && now - lastRecvTime <= 3 * keepAliveInterval
    {
      var sentDiff := now - lastSentTime;
      if isConnected && now - lastRecvTime > keepAliveInterval * 3 {
        isConnected := false;
      }
      if sentDiff >= keepAliveInterval {
        var datagram := SendRawCommand(now, CMD_KEEP_ALIVE_TO_SNIFFER, KeepAlivePayload(desiredLoggingState));
        sent, sleep := [datagram], keepAliveInterval;
      } else {
        sent, sleep := [], keepAliveInterval - sentDiff;
      }
    }

    method UpdateLastRecvTime(now: nat)
      modifies this`isConnected, this`lastRecvTime
      ensures isConnected && lastRecvTime == now
    {
      if !isConnected {
        isConnected := true;
      }
      lastRecvTime := now;
    }

    method OnCommandReceived(now: nat, command: U32, time: Time, data: seq<byte>)
      modifies this`isConnected, this`lastRecvTime, this`queue
      ensures isConnected && lastRecvTime == now
      ensures queue == old(queue) +
                (if !IsQueued(command) then []
                 else [QueuedMessage(command, time, if |data| <= MAX_DATA then data else data[..MAX_DATA])])
    {
      UpdateLastRecvTime(now);
      if IsQueued(command) {
        if |data| <= MAX_DATA {
          queue := queue + [QueuedMessage(command, time, data)];
        } else {
          queue := queue + [QueuedMessage(command, time, data[..MAX_DATA])];
        }
      }
    }

    method OnDataReceived(now: nat, data: seq<byte>)
      modifies this`isConnected, this`lastRecvTime, this`queue
      ensures isConnected && lastRecvTime == now
      ensures queue == old(queue) +
              (if |data| == CANFD_FRAME_SIZE then [QueuedMessage(CMD_CANBUS_DATA, Zeros(8), data)] else [])
    {
      UpdateLastRecvTime(now);
      if |data| == CANFD_FRAME_SIZE {
        queue := queue + [QueuedMessage(CMD_CANBUS_DATA, Zeros(8), data)];
      }
    }

    /** Without waiting: the oldest message, or none. */
    method ReadMessage() returns (message: Option<QueuedMessage>)
      modifies this`queue
      ensures old(queue) == (if message.Some? then [message.value] else []) + queue
      ensures message.None? ==> old(queue) == []
    {
      if queue == [] {
        return None;
      }
      message := Some(queue[0]);
      queue := queue[1..];
    }
  }
}
