/** The V1 wire format, its parser and the packed filter rule. */
module CanbusProtocol {
  import opened Bytes

  const MAX_DATA: nat := 64000
  const HEADER_SIZE: nat := 152             // magic 8, command 4, time 8, pad 128, data size 4
  const CANFD_FRAME_SIZE: nat := 72
  const RULE_SIZE: nat := 25
  const UDP_FRAME_SIZE: nat := 4096         // what `read` is given room for: getMaxFrameSize() is not overridden

  const CMD_CANBUS_DATA: nat := 0x1001
  const CMD_CANBUS_TO_SYSTEM: nat := 0x1002
  const CMD_CANBUS_TO_CAR: nat := 0x1003
  const CMD_EXTERNAL_SERVICE_LOGGING_ON: nat := 0x1004
  const CMD_EXTERNAL_SERVICE_LOGGING_OFF: nat := 0x1005
  const CMD_SET_FILTERS: nat := 0x1006
  const CMD_SET_PARAMS: nat := 0x1007
  const CMD_KEEP_ALIVE_TO_SNIFFER: nat := 0x1008
  const CMD_GET_PARAMS_REQ: nat := 0x1009
  const CMD_CAN_MSG_FROM_SYSTEM: nat := 0x2001
  const CMD_CAN_MSG_FROM_COMPUTER: nat := 0x2002
  const CMD_CAN_MSG_BLOCKED_FROM_SYSTEM: nat := 0x2003
  const CMD_CAN_MSG_BLOCKED_FROM_COMPUTER: nat := 0x2004
  const CMD_KEEP_ALIVE_FROM_SNIFFER: nat := 0x2005
  const CMD_GET_PARAMS_RES: nat := 0x2006

  const V1_MAGIC: seq<byte> := [0x76, 0x31, 0x2E, 0x30, 0x30]    // v1.00
  const CANFD_MAGIC: seq<byte> := [0x63, 0x61, 0x6E, 0x66]       // canf

  /** An unsigned 32-bit number. */
  type U32 = n: nat | n < 0x1_0000_0000

  /** The `double` timestamp, eight opaque bytes. */
  type Time = t: seq<byte> | |t| == 8 witness [0, 0, 0, 0, 0, 0, 0, 0]

  function Zeros(n: nat): (z: seq<byte>)
    ensures |z| == n && forall i :: 0 <= i < n ==> z[i] == 0
  {
    seq(n, _ => 0)
  }

  // ---- Encoding ----

  /** A V1 message as it goes over the wire. */
  function EncodeV1(command: U32, time: Time, payload: seq<byte>): (packet: seq<byte>)
    requires |payload| <= MAX_DATA
    ensures |packet| == HEADER_SIZE + |payload|
  {
    V1_MAGIC + Zeros(3) + U32Bytes(command) + time + Zeros(128) + U32Bytes(|payload|) + payload
  }

  lemma EncodedFields(command: U32, time: Time, payload: seq<byte>)
    requires |payload| <= MAX_DATA
    ensures var packet := EncodeV1(command, time, payload);
            && packet[..5] == V1_MAGIC
            && (forall i :: 5 <= i < 8 || 20 <= i < 148 ==> packet[i] == 0)
            && packet[8..12] == U32Bytes(command)
            && packet[12..20] == time
            && packet[148..152] == U32Bytes(|payload|)
            && packet[HEADER_SIZE..] == payload
  {
  }

  // ---- Parsing ----

  datatype Delivery =
    | Command(command: U32, time: Time, data: seq<byte>)     // to the command listener
    | Data(data: seq<byte>)                                  // to the data listener

  predicate StartsWith(packet: seq<byte>, magic: seq<byte>) {
    |magic| <= |packet| && packet[..|magic|] == magic
  }

  /** `UdpCanbusCommunication::processPacket`: the callbacks it makes, in order. */
  function ProcessPacket(packet: seq<byte>, hasCommandListener: bool): seq<Delivery> {
    if |packet| < 4 then []
    else if StartsWith(packet, V1_MAGIC) then
      if |packet| > HEADER_SIZE + MAX_DATA || |packet| < HEADER_SIZE then []
      else
        var size := U32At(packet, 148);
        if size > MAX_DATA || |packet| < HEADER_SIZE + size then []
        else
          var command, data := U32At(packet, 8), packet[HEADER_SIZE..HEADER_SIZE + size];
          (if hasCommandListener then [Command(command, packet[12..20], data)] else []) +
          (if command == CMD_CANBUS_DATA then [Data(data)] else [])
    else if StartsWith(packet, CANFD_MAGIC) then
      if |packet| >= 4 + CANFD_FRAME_SIZE then [Data(packet[4..4 + CANFD_FRAME_SIZE])] else []
    else []
  }

  /** What the listeners of a message are given. */
  function Deliveries(command: U32, time: Time, payload: seq<byte>): seq<Delivery> {
    [Command(command, time, payload)] + (if command == CMD_CANBUS_DATA then [Data(payload)] else [])
  }

  lemma DecodeEncoded(command: U32, time: Time, payload: seq<byte>)
    requires |payload| <= MAX_DATA
    ensures ProcessPacket(EncodeV1(command, time, payload), true) == Deliveries(command, time, payload)
    ensures Deliveries(command, time, payload) ==
            [Command(command, time, payload)] + (if command == 0x1001 then [Data(payload)] else [])
  {
    hide EncodeV1;
    EncodedFields(command, time, payload);
    var packet := EncodeV1(command, time, payload);
    U32AtBytes(packet, 8, command);
    U32AtBytes(packet, 148, |payload|);
    assert packet[HEADER_SIZE..HEADER_SIZE + |payload|] == payload;
  }

  /** What arrives behind a message is ignored, unless the packet is then longer than the struct. The commands for the
      data listener are those numbered 0x1001; without a command listener nothing else is delivered. */
  lemma MessageWithMoreBehindIt(command: U32, time: Time, payload: seq<byte>, rest: seq<byte>, hasCommandListener: bool)
    requires |payload| <= MAX_DATA
    ensures ProcessPacket(EncodeV1(command, time, payload) + rest, hasCommandListener) ==
            if 152 + |payload| + |rest| > 152 + 64000 then []
            else (if hasCommandListener then [Command(command, time, payload)] else []) +
                 (if command == 0x1001 then [Data(payload)] else [])
  {
    hide EncodeV1;
    EncodedFields(command, time, payload);
    var encoded := EncodeV1(command, time, payload);
    var packet := encoded + rest;
    assert packet[..5] == encoded[..5] && packet[8..12] == encoded[8..12] && packet[12..20] == encoded[12..20];
    assert packet[148..152] == encoded[148..152];
    U32AtBytes(packet, 8, command);
    U32AtBytes(packet, 148, |payload|);
    assert packet[HEADER_SIZE..HEADER_SIZE + |payload|] == encoded[HEADER_SIZE..];
  }

  /** The short form: the four letters "canf" and a frame of 72 bytes, whole or not at all, whatever comes behind it. */
  lemma ShortFormDeliversItsFrame(frame: seq<byte>, rest: seq<byte>, n: nat, hasCommandListener: bool)
    requires |frame| == 72 && n < 76
    ensures var packet := [0x63, 0x61, 0x6E, 0x66] + frame;
            && ProcessPacket(packet + rest, hasCommandListener) == [Data(frame)]
            && ProcessPacket(packet[..n], hasCommandListener) == []
  {
    var packet := [0x63, 0x61, 0x6E, 0x66] + frame;
    assert (packet + rest)[..4] == CANFD_MAGIC && (packet + rest)[4..76] == frame;
    assert (packet + rest)[0] != V1_MAGIC[0];
    if n >= 4 {
      assert packet[..n][..4] == CANFD_MAGIC && packet[..n][0] != V1_MAGIC[0];
    }
  }

  /** Everything else is dropped. */
  lemma OtherPacketsDeliverNothing(packet: seq<byte>, hasCommandListener: bool)
    requires !([0x76, 0x31, 0x2E, 0x30, 0x30] <= packet) && !([0x63, 0x61, 0x6E, 0x66] <= packet)
    ensures ProcessPacket(packet, hasCommandListener) == []
  {
    if |packet| >= 5 {
      assert packet[..5] == V1_MAGIC ==> V1_MAGIC <= packet;
    }
    if |packet| >= 4 {
      assert packet[..4] == CANFD_MAGIC ==> CANFD_MAGIC <= packet;
    }
  }

  /** A message cut short anywhere is never mistaken for another one. */
  lemma CutMessageDeliversNothing(command: U32, time: Time, payload: seq<byte>, n: nat, hasCommandListener: bool)
    requires |payload| <= MAX_DATA && n < HEADER_SIZE + |payload|
    ensures ProcessPacket(EncodeV1(command, time, payload)[..n], hasCommandListener) == []
  {
    hide EncodeV1;
    EncodedFields(command, time, payload);
    var packet := EncodeV1(command, time, payload);
    if n >= HEADER_SIZE {
      assert packet[..n][148..152] == packet[148..152];
      U32AtBytes(packet[..n], 148, |payload|);
    } else if n >= 5 {
      assert packet[..n][..5] == packet[..5];
    } else if n == 4 {
      assert packet[..n][0] == packet[..5][0];
    }
  }

  lemma Halves(s: seq<byte>, from: nat, middle: nat, to: nat)
    requires from <= middle <= to <= |s|
    ensures s[from..to] == s[from..middle] + s[middle..to]
  {
  }

  /** Conversely a delivered command is what the packet encodes: outside the unread rest of the magic field and
      the padding, the packet starts with the encoding of what was delivered. */
  lemma DeliveredCommandWasEncoded(packet: seq<byte>, command: U32, time: Time, data: seq<byte>)
    requires Command(command, time, data) in ProcessPacket(packet, true)
    ensures |data| <= MAX_DATA && HEADER_SIZE + |data| <= |packet|
    ensures var encoded := EncodeV1(command, time, data);
            && packet[..5] == encoded[..5] && packet[8..20] == encoded[8..20]
            && packet[148..HEADER_SIZE + |data|] == encoded[148..]
  {
    hide EncodeV1;
    EncodedFields(command, time, data);
    var encoded := EncodeV1(command, time, data);
    U32BytesAt(packet, 8);
    U32BytesAt(packet, 148);
    Halves(packet, 8, 12, 20);
    Halves(encoded, 8, 12, 20);
    Halves(packet, 148, HEADER_SIZE, HEADER_SIZE + |data|);
    Halves(encoded, 148, HEADER_SIZE, |encoded|);
    assert encoded[148..|encoded|] == encoded[148..] && encoded[HEADER_SIZE..|encoded|] == encoded[HEADER_SIZE..];
  }

  /** `recvfrom` with room for `UDP_FRAME_SIZE` bytes cuts a longer datagram. */
  function Received(datagram: seq<byte>): seq<byte> {
    if |datagram| <= UDP_FRAME_SIZE then datagram else datagram[..UDP_FRAME_SIZE]
  }

  /** Although the format allows 64000 bytes, a message gets through the receive path exactly when its payload has
      at most 3944; a longer one is dropped whole. */
  lemma MessageArrivesExactlyWhenItFits(command: U32, time: Time, payload: seq<byte>)
    requires |payload| <= MAX_DATA
    ensures ProcessPacket(Received(EncodeV1(command, time, payload)), true) ==
            if |payload| <= 3944 then Deliveries(command, time, payload) else []
  {
    hide EncodeV1, ProcessPacket;
    if |payload| <= 3944 {
      DecodeEncoded(command, time, payload);
    } else {
      CutMessageDeliversNothing(command, time, payload, UDP_FRAME_SIZE, true);
    }
  }

  // ---- Filter rules ----

  type Eight = s: seq<byte> | |s| == 8 witness [0, 0, 0, 0, 0, 0, 0, 0]

  datatype CanFilterRule = CanFilterRule(
    canId: U32,
    dataIndex: byte, dataValue: byte, dataMask: byte,
    actionType: byte,
    target: byte,
    modificationData: Eight,
    modificationMask: Eight)

  function EncodeRule(rule: CanFilterRule): (r: seq<byte>)
    ensures |r| == RULE_SIZE
  {
    U32Bytes(rule.canId) + [rule.dataIndex, rule.dataValue, rule.dataMask, rule.actionType, rule.target] +
    rule.modificationData + rule.modificationMask
  }

  /** The packed struct read from 25 bytes. */
  function DecodeRule(s: seq<byte>): CanFilterRule
    requires |s| == RULE_SIZE
  {
    CanFilterRule(U32At(s, 0), s[4], s[5], s[6], s[7], s[8], s[9..17], s[17..25])
  }

  /** Where the fields of the packed struct lie. */
  lemma RuleFields(rule: CanFilterRule)
    ensures var s := EncodeRule(rule);
            && s[0..4] == U32Bytes(rule.canId)
            && s[4] == rule.dataIndex && s[5] == rule.dataValue && s[6] == rule.dataMask
            && s[7] == rule.actionType && s[8] == rule.target
            && s[9..17] == rule.modificationData && s[17..25] == rule.modificationMask
  {
  }

  lemma RuleRoundTrip(rule: CanFilterRule)
    ensures DecodeRule(EncodeRule(rule)) == rule
  {
    var s := EncodeRule(rule);
    assert s[0..4] == U32Bytes(rule.canId);
    U32AtBytes(s, 0, rule.canId);
    assert s[9..17] == rule.modificationData;
    assert s[17..25] == rule.modificationMask;
  }

  function EncodeRules(rules: seq<CanFilterRule>): (r: seq<byte>)
    ensures |r| == RULE_SIZE * |rules|
  {
    if rules == [] then [] else EncodeRule(rules[0]) + EncodeRules(rules[1..])
  }

  /** The whole rules at the start of a payload; bytes of a last, partial rule are ignored. */
  function DecodeRules(data: seq<byte>): (rules: seq<CanFilterRule>)
    ensures |rules| == |data| / RULE_SIZE
  {
    if |data| < RULE_SIZE then [] else [DecodeRule(data[..RULE_SIZE])] + DecodeRules(data[RULE_SIZE..])
  }

  lemma {:induction false} RulesRoundTrip(rules: seq<CanFilterRule>)
    ensures DecodeRules(EncodeRules(rules)) == rules
  {
    if rules != [] {
      var data := EncodeRules(rules);
      assert data[..RULE_SIZE] == EncodeRule(rules[0]);
      assert data[RULE_SIZE..] == EncodeRules(rules[1..]);
      RuleRoundTrip(rules[0]);
      RulesRoundTrip(rules[1..]);
    }
  }

  lemma {:induction false} DecodedRuleAt(data: seq<byte>, i: nat)
    requires i < |data| / RULE_SIZE
    ensures DecodeRules(data)[i] == DecodeRule(data[RULE_SIZE * i..RULE_SIZE * i + RULE_SIZE])
  {
    if i > 0 {
      hide DecodeRule;
      var from := RULE_SIZE * (i - 1);
      DecodedRuleAt(data[RULE_SIZE..], i - 1);
      assert from + RULE_SIZE == RULE_SIZE * i;
      SliceOfRest(data, from);
    }
  }

  lemma SliceOfRest(data: seq<byte>, from: nat)
    requires from + 2 * RULE_SIZE <= |data|
    ensures data[RULE_SIZE..][from..from + RULE_SIZE] == data[from + RULE_SIZE..from + RULE_SIZE + RULE_SIZE]
  {
  }
}
