# Verified model of the CAN bus sniffer

The repository is a gateway between the two CAN buses of a car (its "system" side and its "computer" side). It forwards
frames from one to the other, filters and changes them by rules a remote client uploads, reports them to that client,
and lets the client inject frames. This project models the parts where something can go subtly wrong (the lock-light
ring between two threads, the indexed filter table, the heartbeat, the restart of the service, the configuration file,
the grouped table of the Python panel) and proves what they keep over every run.

How the files build on one another:

- `Bytes.dfy`, `Wrappers.dfy`: bytes, little-endian numbers, bit masks, missing values.
- `FrameQueue.dfy`, `CacheManager.dfy`: the bounded queue that the ring is for, and the ring itself as a class over one
  byte array (length header and payload in fixed-size blocks, indices `head`, `tail`, `processingIndex`).
- `CommunicationRun.dfy`: owner, supervisor, RX thread and worker of a `CommunicationObj` as a step system. Every frame
  read has a name (its place in reading order) and a fate. The state is checked for the two things that must never
  happen: freeing a ring that a thread still uses, and overwriting the handle of a thread that was not joined.
- `Supervision.dfy`: what reconnectable mode is for: the link comes up, stays up, comes up again after an error, and goes
  down when it is stopped.
- `CanbusProtocol.dfy`: the V1 and `canf` wire formats, the packet parser and the packed 25-byte rule.
- `FilterRules.dfy`, `FilterEngine.dfy`: what a rule list means (first match, linear scan), what sorting does to it, and
  the engine over arrays with its index of pointers and eight-bit counters.
- `Sniffer.dfy`, `Watchdog.dfy`, `WatchdogRace.dfy`, `Bridge.dfy`: the sniffer object, its runs over time, the race
  between its command handler and its watchdog, and the whole: both buses with all their threads, each frame filtered,
  sent and logged in three separate steps, interleaved with packets from the network and the watchdog.
- `SnifferClient.dfy`, `KeepAlive.dfy`: the client library, and its heartbeat against the sniffer's watchdog over a
  network that delays and loses messages.
- `Params.dfy`, `MainService.dfy`: the key=value configuration, and the main loop that rebuilds the sniffer while another
  thread delivers new parameters.
- `TrafficTable.dfy`: the panel's rows, key map, message buffer and recorder.

Objects that the source updates in place are classes whose methods are proved against functions of the old state; the
threads are step systems over values; the properties are lemmas about those functions and about all runs.

What the proofs show that the code or its documentation does not say:

- Calling `start()` directly after an RX error, without `stop()`, frees the ring under the worker or overwrites a
  joinable handle. The supervised mode never does (`DirectStartFaultsExactlyWhenOpenedAgain`,
  `SupervisedStartFindsThreadsJoined`).
- `include/communication/CanbusProtocol.h:53` promises that rules of one id apply in the order they appear, but
  `std::sort` is not stable. The promise holds for a frame exactly when the rules that hit it agree
  (`ArrivalOrderHoldsExactlyWhenRulesAgree`).
- The eight-bit counters make the index exact up to 255 rules per id and no further; with 256 rules every frame of the
  id passes (`IndexIsExactUpTo255`, `WrappedCounterPassesEverything`). Over UDP this cannot happen: the receive path cuts
  datagrams at 4096 bytes, so a table arrives exactly when it has at most 157 rules (`FiltersArriveExactlyUpTo157`,
  `ReachableTablesAreExact`). The 64000-byte payload that the format allows is limited to 3944 in the same way.
- The watchdog decides under its lock and resets after it, and a command notes the connection before it notes the time.
  So a command can collide with a reset and leave logging on with the client counted as disconnected; the watchdog then
  never switches it off. This can happen to the very first command, if it comes more than 1500 ms after the start; in
  runs without a collision logging ends in time (`LoggingImpliesConnectedExactlyWithoutCollision`,
  `FirstCommandCollides`, `LoggingWithoutConnectionStays`, `WatchdogRace.LoggingEndsInTime`).
- A command with more than 3944 payload bytes, which the sniffer drops, still counts as sent and puts off the next
  heartbeat. A client that sends such commands often enough is taken for dead at any interval
  (`HeartbeatSufficesExactly`, `LargeCommandsFire`).
- A timeout only switches logging off; the rules stay (`RulesAreTheLastLoaded`), whatever `documentations/HLD.md:57` says
  of a reset. The timeout in the code is 1500 ms, not the 1 s of that document.
- The parameters have no lock and need none: the thread that changes them never runs while the main loop reads them
  (`CallbackHasASniffer`).

## Model

| member | source | states |
|---|---|---|
| Bytes.LittleEndianRoundTrip | include/base/CommunicationObj.hpp:330-331 | reading a stored little-endian number gives the number |
| Bytes.LittleEndianUnique | src/communication/UdpCanbusCommunication.cpp:108-110 | bytes that read as a number are the bytes that number is stored as |
| Bytes.BlendBits | src/sniffer/Sniffer.cpp:210-213 | the masked blend of two bytes, bit by bit: new where the mask is set, old elsewhere |
| Bytes.BitSum | src/sniffer/Sniffer.cpp:194-196 | a byte is the sum of its bits, each at its own weight |
| Bytes.AndBits | src/sniffer/Sniffer.cpp:194-196 | the masked byte of a condition, bit by bit: set where byte and mask are |
| CacheManager.BlockSize | include/base/CommunicationObj.hpp:281-283 | a block holds header and largest frame, is a multiple of four and wastes fewer than four bytes |
| CacheManager.BlockCount | include/base/CommunicationObj.hpp:284-285 | as many blocks as the requested size holds, and two where it holds fewer |
| CacheManager.DefaultRing | include/base/CommunicationObj.hpp:68 | with both defaults that is 15 blocks of 4100 bytes |
| CacheManager.AlignUp | include/base/CommunicationObj.hpp:293-296 | the aligned address is a multiple of 64 within the extra 64 bytes |
| CacheManager.Distance | include/base/CommunicationObj.hpp:313-327 | going that many blocks on from the tail, round the ring, leads to the head |
| CacheManager.Next | include/base/CommunicationObj.hpp:313 | the modulo step goes to the neighbouring block, round the end |
| CacheManager.StoreInBlock | include/base/CommunicationObj.hpp:329-332 | both stores of a push stay inside their block, which then holds the frame, and change no other block |
| CacheManager.IndexTests | include/base/CommunicationObj.hpp:315-327 | the two index tests are the capacity test: refuse the newest during a callback, evict the oldest otherwise |
| CacheManager.StoreKeeps | include/base/CommunicationObj.hpp:322-334 | with the head moved, and the tail too if it was reached, the blocks represent the queue after the push |
| CacheManager.PushKeeps | include/base/CommunicationObj.hpp:307-337 | the same down to the bytes of the allocation; only the head's block changed |
| CacheManager.TakeKeeps | include/base/CommunicationObj.hpp:357-362 | taking makes the oldest waiting frame the one in flight and leaves the others in order |
| CacheManager.CacheManager.constructor | include/base/CommunicationObj.hpp:269-298 | as many blocks as the requested size holds, at least two, all inside the allocation, the first at a 64-byte boundary; the queue is empty |
| CacheManager.CacheManager.WriteBlock | include/base/CommunicationObj.hpp:329-332 | writing stays inside the allocation and changes exactly header and payload of one block |
| CacheManager.CacheManager.Push | include/base/CommunicationObj.hpp:307-337 | a push on the ring is a push on the bounded queue; during a callback the block in use is not written and the tail stays |
| CacheManager.CacheManager.Take | include/base/CommunicationObj.hpp:349-363 | a take on the ring is a take on the queue, and the returned block is marked |
| CacheManager.CacheManager.Read | include/base/CommunicationObj.hpp:365-372 | what is read outside the lock is, byte for byte, the frame in flight |
| CacheManager.CacheManager.Release | include/base/CommunicationObj.hpp:374-378 | releasing ends the flight and nothing else |
| CommunicationRun.StepKeepsInv | include/base/CommunicationObj.hpp:90-206 | no step of any thread breaks the invariant of threads, ring and frame log |
| CommunicationRun.SupervisedStartFindsThreadsJoined | include/base/CommunicationObj.hpp:403-439 | in reconnectable mode, whatever the interleaving, every start finds both threads joined; no ring in use is freed |
| CommunicationRun.DirectStartFaultsExactlyWhenOpenedAgain | include/base/CommunicationObj.hpp:90-121 | called directly, the object is damaged if and only if some start opened the connection again before another call of stop |
| CommunicationRun.DirectRestartAfterErrorFaults | include/base/CommunicationObj.hpp:459-469 | a run in which that happens: start, read error, start |
| CommunicationRun.CallbacksAreFramesReadInOrder | include/base/CommunicationObj.hpp:340-380 | the callback gets frames that were read, unchanged, in reading order, each at most once |
| CommunicationRun.OfferedAreTheFramesRead | include/base/CommunicationObj.hpp:442-474 | the frames offered to the ring are exactly those read, in order, save one on its way |
| CommunicationRun.FramesAreConserved | include/base/CommunicationObj.hpp:307-380 | frames read = refused + evicted + queued + being taken + handed over + discarded at stop + freed with an old ring |
| CommunicationRun.OverflowPolicy | include/base/CommunicationObj.hpp:315-327 | in a callback at most N-2 frames wait and only the newest is refused; otherwise at most N-1 wait and only the oldest is evicted |
| CommunicationRun.BlockBeingProcessedIsStable | include/base/CommunicationObj.hpp:357-378 | in either mode, between take and release no step of any thread changes the frame in flight or frees its ring, short of the damage above |
| CommunicationRun.CallbackStep | include/base/CommunicationObj.hpp:369-372 | in either mode a callback begins exactly when a running worker goes on from a block it took, with that frame |
| CommunicationRun.OthersLeaveLiveWorker | include/base/CommunicationObj.hpp:476-484 | in either mode no other thread changes where a live worker stands |
| Supervision.SupervisedModeStarts | include/base/CommunicationObj.hpp:182-188 | reconnectable mode comes up: some run from the start reaches a running object with both threads in their loops over an empty ring |
| Supervision.FirstFrameReachesTheCallback | include/base/CommunicationObj.hpp:442-484 | and some run goes on until any given frame is read and handed to the callback |
| Supervision.SupervisorReconnects | include/base/CommunicationObj.hpp:403-425 | from every reachable state in which the link is down, steps of the supervisor alone bring it up again, if the open succeeds |
| Supervision.FailedOpenIsRetried | include/base/CommunicationObj.hpp:417-424 | an open that fails leaves the link down and the supervisor able to bring it up |
| Supervision.RunningMeansServed | include/base/CommunicationObj.hpp:476-484 | a running object outside start and stop has both threads in their loops on a ring, over every run |
| Supervision.OnlyErrorsAndTheOwnerStopIt | include/base/CommunicationObj.hpp:455-470 | only a read error or the owner's stop ends running; never the supervisor, the worker or a timeout |
| Supervision.StopLeavesNothing | include/base/CommunicationObj.hpp:126-176 | in either mode, when stop returns to its caller the object does not run and both threads are joined |
| Supervision.StoppedMeansJoined | include/base/CommunicationObj.hpp:193-206 | so in every reachable state in which reconnectable mode was left, the supervisor included |
| Supervision.StopCanReturn | include/base/CommunicationObj.hpp:193-206 | from every reachable state, whatever supervisor, RX thread and worker are doing, some run of the call of stop reaches its return |
| CanbusProtocol.EncodedFields | include/communication/CanbusProtocol.h:20-34 | every field of an encoded message lies at its offset in the packed header, and all other header bytes are zero |
| CanbusProtocol.DecodeEncoded | src/communication/UdpCanbusCommunication.cpp:93-137 | parsing an encoded message gives the command listener its command, time and payload, and the data listener the payload of command 0x1001 |
| CanbusProtocol.MessageWithMoreBehindIt | src/communication/UdpCanbusCommunication.cpp:93-116 | bytes behind a message are ignored up to the size of the struct; a longer packet is dropped |
| CanbusProtocol.ShortFormDeliversItsFrame | src/communication/UdpCanbusCommunication.cpp:138-150 | a `canf` packet gives the data listener its 72 frame bytes, if it has them, and the command listener nothing |
| CanbusProtocol.OtherPacketsDeliverNothing | src/communication/UdpCanbusCommunication.cpp:93-155 | a packet with neither magic delivers nothing |
| CanbusProtocol.CutMessageDeliversNothing | src/communication/UdpCanbusCommunication.cpp:93-137 | no proper prefix of a message delivers anything |
| CanbusProtocol.DeliveredCommandWasEncoded | src/communication/UdpCanbusCommunication.cpp:99-116 | whatever is delivered as a command is what the packet encodes, for any packet |
| CanbusProtocol.MessageArrivesExactlyWhenItFits | include/base/CommunicationObj.hpp:259-262 | through the 4096-byte receive path a message arrives if and only if its payload has at most 3944 bytes; else nothing does |
| CanbusProtocol.RuleRoundTrip | include/communication/CanbusProtocol.h:68-97 | a rule survives packing into 25 bytes and back |
| CanbusProtocol.RuleFields | include/communication/CanbusProtocol.h:68-97 | every field of a rule lies at its offset in the 25 bytes |
| CanbusProtocol.RulesRoundTrip | src/sniffer/Sniffer.cpp:119-128 | so does a table of rules |
| CanbusProtocol.DecodedRuleAt | src/sniffer/Sniffer.cpp:76-77 | rule i of the table is read from bytes 25 i to 25 i + 25 |
| FilterRules.MaskedIdIsMask | src/sniffer/Sniffer.cpp:162 | the remainder by 2048 of a stored id is its little-endian word masked with 0x7FF |
| FilterRules.ModifyReplacesMaskedBits | include/communication/CanbusProtocol.h:92-96 | MODIFY changes exactly the masked bits of the first eight data bytes |
| FilterRules.FittingRuleDecides | src/sniffer/Sniffer.cpp:173-217 | the first rule decides a frame of its id and direction that meets its condition: 1 means towards the system, 2 towards the car, anything else both; action 1 drops, 2 changes, anything else passes |
| FilterRules.OtherRuleIsSkipped | src/sniffer/Sniffer.cpp:173-197 | a rule for another id, direction or byte value might as well not be in the table |
| FilterRules.OnlyAimedRulesDecide | src/sniffer/Sniffer.cpp:174-181 | leaving out all rules aimed the other way changes no verdict: those for the car never decide a frame from the computer, those for the system none from the system |
| FilterRules.ScanIsFirstHitInGroup | src/sniffer/Sniffer.cpp:169-219 | a scan of the whole table is first match among the rules of the id |
| FilterRules.StableSortSorts | src/sniffer/Sniffer.cpp:135-139 | a stable sort exists, permutes, orders by masked id and keeps each id's order |
| FilterRules.StableSortKeepsVerdict | src/sniffer/Sniffer.cpp:135-139 | with a stable sort the verdict is always that of the arrival order |
| FilterRules.AgreeingRulesSurviveAnySort | src/sniffer/Sniffer.cpp:135-139 | with any sort it is, if the rules that hit the frame agree |
| FilterRules.AnyHitCanComeFirst | src/sniffer/Sniffer.cpp:135-139 | any rule that hits may be the one an unstable sort puts first |
| FilterRules.ArrivalOrderHoldsExactlyWhenRulesAgree | include/communication/CanbusProtocol.h:53 | the documented order of application holds for every sort result if and only if the rules that hit agree |
| FilterRules.UnstableSortExample | include/communication/CanbusProtocol.h:53 | two rules of one id, DROP before PASS, for which it does not hold |
| FilterEngine.GroupIsRun | src/sniffer/Sniffer.cpp:141-152 | in the sorted table the rules of an id are one contiguous run |
| FilterEngine.NumEqualIsGroupSize | src/sniffer/Sniffer.cpp:151 | the number counted for an id is the number of its rules |
| FilterEngine.IndexNext | src/sniffer/Sniffer.cpp:144-151 | indexing one more rule keeps pointer and eight-bit counter exact, wrap-around included |
| FilterEngine.IndexIsExactUpTo255 | src/sniffer/Sniffer.cpp:83-86 | pointer and counter describe exactly the rules of an id if and only if there are at most 255 |
| FilterEngine.QueryIsLinearScan | src/sniffer/Sniffer.cpp:155-220 | then a query gives the verdict and bytes of a linear scan |
| FilterEngine.WrappedCounterPassesEverything | src/sniffer/Sniffer.cpp:164-167 | a counter that wrapped to zero lets every frame of its id pass |
| FilterEngine.OverfullIdExample | src/sniffer/Sniffer.cpp:141-152 | 256 rules that drop an id let its frames pass |
| FilterEngine.FilterEngine.InitInternal | src/sniffer/Sniffer.cpp:91-97 | no rules, no pointers, no counts |
| FilterEngine.FilterEngine.LoadRules | src/sniffer/Sniffer.cpp:105-153 | the table is the sorted rules of the payload, and the index is that of the table |
| FilterEngine.FilterEngine.BuildLookup | src/sniffer/Sniffer.cpp:141-152 | the indexing loop produces the index of the whole table |
| FilterEngine.FilterEngine.Process | src/sniffer/Sniffer.cpp:155-220 | pass or drop and the data bytes are those of first match over the indexed rules; other bytes stay |
| FilterEngine.Matches | src/sniffer/Sniffer.cpp:173-197 | the tests of one rule are its direction and byte condition, which FittingRuleDecides and OtherRuleIsSkipped pin by target, source and bits |
| FilterEngine.Act | src/sniffer/Sniffer.cpp:199-217 | the action of one rule on the data in place |
| FilterEngine.Modify | src/sniffer/Sniffer.cpp:208-215 | the MODIFY loop changes the first min(8, len) bytes by the mask and no byte outside the data |
| Sniffer.JudgeChangesDataOnly | src/sniffer/Sniffer.cpp:472-492 | filtering keeps length, id and everything behind the data; a blocked frame keeps every byte |
| Sniffer.JudgedByIdAndData | src/sniffer/Sniffer.cpp:472-492 | a frame put together from its fields is judged by its id and data, and comes out with only its data changed |
| Sniffer.Sniffer.HandleCanData | src/sniffer/Sniffer.cpp:454-552 | a frame is filtered, sent to the other bus if passed, then logged under the code of verdict and source |
| Sniffer.Sniffer.Filter | src/sniffer/Sniffer.cpp:472-492 | the copy in the local buffer is filtered as the frame is |
| Sniffer.Sniffer.OnCommandReceived | src/sniffer/Sniffer.cpp:554-660 | each command's whole effect on rules, buses, logging, connection and replies; parameter commands are handed on |
| Sniffer.Sniffer.SetLoggingState | src/sniffer/Sniffer.cpp:681-689 | logging is as asked |
| Sniffer.Sniffer.WatchdogTick | src/sniffer/Sniffer.cpp:691-728 | after more than 1500 ms of silence logging and connection go off; rules and traces stay |
| Watchdog.TablesStaySorted | src/sniffer/Sniffer.cpp:135-139 | the table is sorted in every state of every run |
| Watchdog.LoggingImpliesConnected | src/sniffer/Sniffer.cpp:566-580 | with a command and a tick one step each, logging is on only while connected, over every run |
| Watchdog.LoggingEndsInTime | src/sniffer/Sniffer.cpp:691-720 | logging is off at the latest 1500 ms and one tick period after the last external message |
| Watchdog.LoggingAndConnectionExactly | src/sniffer/Sniffer.cpp:566-633 | over every run logging and connection are exactly what messages and ticks say: on and off by commands 0x1004, 0x1005 and 0x1008, off by a tick more than 1500 ms after the last message |
| Watchdog.TickResetsExactlyWhenOverdue | src/sniffer/Sniffer.cpp:698-720 | a tick changes a sniffer exactly when it is connected and its last message is more than 1500 ms old, and then switches logging and connection off and nothing else |
| Watchdog.LoggingStaysAsAsked | src/sniffer/Sniffer.cpp:600-640 | while no tick comes more than 1500 ms after a message, logging is what the last command asked for |
| Watchdog.RulesAreTheLastLoaded | src/sniffer/Sniffer.cpp:722-728 | the table is always the last one loaded; no tick changes it |
| WatchdogRace.LoggingImpliesConnectedExactlyWithoutCollision | src/sniffer/Sniffer.cpp:566-720 | with the code's own step boundaries, in every run from the start, logging implies connected in all states if and only if no switch-on command collides with a reset (connects before its disconnect, acts after its clearing, and is not undone in between) |
| WatchdogRace.CollisionBreaksIt | src/sniffer/Sniffer.cpp:713-718 | such a collision always leads to a state with logging on and no connection |
| WatchdogRace.OnlyACollisionBreaksIt | src/sniffer/Sniffer.cpp:713-718 | every such state of a run goes back to a collision |
| WatchdogRace.LoggingEndsInTime | src/sniffer/Sniffer.cpp:691-720 | with the code's own step boundaries and no collision, a look that finds logging on comes at the latest 1500 ms and one period after the last message, and resets if it comes more than 1500 ms after |
| WatchdogRace.FirstCommandCollides | src/sniffer/Sniffer.cpp:566-580 | it happens from the start: the first command after more than 1500 ms is noted as a connection before its time is |
| WatchdogRace.LoggingWithoutConnectionStays | src/sniffer/Sniffer.cpp:701-710 | from there logging stays on without a connection until the next command |
| WatchdogRace.CommandSteps | src/sniffer/Sniffer.cpp:566-640 | the three steps of a command add up to the sniffer's command handler, whatever the command |
| WatchdogRace.TurnSteps | src/sniffer/Sniffer.cpp:698-720 | the three steps of a turn add up to the watchdog's |
| Bridge.RunOnBus | include/base/CommunicationObj.hpp:340-380 | seen from one bus, a run of the whole is a run of that bus's threads |
| Bridge.DeliveredFits | include/base/CommunicationObj.hpp:259-262 | no command reaching the sniffer by UDP carries more than 3944 bytes |
| Bridge.IndexedJudgeIsScan | src/sniffer/Sniffer.cpp:491-492 | for every reachable table filtering by index is filtering by linear scan |
| Bridge.JudgingIsNeverBlocked | src/sniffer/Sniffer.cpp:472-492 | in every run a frame given to the callback can be filtered at once |
| Bridge.ReachableTablesAreExact | src/sniffer/Sniffer.cpp:86-151 | every table reachable over the network is sorted, has at most 157 rules and an exact index for every id |
| Bridge.FiltersArriveExactlyUpTo157 | src/sniffer/Sniffer.cpp:582-585 | a table a client sends arrives, whole and decoded unchanged, if and only if it has at most 157 rules |
| Bridge.StepKeepsInv | src/sniffer/Sniffer.cpp:454-660 | every interleaved step keeps lanes, judgements, bus traces and log in agreement |
| Bridge.TableInForceIsTheLastReceived | src/sniffer/Sniffer.cpp:582-585 | over every run the table in force is a sort of the rules in the last filter payload received, or the first one if there was none |
| Bridge.RunJudges | src/sniffer/Sniffer.cpp:491-492 | what a lane has judged is what the steps of the run judged, each frame by a scan of the table in force at that step |
| Bridge.BridgedFramesAreFilteredFramesRead | src/sniffer/Sniffer.cpp:454-504 | over every run the frames judged are a subsequence of the frames read, each judged once by first match in the table then in force, and the frames bridged are exactly the images of those that passed, in order |
| Bridge.EveryCallbackIsJudged | src/sniffer/Sniffer.cpp:454-492 | in a run that was not stopped every frame given to the callback is judged, in order, save the one it may just have been given |
| Bridge.HandlingSteps | src/sniffer/Sniffer.cpp:454-552 | undisturbed, filtering, sending and logging add up to the sniffer's handler |
| Bridge.NothingBeginsAfterStopping | src/sniffer/Sniffer.cpp:470 | once stopping has begun no frame is judged, no table loaded, nothing injected and logging not switched on |
| Bridge.OtherFramesAreInjections | src/sniffer/Sniffer.cpp:592-599 | all other frames on a bus are the payloads of its injection commands, in order |
| Bridge.LoggedPartOfARun | src/sniffer/Sniffer.cpp:506-550 | in a part of a run in which no frame of a side goes unlogged, each judgement made is reported once, in order |
| Bridge.LogMirrorsTheBridge | src/sniffer/Sniffer.cpp:506-550 | there the judged frames are frames read; messages 0x2001 (0x2002) carry exactly the frames of the system (computer) sent on meanwhile, in order, and 0x2003 (0x2004) its stopped frames as read |
| Bridge.NothingIsReportedUnlogged | src/sniffer/Sniffer.cpp:506 | while logging is off no frame is reported |
| Bridge.StatusesAnswerHeartbeats | src/sniffer/Sniffer.cpp:600-633 | over every run the status replies are the answers to the complete heartbeats received, in order, each with the logging asked for |
| Bridge.MarkMovesOnlyWhenUnlogged | src/sniffer/Sniffer.cpp:506 | the count of what was reported starts anew only at a frame handled while logging was off |
| SnifferClient.SnifferClient.SendRawCommand | external_server/src/sniffer_client.cpp:96-119 | filling the zeroed struct field by field produces the encoded message, and the send time is noted |
| SnifferClient.SnifferClient.SetLoggingEnabled | external_server/src/sniffer_client.cpp:82-86 | the wish is kept and its command sent |
| SnifferClient.SnifferClient.KeepAlive | external_server/src/sniffer_client.cpp:232-265 | one turn sends a heartbeat exactly when an interval has passed since the last send, sleeps for the rest of it, and notes a lost connection |
| SnifferClient.SnifferClient.OnCommandReceived | external_server/src/sniffer_client.cpp:186-229 | log and parameter messages are queued in order, others are not |
| SnifferClient.QueuedAreLogsAndParameters | external_server/src/sniffer_client.cpp:186-229 | queued are exactly commands 0x2001 to 0x2004 and 0x2006 |
| SnifferClient.SnifferClient.OnDataReceived | external_server/src/sniffer_client.cpp:148-173 | raw data are queued exactly when they are one CAN FD frame |
| SnifferClient.SnifferClient.ReadMessage | external_server/src/sniffer_client.cpp:121-145 | reading takes the oldest message and none only if there is none |
| KeepAlive.ArrivesExactlyUpTo | include/base/CommunicationObj.hpp:259-262 | a message from the client gets through if and only if its payload has at most 3944 bytes |
| KeepAlive.StepKeepsInv | external_server/src/sniffer_client.cpp:232-265 | every step of client, user, network and watchdog keeps the bounds on sends and messages under way, if no command is too large |
| KeepAlive.ClientIsNeverSilentForLong | external_server/src/sniffer_client.cpp:248-263 | whatever the user sends in between, two sends are never more than interval and overshoot apart |
| KeepAlive.HeartbeatsAreSpaced | external_server/src/sniffer_client.cpp:248-263 | left alone, the client's sends are at least an interval apart |
| KeepAlive.SilenceIsBounded | src/sniffer/Sniffer.cpp:577-580 | over every run a sniffer that has heard from its client goes on hearing from it within (k+1) such gaps plus the jitter, for k losses in a row and payloads of at most 3944 bytes |
| KeepAlive.HeartbeatSufficesExactly | src/sniffer/Sniffer.cpp:691-711 | whatever the user does, the watchdog never fires for a live client it has heard from if and only if (k+1)(interval+overshoot)+jitter is at most 1500 ms and no command has more than 3944 payload bytes |
| KeepAlive.FalseAlarmsAreAtTheFirstMessage | src/sniffer/Sniffer.cpp:566-580 | under that bound a look can only time out between the two steps of the first message, before any message was heard, and once at most |
| KeepAlive.FirstMessageCanRace | src/sniffer/Sniffer.cpp:566-580 | there it can, at any interval |
| KeepAlive.SlowHeartbeatFires | src/sniffer/Sniffer.cpp:704-709 | beyond that time some run makes it fire |
| KeepAlive.LargeCommandsFire | external_server/src/sniffer_client.cpp:115-118 | with larger commands some run does for every interval: they count as sent, put off every heartbeat, and never arrive |
| KeepAlive.KeepAliveSyncsLogging | src/sniffer/Sniffer.cpp:600-633 | an encoded heartbeat that arrives connects the sniffer, sets logging to the client's wish and is answered with it |
| KeepAlive.SwitchCommandSwitchesLogging | external_server/src/sniffer_client.cpp:82-86 | an encoded switch command that arrives sets logging as asked |
| KeepAlive.TimesOutLikeTheSniffer | src/sniffer/Sniffer.cpp:698-720 | the model's watchdog times out exactly when a turn of the sniffer's changes it |
| Params.FittingIsPrefix | include/utils/Params.hpp:95-121 | the entries printed fit the buffer with its final zero, and one more would not |
| Params.PrintedFits | include/utils/Params.hpp:60-63 | a printed entry is one line of at most 287 characters and its newline |
| Params.SavedFileLines | include/utils/Params.hpp:43-47 | the 320-byte reader gets each saved line whole |
| Params.ApplyPrinted | include/utils/Params.hpp:154-210 | parsing a printed entry sets its key to the normal form of its value |
| Params.LoadAfterSave | include/utils/Params.hpp:33-65 | loading what was saved gives every value its normal form, whatever was there before |
| Params.SaveLoadRoundTrip | include/utils/Params.hpp:33-65 | for canonical values loading what was saved is the identity |
| Params.AllIsLongestPrefix | include/utils/Params.hpp:95-121 | `getAll` prints whole entries, the longest prefix that fits |
| Params.AllIsEverything | include/utils/Params.hpp:95-121 | and all of them where there are 288 characters for each |
| Params.UpdateWithAllIsIdentity | include/utils/Params.hpp:67-71 | updating with what `getAll` printed changes nothing |
| Params.PrintedEntriesAreCreated | include/utils/Params.hpp:129-152 | parsed into an empty table, a printed one is recreated |
| Params.KeysNeverChange | include/utils/Params.hpp:176-209 | neither an update nor a file adds, removes or renames a key |
| Params.StoredValuesAreStorable | include/utils/Params.hpp:187-199 | whatever the input, stored values have no newline and at most 255 characters |
| Params.OneRoundShrinks | include/utils/Params.hpp:163-172 | a save and load round leaves a value unchanged or makes it shorter |
| Params.RoundsReachCanonical | include/utils/Params.hpp:154-222 | from any stored values 255 rounds reach canonical ones under the same keys, and nothing changes after |
| Params.Params.constructor | include/utils/Params.hpp:21-31 | defaults create the entries and a file overrides their values |
| Params.Params.Load | include/utils/Params.hpp:33-49 | the reading loop applies the file's lines in order |
| Params.Params.Save | include/utils/Params.hpp:51-65 | the printing loop prints all entries |
| Params.Params.Update | include/utils/Params.hpp:67-71 | the text is applied to existing keys and the result saved |
| Params.Params.Get | include/utils/Params.hpp:73-83 | the value of the first entry with the key, or none |
| Params.Params.GetAll | include/utils/Params.hpp:95-121 | the loop prints the longest fitting prefix |
| Params.Params.ParseAndSet | include/utils/Params.hpp:129-152 | the splitting loop applies the text's lines in order, each cut to 319 characters |
| Params.Params.ParseLine | include/utils/Params.hpp:154-210 | one line sets, creates or leaves exactly one entry |
| Params.QuotedValue | include/utils/Params.hpp:160-173 | in quotes, with blanks around them or not, a value is read exactly as it stands |
| Params.PlainlyWrittenValue | include/utils/Params.hpp:212-222 | without quotes it is read without the blanks around it |
| Params.LineSetsItsKey | include/utils/Params.hpp:176-192 | a line with a known key, with blanks around it or not, sets the first entry of that key to its value, cut to 255 characters, and nothing else |
| Params.LineCreatesItsKey | include/utils/Params.hpp:193-209 | with an unknown key it adds an entry where that is asked for and there are fewer than 512, and changes nothing otherwise |
| Params.OtherLinesAreIgnored | include/utils/Params.hpp:156-174 | a line without an equals sign or with only blanks before it changes nothing |
| Params.FirstTextLine | include/utils/Params.hpp:129-152 | a text is read line by line, each cut to 319 characters |
| Params.FileIsReadInPieces | include/utils/Params.hpp:43-47 | a file is read completely, in pieces of at most 319 characters that end at a newline, when they are full, or at the end of the file |
| MainService.StepKeepsInv | src/core/MainService.cpp:390-420 | every interleaving of main loop and callback keeps the restart invariant |
| MainService.NoUpdateIsLost | src/core/MainService.cpp:398-445 | if no restart is due and no update is half done, the sniffer was built from the start parameters with every accepted update applied in order |
| MainService.RestartsNeedUpdates | src/core/MainService.cpp:407-414 | there are never more restarts than accepted updates |
| MainService.CallbackHasASniffer | src/core/MainService.cpp:428-455 | neither an update nor a request, which is answered through the sniffer, ever runs beside a missing or destroyed sniffer or while the parameters are read; after the loop nothing is left |
| MainService.RestartIsAnswered | src/core/MainService.cpp:398-415 | wherever the loop stands when a restart is requested, its own steps lead to a sniffer built from the parameters as they then are |
| MainService.UpdateRequestsRestart | src/core/MainService.cpp:428-445 | an update applies its text up to the first zero and requests a restart |
| MainService.StoppedServiceLeaves | src/core/MainService.cpp:416-426 | once told to stop, the loop's own steps lead out of it, with no sniffer and no thread left |
| MainService.ConfigurationStaysComplete | src/core/MainService.cpp:474-494 | whatever file and updates contain, all six keys stay, can be saved, and give a sniffer all its values |
| MainService.RepliesAreComplete | src/core/MainService.cpp:446-453 | the reply to a parameter request always holds all of them and fits into one datagram |
| MainService.DefaultsParse | src/core/MainService.cpp:20-26 | the default text sets exactly the six keys a sniffer is built from |
| MainService.TurnsAreMainSteps | src/core/MainService.cpp:398-415 | undisturbed, the main loop's steps add up to creating from the present parameters, and to destroying and clearing |
| MainService.MainService.Begin | src/core/MainService.cpp:390-396 | starting twice does nothing; otherwise parameters come from defaults and file |
| MainService.MainService.BeforeSleep | src/core/MainService.cpp:400-403 | a missing sniffer is built from the present parameters, a present one kept |
| MainService.MainService.AfterSleep | src/core/MainService.cpp:407-414 | a requested restart destroys the sniffer and clears the request |
| MainService.MainService.OnSystemCommand | src/core/MainService.cpp:428-455 | a non-empty update is applied and requests a restart; a request is answered; anything else changes nothing |
| MainService.MainService.CreateSniffer | src/core/MainService.cpp:457-509 | the six values are read and an existing sniffer is left alone |
| MainService.MainService.DestroySniffer | src/core/MainService.cpp:532-558 | no sniffer is left |
| TrafficTable.GroupNeedsMember | external_server/python/gui/reverse_engineering.py:543-545 | a key has messages only if some message of the buffer has that key |
| TrafficTable.CountedRowShows | external_server/python/gui/reverse_engineering.py:545-550 | counting a message in its row keeps the table a grouping of the buffer |
| TrafficTable.InsertedKeepsOrder | external_server/python/gui/reverse_engineering.py:564-584 | inserting before the first greater row keeps strict order by id and PID |
| TrafficTable.NewRowShows | external_server/python/gui/reverse_engineering.py:551-553 | a new row for a new key keeps the table a grouping of the buffer |
| TrafficTable.RowDependsOnOwnConfig | external_server/python/logic/profile_manager.py:69-84 | a row is the same under every configuration that agrees on its id |
| TrafficTable.TableIsUnique | external_server/python/gui/reverse_engineering.py:472-480 | buffer and configuration determine the table, so the incremental and the rebuilt one agree |
| TrafficTable.CountsAddUp | external_server/python/gui/reverse_engineering.py:545-553 | the counts of all rows add up to the length of the buffer |
| TrafficTable.RowsAreInOrder | external_server/python/gui/reverse_engineering.py:555-584 | rows are ordered by id; in one id the row without PID comes first and the others by PID |
| TrafficTable.RowsSummariseTheBuffer | external_server/python/gui/reverse_engineering.py:545-553 | a row counts the messages of its key and shows direction and data of the last of them and the protocol of its id |
| TrafficTable.GroupedBy | external_server/python/logic/profile_manager.py:69-84 | messages are grouped by id and, where the configuration says so, one byte: byte 2 for the four diagnostic ids without a configuration, none for the others |
| TrafficTable.GroupedAfterChange | external_server/python/logic/profile_manager.py:14-20 | the same after choosing a protocol or switching the PID on or off |
| TrafficTable.ToggleTwiceRestores | external_server/python/gui/reverse_engineering.py:386-390 | toggling the PID grouping of an id twice restores the table |
| TrafficTable.Recorder.AddMessage | external_server/python/logic/recorder.py:17-29 | a message is appended exactly below the limit; otherwise the flag is set |
| TrafficTable.Recorder.Clear | external_server/python/logic/recorder.py:13-15 | empty, flag cleared |
| TrafficTable.SubsequenceHasPlaces | external_server/python/gui/reverse_engineering.py:482-502 | the recorder's messages stand in the buffer, in the same order |
| TrafficTable.ReverseEngineeringPanel.constructor | external_server/python/gui/reverse_engineering.py:34-44 | an empty panel is valid |
| TrafficTable.ReverseEngineeringPanel.OnMessage | external_server/python/gui/reverse_engineering.py:482-502 | a message the recorder refuses changes nothing else; any other is buffered, recorded and shown |
| TrafficTable.ReverseEngineeringPanel.LoadRecording | external_server/python/gui/reverse_engineering.py:130-170 | after a confirmed load the buffer is the file, the recorder its prefix up to the limit, the table its grouping |
| TrafficTable.ReverseEngineeringPanel.LoadRow | external_server/python/gui/reverse_engineering.py:159-169 | a loaded message is buffered and shown even where the recorder refuses it |
| TrafficTable.ReverseEngineeringPanel.ClearTable | external_server/python/gui/reverse_engineering.py:464-470 | rows, map, buffer and recorder are empty |
| TrafficTable.ReverseEngineeringPanel.RefreshTable | external_server/python/gui/reverse_engineering.py:472-480 | the rebuilt table groups the buffer, and is the old one if that did too |
| TrafficTable.ReverseEngineeringPanel.SetProtocol | external_server/python/gui/reverse_engineering.py:375-384 | the id gets the protocol's defaults and the table follows |
| TrafficTable.ReverseEngineeringPanel.ToggleHasPid | external_server/python/gui/reverse_engineering.py:386-390 | PID grouping of the id is switched and the table follows |
| TrafficTable.ReverseEngineeringPanel.AskPidIndex | external_server/python/gui/reverse_engineering.py:392-400 | a confirmed index is stored and the table follows; a cancelled dialog changes nothing |
| TrafficTable.ReverseEngineeringPanel.LoadProfile | external_server/python/gui/reverse_engineering.py:181-185 | a loaded profile replaces the configuration and the table follows |
| TrafficTable.ReverseEngineeringPanel.StartLogging | external_server/python/main.py:181-186 | a new limit applies and the flag is cleared |
| TrafficTable.ReverseEngineeringPanel.UpdateUiRow | external_server/python/gui/reverse_engineering.py:504-553 | rows that group some messages group them and one more; the map leads to exactly the rows |
| TrafficTable.ReverseEngineeringPanel.InsertSorted | external_server/python/gui/reverse_engineering.py:555-586 | the search loop finds the place, and the new row is entered in the map |

## Left out

- CacheManager.CacheManager.constructor: block numbers fit the `int32_t` they are cast to; a failing `malloc` and overflow of `size_t` are not modelled.
- Supervision.StopCanReturn: promises that `stop()` can return, not that it does. `notifyStop` signals without the mutex, so a wake-up may be missed; the model lets a waiting worker go on but does not promise that it does.
- Supervision.SupervisorReconnects: the time between two attempts and the status notices to the listener are left out.
- CommunicationRun.DirectStartFaultsExactlyWhenOpenedAgain: a fault ends the model's run; what the program does after freeing a ring in use is undefined.
- CommunicationRun.OfferedAreTheFramesRead: `read` is any sequence of results; sockets, SocketCAN, poll and the device files behind it are not modelled.
- CanbusProtocol.DecodeEncoded: the timestamp, a `double`, is eight opaque bytes; payloads are at most 64000 bytes, as the struct has room for no more.
- FilterEngine.FilterEngine.LoadRules: the result of `std::sort` is a parameter, required only to be a permutation ordered by masked id; the bytes of a last, partial rule that the copy leaves behind the table are not modelled, since no query reads them.
- Sniffer.Sniffer.HandleCanData: frames are 16 to 72 bytes long with a data length that fits, as the CAN interfaces deliver them.
- Sniffer.Sniffer.OnCommandReceived: a status reply is reduced to its logging flag; the status text is left out.
- Bridge.StepKeepsInv: one command with its effects is one step here, and so is a turn of the watchdog; `WatchdogRace.dfy` takes both apart.
- SnifferClient.SnifferClient.SendRawCommand: payloads are at most 64000 bytes, the room in the struct; the source does not handle longer ones.
- SnifferClient.SnifferClient.KeepAlive: the clock and the time stamps are read in one step; in the program a message received between the two makes the unsigned difference wrap.
- SnifferClient.SnifferClient.ReadMessage: the wait for a message with its timeout is left out.
- KeepAlive.HeartbeatSufficesExactly: a reset of the watchdog is one step here; `WatchdogRace.dfy` takes it apart. The interval is at least 1 ms, and the client starts with nothing sent for an interval.
- Params.Params.constructor: the file that is created from the defaults when none exists is not a result of the constructor; its contents are those of `Save`.
- Params.Params.Load: a zero character inside a file, which would end the line for the C functions, is not modelled.
- MainService.MainService.CreateSniffer: a sniffer is represented by the six values it is built from; splitting them into interface, USB id and LED name, and converting the ports to 16 bits, are left out.
- MainService.MainService.DestroySniffer: stopping and joining the sniffer's threads are steps of the step system, not of this method; the USB watchdogs are left out.
- MainService.NoUpdateIsLost: the threads of `Sniffer` other than that of the external service do not touch the configuration and are not part of this step system.
- SnifferClient.SnifferClient.OnCommandReceived: the status text of a heartbeat reply is not kept.
- TrafficTable.ReverseEngineeringPanel.UpdateUiRow: decoded values, the hexadecimal text of the cells and the automatic decoder for OBD2 are left out; PID indices are natural numbers, as the dialog returns them.
- TCP transport: it treats one read as one message, and its parser repeats the UDP one.
- USB watchdog, LED files, `slcand`, status text, time formatting, the emulators, the OBD formulas, the Python decoders, the Android client and the settings dialogs: input and output or single expressions.
- The interface name with a single `#`: code and documentation disagree, and it is easy string slicing.
