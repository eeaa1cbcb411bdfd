/** The main loop that builds and destroys the sniffer, against the thread that delivers new parameters. */
module MainService {
  import opened CanbusProtocol
  import opened Params
  import opened Wrappers

  // ---- Configuration ----

  const DEFAULT_PARAMS: string :=
    "car_system_can_name=vcan0\n" +
    "car_computer_can_name=vcan1\n" +
    "car_system_baudrate=s6\n" +
    "car_computer_baudrate=s6\n" +
    "external_service_port=9095\n" +
    "external_client_port=9096\n"

  const DEFAULT_ENTRIES: seq<Entry> :=
    [Entry("car_system_can_name", "vcan0"), Entry("car_computer_can_name", "vcan1"),
     Entry("car_system_baudrate", "s6"), Entry("car_computer_baudrate", "s6"),
     Entry("external_service_port", "9095"), Entry("external_client_port", "9096")]

  /** What a sniffer is built from, in the order in which the values are read. */
  const CONFIG_KEYS: seq<string> :=
    ["car_system_can_name", "car_computer_can_name", "car_system_baudrate", "car_computer_baudrate",
     "external_service_port", "external_client_port"]

  const REPLY_SIZE: nat := 16384

  type Config = seq<Option<string>>

  function Value(entries: seq<Entry>, key: string): Option<string> {
    var i := Find(entries, key);
    if i < |entries| then Some(entries[i].value) else None
  }

  function ConfigOf(entries: seq<Entry>): (config: Config)
    ensures |config| == |CONFIG_KEYS| && forall i :: 0 <= i < |config| ==> config[i] == Value(entries, CONFIG_KEYS[i])
  {
    seq(|CONFIG_KEYS|, i requires 0 <= i < |CONFIG_KEYS| => Value(entries, CONFIG_KEYS[i]))
  }

  /** A C string ends at its first zero. */
  function CString(data: string): (text: string)
    ensures text <= data && '\0' !in text && (|text| < |data| ==> data[|text|] == '\0')
  {
    data[..IndexOf(data, '\0')]
  }

  /** The parameters after all `texts` were applied in turn. */
  function AllUpdates(entries: seq<Entry>, texts: seq<string>): seq<Entry> {
    if texts == [] then entries else Updated(AllUpdates(entries, texts[..|texts| - 1]), texts[|texts| - 1])
  }

  // ---- The two threads ----

  datatype Main =
    | LoopTop
    | Creating(read: Config)      // inside createSniffer, these values read so far
    | Starting                    // the sniffer exists, its threads do not yet
    | Sleeping
    | Joining(leaving: bool)      // inside destroySniffer, waiting for the sniffer's threads
    | Deleting(leaving: bool)
    | Clearing                    // about to clear the restart flag
    | Exited

  /** The thread of the external service, which calls `onSystemCommand`. */
  datatype Callback = Idle | Updating(text: string) | Flagging | Replying

  datatype State = State(
    params: seq<Entry>,
    sniffer: Option<Config>,      // what the present sniffer was built from
    listening: bool,              // the thread of the external service exists
    restart: bool,
    running: bool,
    main: Main,
    callback: Callback,
    texts: seq<string>,           // the updates accepted so far
    restarts: nat)                // how often the flag was cleared

  datatype Event =
    | MainStep(serviceStarts: bool)
    | SetParams(data: string)     // the command arrives
    | GetParams                   // so does the request, which is answered through the sniffer
    | CallbackStep
    | Stop

  function Init(params: seq<Entry>): State {
    State(params, None, false, false, true, LoopTop, Idle, [], 0)
  }

  predicate Enabled(s: State, e: Event) {
    match e
    case MainStep(_) => !s.main.Exited? && (s.main.Joining? ==> s.callback.Idle?)
    case SetParams(data) => s.listening && s.callback.Idle? && data != []
    case GetParams => s.listening && s.callback.Idle?
    case CallbackStep => !s.callback.Idle?
    case Stop => true
  }

  function MainNext(s: State, serviceStarts: bool): State {
    match s.main
    case LoopTop =>
      s.(main := if !s.running then Joining(true) else if s.sniffer.None? then Creating([]) else Sleeping)
    case Creating(read) =>
      if |read| < |CONFIG_KEYS| then s.(main := Creating(read + [Value(s.params, CONFIG_KEYS[|read|])]))
      else s.(sniffer := Some(read), main := Starting)
    case Starting => s.(listening := serviceStarts, main := Sleeping)
    case Sleeping => s.(main := if s.restart then Joining(false) else LoopTop)
    case Joining(leaving) => s.(listening := false, main := Deleting(leaving))
    case Deleting(leaving) => s.(sniffer := None, main := if leaving then Exited else Clearing)
    case Clearing => s.(restart := false, restarts := s.restarts + 1, main := LoopTop)
    case Exited => s
  }

  function Next(s: State, e: Event): State {
    match e
    case MainStep(serviceStarts) => MainNext(s, serviceStarts)
    case SetParams(data) => s.(callback := Updating(CString(data)))
    case GetParams => s.(callback := Replying)
    case CallbackStep =>
      (match s.callback
       case Updating(text) => s.(params := Updated(s.params, text), texts := s.texts + [text], callback := Flagging)
       case Flagging => s.(restart := true, callback := Idle)
       case Replying => s.(callback := Idle)
       case Idle => s)
    case Stop => s.(running := false)
  }

  ghost predicate IsRun(s: State, events: seq<Event>)
    decreases events
  {
    events == [] || (Enabled(s, events[0]) && IsRun(Next(s, events[0]), events[1..]))
  }

  function After(s: State, events: seq<Event>): State
    decreases events
  {
    if events == [] then s else After(Next(s, events[0]), events[1..])
  }

  // ---- Invariant ----

  ghost predicate ThreadInv(s: State) {
    && (s.callback.Idle? || s.listening)
    && (s.listening ==> s.sniffer.Some?)
    && (s.main.Creating? || s.main.Clearing? || s.main.Exited? ==> s.sniffer.None?)
    && (s.main.Starting? ==> s.sniffer.Some? && !s.listening)
    && (s.main.Sleeping? ==> s.sniffer.Some?)
    && (s.main.Deleting? ==> !s.listening)
    && (s.main == Joining(true) || s.main == Deleting(true) || s.main.Exited? ==> !s.running)
  }

  ghost predicate ConfigInv(s: State) {
    && (s.main.Creating? ==> s.main.read <= ConfigOf(s.params))
    && (s.sniffer.Some? ==> s.sniffer.value == ConfigOf(s.params) || s.restart || s.callback.Flagging?)
  }

  /** The flag was set by an update that no restart has answered yet. */
  ghost predicate FlagInv(s: State) {
    && (s.main.Clearing? || s.main == Joining(false) || s.main == Deleting(false) ==> s.restart)
    && s.restarts + (if s.restart || s.callback.Flagging? then 1 else 0) <= |s.texts|
  }

  ghost predicate Inv(s: State, initial: seq<Entry>) {
    ThreadInv(s) && ConfigInv(s) && FlagInv(s) && s.params == AllUpdates(initial, s.texts)
  }

  lemma MainStepKeepsConfigInv(s: State, serviceStarts: bool)
    requires ThreadInv(s) && ConfigInv(s) && FlagInv(s) && Enabled(s, MainStep(serviceStarts))
    ensures ConfigInv(MainNext(s, serviceStarts))
  {
    hide Value;
    if s.main.Creating? {
      var read, config := s.main.read, ConfigOf(s.params);
      if |read| < |config| {
        assert read + [config[|read|]] == config[..|read| + 1];
      } else {
        assert read == config;
      }
    }
  }

  lemma StepKeepsInv(s: State, e: Event, initial: seq<Entry>)
    requires Inv(s, initial) && Enabled(s, e)
    ensures Inv(Next(s, e), initial)
  {
    hide ConfigInv, ThreadInv, FlagInv, AllUpdates;
    StepKeepsThreadInv(s, e);
    StepKeepsFlagInv(s, e);
    StepKeepsConfigInv(s, e);
    StepKeepsUpdates(s, e, initial);
  }

  lemma StepKeepsThreadInv(s: State, e: Event)
    requires ThreadInv(s) && Enabled(s, e)
    ensures ThreadInv(Next(s, e))
  {
    hide ConfigOf, Updated, CString, Value;
  }

  lemma StepKeepsFlagInv(s: State, e: Event)
    requires FlagInv(s) && ThreadInv(s) && Enabled(s, e)
    ensures FlagInv(Next(s, e))
  {
    hide ConfigOf, Updated, CString, Value;
  }

  lemma StepKeepsConfigInv(s: State, e: Event)
    requires ThreadInv(s) && ConfigInv(s) && FlagInv(s) && Enabled(s, e)
    ensures ConfigInv(Next(s, e))
  {
    hide ConfigOf, Updated, CString, Value, MainNext;
    if e.MainStep? {
      MainStepKeepsConfigInv(s, e.serviceStarts);
    }
  }

  lemma StepKeepsUpdates(s: State, e: Event, initial: seq<Entry>)
    requires s.params == AllUpdates(initial, s.texts)
    ensures Next(s, e).params == AllUpdates(initial, Next(s, e).texts)
  {
    hide Updated, CString, Value;
    if e.CallbackStep? && s.callback.Updating? {
      var texts := s.texts + [s.callback.text];
      assert texts[..|texts| - 1] == s.texts;
    }
  }

  lemma {:induction false} RunKeepsInv(s: State, events: seq<Event>, initial: seq<Entry>)
    requires Inv(s, initial) && IsRun(s, events)
    ensures Inv(After(s, events), initial)
    decreases events
  {
    if events != [] {
      hide Inv, Next, Enabled;
      StepKeepsInv(s, events[0], initial);
      RunKeepsInv(Next(s, events[0]), events[1..], initial);
    }
  }

  lemma Reached(params: seq<Entry>, events: seq<Event>)
    requires IsRun(Init(params), events)
    ensures Inv(After(Init(params), events), params)
  {
    hide AllUpdates, ConfigOf;
    NoUpdates(params);
    RunKeepsInv(Init(params), events, params);
  }

  lemma NoUpdates(params: seq<Entry>)
    ensures AllUpdates(params, []) == params
  {
  }

  // ---- What holds of every run ----

  /** However the threads interleave: when no restart is due and no update is between its two steps, the sniffer was
      built from the start-up parameters with every accepted update applied, in order. */
  lemma NoUpdateIsLost(params: seq<Entry>, events: seq<Event>)
    requires IsRun(Init(params), events)
    ensures var s := After(Init(params), events);
            s.sniffer.Some? && !s.restart && !s.callback.Flagging? ==>
              s.sniffer.value == ConfigOf(AllUpdates(params, s.texts))
  {
    hide ConfigOf, AllUpdates;
    Reached(params, events);
  }

  /** Every restart answers an update of its own. */
  lemma RestartsNeedUpdates(params: seq<Entry>, events: seq<Event>)
    requires IsRun(Init(params), events)
    ensures After(Init(params), events).restarts <= |After(Init(params), events).texts|
  {
    hide ConfigOf, AllUpdates;
    Reached(params, events);
  }

  /** The callback, which answers requests through the sniffer and changes the parameters, never runs beside a missing
      or destroyed sniffer or while the parameters are read, and nothing is left after the loop. */
  lemma CallbackHasASniffer(params: seq<Entry>, events: seq<Event>)
    requires IsRun(Init(params), events)
    ensures var s := After(Init(params), events);
            && (!s.callback.Idle? ==> s.sniffer.Some? && !s.main.Deleting? && !s.main.Clearing? && !s.main.Creating?)
            && (s.main.Exited? ==> s.sniffer.None? && !s.listening && s.callback.Idle?)
  {
    hide ConfigOf, AllUpdates;
    Reached(params, events);
  }

  // ---- The defaults ----

  lemma DefaultLines()
    ensures Line(DEFAULT_ENTRIES[0]) == "car_system_can_name=vcan0\n"
    ensures Line(DEFAULT_ENTRIES[1]) == "car_computer_can_name=vcan1\n"
    ensures Line(DEFAULT_ENTRIES[2]) == "car_system_baudrate=s6\n"
    ensures Line(DEFAULT_ENTRIES[3]) == "car_computer_baudrate=s6\n"
    ensures Line(DEFAULT_ENTRIES[4]) == "external_service_port=9095\n"
    ensures Line(DEFAULT_ENTRIES[5]) == "external_client_port=9096\n"
  {
  }

  lemma PlainValue(value: string)
    requires value != [] && Storable(value)
    requires !IsSpace(value[0]) && !IsSpace(value[|value| - 1]) && value[0] != '"'
    ensures CanonicalValue(value)
  {
    TrimOfTrimmed(value);
    hide Trim;
  }

  lemma DefaultValuesAreCanonical()
    ensures forall i :: 0 <= i < |DEFAULT_ENTRIES| ==> CanonicalValue(DEFAULT_ENTRIES[i].value)
  {
    hide CanonicalValue;
    PlainValue("vcan0");
    PlainValue("vcan1");
    PlainValue("s6");
    PlainValue("9095");
    PlainValue("9096");
  }

  lemma SystemKeysAreCanonical()
    ensures CanonicalKey("car_system_can_name") && CanonicalKey("car_system_baudrate")
  {
  }

  lemma ComputerKeysAreCanonical()
    ensures CanonicalKey("car_computer_can_name") && CanonicalKey("car_computer_baudrate")
  {
  }

  lemma PortKeysAreCanonical()
    ensures CanonicalKey("external_service_port") && CanonicalKey("external_client_port")
  {
  }

  lemma DefaultKeysDiffer()
    ensures forall i, j :: 0 <= i < j < |DEFAULT_ENTRIES| ==> DEFAULT_ENTRIES[i].key != DEFAULT_ENTRIES[j].key
  {
  }

  lemma DefaultsAreKeyed()
    ensures Keyed(DEFAULT_ENTRIES)
  {
    hide CanonicalKey;
    SystemKeysAreCanonical();
    ComputerKeysAreCanonical();
    PortKeysAreCanonical();
    DefaultKeysDiffer();
  }

  lemma PrintedDefaults()
    ensures Saved(DEFAULT_ENTRIES) == DEFAULT_PARAMS
  {
    hide Line;
    DefaultLines();
  }

  /** The default text sets exactly the six keys a sniffer is built from. */
  lemma DefaultsParse()
    ensures ApplyLines([], TextLines(DEFAULT_PARAMS), true) == DEFAULT_ENTRIES
    ensures Keys(DEFAULT_ENTRIES) == CONFIG_KEYS && Keyed(DEFAULT_ENTRIES) && AllStorable(DEFAULT_ENTRIES)
  {
    DefaultsAreKeyed();
    DefaultValuesAreCanonical();
    PrintedDefaults();
    hide CanonicalKey, Saved, TextLines, ApplyLines, Normal;
    PrintedEntriesAreCreated(DEFAULT_ENTRIES);
  }

  lemma {:induction false} UpdatesKeepEntriesSound(entries: seq<Entry>, texts: seq<string>)
    requires Keys(entries) == CONFIG_KEYS && AllStorable(entries)
    ensures Keys(AllUpdates(entries, texts)) == CONFIG_KEYS && AllStorable(AllUpdates(entries, texts))
  {
    if texts != [] {
      hide Keys, AllStorable, Updated;
      var before := AllUpdates(entries, texts[..|texts| - 1]);
      UpdatesKeepEntriesSound(entries, texts[..|texts| - 1]);
      KeysNeverChange(before, texts[|texts| - 1]);
      StoredValuesAreStorable(before, texts[|texts| - 1]);
    }
  }

  lemma KeyedByKeys(entries: seq<Entry>)
    requires Keys(entries) == CONFIG_KEYS
    ensures Keyed(entries) && forall i :: 0 <= i < |CONFIG_KEYS| ==>
            Value(entries, CONFIG_KEYS[i]) == Some(entries[i].value)
  {
    hide CanonicalKey;
    DefaultsAreKeyed();
    SameKeys(DEFAULT_ENTRIES, entries);
    forall i | 0 <= i < |CONFIG_KEYS|
      ensures Value(entries, CONFIG_KEYS[i]) == Some(entries[i].value)
    {
      FindAt(entries, i);
      assert Keys(entries)[i] == entries[i].key;
    }
  }

  lemma SameKeys(a: seq<Entry>, b: seq<Entry>)
    requires Keyed(a) && Keys(a) == Keys(b)
    ensures Keyed(b)
  {
    hide CanonicalKey;
    assert forall i :: 0 <= i < |a| ==> Keys(a)[i] == a[i].key == b[i].key;
  }

  /** Whatever the configuration file and the updates contain, the six keys stay, every value can be saved and loaded,
      and a sniffer that is not about to be replaced was built from six values, all of them present. */
  lemma ConfigurationStaysComplete(file: Option<string>, events: seq<Event>)
    requires IsRun(Init(StartParams(file)), events)
    ensures var s := After(Init(StartParams(file)), events);
            && Keyed(s.params) && AllStorable(s.params) && Keys(s.params) == CONFIG_KEYS
            && (s.sniffer.Some? && !s.restart && !s.callback.Flagging? ==>
                  |s.sniffer.value| == |CONFIG_KEYS| == |s.params| &&
                  forall i :: 0 <= i < |CONFIG_KEYS| ==> s.sniffer.value[i] == Some(s.params[i].value))
  {
    hide CanonicalKey, Storable, Find, AllUpdates, ApplyLines, Loaded;
    var params := StartParams(file);
    StartIsSound(file);
    Reached(params, events);
    var s := After(Init(params), events);
    UpdatesKeepEntriesSound(params, s.texts);
    KeyedByKeys(s.params);
  }

  /** So the reply to a request for the parameters always holds all of them and fits into one datagram that arrives. */
  lemma RepliesAreComplete(file: Option<string>, events: seq<Event>)
    requires IsRun(Init(StartParams(file)), events)
    ensures var params := After(Init(StartParams(file)), events).params;
            && All(params, REPLY_SIZE) == Saved(params)
            && HEADER_SIZE + |Saved(params)| <= UDP_FRAME_SIZE
  {
    hide Keyed, AllStorable, Saved, All, Enabled, Next;
    ConfigurationStaysComplete(file, events);
    var params := After(Init(StartParams(file)), events).params;
    assert |Keys(params)| == |CONFIG_KEYS|;
    SavedLength(params);
    AllIsEverything(params, REPLY_SIZE);
  }

  /** The parameters `run` starts with. */
  function StartParams(file: Option<string>): seq<Entry> {
    var parsed := ApplyLines([], TextLines(DEFAULT_PARAMS), true);
    if file.None? then parsed else Loaded(parsed, file.value)
  }

  lemma StartIsSound(file: Option<string>)
    ensures Keys(StartParams(file)) == CONFIG_KEYS && AllStorable(StartParams(file))
  {
    hide Keys, AllStorable, ApplyLines, Loaded;
    DefaultsParse();
    if file.Some? {
      KeysNeverChange(DEFAULT_ENTRIES, file.value);
      StoredValuesAreStorable(DEFAULT_ENTRIES, file.value);
    }
  }

  // ---- The object ----

  class MainService {
    var params: Params?
    var sniffer: Option<Config>
    var running: bool
    var restartRequested: bool

    ghost predicate Valid()
      reads this, params
    {
      params != null ==> params.Valid()
    }

    constructor ()
      ensures Valid() && params == null && sniffer == None && !running && !restartRequested
    {
      params, sniffer, running, restartRequested := null, None, false, false;
    }

    /** The beginning of `run`. */
    method Begin(file: Option<string>) returns (started: bool)
      requires Valid()
      modifies this
      ensures Valid() && started == !old(running) && running
      ensures sniffer == old(sniffer) && restartRequested == old(restartRequested)
      ensures if started then params != null && fresh(params) && params.Entries() == StartParams(file)
              else params == old(params)
    {
      if running {
        return false;
      }
      params := new Params(DEFAULT_PARAMS, file);
      running := true;
      return true;
    }

    /** The loop's turn up to its sleep. */
    method BeforeSleep()
      requires Valid() && params != null
      modifies this`sniffer
      ensures Valid() && sniffer == Some(if old(sniffer).Some? then old(sniffer).value else ConfigOf(params.Entries()))
    {
      if sniffer.None? {
        CreateSniffer();
      }
    }

    /** The loop's turn from its sleep on. */
    method AfterSleep()
      modifies this`sniffer, this`restartRequested
      ensures !restartRequested
      ensures sniffer == if old(restartRequested) then None else old(sniffer)
    {
      if restartRequested {
        DestroySniffer();
        restartRequested := false;
      }
    }

    method Stop()
      modifies this`running
      ensures !running
    {
      running := false;
    }

    method OnSystemCommand(cmd: nat, data: string) returns (reply: Option<string>)
      requires Valid()
      modifies this`restartRequested, params, if params == null then {} else {params.keys, params.values}
      ensures Valid()
      ensures var update := cmd == CMD_SET_PARAMS && data != [] && params != null;
              && (update ==> restartRequested && params.Entries() == Updated(old(params.Entries()), CString(data)))
              && (!update ==> restartRequested == old(restartRequested))
              && (!update && params != null ==> params.Entries() == old(params.Entries()))
      ensures reply == if cmd == CMD_GET_PARAMS_REQ && params != null && sniffer.Some?
                       then Some(All(old(params.Entries()), REPLY_SIZE)) else None
    {
      reply := None;
      if cmd == CMD_SET_PARAMS {
        if |data| > 0 && params != null {
          var saved := params.Update(CString(data));
          restartRequested := true;
        }
      } else if cmd == CMD_GET_PARAMS_REQ {
        if params != null && sniffer.Some? {
          var text := params.GetAll(REPLY_SIZE);
          reply := Some(text);
        }
      }
    }

    method CreateSniffer()
      requires Valid() && params != null
      modifies this`sniffer
      ensures sniffer == Some(if old(sniffer).Some? then old(sniffer).value else ConfigOf(params.Entries()))
    {
      if sniffer.Some? {
        return;
      }
      var config := ReadConfig(CONFIG_KEYS);
      sniffer := Some(config);
      assert config == ConfigOf(params.Entries());
    }

    method ReadConfig(keys: seq<string>) returns (config: Config)
      requires Valid() && params != null && |keys| == 6
      ensures |config| == 6 && forall i :: 0 <= i < 6 ==> config[i] == Value(params.Entries(), keys[i])
    {
      hide Value;
      var systemName := ReadValue(keys[0]);
      var computerName := ReadValue(keys[1]);
      var systemBaudrate := ReadValue(keys[2]);
      var computerBaudrate := ReadValue(keys[3]);
      var servicePort := ReadValue(keys[4]);
      var clientPort := ReadValue(keys[5]);
      config := [systemName, computerName, systemBaudrate, computerBaudrate, servicePort, clientPort];
    }

    method ReadValue(key: string) returns (value: Option<string>)
      requires Valid() && params != null
      ensures value == Value(params.Entries(), key)
    {
      value := params.Get(key);
    }

    method DestroySniffer()
      modifies this`sniffer
      ensures sniffer == None
    {
      sniffer := None;
    }
  }

  // ---- The methods are the uninterrupted runs of the steps ----

  function MainSteps(n: nat): seq<Event> {
    seq(n, _ => MainStep(true))
  }

  lemma OneMainStep(s: State, n: nat)
    ensures After(s, MainSteps(n + 1)) == After(MainNext(s, true), MainSteps(n))
  {
    assert MainSteps(n + 1)[1..] == MainSteps(n);
  }

  lemma NoSteps(s: State)
    ensures After(s, MainSteps(0)) == s
  {
  }

  /** Reading the remaining values, building the sniffer and starting it. */
  lemma {:induction false} CreatingSteps(s: State)
    requires s.main.Creating? && s.main.read <= ConfigOf(s.params)
    ensures After(s, MainSteps(|CONFIG_KEYS| - |s.main.read| + 2)) ==
            s.(sniffer := Some(ConfigOf(s.params)), listening := true, main := Sleeping)
    decreases |CONFIG_KEYS| - |s.main.read|
  {
    hide After, MainSteps, Value;
    var read, config := s.main.read, ConfigOf(s.params);
    if |read| < |config| {
      OneMainStep(s, |config| - |read| + 1);
      assert read + [config[|read|]] == config[..|read| + 1];
      CreatingSteps(MainNext(s, true));
    } else {
      assert read == config;
      OneMainStep(s, 1);
      var starting := MainNext(s, true);
      OneMainStep(starting, 0);
      NoSteps(MainNext(starting, true));
    }
  }

  /** `createSniffer` between two sleeps, and `destroySniffer` with the clearing of the flag after one. */
  lemma TurnsAreMainSteps(s: State)
    requires s.running && s.callback.Idle?
    ensures s.main.LoopTop? && s.sniffer.None? ==>
              After(s, MainSteps(9)) == s.(sniffer := Some(ConfigOf(s.params)), listening := true, main := Sleeping)
    ensures s.main.Sleeping? && s.restart ==>
              After(s, MainSteps(4)) == s.(sniffer := None, listening := false, restart := false,
                                            restarts := s.restarts + 1, main := LoopTop)
  {
    hide After, MainSteps, Value, ConfigOf;
    if s.main.LoopTop? && s.sniffer.None? {
      OneMainStep(s, 8);
      var creating := s.(main := Creating([]));
      CreatingSteps(creating);
    } else if s.main.Sleeping? && s.restart {
      OneMainStep(s, 3);
      OneMainStep(s.(main := Joining(false)), 2);
      OneMainStep(s.(listening := false, main := Deleting(false)), 1);
      var clearing := s.(listening := false, sniffer := None, main := Clearing);
      OneMainStep(clearing, 0);
      NoSteps(MainNext(clearing, true));
    }
  }

  // ---- Updates lead to restarts ----

  function Rank(main: Main): nat {
    match main
    case LoopTop => 30
    case Creating(read) => if |read| <= 6 then 20 - |read| else 14
    case Starting => 10
    case Sleeping => 5
    case Joining(_) => 4
    case Deleting(_) => 3
    case Clearing => 2
    case Exited => 0
  }

  lemma {:induction false} RestartSteps(s: State) returns (n: nat)
    requires s.running && s.restart && s.callback.Idle? && ThreadInv(s) && ConfigInv(s) && FlagInv(s)
    ensures After(s, MainSteps(n)) ==
            s.(sniffer := Some(ConfigOf(s.params)), listening := true, restart := false, restarts := s.restarts + 1,
               main := Sleeping)
    decreases Rank(s.main)
  {
    hide After, MainSteps, Value, ConfigOf, ConfigInv;
    var next := MainNext(s, true);
    if s.main.Clearing? {
      TurnsAreMainSteps(next);
      OneMainStep(s, 9);
      n := 10;
    } else {
      MainStepKeepsConfigInv(s, true);
      if s.main.Creating? {
        CreatingIsShort(s);
      }
      n := RestartSteps(next);
      OneMainStep(s, n);
      n := n + 1;
    }
  }

  lemma CreatingIsShort(s: State)
    requires ConfigInv(s) && s.main.Creating?
    ensures |s.main.read| <= 6 == |CONFIG_KEYS|
  {
    hide Value;
  }

  /** Nothing the loop does from there can block, as the callback is idle. */
  lemma {:induction false} StepsAreARun(s: State, n: nat)
    requires s.callback.Idle? && !After(s, MainSteps(n)).main.Exited?
    ensures IsRun(s, MainSteps(n))
    decreases n
  {
    hide MainNext;
    if n > 0 {
      OneMainStep(s, n - 1);
      if s.main.Exited? {
        ExitedStays(s, n);
        assert false;
      }
      MainKeepsCallback(s);
      StepsAreARun(MainNext(s, true), n - 1);
      assert MainSteps(n)[1..] == MainSteps(n - 1);
    }
  }

  lemma MainKeepsCallback(s: State)
    ensures MainNext(s, true).callback == s.callback
  {
    hide Value;
  }

  lemma {:induction false} ExitedStays(s: State, n: nat)
    requires s.main.Exited?
    ensures After(s, MainSteps(n)) == s
  {
    hide After;
    if n > 0 {
      OneMainStep(s, n - 1);
      ExitedStays(s, n - 1);
    } else {
      NoSteps(s);
    }
  }

  /** Wherever the loop stands when a restart is requested, it needs only its own steps to build a sniffer from the
      parameters as they are then, unless it was told to stop. */
  lemma RestartIsAnswered(params: seq<Entry>, events: seq<Event>)
    requires IsRun(Init(params), events)
    ensures var s := After(Init(params), events);
            s.running && s.restart && s.callback.Idle? ==>
              exists n :: IsRun(s, MainSteps(n)) && After(s, MainSteps(n)) ==
                s.(sniffer := Some(ConfigOf(s.params)), listening := true, restart := false,
                   restarts := s.restarts + 1, main := Sleeping)
  {
    hide ConfigOf, AllUpdates, ThreadInv, ConfigInv, FlagInv;
    Reached(params, events);
    var s := After(Init(params), events);
    if s.running && s.restart && s.callback.Idle? {
      var n := RestartSteps(s);
      StepsAreARun(s, n);
    }
  }

  function StopRank(main: Main): nat {
    match main
    case Creating(read) => if |read| <= 6 then 40 - |read| else 34
    case Starting => 20
    case Sleeping => 10
    case Joining(leaving) => if leaving then 5 else 9
    case Deleting(leaving) => if leaving then 4 else 8
    case Clearing => 7
    case LoopTop => 6
    case Exited => 0
  }

  lemma {:induction false} StopSteps(s: State) returns (n: nat)
    requires !s.running && s.callback.Idle? && ThreadInv(s) && ConfigInv(s)
    ensures IsRun(s, MainSteps(n)) && After(s, MainSteps(n)).main.Exited?
    ensures After(s, MainSteps(n)).sniffer.None? && !After(s, MainSteps(n)).listening
    decreases StopRank(s.main)
  {
    if s.main.Exited? {
      assert MainSteps(0) == [];
      return 0;
    }
    var next := MainNext(s, true);
    MainStepKeepsThreads(s);
    if s.main.Creating? {
      CreatingIsShort(s);
    }
    hide ThreadInv, ConfigInv, Value;
    n := StopSteps(next);
    hide MainNext;
    OneMainStep(s, n);
    assert MainSteps(n + 1)[1..] == MainSteps(n);
    n := n + 1;
  }

  lemma MainStepKeepsThreads(s: State)
    requires ThreadInv(s) && ConfigInv(s) && s.callback.Idle?
    ensures ThreadInv(MainNext(s, true)) && ConfigInv(MainNext(s, true))
  {
    hide Value, ConfigOf;
  }

  /** A service told to stop needs only the loop's own steps to leave it, with no sniffer and no thread left behind. */
  lemma StoppedServiceLeaves(params: seq<Entry>, events: seq<Event>)
    requires IsRun(Init(params), events)
    ensures var s := After(Init(params), events);
            !s.running && s.callback.Idle? ==>
              exists n :: IsRun(s, MainSteps(n)) && After(s, MainSteps(n)).main.Exited? &&
                          After(s, MainSteps(n)).sniffer.None? && !After(s, MainSteps(n)).listening
  {
    hide ConfigOf, AllUpdates, ThreadInv, ConfigInv, FlagInv;
    Reached(params, events);
    var s := After(Init(params), events);
    if !s.running && s.callback.Idle? {
      var n := StopSteps(s);
    }
  }

  lemma TextUpToZero(text: string, rest: string)
    requires '\0' !in text
    ensures CString(text + ['\0'] + rest) == text
  {
    hide CString;
    var data := text + ['\0'] + rest;
    assert data[|text|] == '\0' && data[..|text|] == text;
    var r := CString(data);
    assert forall i :: 0 <= i < |r| ==> r[i] == data[i];
  }

  lemma ThreeSteps(s: State, events: seq<Event>)
    requires |events| == 3 && Enabled(s, events[0]) && Enabled(Next(s, events[0]), events[1])
    requires Enabled(Next(Next(s, events[0]), events[1]), events[2])
    ensures IsRun(s, events) && After(s, events) == Next(Next(Next(s, events[0]), events[1]), events[2])
  {
    hide Next, Enabled;
    var one, two := Next(s, events[0]), Next(Next(s, events[0]), events[1]);
    var rest := events[2..];
    assert rest[1..] == [] && IsRun(two, rest) && After(two, rest) == Next(two, events[2]);
    assert events[1..][1..] == rest && IsRun(one, events[1..]) && After(one, events[1..]) == Next(two, events[2]);
  }

  /** And a restart is requested by each update: the text up to its first zero is applied to the parameters. */
  lemma UpdateRequestsRestart(s: State, text: string, rest: string)
    requires s.listening && s.callback.Idle? && '\0' !in text
    ensures var events := [SetParams(text + ['\0'] + rest), CallbackStep, CallbackStep];
            IsRun(s, events) &&
            After(s, events) ==
              s.(params := Updated(s.params, text), texts := s.texts + [text], restart := true, callback := Idle)
  {
    TextUpToZero(text, rest);
    hide CString, Updated;
    var data := text + ['\0'] + rest;
    assert Next(s, SetParams(data)) == s.(callback := Updating(text));
    assert Next(s.(callback := Updating(text)), CallbackStep) ==
           s.(params := Updated(s.params, text), texts := s.texts + [text], callback := Flagging);
    ThreeSteps(s, [SetParams(data), CallbackStep, CallbackStep]);
  }
}
