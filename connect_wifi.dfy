/** The Wi-Fi provisioning screen of a freshly paired Wi-Fi lock. It listens to the
    lock's BLE link, submits the Wi-Fi credentials, follows the lock's provisioning
    progress through cloud registration, and arms a two-minute watchdog per submission.

    Asynchronous deliveries (a BLE link state, a provisioning state, the end of a
    collector, the answer to a submission or to the thing-name fetch, a watchdog
    expiring) are the inputs of a step function; what the screen asks of the lock or
    the cloud is logged in `requests`, and the UI events it emits in `events`. */
module ConnectWifi {
  import opened Common

  const WatchdogMillis := 120000
  const InitialProgressMessage := "Connect to wifi..."
  /** The error message shown on a failed connection ("connection failed" in Chinese). */
  const ConnectFailedMessage := "\U{9023}\U{7DDA}\U{5931}\U{6557}"
  /** Collector errors whose message contains this are not shown. */
  const DisconnectedMarker := "Disconnected"

  /** The provisioning progress the lock reports. */
  datatype WifiConnectState = ConnectWifiSuccess | ConnectWifiFail | ConnectAwsSuccess | ConnectCloudSuccess | Failed

  /** The BLE link state of the lock. */
  datatype BluetoothConnectState = Disconnected | Connected | Connecting

  datatype ConnectWifiUiEvent = ConnectSuccess | ConnectFailed | BleDisconnected | BleConnecting | ResetWifi

  datatype ConnectWifiUiState = ConnectWifiUiState(
    password: string,
    errorMessage: string,
    isProgress: bool,
    progressMessage: string,
    showDisconnect: bool)

  /** The defaults of `ConnectWifiUiState`. */
  function DefaultUiState(): (s: ConnectWifiUiState)
    ensures s.password == "" && s.errorMessage == "" && !s.isProgress && !s.showDisconnect
    ensures s.progressMessage == InitialProgressMessage
  {
    ConnectWifiUiState("", "", false, InitialProgressMessage, false)
  }

  /** What the screen asks of the lock and the cloud. */
  datatype Request =
    | CollectBleState                                    // subscribe to the BLE link states
    | CollectWifiState                                   // subscribe to the provisioning states
    | SubmitCredentials(ssid: string, password: string)  // `connectLockToWifi`
    | ArmWatchdog(millis: nat)
    | FetchThingName                                     // `getAndSaveThingName`
    | GetProvisionInfo
    | Disconnect

  /** The inputs of the screen: calls from the UI and deliveries from the flows it launched. */
  datatype Input =
    | Initialized(macAddress: string, ssid: string, lockFound: bool)  // `init`, with the lookup's answer
    | PasswordEntered(password: string)
    | ConnectRequested                                   // a direct `connectToWifi`
    | BleStateChanged(bleState: BluetoothConnectState)
    | WifiStateChanged(wifiState: WifiConnectState)
    | CollectorFailed(message: Option<string>)           // the provisioning collector threw
    | CollectorCompleted                                 // the provisioning collector ended normally
    | SubmitFailed
    | SubmitDone
    | ThingNameFetched
    | ThingNameFailed
    | WatchdogFired
    | Cleared                                            // `onCleared`

  /** The state of the screen. `hasLock` is whether `lock` is non-null; the `pending`
      counters are the submissions, thing-name fetches and watchdogs still in flight. */
  datatype Machine = Machine(
    ui: ConnectWifiUiState,
    macAddress: Option<string>,
    ssid: Option<string>,
    hasLock: bool,
    collectingBleState: bool,
    isConnectingToWifi: bool,
    isCollectingConnectToWifiState: bool,
    pendingSubmissions: nat,
    pendingThingNames: nat,
    pendingWatchdogs: nat,
    events: seq<ConnectWifiUiEvent>,
    requests: seq<Request>)

  function Initial(): Machine
  {
    Machine(DefaultUiState(), None, None, false, false, false, false, 0, 0, 0, [], [])
  }

  /** The progress label of each provisioning state. */
  function ProgressLabel(s: WifiConnectState): string
  {
    match s
    case ConnectWifiSuccess => "Connect to iot..."
    case ConnectWifiFail => "Connect wifi fail."
    case ConnectAwsSuccess => "Connect to cloud..."
    case ConnectCloudSuccess => "Connected cloud."
    case Failed => "Unknown error"
  }

  /** The labels tell the five states apart, and none is the initial label. */
  lemma ProgressLabelsDistinct(a: WifiConnectState, b: WifiConnectState)
    ensures ProgressLabel(a) == ProgressLabel(b) ==> a == b
    ensures ProgressLabel(a) != InitialProgressMessage
  {
    var labels := [ProgressLabel(ConnectWifiSuccess), ProgressLabel(ConnectWifiFail), ProgressLabel(ConnectAwsSuccess),
                   ProgressLabel(ConnectCloudSuccess), ProgressLabel(Failed)];
    assert |labels[0]| == 17 && |labels[1]| == 18 && |labels[2]| == 19 && |labels[3]| == 16 && |labels[4]| == 13;
    assert |InitialProgressMessage| == 18 && InitialProgressMessage[8] == 't' && labels[1][8] == 'w';
  }

  // ---------------------------------------------------------------------------
  // The step function
  // ---------------------------------------------------------------------------

  /** `init`: remembers the MAC address and SSID; a found lock starts the BLE collector. */
  function InitStep(m: Machine, macAddress: string, ssid: string, lockFound: bool): Machine
  {
    m.(macAddress := Some(macAddress), ssid := Some(ssid), hasLock := lockFound,
       collectingBleState := m.collectingBleState || lockFound,
       requests := m.requests + (if lockFound then [CollectBleState] else []))
  }

  /** The requests of one `connectToWifi`: a provisioning collector unless one is
      active, the credentials unless the SSID is null, and one watchdog, last. */
  function ConnectRequests(collecting: bool, ssid: Option<string>, password: string): seq<Request>
  {
    (if collecting then [] else [CollectWifiState]) +
    (if ssid.Some? then [SubmitCredentials(ssid.value, password)] else []) +
    [ArmWatchdog(WatchdogMillis)]
  }

  /** `connectToWifi`: nothing without a lock. Otherwise start the provisioning collector
      unless one is active, mark the connection in progress, submit the credentials (a
      null SSID fails the submission at once) and arm one more watchdog. */
  function ConnectToWifiStep(m: Machine): (r: Machine)
    ensures !m.hasLock ==> r == m
    ensures m.hasLock ==>
              r.isConnectingToWifi && r.ui.isProgress && r.isCollectingConnectToWifiState &&
              r.pendingWatchdogs == m.pendingWatchdogs + 1 && r.events == m.events
  {
    if !m.hasLock then m
    else
      m.(isCollectingConnectToWifiState := true,
         isConnectingToWifi := true,
         ui := m.ui.(isProgress := true,
                     errorMessage := if m.ssid.Some? then m.ui.errorMessage else ConnectFailedMessage),
         pendingSubmissions := m.pendingSubmissions + (if m.ssid.Some? then 1 else 0),
         pendingWatchdogs := m.pendingWatchdogs + 1,
         requests := m.requests + ConnectRequests(m.isCollectingConnectToWifiState, m.ssid, m.ui.password))
  }

  /** What one `connectToWifi` adds to the request log, and that it arms exactly one watchdog. */
  lemma ConnectRequestsOneWatchdog(m: Machine)
    requires m.hasLock
    ensures var r := ConnectToWifiStep(m);
            var added := r.requests[|m.requests|..];
            r.requests == m.requests + added && added[|added| - 1] == ArmWatchdog(WatchdogMillis) &&
            (CollectWifiState in added <==> !m.isCollectingConnectToWifiState) &&
            (m.ssid.Some? ==> SubmitCredentials(m.ssid.value, m.ui.password) in added) &&
            multiset(r.requests)[ArmWatchdog(WatchdogMillis)] == multiset(m.requests)[ArmWatchdog(WatchdogMillis)] + 1
  {
    var added := ConnectRequests(m.isCollectingConnectToWifiState, m.ssid, m.ui.password);
    assert ConnectToWifiStep(m).requests == m.requests + added;
    assert (m.requests + added)[|m.requests|..] == added;
    assert multiset(added)[ArmWatchdog(WatchdogMillis)] == 1;
  }

  /** One BLE link state from `collectBleConnectionState`; no reconnect is attempted. */
  function BleStep(m: Machine, s: BluetoothConnectState): Machine
  {
    if !m.collectingBleState then m
    else match s
      case Disconnected => m.(events := m.events + [BleDisconnected])
      case Connected => ConnectToWifiStep(m)
      case Connecting => m.(events := m.events + [BleConnecting])
  }

  /** One provisioning state from the collector: update the label; cloud success
      clears the connecting flag and fetches the thing name; a Wi-Fi failure asks the
      UI to reset. */
  function WifiStep(m: Machine, s: WifiConnectState): Machine
  {
    if !m.isCollectingConnectToWifiState then m
    else
      var labelled := m.(ui := m.ui.(progressMessage := ProgressLabel(s)));
      match s
      case ConnectCloudSuccess =>
        labelled.(isConnectingToWifi := false, pendingThingNames := m.pendingThingNames + 1,
                  requests := m.requests + [FetchThingName])
      case ConnectWifiFail => labelled.(events := m.events + [ResetWifi])
      case _ => labelled
  }

  /** Whether a collector error is shown: only one whose message is non-null and lacks "Disconnected". */
  predicate ShowsCollectorError(message: Option<string>)
  {
    message.Some? && !Contains(message.value, DisconnectedMarker)
  }

  /** The end of the provisioning collector (`onCompletion` first, then `catch` on an error). */
  function CollectorEndStep(m: Machine, error: Option<Option<string>>): Machine
  {
    if !m.isCollectingConnectToWifiState then m
    else
      var ended := m.(isCollectingConnectToWifiState := false);
      if error.Some? && ShowsCollectorError(error.value) then
        ended.(ui := ended.ui.(errorMessage := ConnectFailedMessage, isProgress := false))
      else ended
  }

  function Step(m: Machine, input: Input): Machine
  {
    match input
    case Initialized(mac, ssid, found) => InitStep(m, mac, ssid, found)
    case PasswordEntered(p) => m.(ui := m.ui.(password := p))
    case ConnectRequested => ConnectToWifiStep(m)
    case BleStateChanged(s) => BleStep(m, s)
    case WifiStateChanged(s) => WifiStep(m, s)
    case CollectorFailed(message) => CollectorEndStep(m, Some(message))
    case CollectorCompleted => CollectorEndStep(m, None)
    case SubmitFailed =>
      if m.pendingSubmissions == 0 then m
      else m.(pendingSubmissions := m.pendingSubmissions - 1, ui := m.ui.(errorMessage := ConnectFailedMessage))
    case SubmitDone =>
      if m.pendingSubmissions == 0 then m else m.(pendingSubmissions := m.pendingSubmissions - 1)
    case ThingNameFetched =>
      if m.pendingThingNames == 0 then m
      else m.(pendingThingNames := m.pendingThingNames - 1, events := m.events + [ConnectSuccess],
              ui := m.ui.(isProgress := false), requests := m.requests + [GetProvisionInfo])
    case ThingNameFailed =>
      if m.pendingThingNames == 0 then m else m.(pendingThingNames := m.pendingThingNames - 1)
    case WatchdogFired =>
      if m.pendingWatchdogs == 0 then m
      else m.(pendingWatchdogs := m.pendingWatchdogs - 1,
              events := m.events + (if m.isConnectingToWifi then [ConnectFailed] else []))
    case Cleared =>
      if m.hasLock then m.(requests := m.requests + [Disconnect]) else m
  }

  function Run(m: Machine, inputs: seq<Input>): Machine
    decreases |inputs|
  {
    if inputs == [] then m else Run(Step(m, inputs[0]), inputs[1..])
  }

  // ---------------------------------------------------------------------------
  // Properties of single steps
  // ---------------------------------------------------------------------------

  /** Cloud success clears the connecting flag at once, but emits nothing and keeps the
      progress indicator; the thing-name fetch decides the rest. */
  lemma CloudSuccessClearsFlagFirst(m: Machine)
    requires m.isCollectingConnectToWifiState
    ensures var r := Step(m, WifiStateChanged(ConnectCloudSuccess));
            !r.isConnectingToWifi && r.events == m.events && r.ui.isProgress == m.ui.isProgress &&
            r.ui.progressMessage == "Connected cloud." && r.requests == m.requests + [FetchThingName]
  {
  }

  /** The fetched thing name emits `ConnectSuccess` and clears the progress indicator;
      a failed fetch changes nothing the user can see. */
  lemma ThingNameOutcomes(m: Machine)
    requires m.pendingThingNames > 0
    ensures var r := Step(m, ThingNameFetched);
            r.events == m.events + [ConnectSuccess] && !r.ui.isProgress && r.requests == m.requests + [GetProvisionInfo]
    ensures var r := Step(m, ThingNameFailed);
            r.events == m.events && r.ui == m.ui && r.requests == m.requests &&
            r.isConnectingToWifi == m.isConnectingToWifi
  {
  }

  /** A Wi-Fi failure asks the UI to reset and submits nothing again. */
  lemma WifiFailResetsWithoutResubmitting(m: Machine)
    requires m.isCollectingConnectToWifiState
    ensures var r := Step(m, WifiStateChanged(ConnectWifiFail));
            r.events == m.events + [ResetWifi] && r.requests == m.requests &&
            r.isConnectingToWifi == m.isConnectingToWifi && r.pendingSubmissions == m.pendingSubmissions
  {
  }

  /** A second `connectToWifi` while a collector is active starts no second collector,
      but submits the credentials again and arms another watchdog. */
  lemma SecondConnectKeepsOneCollector(m: Machine)
    requires m.hasLock && m.isCollectingConnectToWifiState && m.ssid.Some?
    ensures var r := Step(m, ConnectRequested);
            r.requests == m.requests + [SubmitCredentials(m.ssid.value, m.ui.password), ArmWatchdog(WatchdogMillis)] &&
            r.pendingWatchdogs == m.pendingWatchdogs + 1 && r.pendingSubmissions == m.pendingSubmissions + 1
  {
  }

  /** Without a lock `connectToWifi` does nothing; a BLE `CONNECTED` is the same call. */
  lemma ConnectNeedsLock(m: Machine)
    ensures !m.hasLock ==> Step(m, ConnectRequested) == m
    ensures m.collectingBleState ==> Step(m, BleStateChanged(Connected)) == Step(m, ConnectRequested)
  {
  }

  /** The other two link states only emit their event: no reconnect, no request. */
  lemma BleStatesOnlyEmit(m: Machine)
    requires m.collectingBleState
    ensures Step(m, BleStateChanged(Disconnected)) == m.(events := m.events + [BleDisconnected])
    ensures Step(m, BleStateChanged(Connecting)) == m.(events := m.events + [BleConnecting])
  {
  }

  /** The watchdog emits `ConnectFailed` if and only if the connection is still in progress. */
  lemma WatchdogFailsIffStillConnecting(m: Machine)
    requires m.pendingWatchdogs > 0
    ensures var r := Step(m, WatchdogFired);
            (ConnectFailed in r.events[|m.events|..] <==> m.isConnectingToWifi) &&
            r.ui == m.ui && r.requests == m.requests
  {
  }

  /** A collector error shows the error and clears the progress indicator exactly when
      its message is non-null and lacks "Disconnected", whatever was shown before; the
      collector is over either way. */
  lemma CollectorErrorShownIff(m: Machine, message: Option<string>)
    requires m.isCollectingConnectToWifiState
    ensures var r := Step(m, CollectorFailed(message));
            !r.isCollectingConnectToWifiState &&
            r.ui == (if ShowsCollectorError(message) then m.ui.(errorMessage := ConnectFailedMessage, isProgress := false)
                     else m.ui) &&
            r.events == m.events && r.requests == m.requests
  {
  }

  /** A disconnection error is never shown. */
  lemma DisconnectedErrorHidden(m: Machine, prefix: string, suffix: string)
    requires m.isCollectingConnectToWifiState
    ensures Step(m, CollectorFailed(Some(prefix + DisconnectedMarker + suffix))).ui == m.ui
  {
    var msg := prefix + DisconnectedMarker + suffix;
    assert msg[|prefix|..|prefix| + |DisconnectedMarker|] == DisconnectedMarker;
    ContainsAt(msg, DisconnectedMarker, |prefix|);
  }

  // ---------------------------------------------------------------------------
  // Properties of runs
  // ---------------------------------------------------------------------------

  /** The inputs that can set the connecting flag again. */
  predicate Restarts(input: Input)
  {
    input == ConnectRequested || input == BleStateChanged(Connected)
  }

  /** Once the connecting flag is clear, no run without a restart sets it again or
      emits `ConnectFailed`. */
  lemma {:induction false} QuietWithoutRestart(m: Machine, inputs: seq<Input>)
    requires !m.isConnectingToWifi
    requires forall k :: 0 <= k < |inputs| ==> !Restarts(inputs[k])
    ensures !Run(m, inputs).isConnectingToWifi
    ensures multiset(Run(m, inputs).events)[ConnectFailed] == multiset(m.events)[ConnectFailed]
    decreases |inputs|
  {
    if inputs != [] {
      assert !Restarts(inputs[0]);
      QuietStep(m, inputs[0]);
      QuietWithoutRestart(Step(m, inputs[0]), inputs[1..]);
    }
  }

  /** One step of `QuietWithoutRestart`. */
  lemma QuietStep(m: Machine, input: Input)
    requires !m.isConnectingToWifi && !Restarts(input)
    ensures !Step(m, input).isConnectingToWifi
    ensures multiset(Step(m, input).events)[ConnectFailed] == multiset(m.events)[ConnectFailed]
  {
    match input
    case BleStateChanged(s) =>
    case Initialized(mac, ssid, found) => QuietRequestStep(m, input);
    case WifiStateChanged(s) => QuietRequestStep(m, input);
    case ThingNameFetched => QuietRequestStep(m, input);
    case Cleared => QuietRequestStep(m, input);
    case ConnectRequested =>
    case _ => QuietOtherStep(m, input);
  }

  lemma QuietRequestStep(m: Machine, input: Input)
    requires !m.isConnectingToWifi
    requires input.Initialized? || input.WifiStateChanged? || input == ThingNameFetched || input == Cleared
    ensures !Step(m, input).isConnectingToWifi
    ensures multiset(Step(m, input).events)[ConnectFailed] == multiset(m.events)[ConnectFailed]
  {
  }

  lemma QuietOtherStep(m: Machine, input: Input)
    requires !m.isConnectingToWifi
    requires input.PasswordEntered? || input.CollectorFailed? || input == CollectorCompleted || input == SubmitFailed ||
             input == SubmitDone || input == ThingNameFailed || input == WatchdogFired
    ensures !Step(m, input).isConnectingToWifi
    ensures multiset(Step(m, input).events)[ConnectFailed] == multiset(m.events)[ConnectFailed]
  {
  }

  /** The watchdog never fires a failure once cloud success has been processed, unless
      the user or the BLE link starts a new connection. */
  lemma NoFailureAfterCloudSuccess(m: Machine, inputs: seq<Input>)
    requires m.isCollectingConnectToWifiState
    requires forall k :: 0 <= k < |inputs| ==> !Restarts(inputs[k])
    ensures var r := Run(m, [WifiStateChanged(ConnectCloudSuccess)] + inputs);
            multiset(r.events)[ConnectFailed] == multiset(m.events)[ConnectFailed]
  {
    var afterCloud := Step(m, WifiStateChanged(ConnectCloudSuccess));
    assert ([WifiStateChanged(ConnectCloudSuccess)] + inputs)[1..] == inputs;
    QuietWithoutRestart(afterCloud, inputs);
  }

  /** Every `ConnectFailed` and every watchdog still pending is matched by a watchdog armed. */
  ghost predicate WatchdogsAccounted(m: Machine)
  {
    multiset(m.events)[ConnectFailed] + m.pendingWatchdogs <= multiset(m.requests)[ArmWatchdog(WatchdogMillis)]
  }

  lemma StepKeepsWatchdogsAccounted(m: Machine, input: Input)
    requires WatchdogsAccounted(m)
    ensures WatchdogsAccounted(Step(m, input))
  {
    match input
    case ConnectRequested => ConnectKeepsWatchdogsAccounted(m);
    case BleStateChanged(s) => if s == Connected { ConnectKeepsWatchdogsAccounted(m); }
    case Initialized(mac, ssid, found) => RequestStepKeepsWatchdogsAccounted(m, input);
    case WifiStateChanged(s) => ProgressStepKeepsWatchdogsAccounted(m, input);
    case ThingNameFetched => ProgressStepKeepsWatchdogsAccounted(m, input);
    case Cleared => RequestStepKeepsWatchdogsAccounted(m, input);
    case _ => QuietStepKeepsWatchdogsAccounted(m, input);
  }

  /** `connectToWifi` pays for its new pending watchdog with one armed. */
  lemma ConnectKeepsWatchdogsAccounted(m: Machine)
    requires WatchdogsAccounted(m)
    ensures WatchdogsAccounted(ConnectToWifiStep(m))
  {
    if m.hasLock { ConnectRequestsOneWatchdog(m); }
  }

  /** The inputs that only add requests other than a watchdog. */
  lemma RequestStepKeepsWatchdogsAccounted(m: Machine, input: Input)
    requires WatchdogsAccounted(m)
    requires input.Initialized? || input == Cleared
    ensures WatchdogsAccounted(Step(m, input))
  {
  }

  /** The progress inputs add events other than `ConnectFailed` and requests other than a watchdog. */
  lemma ProgressStepKeepsWatchdogsAccounted(m: Machine, input: Input)
    requires WatchdogsAccounted(m)
    requires input.WifiStateChanged? || input == ThingNameFetched
    ensures WatchdogsAccounted(Step(m, input))
  {
  }

  /** The inputs that add no request. */
  lemma QuietStepKeepsWatchdogsAccounted(m: Machine, input: Input)
    requires WatchdogsAccounted(m)
    requires input.PasswordEntered? || input.CollectorFailed? || input == CollectorCompleted || input == SubmitFailed ||
             input == SubmitDone || input == ThingNameFailed || input == WatchdogFired
    ensures WatchdogsAccounted(Step(m, input))
  {
  }

  lemma {:induction false} RunKeepsWatchdogsAccounted(m: Machine, inputs: seq<Input>)
    requires WatchdogsAccounted(m)
    ensures WatchdogsAccounted(Run(m, inputs))
    decreases |inputs|
  {
    if inputs != [] {
      StepKeepsWatchdogsAccounted(m, inputs[0]);
      RunKeepsWatchdogsAccounted(Step(m, inputs[0]), inputs[1..]);
    }
  }

  /** From the initial state, no run emits more `ConnectFailed` than watchdogs were armed. */
  lemma FailuresBoundedByWatchdogs(inputs: seq<Input>)
    ensures var r := Run(Initial(), inputs);
            multiset(r.events)[ConnectFailed] <= multiset(r.requests)[ArmWatchdog(WatchdogMillis)]
  {
    RunKeepsWatchdogsAccounted(Initial(), inputs);
  }

  /** Steps only append to the event and request logs. */
  lemma {:induction false} RunExtendsLogs(m: Machine, inputs: seq<Input>)
    ensures m.events <= Run(m, inputs).events && m.requests <= Run(m, inputs).requests
    decreases |inputs|
  {
    if inputs != [] {
      var next := Step(m, inputs[0]);
      StepExtendsLogs(m, inputs[0]);
      RunExtendsLogs(next, inputs[1..]);
    }
  }

  lemma StepExtendsLogs(m: Machine, input: Input)
    ensures m.events <= Step(m, input).events && m.requests <= Step(m, input).requests
  {
    match input
    case ConnectRequested =>
    case BleStateChanged(s) =>
    case Initialized(mac, ssid, found) => RequestStepExtendsLogs(m, input);
    case WifiStateChanged(s) => RequestStepExtendsLogs(m, input);
    case ThingNameFetched => RequestStepExtendsLogs(m, input);
    case Cleared => RequestStepExtendsLogs(m, input);
    case _ => QuietStepExtendsLogs(m, input);
  }

  lemma RequestStepExtendsLogs(m: Machine, input: Input)
    requires input.Initialized? || input.WifiStateChanged? || input == ThingNameFetched || input == Cleared
    ensures m.events <= Step(m, input).events && m.requests <= Step(m, input).requests
  {
  }

  lemma QuietStepExtendsLogs(m: Machine, input: Input)
    requires input.PasswordEntered? || input.CollectorFailed? || input == CollectorCompleted || input == SubmitFailed ||
             input == SubmitDone || input == ThingNameFailed || input == WatchdogFired
    ensures m.events <= Step(m, input).events && m.requests == Step(m, input).requests
  {
  }

  // ---------------------------------------------------------------------------
  // The view model
  // ---------------------------------------------------------------------------

  class ConnectWifiViewModel {
    var uiState: ConnectWifiUiState
    var uiEvents: seq<ConnectWifiUiEvent>
    var macAddress: Option<string>
    var ssid: Option<string>
    /** Whether `lock` is non-null. */
    var hasLock: bool
    var collectingBleState: bool
    var isConnectingToWifi: bool
    var isCollectingConnectToWifiState: bool
    var pendingSubmissions: nat
    var pendingThingNames: nat
    var pendingWatchdogs: nat
    var requests: seq<Request>

    function State(): Machine
      reads this
    {
      Machine(uiState, macAddress, ssid, hasLock, collectingBleState, isConnectingToWifi,
              isCollectingConnectToWifiState, pendingSubmissions, pendingThingNames, pendingWatchdogs,
              uiEvents, requests)
    }

    constructor ()
      ensures State() == Initial()
    {
      uiState := DefaultUiState();
      uiEvents := [];
      macAddress := None;
      ssid := None;
      hasLock := false;
      collectingBleState := false;
      isConnectingToWifi := false;
      isCollectingConnectToWifiState := false;
      pendingSubmissions := 0;
      pendingThingNames := 0;
      pendingWatchdogs := 0;
      requests := [];
    }

    /** `init`, with whether the lock lookup found a Wi-Fi lock. */
    method Init(macAddress: string, ssid: string, lockFound: bool)
      modifies this
      ensures State() == Step(old(State()), Initialized(macAddress, ssid, lockFound))
    {
      this.macAddress := Some(macAddress);
      this.ssid := Some(ssid);
      hasLock := lockFound;
      if lockFound {
        CollectBleConnectionState();
      }
    }

    /** `collectBleConnectionState`: subscribes to the link states of the lock. */
    method CollectBleConnectionState()
      requires hasLock
      modifies this`collectingBleState, this`requests
      ensures collectingBleState && requests == old(requests) + [CollectBleState]
    {
      collectingBleState := true;
      requests := requests + [CollectBleState];
    }

    method SetWifiPassword(password: string)
      modifies this`uiState
      ensures State() == Step(old(State()), PasswordEntered(password))
    {
      uiState := uiState.(password := password);
    }

    method ConnectToWifi()
      modifies this
      ensures State() == Step(old(State()), ConnectRequested)
    {
      if !hasLock {
        return;
      }
      requests := requests + ConnectRequests(isCollectingConnectToWifiState, ssid, uiState.password);
      isCollectingConnectToWifiState := true;
      isConnectingToWifi := true;
      uiState := uiState.(isProgress := true);
      if ssid.Some? {
        pendingSubmissions := pendingSubmissions + 1;
      } else {
        // `ssid!!` throws inside the submission flow, whose `catch` shows the error
        uiState := uiState.(errorMessage := ConnectFailedMessage);
      }
      pendingWatchdogs := pendingWatchdogs + 1;
    }

    method OnBleState(state: BluetoothConnectState)
      modifies this
      ensures State() == Step(old(State()), BleStateChanged(state))
    {
      if !collectingBleState {
        return;
      }
      match state
      case Disconnected => uiEvents := uiEvents + [BleDisconnected];
      case Connected => ConnectToWifi();
      case Connecting => uiEvents := uiEvents + [BleConnecting];
    }

    method OnWifiState(state: WifiConnectState)
      modifies this
      ensures State() == Step(old(State()), WifiStateChanged(state))
    {
      if !isCollectingConnectToWifiState {
        return;
      }
      uiState := uiState.(progressMessage := ProgressLabel(state));
      if state == ConnectCloudSuccess {
        isConnectingToWifi := false;
        requests := requests + [FetchThingName];
        pendingThingNames := pendingThingNames + 1;
      } else if state == ConnectWifiFail {
        uiEvents := uiEvents + [ResetWifi];
      }
    }

    method OnCollectorFailed(message: Option<string>)
      modifies this
      ensures State() == Step(old(State()), CollectorFailed(message))
    {
      if !isCollectingConnectToWifiState {
        return;
      }
      isCollectingConnectToWifiState := false;
      if ShowsCollectorError(message) {
        uiState := uiState.(errorMessage := ConnectFailedMessage, isProgress := false);
      }
    }

    method OnCollectorCompleted()
      modifies this
      ensures State() == Step(old(State()), CollectorCompleted)
    {
      isCollectingConnectToWifiState := false;
    }

    method OnSubmitFailed()
      modifies this
      ensures State() == Step(old(State()), SubmitFailed)
    {
      if pendingSubmissions > 0 {
        pendingSubmissions := pendingSubmissions - 1;
        uiState := uiState.(errorMessage := ConnectFailedMessage);
      }
    }

    method OnSubmitDone()
      modifies this
      ensures State() == Step(old(State()), SubmitDone)
    {
      if pendingSubmissions > 0 {
        pendingSubmissions := pendingSubmissions - 1;
      }
    }

    method OnThingNameFetched()
      modifies this
      ensures State() == Step(old(State()), ThingNameFetched)
    {
      if pendingThingNames > 0 {
        pendingThingNames := pendingThingNames - 1;
        uiEvents := uiEvents + [ConnectSuccess];
        uiState := uiState.(isProgress := false);
        requests := requests + [GetProvisionInfo];
      }
    }

    method OnThingNameFailed()
      modifies this
      ensures State() == Step(old(State()), ThingNameFailed)
    {
      if pendingThingNames > 0 {
        pendingThingNames := pendingThingNames - 1;
      }
    }

    method OnWatchdogFired()
      modifies this
      ensures State() == Step(old(State()), WatchdogFired)
    {
      if pendingWatchdogs > 0 {
        pendingWatchdogs := pendingWatchdogs - 1;
        if isConnectingToWifi {
          uiEvents := uiEvents + [ConnectFailed];
        }
      }
    }

    /** `onCleared`: disconnects the lock if there is one. */
    method OnCleared()
      modifies this
      ensures State() == Step(old(State()), Cleared)
    {
      if hasLock {
        requests := requests + [Disconnect];
      }
    }
  }
}
