/** The settings page of one lock: it keeps the fetched attribute document (the
    baseline, inside the UI state) and an edited copy, reconciles the two when the
    page is left, and runs the delete and factory-reset workflows across the cloud
    registry, the user-sync document and the local repository.

    Every asynchronous flow of the page is modelled as one synchronous run whose
    collaborator answers are inputs (the `...Oracle` records); what the flow does to
    the outside world is appended, in order, to the effect log `effects`. */
module Settings {
  import opened Common

  /** `HomeViewModel.DeviceType.WiFi.typeNum`; its value is defined outside this model. */
  const WiFiTypeNum: int

  const NoIdentityMessage := "deviceIdentity is null"
  const NoMacMessage := "macAddressNull"
  const SettingNullMessage := "settingNull"
  const BleDisconnectedMessage := "Ble Lock is disconnect."
  const NoAdminCodeMessage := "You had not set admin code."
  const AdminCodeErrorMessage := "Admin Code Error."
  const FactoryResetFailMessage := "factoryResetFail"
  /** The message of the exception `it as AllLock` throws on a null lock. */
  const NullCastMessage := "null cannot be cast to non-null type com.sunion.ikeyconnect.lock.AllLock"
  /** The settle delay between a BLE factory reset and the success event. */
  const FactoryResetSettleMillis := 5000

  // ---------------------------------------------------------------------------
  // Data model
  // ---------------------------------------------------------------------------

  /** A latitude or longitude (a Kotlin `Double`); the page only copies it. */
  datatype Coordinate = Coordinate(bits: int)

  datatype Timezone = Timezone(offset: int, shortName: string)
  datatype WiFiInfo = WiFiInfo(passphrase: string, ssid: string, security: string)
  datatype Bluetooth = Bluetooth(broadcastName: string, macAddress: string, connectionKey: string, shareToken: string)
  datatype LocationInfo = LocationInfo(latitude: Coordinate, longitude: Coordinate)

  /** `RegistryGetResponse.RegistryPayload.RegistryAttributes`: the lock's configuration document. */
  datatype RegistryAttributes = RegistryAttributes(
    autoLock: bool,
    autoLockDelay: int,
    deviceName: string,
    preamble: bool,
    secureMode: bool,
    syncing: bool,
    model: string,
    firmwareVersion: string,
    keyPressBeep: bool,
    offlineNotifiy: bool,
    statusNotification: bool,
    timezone: Timezone,
    vacationMode: bool,
    wifi: WiFiInfo,
    bluetooth: Bluetooth,
    location: LocationInfo)

  /** The Bluetooth block of a cloud registry response, whose fields may be null. */
  datatype RemoteBluetooth = RemoteBluetooth(
    broadcastName: Option<string>,
    macAddress: Option<string>,
    connectionKey: Option<string>,
    shareToken: Option<string>)

  /** The attributes of a `getDeviceRegistry` response; the Bluetooth block may be null. */
  datatype RemoteAttributes = RemoteAttributes(
    autoLock: bool,
    autoLockDelay: int,
    deviceName: string,
    preamble: bool,
    secureMode: bool,
    syncing: bool,
    model: string,
    firmwareVersion: string,
    keyPressBeep: bool,
    offlineNotifiy: bool,
    statusNotification: bool,
    timezone: Timezone,
    vacationMode: bool,
    wifi: WiFiInfo,
    bluetooth: Option<RemoteBluetooth>,
    location: LocationInfo)

  /** The BLE configuration of a lock; `otherFields` stands for the fields this page never names. */
  datatype LockConfig = LockConfig(
    isVacationModeOn: bool,
    autoLockTime: int,
    isAutoLock: bool,
    isPreamble: bool,
    isSoundOn: bool,
    latitude: Option<Coordinate>,
    longitude: Option<Coordinate>,
    otherFields: seq<int>)

  /** What `getLockSetting` yields; its configuration may be null. */
  datatype LockSetting = LockSetting(config: Option<LockConfig>)

  datatype SettingsUiState = SettingsUiState(
    showDeleteConfirmDialog: bool,
    showFactoryResetDialog: bool,
    isLoading: bool,
    deviceType: int,
    isAutoLockEditClicked: bool,
    macAddressOrThingName: string,
    battery: string,
    registryAttributes: RegistryAttributes)

  datatype SettingsUiEvent = DeleteLockSuccess | DeleteLockFail

  /** One record of the BLE device list in the user-sync document. */
  datatype BleDevice = BleDevice(macAddress: string, otherFields: seq<string>)

  /** The `BLEDevices` part of the user-sync document: the list (may be null) and its version. */
  datatype BleDevices = BleDevices(devices: Option<seq<BleDevice>>, version: int)

  /** A `getUserSync` response; its `BLEDevices` part may be null. */
  datatype UserSyncResponse = UserSyncResponse(bleDevices: Option<BleDevices>)

  /** A record of the local lock repository. */
  datatype StoredRecord = StoredRecord(macAddress: string, otherFields: seq<string>)

  /** One entry of a `getAdminCode` response; the list's elements may be null. */
  datatype AccessCode = AccessCode(code: Option<string>)

  /** The status of a connection event. */
  datatype EventState = Success | Error | Loading

  /** `Event<Pair<Boolean, String>>` of a lock's connection-state stream. */
  datatype ConnectionEvent = ConnectionEvent(status: EventState, first: Option<bool>, message: Option<string>)

  /** What `getLockByMacAddress` returned to `executeDelete`: whether it is an `AllLock`,
      what `isConnected()` says first, and what it says after `connect()` was issued. */
  datatype LockHandle = LockHandle(isAllLock: bool, isConnected: bool, connectedAfterConnect: bool)

  /** The outside-world actions of the page, in the order they happen. */
  datatype Effect =
    | GetDeviceRegistry(thingName: string)
    | ReadLockSetting(macAddress: string)
    | UpdateDeviceRegistry(thingName: string, attributes: RegistryAttributes)
    | ReadBleConfig(macAddress: string)
    | WriteBleConfig(macAddress: string, config: LockConfig)
    | GetUserSync
    | UpdateUserSync(devices: seq<BleDevice>, version: int)
    | LookUpLocalRecord(macAddress: string)
    | DeleteLocalRecord(record: StoredRecord)
    | GetAdminCode(thingName: string)
    | CloudDelete(thingName: string)
    | SendFactoryReset(macAddress: string, adminCode: string)
    | ConnectLock
    | LockDelete
    | Delay(millis: nat)
    | Toast(message: string)
    | LogError
    | Emit(event: SettingsUiEvent)
    | Proceed   // the `onNext` callback

  // Collaborator answers, one record per workflow.

  datatype LoadOracle = LoadOracle(
    registry: Result<RemoteAttributes>,
    lockFound: bool,
    setting: Result<LockSetting>,
    firmwareVersion: Result<string>)

  datatype LeaveOracle = LeaveOracle(
    registryWrite: Outcome,
    lockFound: bool,
    configRead: Result<LockConfig>,
    configWrite: Outcome)

  datatype DeleteBleOracle = DeleteBleOracle(
    userSync: Result<UserSyncResponse>,
    syncWrite: Outcome,
    localRecord: Result<StoredRecord>,
    localDelete: Outcome)

  datatype FactoryResetOracle = FactoryResetOracle(adminCodes: Result<seq<Option<AccessCode>>>, cloudDelete: Outcome)

  datatype FactoryResetBleOracle = FactoryResetBleOracle(lockFound: bool, ack: Result<bool>, deleteBle: DeleteBleOracle)

  datatype ExecuteDeleteOracle = ExecuteDeleteOracle(
    lock: Option<LockHandle>,
    connectionEvents: seq<ConnectionEvent>,
    lockDelete: Outcome,
    deleteBle: DeleteBleOracle)

  // ---------------------------------------------------------------------------
  // Loading the baseline
  // ---------------------------------------------------------------------------

  function DefaultRegistryAttributes(): RegistryAttributes
  {
    RegistryAttributes(false, 0, "", false, false, false, "", "", false, false, false,
      Timezone(0, ""), false, WiFiInfo("", "", ""), Bluetooth("", "", "", ""),
      LocationInfo(Coordinate(0), Coordinate(0)))
  }

  function DefaultUiState(): SettingsUiState
  {
    SettingsUiState(false, false, false, WiFiTypeNum, false, "", "0", DefaultRegistryAttributes())
  }

  function OrEmpty(s: Option<string>): string { if s.Some? then s.value else "" }

  /** The Bluetooth block `getRegistry` stores: a null block or field reads as the empty string. */
  function BluetoothFrom(b: Option<RemoteBluetooth>): (r: Bluetooth)
    ensures b.None? ==> r == Bluetooth("", "", "", "")
    ensures b.Some? ==>
              r.broadcastName == OrEmpty(b.value.broadcastName) && r.macAddress == OrEmpty(b.value.macAddress) &&
              r.connectionKey == OrEmpty(b.value.connectionKey) && r.shareToken == OrEmpty(b.value.shareToken)
  {
    if b.None? then Bluetooth("", "", "", "")
    else Bluetooth(OrEmpty(b.value.broadcastName), OrEmpty(b.value.macAddress),
                   OrEmpty(b.value.connectionKey), OrEmpty(b.value.shareToken))
  }

  /** The document `getRegistry` stores: a field-by-field copy of the cloud's, with
      the Bluetooth block defaulted. */
  function FromRemote(a: RemoteAttributes): (r: RegistryAttributes)
    ensures r.autoLock == a.autoLock && r.autoLockDelay == a.autoLockDelay && r.preamble == a.preamble
    ensures r.secureMode == a.secureMode && r.keyPressBeep == a.keyPressBeep && r.vacationMode == a.vacationMode
    ensures r.deviceName == a.deviceName && r.model == a.model && r.firmwareVersion == a.firmwareVersion
    ensures r.wifi == a.wifi && r.location == a.location && r.timezone == a.timezone
    ensures r.syncing == a.syncing && r.offlineNotifiy == a.offlineNotifiy && r.statusNotification == a.statusNotification
    ensures r.bluetooth == BluetoothFrom(a.bluetooth)
  {
    RegistryAttributes(a.autoLock, a.autoLockDelay, a.deviceName, a.preamble, a.secureMode, a.syncing,
      a.model, a.firmwareVersion, a.keyPressBeep, a.offlineNotifiy, a.statusNotification,
      a.timezone, a.vacationMode, a.wifi, BluetoothFrom(a.bluetooth), a.location)
  }

  /** The document `getLockSetting` builds for a BLE lock from its settings and the
      firmware version read over BLE. */
  function FromBleSetting(setting: LockSetting, firmwareVersion: string, macAddress: string): (r: RegistryAttributes)
    ensures r.deviceName == "BT_Lock" && !r.secureMode && r.firmwareVersion == firmwareVersion
    ensures r.bluetooth == Bluetooth("", macAddress, "", "")
    ensures setting.config.None? ==>
              !r.autoLock && r.autoLockDelay == 1 && !r.preamble && !r.keyPressBeep && !r.vacationMode &&
              r.location == LocationInfo(Coordinate(0), Coordinate(0))
    ensures setting.config.Some? ==>
              var c := setting.config.value;
              r.autoLock == c.isAutoLock && r.autoLockDelay == c.autoLockTime && r.preamble == c.isPreamble &&
              r.keyPressBeep == c.isSoundOn && r.vacationMode == c.isVacationModeOn
  {
    var c := setting.config;
    RegistryAttributes(
      autoLock := c.Some? && c.value.isAutoLock,
      autoLockDelay := if c.Some? then c.value.autoLockTime else 1,
      deviceName := "BT_Lock",
      preamble := c.Some? && c.value.isPreamble,
      secureMode := false,
      syncing := false,
      model := "",
      firmwareVersion := firmwareVersion,
      keyPressBeep := c.Some? && c.value.isSoundOn,
      offlineNotifiy := false,
      statusNotification := false,
      timezone := Timezone(0, ""),
      vacationMode := c.Some? && c.value.isVacationModeOn,
      wifi := WiFiInfo("", "", ""),
      bluetooth := Bluetooth("", macAddress, "", ""),
      location := LocationInfo(
        if c.Some? && c.value.latitude.Some? then c.value.latitude.value else Coordinate(0),
        if c.Some? && c.value.longitude.Some? then c.value.longitude.value else Coordinate(0)))
  }

  // ---------------------------------------------------------------------------
  // Reconciliation on leaving the page
  // ---------------------------------------------------------------------------

  /** The six attributes `leaveSettingPage` compares. */
  predicate SixFieldsEqual(baseline: RegistryAttributes, edited: RegistryAttributes)
  {
    && baseline.autoLock == edited.autoLock
    && baseline.autoLockDelay == edited.autoLockDelay
    && baseline.vacationMode == edited.vacationMode
    && baseline.keyPressBeep == edited.keyPressBeep
    && baseline.preamble == edited.preamble
    && baseline.secureMode == edited.secureMode
  }

  /** The branch `leaveSettingPage` takes. */
  datatype LeavePath = NoChange | NotLoaded | CloudWrite | BleNotConnected | BleWrite

  function LeavePathOf(baseline: RegistryAttributes, edited: Option<RegistryAttributes>,
                       deviceType: Option<int>, isConnected: bool): (p: LeavePath)
    ensures p == NoChange <==> edited.Some? && SixFieldsEqual(baseline, edited.value)
    ensures p == NotLoaded <==> edited.None?
    ensures p == CloudWrite <==>
              edited.Some? && !SixFieldsEqual(baseline, edited.value) && deviceType == Some(WiFiTypeNum)
    ensures p == BleNotConnected <==>
              edited.Some? && !SixFieldsEqual(baseline, edited.value) && deviceType != Some(WiFiTypeNum) && !isConnected
    ensures p == BleWrite <==>
              edited.Some? && !SixFieldsEqual(baseline, edited.value) && deviceType != Some(WiFiTypeNum) && isConnected
  {
    if edited.Some? && SixFieldsEqual(baseline, edited.value) then NoChange
    else if edited.None? then NotLoaded
    else if deviceType == Some(WiFiTypeNum) then CloudWrite
    else if !isConnected then BleNotConnected
    else BleWrite
  }

  /** The configuration written back over BLE: the read configuration with exactly
      five fields taken from the edited document. */
  function MergeBleConfig(config: LockConfig, edited: RegistryAttributes): (r: LockConfig)
    ensures r.isVacationModeOn == edited.vacationMode && r.autoLockTime == edited.autoLockDelay
    ensures r.isAutoLock == edited.autoLock && r.isPreamble == edited.preamble
    ensures r.isSoundOn == edited.keyPressBeep
    ensures r.latitude == config.latitude && r.longitude == config.longitude
    ensures r.otherFields == config.otherFields
  {
    config.(isVacationModeOn := edited.vacationMode, autoLockTime := edited.autoLockDelay,
            isAutoLock := edited.autoLock, isPreamble := edited.preamble, isSoundOn := edited.keyPressBeep)
  }

  /** Secure mode never reaches the lock over BLE. */
  lemma SecureModeNotSentOverBle(config: LockConfig, edited: RegistryAttributes, secure: bool)
    ensures MergeBleConfig(config, edited) == MergeBleConfig(config, edited.(secureMode := secure))
  {
  }

  /** The toast a flow's `catch` shows when its call failed. */
  function FailureToast(o: Outcome): seq<Effect>
  {
    if o.Fail? then [Toast(o.message)] else []
  }

  /** Whether the branch runs a flow (whose `onCompletion` clears `isLoading`). */
  predicate LeaveRunsFlow(p: LeavePath)
  {
    p == CloudWrite || p == BleWrite
  }

  /** The Wi-Fi branch of `leaveSettingPage`: one registry update with the whole edited copy. */
  function CloudLeaveEffects(identity: Option<string>, edited: RegistryAttributes, o: LeaveOracle): seq<Effect>
  {
    if identity.None? then [Proceed, Toast(NoIdentityMessage)]
    else [UpdateDeviceRegistry(identity.value, edited), Proceed] + FailureToast(o.registryWrite)
  }

  /** The BLE branch of `leaveSettingPage` on a connected lock: read the configuration,
      then write it back merged with the edited copy. */
  function BleLeaveEffects(identity: Option<string>, edited: RegistryAttributes, o: LeaveOracle): seq<Effect>
  {
    if identity.None? then [Proceed, Toast(NoMacMessage)]
    else if !o.lockFound then [Proceed, Toast(NullCastMessage)]
    else [ReadBleConfig(identity.value)] + BleWriteBackEffects(identity.value, edited, o)
  }

  function BleWriteBackEffects(macAddress: string, edited: RegistryAttributes, o: LeaveOracle): seq<Effect>
  {
    if o.configRead.Err? then [Proceed, Toast(o.configRead.message)]
    else [WriteBleConfig(macAddress, MergeBleConfig(o.configRead.value, edited)), Proceed] + FailureToast(o.configWrite)
  }

  /** What `leaveSettingPage` does. `onCompletion` (which calls `onNext`) runs before `catch`. */
  function LeaveEffects(baseline: RegistryAttributes, edited: Option<RegistryAttributes>,
                        deviceType: Option<int>, isConnected: bool, identity: Option<string>,
                        o: LeaveOracle): seq<Effect>
  {
    match LeavePathOf(baseline, edited, deviceType, isConnected)
    case NoChange => [Proceed]
    case NotLoaded => [Proceed]
    case CloudWrite => CloudLeaveEffects(identity, edited.value, o)
    case BleNotConnected => [Toast(BleDisconnectedMessage), Proceed]
    case BleWrite => BleLeaveEffects(identity, edited.value, o)
  }

  /** Whatever happens, leaving the page calls `onNext` exactly once. */
  lemma LeaveProceedsOnce(baseline: RegistryAttributes, edited: Option<RegistryAttributes>,
                          deviceType: Option<int>, isConnected: bool, identity: Option<string>, o: LeaveOracle)
    ensures multiset(LeaveEffects(baseline, edited, deviceType, isConnected, identity, o))[Proceed] == 1
  {
    match LeavePathOf(baseline, edited, deviceType, isConnected)
    case CloudWrite => CloudLeaveProceedsOnce(identity, edited.value, o);
    case BleWrite => BleLeaveProceedsOnce(identity, edited.value, o);
    case _ =>
  }

  lemma CloudLeaveProceedsOnce(identity: Option<string>, edited: RegistryAttributes, o: LeaveOracle)
    ensures multiset(CloudLeaveEffects(identity, edited, o))[Proceed] == 1
  {
  }

  lemma BleLeaveProceedsOnce(identity: Option<string>, edited: RegistryAttributes, o: LeaveOracle)
    ensures multiset(BleLeaveEffects(identity, edited, o))[Proceed] == 1
  {
    if identity.Some? && o.lockFound {
      assert multiset(BleWriteBackEffects(identity.value, edited, o))[Proceed] == 1;
    }
  }

  /** No write of any kind happens unless one of the six fields differs. */
  lemma LeaveWritesOnlyOnChange(baseline: RegistryAttributes, edited: Option<RegistryAttributes>,
                                deviceType: Option<int>, isConnected: bool, identity: Option<string>, o: LeaveOracle)
    requires edited.None? || SixFieldsEqual(baseline, edited.value)
    ensures LeaveEffects(baseline, edited, deviceType, isConnected, identity, o) == [Proceed]
  {
  }

  /** A changed Wi-Fi lock: exactly one registry update, carrying the whole edited copy. */
  lemma LeaveCloudWritesWholeCopyOnce(baseline: RegistryAttributes, edited: RegistryAttributes,
                                      isConnected: bool, identity: string, o: LeaveOracle)
    requires !SixFieldsEqual(baseline, edited)
    ensures var effs := LeaveEffects(baseline, Some(edited), Some(WiFiTypeNum), isConnected, Some(identity), o);
            effs[0] == UpdateDeviceRegistry(identity, edited) &&
            (forall k :: 1 <= k < |effs| ==> !effs[k].UpdateDeviceRegistry? && !effs[k].WriteBleConfig?)
  {
  }

  /** A changed BLE lock: no write when disconnected; otherwise the configuration is
      read first, and the one write sends it back with the five edited fields. */
  lemma LeaveBleWritesReadConfig(baseline: RegistryAttributes, edited: RegistryAttributes, deviceType: Option<int>,
                                 isConnected: bool, identity: string, o: LeaveOracle)
    requires !SixFieldsEqual(baseline, edited) && deviceType != Some(WiFiTypeNum)
    ensures var effs := LeaveEffects(baseline, Some(edited), deviceType, isConnected, Some(identity), o);
            (!isConnected ==> effs == [Toast(BleDisconnectedMessage), Proceed]) &&
            (isConnected && o.lockFound && o.configRead.Ok? ==>
               effs[..3] == [ReadBleConfig(identity), WriteBleConfig(identity, MergeBleConfig(o.configRead.value, edited)), Proceed]) &&
            (forall k :: 0 <= k < |effs| ==> !effs[k].UpdateDeviceRegistry?)
  {
  }

  /** An example: an unchanged document is not written; changing only the auto-lock
      delay from 5 to 10 writes one document that differs only there. */
  lemma LeaveExample(baseline: RegistryAttributes, identity: string, isConnected: bool, o: LeaveOracle)
    requires !baseline.autoLock && baseline.autoLockDelay == 5 && !baseline.vacationMode
    requires baseline.keyPressBeep && !baseline.preamble && !baseline.secureMode
    requires o.registryWrite.Pass?
    ensures LeaveEffects(baseline, Some(baseline), Some(WiFiTypeNum), isConnected, Some(identity), o) == [Proceed]
    ensures LeaveEffects(baseline, Some(baseline.(autoLockDelay := 10)), Some(WiFiTypeNum), isConnected, Some(identity), o)
              == [UpdateDeviceRegistry(identity, baseline.(autoLockDelay := 10)), Proceed]
  {
  }

  // ---------------------------------------------------------------------------
  // Deleting a BLE lock from the user-sync document and the local repository
  // ---------------------------------------------------------------------------

  /** The device list without the records of `macAddress`, in the original order. */
  function Without(devices: seq<BleDevice>, macAddress: string): seq<BleDevice>
  {
    if devices == [] then []
    else
      var last := devices[|devices| - 1];
      Without(devices[..|devices| - 1], macAddress) + (if last.macAddress != macAddress then [last] else [])
  }

  /** A device survives the filter iff it was in the list and is not the target. */
  lemma {:induction false} WithoutMembers(devices: seq<BleDevice>, macAddress: string, d: BleDevice)
    ensures d in Without(devices, macAddress) <==> d in devices && d.macAddress != macAddress
    decreases |devices|
  {
    if devices != [] {
      var init := devices[..|devices| - 1];
      WithoutMembers(init, macAddress, d);
      assert devices == init + [devices[|devices| - 1]];
    }
  }

  /** Filtering distributes over concatenation, so the relative order of the kept records is unchanged. */
  lemma {:induction false} WithoutConcat(a: seq<BleDevice>, b: seq<BleDevice>, macAddress: string)
    ensures Without(a + b, macAddress) == Without(a, macAddress) + Without(b, macAddress)
    decreases |b|
  {
    if b == [] {
      assert a + b == a;
    } else {
      var binit := b[..|b| - 1];
      assert (a + b)[..|a + b| - 1] == a + binit;
      WithoutConcat(a, binit, macAddress);
    }
  }

  /** A list without the target is left exactly as it is. */
  lemma {:induction false} WithoutKeepsOthers(devices: seq<BleDevice>, macAddress: string)
    requires forall k :: 0 <= k < |devices| ==> devices[k].macAddress != macAddress
    ensures Without(devices, macAddress) == devices
    decreases |devices|
  {
    if devices != [] {
      WithoutKeepsOthers(devices[..|devices| - 1], macAddress);
    }
  }

  /** Filtering twice is filtering once. */
  lemma WithoutIsIdempotent(devices: seq<BleDevice>, macAddress: string)
    ensures Without(Without(devices, macAddress), macAddress) == Without(devices, macAddress)
  {
    var w := Without(devices, macAddress);
    forall k | 0 <= k < |w| ensures w[k].macAddress != macAddress {
      WithoutMembers(devices, macAddress, w[k]);
    }
    WithoutKeepsOthers(w, macAddress);
  }

  /** The device list of a user-sync response; a null part reads as empty. */
  function SyncedDevices(r: UserSyncResponse): seq<BleDevice>
  {
    if r.bleDevices.Some? && r.bleDevices.value.devices.Some? then r.bleDevices.value.devices.value else []
  }

  /** The version written back: the one that was read, or 0 without a `BLEDevices` part. */
  function SyncVersion(r: UserSyncResponse): int
  {
    if r.bleDevices.Some? then r.bleDevices.value.version else 0
  }

  /** The best-effort clean-up of the local record: its failures are only logged. */
  function LocalCleanupEffects(macAddress: string, o: DeleteBleOracle): seq<Effect>
  {
    [LookUpLocalRecord(macAddress)] +
      match o.localRecord
      case Err(_) => [LogError]
      case Ok(record) => [DeleteLocalRecord(record)] + (if o.localDelete.Fail? then [LogError] else [])
  }

  /** `deleteBleLock` as written: the removal of the local record is built inside a
      `map` on the repository's reactive lookup, which nothing subscribes to, so it never runs. */
  function DeleteBleLockEffectsAsWritten(macAddress: string, o: DeleteBleOracle): seq<Effect>
  {
    [GetUserSync] +
      match o.userSync
      case Err(e) => [Toast(e)]
      case Ok(r) => [UpdateUserSync(Without(SyncedDevices(r), macAddress), SyncVersion(r))] + FailureToast(o.syncWrite)
  }

  /** `deleteBleLock` as intended: read the document, write it back without the target
      using the version read, and only after that write succeeds clean up the local record. */
  function DeleteBleLockEffects(macAddress: string, o: DeleteBleOracle): seq<Effect>
  {
    [GetUserSync] +
      match o.userSync
      case Err(e) => [Toast(e)]
      case Ok(r) =>
        [UpdateUserSync(Without(SyncedDevices(r), macAddress), SyncVersion(r))] +
        (if o.syncWrite.Fail? then [Toast(o.syncWrite.message)] else LocalCleanupEffects(macAddress, o))
  }

  /** As written, the local record is never looked up or deleted, even when the sync write succeeded. */
  lemma AsWrittenNeverDeletesLocalRecord(macAddress: string, o: DeleteBleOracle)
    ensures var effs := DeleteBleLockEffectsAsWritten(macAddress, o);
            forall k :: 0 <= k < |effs| ==> !effs[k].DeleteLocalRecord? && !effs[k].LookUpLocalRecord?
  {
  }

  /** The corrected workflow differs from the written one only by the clean-up after a successful write. */
  lemma CorrectedAddsOnlyCleanup(macAddress: string, o: DeleteBleOracle)
    ensures DeleteBleLockEffects(macAddress, o) ==
              DeleteBleLockEffectsAsWritten(macAddress, o) +
              (if o.userSync.Ok? && o.syncWrite.Pass? then LocalCleanupEffects(macAddress, o) else [])
  {
  }

  /** The record is deleted only after a successful write of the filtered list with the
      version that was read; a failed or conflicting write leaves it untouched. */
  lemma LocalDeleteOnlyAfterSyncWrite(macAddress: string, o: DeleteBleOracle)
    ensures var effs := DeleteBleLockEffects(macAddress, o);
            (o.userSync.Err? || o.syncWrite.Fail? ==>
               forall k :: 0 <= k < |effs| ==> !effs[k].DeleteLocalRecord? && !effs[k].LookUpLocalRecord?) &&
            (o.userSync.Ok? ==>
               effs[..2] == [GetUserSync, UpdateUserSync(Without(SyncedDevices(o.userSync.value), macAddress),
                                                         SyncVersion(o.userSync.value))]) &&
            (o.userSync.Ok? && o.syncWrite.Pass? && o.localRecord.Ok? ==>
               effs[3] == DeleteLocalRecord(o.localRecord.value))
  {
  }

  /** The new device list of `deleteBleLock`, built as the source does: the old list
      filtered by MAC address and appended record by record. */
  method FilterOutDevice(devices: seq<BleDevice>, macAddress: string) returns (newList: seq<BleDevice>)
    ensures newList == Without(devices, macAddress)
    ensures forall d :: d in newList <==> d in devices && d.macAddress != macAddress
  {
    newList := [];
    var i := 0;
    while i < |devices|
      invariant 0 <= i <= |devices|
      invariant newList == Without(devices[..i], macAddress)
    {
      assert devices[..i + 1][..i] == devices[..i];
      if devices[i].macAddress != macAddress {
        newList := newList + [devices[i]];
      }
      i := i + 1;
    }
    assert devices[..i] == devices;
    forall d ensures d in newList <==> d in devices && d.macAddress != macAddress {
      WithoutMembers(devices, macAddress, d);
    }
  }

  // ---------------------------------------------------------------------------
  // Factory reset
  // ---------------------------------------------------------------------------

  /** The stored admin code: the first entry's code, or "" where it is null. */
  function StoredCode(entry: Option<AccessCode>): string
  {
    if entry.Some? && entry.value.code.Some? then entry.value.code.value else ""
  }

  /** The admin-code check of `factoryReset`: an empty list is an error; otherwise
      whether the first stored code equals the supplied one. */
  function AdminCodeMatches(codes: seq<Option<AccessCode>>, supplied: string): (r: Result<bool>)
    ensures r.Err? <==> codes == []
    ensures r.Err? ==> r.message == NoAdminCodeMessage
    ensures r.Ok? ==> (r.value <==> StoredCode(codes[0]) == supplied)
  {
    if codes == [] then Err(NoAdminCodeMessage) else Ok(StoredCode(codes[0]) == supplied)
  }

  /** `deleteLock`: its `onCompletion` emits `DeleteLockSuccess` whether or not the
      delete failed; a failure then also toasts and emits `DeleteLockFail`. */
  function DeleteLockEffects(thingName: string, o: Outcome): seq<Effect>
  {
    [CloudDelete(thingName), Emit(DeleteLockSuccess)] + (if o.Fail? then [Toast(o.message), Emit(DeleteLockFail)] else [])
  }

  /** `factoryReset` of a Wi-Fi lock. */
  function FactoryResetEffects(identity: Option<string>, adminCode: string, o: FactoryResetOracle): seq<Effect>
  {
    if identity.None? then [Toast(NoIdentityMessage)]
    else
      [GetAdminCode(identity.value)] +
        match o.adminCodes
        case Err(e) => [Toast(e)]
        case Ok(codes) =>
          var check := AdminCodeMatches(codes, adminCode);
          if check.Err? then [Toast(check.message)]
          else if !check.value then [Toast(AdminCodeErrorMessage)]
          else DeleteLockEffects(identity.value, o.cloudDelete)
  }

  /** The delete runs iff admin codes were fetched, the list is not empty and the first matches. */
  lemma FactoryResetDeletesOnlyOnMatch(thingName: string, adminCode: string, o: FactoryResetOracle)
    ensures var effs := FactoryResetEffects(Some(thingName), adminCode, o);
            var matches := o.adminCodes.Ok? && o.adminCodes.value != [] && StoredCode(o.adminCodes.value[0]) == adminCode;
            (matches ==> effs[1] == CloudDelete(thingName)) &&
            (!matches ==> forall k :: 0 <= k < |effs| ==> !effs[k].CloudDelete? && !effs[k].Emit?) &&
            (o.adminCodes == Ok([]) ==> effs == [GetAdminCode(thingName), Toast(NoAdminCodeMessage)]) &&
            (o.adminCodes.Ok? && o.adminCodes.value != [] && !matches ==>
               effs == [GetAdminCode(thingName), Toast(AdminCodeErrorMessage)])
  {
  }

  /** An example: with "1234" stored, supplying "9999" aborts with the admin-code error
      and no delete, and supplying "1234" deletes. */
  lemma FactoryResetExample(thingName: string, cloudDelete: Outcome)
    ensures FactoryResetEffects(Some(thingName), "9999", FactoryResetOracle(Ok([Some(AccessCode(Some("1234")))]), cloudDelete))
              == [GetAdminCode(thingName), Toast(AdminCodeErrorMessage)]
    ensures FactoryResetEffects(Some(thingName), "1234", FactoryResetOracle(Ok([Some(AccessCode(Some("1234")))]), cloudDelete))
              == [GetAdminCode(thingName)] + DeleteLockEffects(thingName, cloudDelete)
  {
    assert "9999" != "1234" by { assert "9999"[0] != "1234"[0]; }
  }

  /** A failed cloud delete still emits `DeleteLockSuccess`, before `DeleteLockFail`. */
  lemma DeleteLockFailureEmitsBoth(thingName: string, message: string)
    ensures DeleteLockEffects(thingName, Fail(message)) ==
              [CloudDelete(thingName), Emit(DeleteLockSuccess), Toast(message), Emit(DeleteLockFail)]
  {
  }

  /** `factoryResetByBle`: the reset command first; only a true acknowledgement runs
      the BLE delete, then waits the settle delay and emits success. */
  function FactoryResetByBleEffects(identity: Option<string>, adminCode: string, o: FactoryResetBleOracle): seq<Effect>
  {
    if identity.None? || !o.lockFound then [LogError, Emit(DeleteLockFail)]
    else
      [SendFactoryReset(identity.value, adminCode)] +
        if o.ack.Err? || !o.ack.value then [LogError, Emit(DeleteLockFail)]
        else DeleteBleLockEffects(identity.value, o.deleteBle) + [Delay(FactoryResetSettleMillis), Emit(DeleteLockSuccess)]
  }

  /** A false or failed acknowledgement emits `DeleteLockFail` and touches no store;
      a true one runs the BLE delete and ends with the delay and `DeleteLockSuccess`. */
  lemma FactoryResetByBleOutcomes(macAddress: string, adminCode: string, o: FactoryResetBleOracle)
    requires o.lockFound
    ensures var effs := FactoryResetByBleEffects(Some(macAddress), adminCode, o);
            effs[0] == SendFactoryReset(macAddress, adminCode) &&
            (o.ack != Ok(true) ==> effs == [SendFactoryReset(macAddress, adminCode), LogError, Emit(DeleteLockFail)]) &&
            (o.ack == Ok(true) ==>
               effs == [SendFactoryReset(macAddress, adminCode)] + DeleteBleLockEffects(macAddress, o.deleteBle) +
                       [Delay(5000), Emit(DeleteLockSuccess)])
  {
  }

  // ---------------------------------------------------------------------------
  // Confirmed delete
  // ---------------------------------------------------------------------------

  /** A connection event the filter of `executeDelete` lets through: a success whose flag is true. */
  predicate IsReady(e: ConnectionEvent)
  {
    e.status == Success && e.first == Some(true)
  }

  /** An event that settles the wait for a connection: an error (which is thrown) or a ready event. */
  predicate Decisive(e: ConnectionEvent)
  {
    e.status == Error || IsReady(e)
  }

  /** The position of the first decisive event, or the length when there is none. */
  function FirstDecisive(events: seq<ConnectionEvent>): (k: nat)
    ensures k <= |events|
    ensures forall j :: 0 <= j < k ==> !Decisive(events[j])
    ensures k < |events| ==> Decisive(events[k])
  {
    if events == [] then 0
    else if Decisive(events[0]) then 0
    else 1 + FirstDecisive(events[1..])
  }

  /** Whether the stream reaches a ready event before any error. */
  predicate ReachesReady(events: seq<ConnectionEvent>)
  {
    FirstDecisive(events) < |events| && IsReady(events[FirstDecisive(events)])
  }

  /** Whether a lock goes straight to the delete: an `AllLock`, or one that reports
      itself connected (before or after `connect()` was issued). */
  predicate DeletesAtOnce(lock: LockHandle)
  {
    lock.isAllLock || lock.isConnected || lock.connectedAfterConnect
  }

  /** The delete proper: `lock.delete` for a Wi-Fi device, `deleteBleLock` otherwise
      (whose own failures do not stop the success event). */
  function DeleteStepEffects(macAddress: string, deviceType: Option<int>, o: ExecuteDeleteOracle): seq<Effect>
  {
    if deviceType == Some(WiFiTypeNum) then
      [LockDelete] + (if o.lockDelete.Pass? then [Emit(DeleteLockSuccess)] else [LogError, Emit(DeleteLockFail)])
    else DeleteBleLockEffects(macAddress, o.deleteBle) + [Emit(DeleteLockSuccess)]
  }

  /** Only a failed Wi-Fi delete throws and so ends the `executeDelete` flow. */
  predicate DeleteStepThrows(deviceType: Option<int>, o: ExecuteDeleteOracle)
  {
    deviceType == Some(WiFiTypeNum) && o.lockDelete.Fail?
  }

  /** The loading flag after one delete step: a thrown Wi-Fi delete completes the flow,
      and `deleteBleLock` clears the flag itself when it completes. */
  function LoadingAfterDeleteStep(loading: bool, deviceType: Option<int>, o: ExecuteDeleteOracle): bool
  {
    if deviceType == Some(WiFiTypeNum) then loading && o.lockDelete.Pass? else false
  }

  /** Collecting the connection stream of a lock that is not connected. The stream never
      completes: every ready event runs the delete again, until an error event or a
      thrown delete ends the flow. */
  function StreamEffects(macAddress: string, deviceType: Option<int>, events: seq<ConnectionEvent>,
                         o: ExecuteDeleteOracle): seq<Effect>
    decreases |events|
  {
    if events == [] then []
    else if events[0].status == Error then [LogError, Emit(DeleteLockFail)]
    else if IsReady(events[0]) then
      DeleteStepEffects(macAddress, deviceType, o) +
      (if DeleteStepThrows(deviceType, o) then [] else StreamEffects(macAddress, deviceType, events[1..], o))
    else StreamEffects(macAddress, deviceType, events[1..], o)
  }

  /** The loading flag after collecting the delivered events, starting from `loading`. */
  function StreamLoading(loading: bool, deviceType: Option<int>, events: seq<ConnectionEvent>,
                         o: ExecuteDeleteOracle): bool
    decreases |events|
  {
    if events == [] then loading
    else if events[0].status == Error then false
    else if IsReady(events[0]) then
      if DeleteStepThrows(deviceType, o) then false
      else StreamLoading(LoadingAfterDeleteStep(loading, deviceType, o), deviceType, events[1..], o)
    else StreamLoading(loading, deviceType, events[1..], o)
  }

  /** Events before the first decisive one do nothing; an error there fails the workflow
      without a delete; a ready event there runs the first delete. */
  lemma {:induction false} StreamWaitsForFirstDecisive(macAddress: string, deviceType: Option<int>,
                                                       events: seq<ConnectionEvent>, o: ExecuteDeleteOracle, loading: bool)
    ensures var k := FirstDecisive(events);
            var effs := StreamEffects(macAddress, deviceType, events, o);
            (k == |events| ==> effs == [] && StreamLoading(loading, deviceType, events, o) == loading) &&
            (k < |events| && events[k].status == Error ==>
               effs == [LogError, Emit(DeleteLockFail)] && !StreamLoading(loading, deviceType, events, o)) &&
            (k < |events| && IsReady(events[k]) ==>
               effs == DeleteStepEffects(macAddress, deviceType, o) +
                       (if DeleteStepThrows(deviceType, o) then []
                        else StreamEffects(macAddress, deviceType, events[k + 1..], o)))
    decreases |events|
  {
    if events != [] && !Decisive(events[0]) {
      StreamWaitsForFirstDecisive(macAddress, deviceType, events[1..], o, loading);
      if FirstDecisive(events) < |events| {
        assert events[1..][FirstDecisive(events[1..]) + 1..] == events[FirstDecisive(events) + 1..];
      }
    }
  }

  /** A Wi-Fi device only ever sees `lock.delete`, any other only `deleteBleLock`. */
  lemma {:induction false} StreamDeletesMatchDeviceType(macAddress: string, deviceType: Option<int>,
                                                        events: seq<ConnectionEvent>, o: ExecuteDeleteOracle)
    ensures var effs := StreamEffects(macAddress, deviceType, events, o);
            (deviceType == Some(WiFiTypeNum) ==> GetUserSync !in effs) &&
            (deviceType != Some(WiFiTypeNum) ==> LockDelete !in effs)
    decreases |events|
  {
    if events != [] && events[0].status != Error {
      StreamDeletesMatchDeviceType(macAddress, deviceType, events[1..], o);
    }
  }

  /** `executeDelete` for a known identity. */
  function ExecuteDeleteEffects(macAddress: string, deviceType: Option<int>, o: ExecuteDeleteOracle): seq<Effect>
  {
    match o.lock
    case None => [LogError, Emit(DeleteLockFail)]
    case Some(lock) => ConnectedDeleteEffects(macAddress, deviceType, lock, o)
  }

  /** `executeDelete` once the lock was found: connect it if needed, then delete at once
      or collect its connection stream. */
  function ConnectedDeleteEffects(macAddress: string, deviceType: Option<int>, lock: LockHandle,
                                  o: ExecuteDeleteOracle): seq<Effect>
  {
    (if !lock.isAllLock && !lock.isConnected then [ConnectLock] else []) +
    if DeletesAtOnce(lock) then DeleteStepEffects(macAddress, deviceType, o)
    else StreamEffects(macAddress, deviceType, o.connectionEvents, o)
  }

  /** Whether `isLoading` is still set after `executeDelete`. */
  predicate ExecuteDeleteLoading(deviceType: Option<int>, o: ExecuteDeleteOracle)
  {
    o.lock.Some? && !DeletesAtOnce(o.lock.value) && StreamLoading(true, deviceType, o.connectionEvents, o)
  }

  /** A delete runs only for a lock that goes straight to it or whose stream reaches a
      ready event before any error, and it is the kind the device type selects. */
  lemma ExecuteDeleteOnlyWhenReady(macAddress: string, deviceType: Option<int>, o: ExecuteDeleteOracle)
    ensures var effs := ExecuteDeleteEffects(macAddress, deviceType, o);
            ((LockDelete in effs || GetUserSync in effs) ==>
               o.lock.Some? && (DeletesAtOnce(o.lock.value) || ReachesReady(o.connectionEvents))) &&
            (deviceType == Some(WiFiTypeNum) ==> GetUserSync !in effs) &&
            (deviceType != Some(WiFiTypeNum) ==> LockDelete !in effs)
  {
    StreamWaitsForFirstDecisive(macAddress, deviceType, o.connectionEvents, o, true);
    StreamDeletesMatchDeviceType(macAddress, deviceType, o.connectionEvents, o);
  }

  /** An error event before any ready event fails the workflow without deleting anything
      and ends the loading state. */
  lemma ExecuteDeleteErrorFails(macAddress: string, deviceType: Option<int>, o: ExecuteDeleteOracle, k: nat)
    requires o.lock.Some? && !DeletesAtOnce(o.lock.value)
    requires k < |o.connectionEvents| && o.connectionEvents[k].status == Error
    requires forall j :: 0 <= j < k ==> !Decisive(o.connectionEvents[j])
    ensures ExecuteDeleteEffects(macAddress, deviceType, o) == [ConnectLock, LogError, Emit(DeleteLockFail)]
    ensures !ExecuteDeleteLoading(deviceType, o)
  {
    StreamWaitsForFirstDecisive(macAddress, deviceType, o.connectionEvents, o, true);
    assert Decisive(o.connectionEvents[k]);
  }

  /** Without a decisive event the workflow does nothing more and stays loading. */
  lemma ExecuteDeleteWaits(macAddress: string, deviceType: Option<int>, o: ExecuteDeleteOracle)
    requires o.lock.Some? && !DeletesAtOnce(o.lock.value)
    requires forall j :: 0 <= j < |o.connectionEvents| ==> !Decisive(o.connectionEvents[j])
    ensures ExecuteDeleteEffects(macAddress, deviceType, o) == [ConnectLock]
    ensures ExecuteDeleteLoading(deviceType, o)
  {
    StreamWaitsForFirstDecisive(macAddress, deviceType, o.connectionEvents, o, true);
  }

  /** Two ready events in a row for a Wi-Fi lock whose delete succeeds: the delete runs
      twice, and the flow, which never completes, stays loading. */
  lemma RepeatedReadyDeletesTwice(macAddress: string, lock: LockHandle, e: ConnectionEvent, o: ExecuteDeleteOracle)
    requires !DeletesAtOnce(lock) && IsReady(e) && o.lock == Some(lock) && o.connectionEvents == [e, e]
    requires o.lockDelete.Pass?
    ensures ExecuteDeleteEffects(macAddress, Some(WiFiTypeNum), o) ==
              [ConnectLock, LockDelete, Emit(DeleteLockSuccess), LockDelete, Emit(DeleteLockSuccess)]
    ensures ExecuteDeleteLoading(Some(WiFiTypeNum), o)
  {
    var once := [LockDelete, Emit(DeleteLockSuccess)];
    assert o.connectionEvents[1..] == [e] && [e][1..] == [];
    assert StreamEffects(macAddress, Some(WiFiTypeNum), [e], o) == once;
    assert StreamEffects(macAddress, Some(WiFiTypeNum), [e, e], o) == once + once;
  }

  // ---------------------------------------------------------------------------
  // The view model
  // ---------------------------------------------------------------------------

  class SettingsViewModel {
    /** `_uiState`; its `registryAttributes` is the fetched baseline. */
    var uiState: SettingsUiState
    /** `_newRegistryAttributes`: the edited copy, null until a load succeeds. */
    var newRegistryAttributes: Option<RegistryAttributes>
    var deviceIdentity: Option<string>
    var deviceType: Option<int>
    var adminCode: string
    var isConnected: bool
    var battery: string
    /** Whether `collectBleLockStateToShow` has started collecting connection events. */
    var collectingBleState: bool
    /** Everything the page has done to the outside world, oldest first. */
    var effects: seq<Effect>

    constructor ()
      ensures uiState == DefaultUiState() && newRegistryAttributes.None?
      ensures deviceIdentity.None? && deviceType.None? && adminCode == "" && !isConnected && battery == "0"
      ensures !collectingBleState && effects == []
    {
      uiState := DefaultUiState();
      newRegistryAttributes := None;
      deviceIdentity := None;
      deviceType := None;
      adminCode := "";
      isConnected := false;
      battery := "0";
      collectingBleState := false;
      effects := [];
    }

    /** `init`: records the device and, when it is connected, loads the baseline
        from the cloud registry (Wi-Fi) or over BLE (other types). */
    method Init(identity: string, connected: bool, battery: string, deviceType: int, load: LoadOracle)
      modifies this
      ensures deviceIdentity == Some(identity) && isConnected == connected
      ensures this.battery == battery && this.deviceType == Some(deviceType) && adminCode == old(adminCode)
      ensures collectingBleState == (old(collectingBleState) || (deviceType != WiFiTypeNum && connected))
      ensures uiState.macAddressOrThingName == identity && uiState.battery == battery && uiState.deviceType == deviceType
      ensures uiState.showDeleteConfirmDialog == old(uiState.showDeleteConfirmDialog)
      ensures uiState.showFactoryResetDialog == old(uiState.showFactoryResetDialog)
      ensures uiState.isAutoLockEditClicked == old(uiState.isAutoLockEditClicked)
      ensures connected ==> !uiState.isLoading
      ensures !connected ==>
                effects == old(effects) && newRegistryAttributes == old(newRegistryAttributes) &&
                uiState.registryAttributes == old(uiState.registryAttributes) && uiState.isLoading == old(uiState.isLoading)
      ensures connected && deviceType == WiFiTypeNum ==>
                effects == old(effects) + [GetDeviceRegistry(identity)] +
                           (if load.registry.Err? then [Toast(load.registry.message)] else [])
      ensures connected && deviceType == WiFiTypeNum && load.registry.Ok? ==>
                uiState.registryAttributes == FromRemote(load.registry.value) &&
                newRegistryAttributes == Some(uiState.registryAttributes)
      ensures connected && deviceType != WiFiTypeNum ==>
                effects == old(effects) +
                           (if !load.lockFound then [Toast(SettingNullMessage)]
                            else [ReadLockSetting(identity)] +
                                 (if load.setting.Err? then [Toast(load.setting.message)]
                                  else if load.firmwareVersion.Err? then [Toast(load.firmwareVersion.message)] else []))
      ensures connected && deviceType != WiFiTypeNum && load.lockFound && load.setting.Ok? && load.firmwareVersion.Ok? ==>
                uiState.registryAttributes == FromBleSetting(load.setting.value, load.firmwareVersion.value, identity) &&
                newRegistryAttributes == Some(uiState.registryAttributes)
      ensures connected && !(if deviceType == WiFiTypeNum then load.registry.Ok?
                             else load.lockFound && load.setting.Ok? && load.firmwareVersion.Ok?) ==>
                newRegistryAttributes == old(newRegistryAttributes) &&
                uiState.registryAttributes == old(uiState.registryAttributes)
    {
      deviceIdentity := Some(identity);
      isConnected := connected;
      this.battery := battery;
      this.deviceType := Some(deviceType);
      uiState := uiState.(macAddressOrThingName := identity, battery := battery, deviceType := deviceType);
      if deviceType == WiFiTypeNum && connected {
        GetRegistry(load.registry);
      } else if deviceType != WiFiTypeNum && connected {
        GetLockSetting(load.lockFound, load.setting, load.firmwareVersion);
        CollectBleLockStateToShow();
      }
    }

    /** `collectBleLockStateToShow`: starts listening to the connection stream. */
    method CollectBleLockStateToShow()
      modifies this`collectingBleState
      ensures collectingBleState
    {
      collectingBleState := true;
    }

    /** One event of the connection stream: a false flag marks the lock disconnected. */
    method OnBleConnectionEvent(first: Option<bool>)
      modifies this`isConnected
      ensures isConnected == (old(isConnected) && !(collectingBleState && first == Some(false)))
    {
      if collectingBleState && first == Some(false) {
        isConnected := false;
      }
    }

    /** `getLockSetting`: reads the BLE settings and firmware version and makes the
        built document both the baseline and the edited copy. */
    method GetLockSetting(lockFound: bool, setting: Result<LockSetting>, firmwareVersion: Result<string>)
      modifies this`uiState, this`newRegistryAttributes, this`effects
      ensures uiState.(isLoading := false, registryAttributes := old(uiState.registryAttributes)) == old(uiState).(isLoading := false)
      ensures !uiState.isLoading
      ensures deviceIdentity.None? ==> effects == old(effects) + [Toast(NoMacMessage)]
      ensures deviceIdentity.Some? && !lockFound ==> effects == old(effects) + [Toast(SettingNullMessage)]
      ensures deviceIdentity.Some? && lockFound ==>
                effects == old(effects) + [ReadLockSetting(deviceIdentity.value)] +
                           (if setting.Err? then [Toast(setting.message)]
                            else if firmwareVersion.Err? then [Toast(firmwareVersion.message)] else [])
      ensures if deviceIdentity.Some? && lockFound && setting.Ok? && firmwareVersion.Ok? then
                uiState.registryAttributes == FromBleSetting(setting.value, firmwareVersion.value, deviceIdentity.value) &&
                newRegistryAttributes == Some(uiState.registryAttributes)
              else
                uiState.registryAttributes == old(uiState.registryAttributes) && newRegistryAttributes == old(newRegistryAttributes)
    {
      uiState := uiState.(isLoading := true);
      if deviceIdentity.None? {
        effects := effects + [Toast(NoMacMessage)];
      } else if !lockFound {
        effects := effects + [Toast(SettingNullMessage)];
      } else {
        effects := effects + [ReadLockSetting(deviceIdentity.value)];
        if setting.Err? {
          effects := effects + [Toast(setting.message)];
        } else if firmwareVersion.Err? {
          effects := effects + [Toast(firmwareVersion.message)];
        } else {
          var info := FromBleSetting(setting.value, firmwareVersion.value, deviceIdentity.value);
          uiState := uiState.(registryAttributes := info);
          newRegistryAttributes := Some(info);
        }
      }
      uiState := uiState.(isLoading := false);
    }

    /** `getRegistry`: fetches the cloud registry and makes the copied document both
        the baseline and the edited copy. */
    method GetRegistry(registry: Result<RemoteAttributes>)
      modifies this`uiState, this`newRegistryAttributes, this`effects
      ensures uiState.(isLoading := false, registryAttributes := old(uiState.registryAttributes)) == old(uiState).(isLoading := false)
      ensures !uiState.isLoading
      ensures deviceIdentity.None? ==> effects == old(effects) + [Toast(NoIdentityMessage)]
      ensures deviceIdentity.Some? ==>
                effects == old(effects) + [GetDeviceRegistry(deviceIdentity.value)] +
                           (if registry.Err? then [Toast(registry.message)] else [])
      ensures if deviceIdentity.Some? && registry.Ok? then
                uiState.registryAttributes == FromRemote(registry.value) &&
                newRegistryAttributes == Some(uiState.registryAttributes)
              else
                uiState.registryAttributes == old(uiState.registryAttributes) && newRegistryAttributes == old(newRegistryAttributes)
    {
      uiState := uiState.(isLoading := true);
      if deviceIdentity.None? {
        effects := effects + [Toast(NoIdentityMessage)];
      } else {
        effects := effects + [GetDeviceRegistry(deviceIdentity.value)];
        match registry
        case Err(e) =>
          effects := effects + [Toast(e)];
        case Ok(attributes) =>
          var info := FromRemote(attributes);
          uiState := uiState.(registryAttributes := info);
          newRegistryAttributes := Some(info);
      }
      uiState := uiState.(isLoading := false);
    }

    /** `leaveSettingPage`. */
    method LeaveSettingPage(o: LeaveOracle)
      modifies this`uiState, this`effects
      ensures effects == old(effects) +
                LeaveEffects(old(uiState.registryAttributes), newRegistryAttributes, deviceType, isConnected, deviceIdentity, o)
      ensures uiState == if LeaveRunsFlow(LeavePathOf(old(uiState.registryAttributes), newRegistryAttributes, deviceType, isConnected))
                         then old(uiState).(isLoading := false) else old(uiState)
    {
      var baseline := uiState.registryAttributes;
      if newRegistryAttributes.Some? && SixFieldsEqual(baseline, newRegistryAttributes.value) {
        effects := effects + [Proceed];
        return;
      }
      if newRegistryAttributes.None? {
        // disconnect mode
        effects := effects + [Proceed];
        return;
      }
      var edited := newRegistryAttributes.value;
      if deviceType == Some(WiFiTypeNum) {
        WriteRegistry(edited, o);
      } else if !isConnected {
        effects := effects + [Toast(BleDisconnectedMessage), Proceed];
      } else {
        WriteBleSettings(edited, o);
      }
    }

    /** The Wi-Fi branch of `leaveSettingPage`. */
    method WriteRegistry(edited: RegistryAttributes, o: LeaveOracle)
      modifies this`uiState, this`effects
      ensures effects == old(effects) + CloudLeaveEffects(deviceIdentity, edited, o)
      ensures uiState == old(uiState).(isLoading := false)
    {
      uiState := uiState.(isLoading := true);
      if deviceIdentity.None? {
        effects := effects + [Proceed, Toast(NoIdentityMessage)];
      } else {
        effects := effects + [UpdateDeviceRegistry(deviceIdentity.value, edited), Proceed] + FailureToast(o.registryWrite);
      }
      uiState := uiState.(isLoading := false);
    }

    /** The BLE branch of `leaveSettingPage` on a connected lock. */
    method WriteBleSettings(edited: RegistryAttributes, o: LeaveOracle)
      modifies this`uiState, this`effects
      ensures effects == old(effects) + BleLeaveEffects(deviceIdentity, edited, o)
      ensures uiState == old(uiState).(isLoading := false)
    {
      uiState := uiState.(isLoading := true);
      if deviceIdentity.None? {
        effects := effects + [Proceed, Toast(NoMacMessage)];
      } else if !o.lockFound {
        effects := effects + [Proceed, Toast(NullCastMessage)];
      } else {
        WriteBackBleConfig(deviceIdentity.value, edited, o);
      }
      uiState := uiState.(isLoading := false);
    }

    /** Reading the configuration over BLE and writing it back merged with the edited copy. */
    method WriteBackBleConfig(macAddress: string, edited: RegistryAttributes, o: LeaveOracle)
      modifies this`effects
      ensures effects == old(effects) + [ReadBleConfig(macAddress)] + BleWriteBackEffects(macAddress, edited, o)
    {
      effects := effects + [ReadBleConfig(macAddress)];
      match o.configRead
      case Err(e) =>
        effects := effects + [Proceed, Toast(e)];
      case Ok(config) =>
        effects := effects + [WriteBleConfig(macAddress, MergeBleConfig(config, edited)), Proceed] + FailureToast(o.configWrite);
    }

    /** `delete`: asks for confirmation. */
    method Delete()
      modifies this`uiState
      ensures uiState == old(uiState).(showDeleteConfirmDialog := true)
    {
      uiState := uiState.(showDeleteConfirmDialog := true);
    }

    method CloseDeleteConfirmDialog()
      modifies this`uiState
      ensures uiState == old(uiState).(showDeleteConfirmDialog := false)
    {
      uiState := uiState.(showDeleteConfirmDialog := false);
    }

    method OnFactoryResetClick()
      modifies this`uiState
      ensures uiState == old(uiState).(showFactoryResetDialog := true)
    {
      uiState := uiState.(showFactoryResetDialog := true);
    }

    method CloseFactoryResetDialog()
      modifies this`uiState
      ensures uiState == old(uiState).(showFactoryResetDialog := false)
    {
      uiState := uiState.(showFactoryResetDialog := false);
    }

    /** `editClick`: the edit flag becomes the negation of the clicked state passed in. */
    method EditClick(isClicked: bool)
      modifies this`uiState
      ensures uiState == old(uiState).(isAutoLockEditClicked := !isClicked)
    {
      uiState := uiState.(isAutoLockEditClicked := !isClicked);
    }

    method SetAdminCode(code: string)
      modifies this`adminCode
      ensures adminCode == code
    {
      adminCode := code;
    }

    // The six setters: each rewrites one field of the edited copy; a null copy stays null.

    method SetVacationMode(isEnable: bool)
      modifies this`newRegistryAttributes
      ensures newRegistryAttributes ==
                if old(newRegistryAttributes).None? then None
                else Some(old(newRegistryAttributes).value.(vacationMode := isEnable))
    {
      if newRegistryAttributes.Some? {
        newRegistryAttributes := Some(newRegistryAttributes.value.(vacationMode := isEnable));
      }
    }

    method SetAutoLock(isEnable: bool)
      modifies this`newRegistryAttributes
      ensures newRegistryAttributes ==
                if old(newRegistryAttributes).None? then None
                else Some(old(newRegistryAttributes).value.(autoLock := isEnable))
    {
      if newRegistryAttributes.Some? {
        newRegistryAttributes := Some(newRegistryAttributes.value.(autoLock := isEnable));
      }
    }

    /** `onAutoLockDone`: a null delay is stored as 2. */
    method OnAutoLockDone(delay: Option<int>)
      modifies this`newRegistryAttributes
      ensures newRegistryAttributes ==
                if old(newRegistryAttributes).None? then None
                else Some(old(newRegistryAttributes).value.(autoLockDelay := if delay.Some? then delay.value else 2))
    {
      if newRegistryAttributes.Some? {
        newRegistryAttributes := Some(newRegistryAttributes.value.(autoLockDelay := if delay.Some? then delay.value else 2));
      }
    }

    method SetKeyPressBeep(isEnable: bool)
      modifies this`newRegistryAttributes
      ensures newRegistryAttributes ==
                if old(newRegistryAttributes).None? then None
                else Some(old(newRegistryAttributes).value.(keyPressBeep := isEnable))
    {
      if newRegistryAttributes.Some? {
        newRegistryAttributes := Some(newRegistryAttributes.value.(keyPressBeep := isEnable));
      }
    }

    /** `setScureMode`. */
    method SetSecureMode(isEnable: bool)
      modifies this`newRegistryAttributes
      ensures newRegistryAttributes ==
                if old(newRegistryAttributes).None? then None
                else Some(old(newRegistryAttributes).value.(secureMode := isEnable))
    {
      if newRegistryAttributes.Some? {
        newRegistryAttributes := Some(newRegistryAttributes.value.(secureMode := isEnable));
      }
    }

    method SetPreamble(isEnable: bool)
      modifies this`newRegistryAttributes
      ensures newRegistryAttributes ==
                if old(newRegistryAttributes).None? then None
                else Some(old(newRegistryAttributes).value.(preamble := isEnable))
    {
      if newRegistryAttributes.Some? {
        newRegistryAttributes := Some(newRegistryAttributes.value.(preamble := isEnable));
      }
    }

    /** `deleteBleLock` (with the local clean-up subscribed; see `DeleteBleLockEffectsAsWritten`). */
    method DeleteBleLock(macAddress: string, o: DeleteBleOracle)
      modifies this`uiState, this`effects
      ensures effects == old(effects) + DeleteBleLockEffects(macAddress, o)
      ensures uiState == old(uiState).(isLoading := false)
    {
      effects := effects + [GetUserSync];
      match o.userSync {
        case Err(e) =>
          effects := effects + [Toast(e)];
        case Ok(response) =>
          var newList := FilterOutDevice(SyncedDevices(response), macAddress);
          effects := effects + [UpdateUserSync(newList, SyncVersion(response))];
          if o.syncWrite.Fail? {
            effects := effects + [Toast(o.syncWrite.message)];
          } else {
            CleanUpLocalRecord(macAddress, o);
          }
      }
      uiState := uiState.(isLoading := false);
    }

    /** The local clean-up of `deleteBleLock`, after the sync write succeeded. */
    method CleanUpLocalRecord(macAddress: string, o: DeleteBleOracle)
      modifies this`effects
      ensures effects == old(effects) + LocalCleanupEffects(macAddress, o)
    {
      effects := effects + [LookUpLocalRecord(macAddress)];
      match o.localRecord {
        case Err(_) =>
          effects := effects + [LogError];
        case Ok(record) =>
          effects := effects + [DeleteLocalRecord(record)];
          if o.localDelete.Fail? {
            effects := effects + [LogError];
          }
      }
    }

    /** `deleteLock`. */
    method DeleteLock(o: Outcome)
      requires deviceIdentity.Some?
      modifies this`uiState, this`effects
      ensures effects == old(effects) + DeleteLockEffects(deviceIdentity.value, o)
      ensures uiState == old(uiState).(isLoading := false)
    {
      effects := effects + [CloudDelete(deviceIdentity.value)];
      uiState := uiState.(isLoading := false);
      effects := effects + [Emit(DeleteLockSuccess)];
      if o.Fail? {
        effects := effects + [Toast(o.message), Emit(DeleteLockFail)];
      }
    }

    /** `factoryReset` (Wi-Fi). */
    method FactoryReset(o: FactoryResetOracle)
      modifies this`uiState, this`effects
      ensures effects == old(effects) + FactoryResetEffects(deviceIdentity, adminCode, o)
      ensures uiState == old(uiState).(isLoading := false)
    {
      uiState := uiState.(isLoading := true);
      if deviceIdentity.None? {
        effects := effects + [Toast(NoIdentityMessage)];
        uiState := uiState.(isLoading := false);
        return;
      }
      effects := effects + [GetAdminCode(deviceIdentity.value)];
      if o.adminCodes.Err? {
        effects := effects + [Toast(o.adminCodes.message)];
        uiState := uiState.(isLoading := false);
        return;
      }
      var check := AdminCodeMatches(o.adminCodes.value, adminCode);
      if check.Err? {
        effects := effects + [Toast(check.message)];
        uiState := uiState.(isLoading := false);
      } else if !check.value {
        effects := effects + [Toast(AdminCodeErrorMessage)];
        uiState := uiState.(isLoading := false);
      } else {
        DeleteLock(o.cloudDelete);
      }
    }

    /** `factoryResetByBle`. */
    method FactoryResetByBle(code: string, o: FactoryResetBleOracle)
      modifies this`uiState, this`effects
      ensures effects == old(effects) + FactoryResetByBleEffects(deviceIdentity, code, o)
      ensures uiState == old(uiState).(isLoading := false)
    {
      uiState := uiState.(isLoading := true);
      if deviceIdentity.None? || !o.lockFound {
        effects := effects + [LogError, Emit(DeleteLockFail)];
        uiState := uiState.(isLoading := false);
        return;
      }
      effects := effects + [SendFactoryReset(deviceIdentity.value, code)];
      if o.ack.Err? || !o.ack.value {
        effects := effects + [LogError, Emit(DeleteLockFail)];
      } else {
        DeleteBleLock(deviceIdentity.value, o.deleteBle);
        effects := effects + [Delay(FactoryResetSettleMillis), Emit(DeleteLockSuccess)];
      }
      uiState := uiState.(isLoading := false);
    }

    /** `onFactoryResetDialogComfirm`: the Wi-Fi path for a Wi-Fi device type, the BLE path otherwise. */
    method OnFactoryResetDialogConfirm(wifi: FactoryResetOracle, ble: FactoryResetBleOracle)
      modifies this`uiState, this`effects
      ensures effects == old(effects) +
                if deviceType == Some(WiFiTypeNum) then FactoryResetEffects(deviceIdentity, adminCode, wifi)
                else FactoryResetByBleEffects(deviceIdentity, adminCode, ble)
      ensures uiState == old(uiState).(isLoading := false)
    {
      if deviceType == Some(WiFiTypeNum) {
        FactoryReset(wifi);
      } else {
        FactoryResetByBle(adminCode, ble);
      }
    }

    /** `executeDelete`: nothing at all without an identity. */
    method ExecuteDelete(o: ExecuteDeleteOracle)
      modifies this`uiState, this`effects
      ensures deviceIdentity.None? ==> effects == old(effects) && uiState == old(uiState)
      ensures deviceIdentity.Some? ==>
                effects == old(effects) + ExecuteDeleteEffects(deviceIdentity.value, deviceType, o) &&
                uiState == old(uiState).(isLoading := ExecuteDeleteLoading(deviceType, o))
    {
      if deviceIdentity.None? {
        return;
      }
      var macAddress := deviceIdentity.value;
      uiState := uiState.(isLoading := true);
      if o.lock.None? {
        // `getLockByMacAddress(macAddress)!!` throws
        uiState := uiState.(isLoading := false);
        effects := effects + [LogError, Emit(DeleteLockFail)];
        return;
      }
      DeleteFoundLock(macAddress, o.lock.value, o);
    }

    /** `executeDelete` once `getLockByMacAddress` returned the lock. */
    method DeleteFoundLock(macAddress: string, lock: LockHandle, o: ExecuteDeleteOracle)
      requires uiState.isLoading
      modifies this`uiState, this`effects
      ensures effects == old(effects) + ConnectedDeleteEffects(macAddress, deviceType, lock, o)
      ensures uiState == old(uiState).(isLoading := !DeletesAtOnce(lock) && StreamLoading(true, deviceType, o.connectionEvents, o))
    {
      if !lock.isAllLock && !lock.isConnected {
        effects := effects + [ConnectLock];
      }
      if DeletesAtOnce(lock) {
        RunDeleteStep(macAddress, o);
        uiState := uiState.(isLoading := false);
      } else {
        CollectConnectionStream(macAddress, o.connectionEvents, o);
      }
    }

    /** Collects the delivered connection events in order, as the filter of `executeDelete` does. */
    method CollectConnectionStream(macAddress: string, events: seq<ConnectionEvent>, o: ExecuteDeleteOracle)
      modifies this`uiState, this`effects
      ensures effects == old(effects) + StreamEffects(macAddress, deviceType, events, o)
      ensures uiState == old(uiState).(isLoading := StreamLoading(old(uiState).isLoading, deviceType, events, o))
      decreases |events|
    {
      if events == [] {
        return;
      }
      if events[0].status == Error {
        // the filter throws the event's message
        uiState := uiState.(isLoading := false);
        effects := effects + [LogError, Emit(DeleteLockFail)];
        return;
      }
      if IsReady(events[0]) {
        RunDeleteStep(macAddress, o);
        if DeleteStepThrows(deviceType, o) {
          uiState := uiState.(isLoading := false);
          return;
        }
      }
      CollectConnectionStream(macAddress, events[1..], o);
    }

    /** One delete step of `executeDelete`. */
    method RunDeleteStep(macAddress: string, o: ExecuteDeleteOracle)
      modifies this`uiState, this`effects
      ensures effects == old(effects) + DeleteStepEffects(macAddress, deviceType, o)
      ensures uiState == old(uiState).(isLoading := LoadingAfterDeleteStep(old(uiState).isLoading, deviceType, o))
    {
      if deviceType == Some(WiFiTypeNum) {
        effects := effects + [LockDelete];
        if o.lockDelete.Pass? {
          effects := effects + [Emit(DeleteLockSuccess)];
        } else {
          uiState := uiState.(isLoading := false);
          effects := effects + [LogError, Emit(DeleteLockFail)];
        }
      } else {
        DeleteBleLock(macAddress, o.deleteBle);
        effects := effects + [Emit(DeleteLockSuccess)];
      }
    }
  }

  /** Right after either load path succeeds, leaving the page writes nothing and only calls `onNext`. */
  lemma LoadThenLeaveWritesNothing(loaded: RegistryAttributes, deviceType: Option<int>, isConnected: bool,
                                   identity: Option<string>, o: LeaveOracle)
    ensures LeaveEffects(loaded, Some(loaded), deviceType, isConnected, identity, o) == [Proceed]
  {
  }

  /** Setting one of the six fields to its baseline value is not a change; setting it
      to another value is. */
  lemma OneFieldEditIsAChange(baseline: RegistryAttributes, delay: int, flag: bool)
    ensures SixFieldsEqual(baseline, baseline.(autoLockDelay := delay)) <==> delay == baseline.autoLockDelay
    ensures SixFieldsEqual(baseline, baseline.(vacationMode := flag)) <==> flag == baseline.vacationMode
    ensures SixFieldsEqual(baseline, baseline.(autoLock := flag)) <==> flag == baseline.autoLock
  {
  }

  /** The same for the other three compared fields. */
  lemma OtherFieldEditIsAChange(baseline: RegistryAttributes, flag: bool)
    ensures SixFieldsEqual(baseline, baseline.(keyPressBeep := flag)) <==> flag == baseline.keyPressBeep
    ensures SixFieldsEqual(baseline, baseline.(preamble := flag)) <==> flag == baseline.preamble
    ensures SixFieldsEqual(baseline, baseline.(secureMode := flag)) <==> flag == baseline.secureMode
  {
  }

  /** Edits outside the six compared fields, whatever their values, are never a change. */
  lemma EditOutsideSixIsNoChange(baseline: RegistryAttributes, name: string, wifi: WiFiInfo,
                                 location: LocationInfo, timezone: Timezone, bluetooth: Bluetooth,
                                 model: string, firmware: string, syncing: bool, offline: bool, status: bool)
    ensures SixFieldsEqual(baseline, baseline.(deviceName := name, wifi := wifi, location := location,
                                               timezone := timezone, bluetooth := bluetooth, model := model,
                                               firmwareVersion := firmware, syncing := syncing,
                                               offlineNotifiy := offline, statusNotification := status))
  {
  }
}
