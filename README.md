# iKeyConnect: lock registry, settings page and Wi-Fi provisioning, modelled in Dafny

This project models three pieces of iKeyConnect, the Android companion app for
Sunion smart locks:

- **`LockResolver`** (`lock_provider.dfy`) models `LockProvider`. It turns a scanned
  QR code or a stored MAC address into a lock session.
  - The BLE-pairing parser is tried first, then the Wi-Fi parser.
  - A model with the Wi-Fi trait is provisioned with the cloud first. The request
    carries the serial number, the time zone and the zone's offset in seconds,
    truncated toward zero.
  - Sessions resolved from a QR code are cached in a map keyed by MAC address.
  - `getLockTypeByQRCode` tells Wi-Fi models from BLE models.
- **`Settings`** (`settings.dfy`) models `SettingsViewModel`.
  - It loads a baseline attribute document, from the cloud registry or over BLE, and
    keeps an edited copy.
  - When the page is left, it writes the edits back only if one of six fields changed.
    Wi-Fi locks get the whole copy written to the registry. BLE locks get five fields
    merged into the configuration read from the lock.
  - It runs the delete and factory-reset workflows across the cloud registry, the
    user-sync document and the local lock repository.
- **`ConnectWifi`** (`connect_wifi.dfy`) models `ConnectWifiViewModel`.
  - It listens to the lock's BLE link and submits Wi-Fi credentials.
  - It follows the provisioning states up to cloud registration.
  - Each connection attempt arms a two-minute watchdog that reports a failure if the
    attempt is still in progress when it expires.
- **`Common`** (`common.dfy`) holds the value wrappers: Kotlin nullables, calls that
  return or throw, and `String.contains`.

Both view models are classes whose fields mirror the Kotlin fields.

The screens are asynchronous (Kotlin coroutines and flows). Each flow is modelled as a
run whose collaborator answers are inputs:

- **Settings** uses `...Oracle` records. Everything a run does to the outside world
  (registry and sync writes, BLE commands, toasts, emitted UI events, the `onNext`
  callback) is appended, in order, to the effect log `effects`. Each method's
  contract equates the new log with the old one plus a specification function of the
  inputs, and the workflow properties are lemmas about those functions.
- **ConnectWifi** delivers each asynchronous event as an `Input` to a step function
  `Step`. Each class method is proved to perform exactly `Step` on the abstract
  `State()`. Properties of whole runs (`Run`) are proved by induction. The main one:
  from the initial state, no run emits more `ConnectFailed` events than watchdogs were
  armed.

## Model

| member | source | states |
|---|---|---|
| `Common.ContainsAt` | app/src/main/java/com/sunion/ikeyconnect/add_lock/connect_to_wifi/ConnectWifiViewModel.kt:108 | an occurrence of `sub` at any position makes `Contains(s, sub)` hold (the `contains` test on collector errors) |
| `Common.ContainsHasOccurrence` | app/src/main/java/com/sunion/ikeyconnect/add_lock/connect_to_wifi/ConnectWifiViewModel.kt:108 | conversely, `Contains(s, sub)` holds only when some position `i` has `s[i..i+|sub|] == sub`, so `Contains` is exactly Kotlin's `contains` |
| `LockResolver.TruncDivIsOdd` | app/src/main/java/com/sunion/ikeyconnect/LockProvider.kt:80-81 | the millisecond-to-second offset division truncates toward zero, so it is odd in its dividend and differs from Euclidean division at -500 |
| `LockResolver.ParseQrCode` | app/src/main/java/com/sunion/ikeyconnect/LockProvider.kt:47-49 | decoding fails iff both parsers fail; the BLE parser's answer wins when it has one; any answer is one of the two parsers' |
| `LockResolver.TicketFor` | app/src/main/java/com/sunion/ikeyconnect/LockProvider.kt:76-84 | the provisioning request carries the serial number, the device name, the model, the client token, the zone id and the zone offset in seconds, truncated toward zero |
| `LockResolver.CreateWifiLock` | app/src/main/java/com/sunion/ikeyconnect/LockProvider.kt:70-88 | a request is sent iff the record has a serial number; a lock is returned iff there is a serial number and the cloud accepted, and it is built from the record |
| `LockResolver.ResolveQr` | app/src/main/java/com/sunion/ikeyconnect/LockProvider.kt:46-68 | the outcome of every branch: null and no change when both parsers fail; a cached MAC returns the stored lock and sends nothing; an uncached Wi-Fi model without a token gives null, and with one gives exactly `CreateWifiLock`'s lock and request, the lock being registered under its MAC; a non-Wi-Fi model is registered directly; a failure never changes the map; a success on a new MAC adds exactly that entry; every key keeps mapping to a lock of that MAC |
| `LockResolver.ResolveIsIdempotent` | app/src/main/java/com/sunion/ikeyconnect/LockProvider.kt:53-54 | resolving a code again after a success returns the same lock, sends nothing and leaves the map as it is, whatever the token, zone or cloud answer |
| `LockResolver.ResolveOnlyGrows` | app/src/main/java/com/sunion/ikeyconnect/LockProvider.kt:53-67 | a resolution never removes or rewrites an entry and adds at most one key |
| `LockResolver.LockProvider.constructor` | app/src/main/java/com/sunion/ikeyconnect/LockProvider.kt:18-22 | the cache starts empty and the collaborators are the ones given |
| `LockResolver.LockProvider.GetLockByMacAddress` | app/src/main/java/com/sunion/ikeyconnect/LockProvider.kt:25-44 | a lock is returned iff the repository lookup succeeds, and it is built from the stored record; the cache is neither read nor written |
| `LockResolver.LockProvider.GetLockByQRCode` | app/src/main/java/com/sunion/ikeyconnect/LockProvider.kt:46-68 | the returned lock, the request sent and the new cache are exactly `ResolveQr` of the old cache; the cache invariant is kept |
| `LockResolver.LockProvider.GetLockTypeByQRCode` | app/src/main/java/com/sunion/ikeyconnect/LockProvider.kt:93-101 | null iff neither parser accepts the code; otherwise true iff the decoded model equals "wifi" ignoring case |
| `LockResolver.WifiModelNames` | app/src/main/java/com/sunion/ikeyconnect/LockProvider.kt:100 | "WiFi" and "WIFI" are Wi-Fi models; "wifi2", "wif" and "wifj" are not |
| `Settings.BluetoothFrom` | app/src/main/java/com/sunion/ikeyconnect/settings/SettingsViewModel.kt:419-424 | a null Bluetooth block or field reads as the empty string; present fields are copied |
| `Settings.FromRemote` | app/src/main/java/com/sunion/ikeyconnect/settings/SettingsViewModel.kt:395-428 | the stored document copies every attribute of the cloud registry field by field, with the Bluetooth block defaulted |
| `Settings.FromBleSetting` | app/src/main/java/com/sunion/ikeyconnect/settings/SettingsViewModel.kt:112-143 | the BLE document has device name "BT_Lock", secure mode off, the firmware version read and the MAC address; without a configuration it defaults (delay 1, flags off, location 0); otherwise it takes the five configuration fields |
| `Settings.LeavePathOf` | app/src/main/java/com/sunion/ikeyconnect/settings/SettingsViewModel.kt:158-192 | each of the five branches is taken iff its condition holds: six equal fields, no edited copy, a changed Wi-Fi lock, a changed BLE lock disconnected, a changed BLE lock connected |
| `Settings.MergeBleConfig` | app/src/main/java/com/sunion/ikeyconnect/settings/SettingsViewModel.kt:194-202 | the configuration written back takes exactly the five edited fields and keeps every other field of the one read |
| `Settings.SecureModeNotSentOverBle` | app/src/main/java/com/sunion/ikeyconnect/settings/SettingsViewModel.kt:196-202 | the secure-mode value has no influence on what is written over BLE |
| `Settings.LeaveProceedsOnce` | app/src/main/java/com/sunion/ikeyconnect/settings/SettingsViewModel.kt:155-214 | on every path and every collaborator answer, `onNext` is called exactly once |
| `Settings.CloudLeaveProceedsOnce` | app/src/main/java/com/sunion/ikeyconnect/settings/SettingsViewModel.kt:176-186 | the Wi-Fi write branch calls `onNext` exactly once, even when it throws |
| `Settings.BleLeaveProceedsOnce` | app/src/main/java/com/sunion/ikeyconnect/settings/SettingsViewModel.kt:192-210 | the BLE write branch calls `onNext` exactly once, even when it throws |
| `Settings.LeaveWritesOnlyOnChange` | app/src/main/java/com/sunion/ikeyconnect/settings/SettingsViewModel.kt:158-172 | with no edited copy or six equal fields, leaving only calls `onNext` and writes nothing |
| `Settings.LeaveCloudWritesWholeCopyOnce` | app/src/main/java/com/sunion/ikeyconnect/settings/SettingsViewModel.kt:175-186 | a changed Wi-Fi lock gets exactly one registry update carrying the whole edited copy, and no BLE write |
| `Settings.LeaveBleWritesReadConfig` | app/src/main/java/com/sunion/ikeyconnect/settings/SettingsViewModel.kt:187-210 | a changed BLE lock is not written when disconnected (toast, then `onNext`); when connected and readable, its configuration is read first and written back merged; a BLE lock never gets a registry update |
| `Settings.LeaveExample` | app/src/main/java/com/sunion/ikeyconnect/settings/SettingsViewModel.kt:158-186 | an unchanged document is not written; changing only the auto-lock delay from 5 to 10 writes one document that differs only there |
| `Settings.WithoutMembers` | app/src/main/java/com/sunion/ikeyconnect/settings/SettingsViewModel.kt:262 | a device survives the filter iff it was in the list and has another MAC address |
| `Settings.WithoutConcat` | app/src/main/java/com/sunion/ikeyconnect/settings/SettingsViewModel.kt:262-264 | filtering distributes over concatenation, so the kept records keep their order |
| `Settings.WithoutKeepsOthers` | app/src/main/java/com/sunion/ikeyconnect/settings/SettingsViewModel.kt:262 | a list without the target is left exactly as it is |
| `Settings.WithoutIsIdempotent` | app/src/main/java/com/sunion/ikeyconnect/settings/SettingsViewModel.kt:262 | filtering twice is filtering once |
| `Settings.AsWrittenNeverDeletesLocalRecord` | app/src/main/java/com/sunion/ikeyconnect/settings/SettingsViewModel.kt:273-282 | as written, `deleteBleLock` never looks up or deletes the local record, whatever the collaborators answer |
| `Settings.CorrectedAddsOnlyCleanup` | app/src/main/java/com/sunion/ikeyconnect/settings/SettingsViewModel.kt:253-289 | the corrected workflow is the written one plus the local clean-up, which runs only after the sync document was read and written back |
| `Settings.LocalDeleteOnlyAfterSyncWrite` | app/src/main/java/com/sunion/ikeyconnect/settings/SettingsViewModel.kt:253-289 | the filtered list is written with the version read (0 without one); the local record is deleted only after that write succeeds, and a failed read or write leaves it untouched |
| `Settings.FilterOutDevice` | app/src/main/java/com/sunion/ikeyconnect/settings/SettingsViewModel.kt:261-264 | the loop builds exactly the filtered list: the members are the old list's devices with another MAC address |
| `Settings.AdminCodeMatches` | app/src/main/java/com/sunion/ikeyconnect/settings/SettingsViewModel.kt:295-298 | an empty code list is the "You had not set admin code." error; otherwise the answer is whether the first stored code (null read as "") equals the one supplied |
| `Settings.FactoryResetDeletesOnlyOnMatch` | app/src/main/java/com/sunion/ikeyconnect/settings/SettingsViewModel.kt:290-309 | the cloud delete runs iff the codes were fetched, the list is not empty and the first matches; otherwise nothing is deleted or emitted, with the matching toast |
| `Settings.FactoryResetExample` | app/src/main/java/com/sunion/ikeyconnect/settings/SettingsViewModel.kt:296-301 | stored "1234" and supplied "9999" aborts with "Admin Code Error."; supplied "1234" deletes |
| `Settings.DeleteLockFailureEmitsBoth` | app/src/main/java/com/sunion/ikeyconnect/settings/SettingsViewModel.kt:311-324 | a failed cloud delete still emits `DeleteLockSuccess` from `onCompletion`, then toasts and emits `DeleteLockFail` |
| `Settings.FactoryResetByBleOutcomes` | app/src/main/java/com/sunion/ikeyconnect/settings/SettingsViewModel.kt:230-251 | the reset command goes first; an acknowledgement other than true fails with `DeleteLockFail` and touches no store; true runs the corrected BLE delete, the 5000 ms delay and `DeleteLockSuccess` |
| `Settings.FirstDecisive` | app/src/main/java/com/sunion/ikeyconnect/settings/SettingsViewModel.kt:362-368 | the position of the first event that is an error or a ready success: every earlier event is neither, and the one there is one |
| `Settings.StreamWaitsForFirstDecisive` | app/src/main/java/com/sunion/ikeyconnect/settings/SettingsViewModel.kt:352-373 | on the never-completing connection stream, events before the first decisive one do nothing; none at all leaves the loading flag as it was; an error there fails without a delete and clears loading; a ready event there runs the first delete, and collection goes on unless a Wi-Fi delete threw |
| `Settings.StreamDeletesMatchDeviceType` | app/src/main/java/com/sunion/ikeyconnect/settings/SettingsViewModel.kt:369-372 | however many ready events arrive, a Wi-Fi device only ever gets `lock.delete` and any other only `deleteBleLock` |
| `Settings.ExecuteDeleteOnlyWhenReady` | app/src/main/java/com/sunion/ikeyconnect/settings/SettingsViewModel.kt:336-385 | a delete runs only for a found lock that is connected or an `AllLock`, or whose stream reaches a ready event before any error; its kind follows the device type |
| `Settings.ExecuteDeleteErrorFails` | app/src/main/java/com/sunion/ikeyconnect/settings/SettingsViewModel.kt:362-366 | an error event before any ready event gives exactly connect, log, `DeleteLockFail`, and clears the loading flag |
| `Settings.ExecuteDeleteWaits` | app/src/main/java/com/sunion/ikeyconnect/settings/SettingsViewModel.kt:358-375 | without a decisive event, the workflow only issues the connect and stays loading, because the stream never completes |
| `Settings.RepeatedReadyDeletesTwice` | app/src/main/java/com/sunion/ikeyconnect/settings/SettingsViewModel.kt:358-378 | two ready events for a Wi-Fi lock whose delete succeeds run the delete and emit `DeleteLockSuccess` twice, and the flag stays loading |
| `Settings.SettingsViewModel.constructor` | app/src/main/java/com/sunion/ikeyconnect/settings/SettingsViewModel.kt:58-75 | the initial fields: default UI state, no edited copy, no identity or type, empty admin code, disconnected, battery "0" |
| `Settings.SettingsViewModel.Init` | app/src/main/java/com/sunion/ikeyconnect/settings/SettingsViewModel.kt:79-89 | records the device; a disconnected device loads nothing; a connected Wi-Fi device fetches the registry and a connected BLE device reads its settings and starts listening, toasting "settingNull" when no lock is found and otherwise issuing the read followed by the toast of a failed setting or firmware read; a successful load makes its document both the baseline and the edited copy, a failed one leaves both as they were |
| `Settings.SettingsViewModel.CollectBleLockStateToShow` | app/src/main/java/com/sunion/ikeyconnect/settings/SettingsViewModel.kt:91-101 | the connection stream is being collected |
| `Settings.SettingsViewModel.OnBleConnectionEvent` | app/src/main/java/com/sunion/ikeyconnect/settings/SettingsViewModel.kt:93-97 | a collected event whose flag is false marks the lock disconnected; nothing else changes the flag |
| `Settings.SettingsViewModel.GetLockSetting` | app/src/main/java/com/sunion/ikeyconnect/settings/SettingsViewModel.kt:103-153 | the "macAddressNull" and "settingNull" errors, the toast of a failed read, and on success the BLE document as both baseline and edited copy; the loading flag ends clear and nothing else of the UI state changes |
| `Settings.SettingsViewModel.GetRegistry` | app/src/main/java/com/sunion/ikeyconnect/settings/SettingsViewModel.kt:391-438 | the "deviceIdentity is null" error, the toast of a failed fetch, and on success the copied document as both baseline and edited copy; the loading flag ends clear |
| `Settings.SettingsViewModel.LeaveSettingPage` | app/src/main/java/com/sunion/ikeyconnect/settings/SettingsViewModel.kt:155-214 | the effects are exactly `LeaveEffects` of the baseline and edited copy; only the two write branches clear the loading flag, and nothing else changes |
| `Settings.SettingsViewModel.WriteRegistry` | app/src/main/java/com/sunion/ikeyconnect/settings/SettingsViewModel.kt:176-186 | the Wi-Fi write branch performs `CloudLeaveEffects` and ends not loading |
| `Settings.SettingsViewModel.WriteBleSettings` | app/src/main/java/com/sunion/ikeyconnect/settings/SettingsViewModel.kt:192-210 | the BLE write branch performs `BleLeaveEffects` and ends not loading |
| `Settings.SettingsViewModel.WriteBackBleConfig` | app/src/main/java/com/sunion/ikeyconnect/settings/SettingsViewModel.kt:193-204 | reads the configuration, then writes it back merged, or toasts the failure |
| `Settings.SettingsViewModel.Delete` | app/src/main/java/com/sunion/ikeyconnect/settings/SettingsViewModel.kt:216-218 | only the delete-confirmation dialog is shown |
| `Settings.SettingsViewModel.CloseDeleteConfirmDialog` | app/src/main/java/com/sunion/ikeyconnect/settings/SettingsViewModel.kt:387-389 | only the delete-confirmation dialog is hidden |
| `Settings.SettingsViewModel.OnFactoryResetClick` | app/src/main/java/com/sunion/ikeyconnect/settings/SettingsViewModel.kt:220-222 | only the factory-reset dialog is shown |
| `Settings.SettingsViewModel.CloseFactoryResetDialog` | app/src/main/java/com/sunion/ikeyconnect/settings/SettingsViewModel.kt:331-333 | only the factory-reset dialog is hidden |
| `Settings.SettingsViewModel.EditClick` | app/src/main/java/com/sunion/ikeyconnect/settings/SettingsViewModel.kt:477-479 | the edit flag becomes the negation of the state passed in; nothing else changes |
| `Settings.SettingsViewModel.SetAdminCode` | app/src/main/java/com/sunion/ikeyconnect/settings/SettingsViewModel.kt:326-328 | the admin code is the one given |
| `Settings.SettingsViewModel.SetVacationMode` | app/src/main/java/com/sunion/ikeyconnect/settings/SettingsViewModel.kt:440-441 | the edited copy's vacation mode is set; a null copy stays null |
| `Settings.SettingsViewModel.SetAutoLock` | app/src/main/java/com/sunion/ikeyconnect/settings/SettingsViewModel.kt:458-459 | the edited copy's auto-lock flag is set; a null copy stays null |
| `Settings.SettingsViewModel.OnAutoLockDone` | app/src/main/java/com/sunion/ikeyconnect/settings/SettingsViewModel.kt:481-483 | the edited copy's delay is set, a null delay becoming 2; a null copy stays null |
| `Settings.SettingsViewModel.SetKeyPressBeep` | app/src/main/java/com/sunion/ikeyconnect/settings/SettingsViewModel.kt:501-502 | the edited copy's key-press beep is set; a null copy stays null |
| `Settings.SettingsViewModel.SetSecureMode` | app/src/main/java/com/sunion/ikeyconnect/settings/SettingsViewModel.kt:519-520 | the edited copy's secure mode is set; a null copy stays null |
| `Settings.SettingsViewModel.SetPreamble` | app/src/main/java/com/sunion/ikeyconnect/settings/SettingsViewModel.kt:537-538 | the edited copy's preamble is set; a null copy stays null |
| `Settings.SettingsViewModel.DeleteBleLock` | app/src/main/java/com/sunion/ikeyconnect/settings/SettingsViewModel.kt:253-289 | performs the corrected `DeleteBleLockEffects` and ends not loading |
| `Settings.SettingsViewModel.CleanUpLocalRecord` | app/src/main/java/com/sunion/ikeyconnect/settings/SettingsViewModel.kt:273-282 | looks the record up and deletes it; either failure is only logged |
| `Settings.SettingsViewModel.DeleteLock` | app/src/main/java/com/sunion/ikeyconnect/settings/SettingsViewModel.kt:311-324 | performs `DeleteLockEffects` (success emitted even on failure) and ends not loading |
| `Settings.SettingsViewModel.FactoryReset` | app/src/main/java/com/sunion/ikeyconnect/settings/SettingsViewModel.kt:290-309 | performs `FactoryResetEffects` with the stored admin code and ends not loading |
| `Settings.SettingsViewModel.FactoryResetByBle` | app/src/main/java/com/sunion/ikeyconnect/settings/SettingsViewModel.kt:230-251 | performs `FactoryResetByBleEffects` with the code given and ends not loading |
| `Settings.SettingsViewModel.OnFactoryResetDialogConfirm` | app/src/main/java/com/sunion/ikeyconnect/settings/SettingsViewModel.kt:224-228 | a Wi-Fi device takes the cloud reset and any other the BLE reset, both with the stored admin code |
| `Settings.SettingsViewModel.ExecuteDelete` | app/src/main/java/com/sunion/ikeyconnect/settings/SettingsViewModel.kt:336-385 | nothing at all without an identity; otherwise exactly `ExecuteDeleteEffects`, with the loading flag left as `ExecuteDeleteLoading` and nothing else of the UI state changed |
| `Settings.SettingsViewModel.DeleteFoundLock` | app/src/main/java/com/sunion/ikeyconnect/settings/SettingsViewModel.kt:340-378 | connects a lock that is neither connected nor an `AllLock`; then deletes at once or collects the connection stream |
| `Settings.SettingsViewModel.CollectConnectionStream` | app/src/main/java/com/sunion/ikeyconnect/settings/SettingsViewModel.kt:362-378 | collecting the delivered events performs exactly `StreamEffects` and leaves the loading flag as `StreamLoading` |
| `Settings.SettingsViewModel.RunDeleteStep` | app/src/main/java/com/sunion/ikeyconnect/settings/SettingsViewModel.kt:369-378 | one delete of the kind the device type selects, with its success or failure event and its effect on the loading flag |
| `Settings.LoadThenLeaveWritesNothing` | app/src/main/java/com/sunion/ikeyconnect/settings/SettingsViewModel.kt:145-146 | right after a load, when the baseline and the edited copy are equal, leaving writes nothing and only calls `onNext` |
| `Settings.OneFieldEditIsAChange` | app/src/main/java/com/sunion/ikeyconnect/settings/SettingsViewModel.kt:158-161 | setting the auto-lock delay, vacation mode or auto-lock flag is a change iff the new value differs from the baseline's |
| `Settings.OtherFieldEditIsAChange` | app/src/main/java/com/sunion/ikeyconnect/settings/SettingsViewModel.kt:162-164 | setting the key-press beep, preamble or secure mode is a change iff the new value differs from the baseline's |
| `Settings.EditOutsideSixIsNoChange` | app/src/main/java/com/sunion/ikeyconnect/settings/SettingsViewModel.kt:158-165 | edits of any other attributes, whatever their values (name, Wi-Fi, location, time zone, Bluetooth, model, firmware, flags), are never a change |
| `ConnectWifi.DefaultUiState` | app/src/main/java/com/sunion/ikeyconnect/add_lock/connect_to_wifi/ConnectWifiViewModel.kt:165-171 | the defaults: empty password and error, no progress, the initial label, no disconnect dialog |
| `ConnectWifi.ProgressLabelsDistinct` | app/src/main/java/com/sunion/ikeyconnect/add_lock/connect_to_wifi/ConnectWifiViewModel.kt:77-84 | the five progress labels tell the states apart and none is the initial label |
| `ConnectWifi.ConnectToWifiStep` | app/src/main/java/com/sunion/ikeyconnect/add_lock/connect_to_wifi/ConnectWifiViewModel.kt:66-130 | nothing without a lock; otherwise the attempt is in progress, a collector is active, one more watchdog is pending and no event is emitted |
| `ConnectWifi.ConnectRequestsOneWatchdog` | app/src/main/java/com/sunion/ikeyconnect/add_lock/connect_to_wifi/ConnectWifiViewModel.kt:68-129 | an attempt only appends requests: a collector iff none is active, the credentials when the SSID is known, and exactly one watchdog, last |
| `ConnectWifi.CloudSuccessClearsFlagFirst` | app/src/main/java/com/sunion/ikeyconnect/add_lock/connect_to_wifi/ConnectWifiViewModel.kt:82-101 | cloud success clears the in-progress flag and fetches the thing name, but emits nothing and keeps the progress indicator |
| `ConnectWifi.ThingNameOutcomes` | app/src/main/java/com/sunion/ikeyconnect/add_lock/connect_to_wifi/ConnectWifiViewModel.kt:90-100 | a fetched thing name emits `ConnectSuccess`, clears the progress indicator and asks for the provisioning info; a failed fetch changes nothing visible |
| `ConnectWifi.WifiFailResetsWithoutResubmitting` | app/src/main/java/com/sunion/ikeyconnect/add_lock/connect_to_wifi/ConnectWifiViewModel.kt:102-104 | a Wi-Fi failure asks the UI to reset and submits nothing again |
| `ConnectWifi.SecondConnectKeepsOneCollector` | app/src/main/java/com/sunion/ikeyconnect/add_lock/connect_to_wifi/ConnectWifiViewModel.kt:68-129 | a second attempt while a collector is active starts no second collector, but submits again and arms another watchdog |
| `ConnectWifi.ConnectNeedsLock` | app/src/main/java/com/sunion/ikeyconnect/add_lock/connect_to_wifi/ConnectWifiViewModel.kt:66-67 | without a lock an attempt does nothing; a BLE `CONNECTED` is the same as a direct attempt |
| `ConnectWifi.BleStatesOnlyEmit` | app/src/main/java/com/sunion/ikeyconnect/add_lock/connect_to_wifi/ConnectWifiViewModel.kt:137-145 | `DISCONNECTED` and `CONNECTING` only emit their event: no reconnect and no request |
| `ConnectWifi.WatchdogFailsIffStillConnecting` | app/src/main/java/com/sunion/ikeyconnect/add_lock/connect_to_wifi/ConnectWifiViewModel.kt:125-129 | an expiring watchdog emits `ConnectFailed` iff the attempt is still in progress, and changes neither the UI state nor the requests |
| `ConnectWifi.CollectorErrorShownIff` | app/src/main/java/com/sunion/ikeyconnect/add_lock/connect_to_wifi/ConnectWifiViewModel.kt:106-110 | in any state, a collector error shows the failure and clears the progress indicator iff its message is non-null and lacks "Disconnected", and otherwise leaves the UI state as it was; the collector is over either way, and no event or request is added |
| `ConnectWifi.DisconnectedErrorHidden` | app/src/main/java/com/sunion/ikeyconnect/add_lock/connect_to_wifi/ConnectWifiViewModel.kt:108 | an error whose message contains "Disconnected" anywhere is never shown |
| `ConnectWifi.QuietWithoutRestart` | app/src/main/java/com/sunion/ikeyconnect/add_lock/connect_to_wifi/ConnectWifiViewModel.kt:88-129 | once the in-progress flag is clear, no run without a new attempt sets it again or emits `ConnectFailed` |
| `ConnectWifi.QuietStep` | app/src/main/java/com/sunion/ikeyconnect/add_lock/connect_to_wifi/ConnectWifiViewModel.kt:88-129 | one step of the above |
| `ConnectWifi.QuietRequestStep` | app/src/main/java/com/sunion/ikeyconnect/add_lock/connect_to_wifi/ConnectWifiViewModel.kt:47-60 | the steps that only add requests keep the flag clear and emit no failure |
| `ConnectWifi.QuietOtherStep` | app/src/main/java/com/sunion/ikeyconnect/add_lock/connect_to_wifi/ConnectWifiViewModel.kt:106-129 | the remaining steps keep the flag clear and emit no failure |
| `ConnectWifi.NoFailureAfterCloudSuccess` | app/src/main/java/com/sunion/ikeyconnect/add_lock/connect_to_wifi/ConnectWifiViewModel.kt:88-129 | after cloud success, no watchdog reports a failure unless a new attempt starts |
| `ConnectWifi.StepKeepsWatchdogsAccounted` | app/src/main/java/com/sunion/ikeyconnect/add_lock/connect_to_wifi/ConnectWifiViewModel.kt:125-129 | every step keeps failures plus pending watchdogs at most the watchdogs armed |
| `ConnectWifi.ConnectKeepsWatchdogsAccounted` | app/src/main/java/com/sunion/ikeyconnect/add_lock/connect_to_wifi/ConnectWifiViewModel.kt:125-129 | an attempt pays for its new pending watchdog with one armed |
| `ConnectWifi.RequestStepKeepsWatchdogsAccounted` | app/src/main/java/com/sunion/ikeyconnect/add_lock/connect_to_wifi/ConnectWifiViewModel.kt:47-60 | `init` and `onCleared` keep the watchdog accounting |
| `ConnectWifi.ProgressStepKeepsWatchdogsAccounted` | app/src/main/java/com/sunion/ikeyconnect/add_lock/connect_to_wifi/ConnectWifiViewModel.kt:74-105 | provisioning states and the fetched thing name keep the watchdog accounting |
| `ConnectWifi.QuietStepKeepsWatchdogsAccounted` | app/src/main/java/com/sunion/ikeyconnect/add_lock/connect_to_wifi/ConnectWifiViewModel.kt:106-129 | the remaining steps, the watchdog's own expiry included, keep the watchdog accounting |
| `ConnectWifi.RunKeepsWatchdogsAccounted` | app/src/main/java/com/sunion/ikeyconnect/add_lock/connect_to_wifi/ConnectWifiViewModel.kt:125-129 | every run keeps the watchdog accounting |
| `ConnectWifi.FailuresBoundedByWatchdogs` | app/src/main/java/com/sunion/ikeyconnect/add_lock/connect_to_wifi/ConnectWifiViewModel.kt:125-129 | from the initial state, no run emits more `ConnectFailed` than watchdogs were armed |
| `ConnectWifi.RunExtendsLogs` | app/src/main/java/com/sunion/ikeyconnect/add_lock/connect_to_wifi/ConnectWifiViewModel.kt:66-130 | a run only appends to the event and request logs |
| `ConnectWifi.StepExtendsLogs` | app/src/main/java/com/sunion/ikeyconnect/add_lock/connect_to_wifi/ConnectWifiViewModel.kt:66-130 | a step only appends to the event and request logs |
| `ConnectWifi.RequestStepExtendsLogs` | app/src/main/java/com/sunion/ikeyconnect/add_lock/connect_to_wifi/ConnectWifiViewModel.kt:47-101 | the request-adding steps only append |
| `ConnectWifi.QuietStepExtendsLogs` | app/src/main/java/com/sunion/ikeyconnect/add_lock/connect_to_wifi/ConnectWifiViewModel.kt:106-129 | the remaining steps add no request and only append events |
| `ConnectWifi.ConnectWifiViewModel.constructor` | app/src/main/java/com/sunion/ikeyconnect/add_lock/connect_to_wifi/ConnectWifiViewModel.kt:27-45 | the view model starts in `Initial()` |
| `ConnectWifi.ConnectWifiViewModel.Init` | app/src/main/java/com/sunion/ikeyconnect/add_lock/connect_to_wifi/ConnectWifiViewModel.kt:47-55 | performs exactly the `init` step |
| `ConnectWifi.ConnectWifiViewModel.CollectBleConnectionState` | app/src/main/java/com/sunion/ikeyconnect/add_lock/connect_to_wifi/ConnectWifiViewModel.kt:132-150 | the link states are being collected, and the subscription is logged |
| `ConnectWifi.ConnectWifiViewModel.SetWifiPassword` | app/src/main/java/com/sunion/ikeyconnect/add_lock/connect_to_wifi/ConnectWifiViewModel.kt:62-64 | performs exactly the password step |
| `ConnectWifi.ConnectWifiViewModel.ConnectToWifi` | app/src/main/java/com/sunion/ikeyconnect/add_lock/connect_to_wifi/ConnectWifiViewModel.kt:66-130 | performs exactly the `connectToWifi` step |
| `ConnectWifi.ConnectWifiViewModel.OnBleState` | app/src/main/java/com/sunion/ikeyconnect/add_lock/connect_to_wifi/ConnectWifiViewModel.kt:134-147 | performs exactly the step for one link state |
| `ConnectWifi.ConnectWifiViewModel.OnWifiState` | app/src/main/java/com/sunion/ikeyconnect/add_lock/connect_to_wifi/ConnectWifiViewModel.kt:74-105 | performs exactly the step for one provisioning state |
| `ConnectWifi.ConnectWifiViewModel.OnCollectorFailed` | app/src/main/java/com/sunion/ikeyconnect/add_lock/connect_to_wifi/ConnectWifiViewModel.kt:106-110 | performs exactly the step for a collector error |
| `ConnectWifi.ConnectWifiViewModel.OnCollectorCompleted` | app/src/main/java/com/sunion/ikeyconnect/add_lock/connect_to_wifi/ConnectWifiViewModel.kt:73 | performs exactly the step for the collector's normal end |
| `ConnectWifi.ConnectWifiViewModel.OnSubmitFailed` | app/src/main/java/com/sunion/ikeyconnect/add_lock/connect_to_wifi/ConnectWifiViewModel.kt:119-122 | performs exactly the step for a failed submission |
| `ConnectWifi.ConnectWifiViewModel.OnSubmitDone` | app/src/main/java/com/sunion/ikeyconnect/add_lock/connect_to_wifi/ConnectWifiViewModel.kt:113-123 | performs exactly the step for a completed submission |
| `ConnectWifi.ConnectWifiViewModel.OnThingNameFetched` | app/src/main/java/com/sunion/ikeyconnect/add_lock/connect_to_wifi/ConnectWifiViewModel.kt:93-98 | performs exactly the step for a fetched thing name |
| `ConnectWifi.ConnectWifiViewModel.OnThingNameFailed` | app/src/main/java/com/sunion/ikeyconnect/add_lock/connect_to_wifi/ConnectWifiViewModel.kt:99 | performs exactly the step for a failed thing-name fetch |
| `ConnectWifi.ConnectWifiViewModel.OnWatchdogFired` | app/src/main/java/com/sunion/ikeyconnect/add_lock/connect_to_wifi/ConnectWifiViewModel.kt:125-129 | performs exactly the step for an expiring watchdog |
| `ConnectWifi.ConnectWifiViewModel.OnCleared` | app/src/main/java/com/sunion/ikeyconnect/add_lock/connect_to_wifi/ConnectWifiViewModel.kt:57-60 | performs exactly the `onCleared` step (disconnect when there is a lock) |

## Left out

- Coroutine scheduling. Each launched flow runs to completion when it is started, and
  the answers it awaits are inputs. Interleavings between concurrently launched flows
  are not modelled: `deleteBleLock` launched from `executeDelete` or
  `factoryResetByBle`, the local-record delete launched inside `deleteBleLock`, and the
  UI events emitted from `viewModelScope.launch`. Only the order of one flow's own
  effects is kept, with `onCompletion` (and `onNext`) before `catch`.
- In ConnectWifi, the asynchronous parts of `connectToWifi` (collector deliveries,
  submission answers, the thing-name fetch, the watchdog's expiry) are separate
  inputs. Their relative order is free, so every interleaving is one input sequence.
- The 120 000 ms watchdog delay and the 5000 ms settle delay are requests and effects;
  no clock is modelled.
- The QR parsers (`LockQRCodeParser`), `LockInfo.from`, the firmware trait table
  (`getFirmwareModelTraits`) and `WifiLock.init` are not part of this model. The
  parsers, composed with `LockInfo.from`, are uninterpreted functions fixed at
  construction; a parser that throws is modelled as one returning None.
  `WifiLock.init` is modelled as building the session from its record. The platform
  time zone and the cloud's answer to `deviceProvisionCreate` are inputs.
- A `Lock` is a value determined by its record. The model therefore assumes that each
  `wifiLock.init` call on the one injected `wifiLock` yields a separate session. If
  `init` instead mutated and returned the injected instance, every cached entry would
  alias one object. `KeysMatchMacs` would then hold of the stored records but not of
  the sessions; that aliasing is not captured.
- `LockResolver.LockProvider.GetLockByMacAddress` reads the repository as a map, so a
  lookup that throws and a missing record are the same case.
- `EqualsIgnoreCase` folds only ASCII letters; Kotlin's `ignoreCase` also folds other
  scripts, which cannot change the comparison with "wifi" except for characters that
  fold to ASCII letters.
- `toastHttpException` is not part of this model. A toast is modelled as a `Toast`
  effect carrying the exception's message. Timber logging is one `LogError` effect.
- `getUuid`, `getClientTokenUseCase` and the other injected collaborators are not part
  of this model; their values do not influence any branch.
- `readVersionByBle` is modelled only by its result (the firmware version, or an
  error) in `LoadOracle`. Its BLE characteristic read is left out.
- Doubles (latitude, longitude) are `Coordinate(bits)` values that are only copied;
  a null coordinate reads as `Coordinate(0)`, standing for 0.0.
- In `getLockSetting`, a nullable `setting` and a setting with a null `config` both
  default every configuration field, so the model has one case: `config` is None.
- `lockFound` in `LeaveOracle` and `FactoryResetBleOracle` is whether the lookup
  returned an `AllLock`. A lock of another class would make the cast throw a different
  message. That case is not distinguished, and `NullCastMessage` is the toast.
- Settings.FactoryResetByBleEffects, Settings.DeleteStepEffects, Settings.SettingsViewModel.FactoryResetByBle, Settings.SettingsViewModel.ExecuteDelete, Settings.SettingsViewModel.DeleteFoundLock, Settings.SettingsViewModel.CollectConnectionStream, Settings.SettingsViewModel.RunDeleteStep, Settings.FactoryResetByBleOutcomes and Settings.StreamWaitsForFirstDecisive run the corrected BLE delete (`DeleteBleLockEffects`, see "## Findings"). As written, the program performs their effects without the `LocalCleanupEffects` part, which `Settings.CorrectedAddsOnlyCleanup` isolates: the local record is never looked up or deleted.
- `Settings.SettingsViewModel.ExecuteDelete` uses one oracle answer for every delete it
  runs: repeated ready events on the connection stream all see the same `lockDelete`
  and `deleteBle` answers.
- The `isConnected` of a lock is two inputs in `LockHandle`: before `connect()` and
  right after it.
- `Settings.SettingsViewModel.DeleteLock` requires a known identity: its only caller,
  `factoryReset`, has checked it already. The source's own `deviceIdentity` check in
  `deleteLock` is therefore left out.
- The `setXxx` setters' cloud updates are commented out in the source and are not
  modelled.
- The unused private `reconnectBle` is not modelled.
- `onCleared` of the settings page is not modelled.
- `ConnectWifi.Step`: after `Cleared` the model still accepts collector deliveries, thing-name answers and watchdog expiries, although the cancelled `viewModelScope` delivers none of them; the run-wide lemmas therefore hold over a superset of the real runs.
- `ConnectWifi.ConnectWifiViewModel.Init` receives the result of the lock lookup as
  `lockFound`. The cast `as WifiLock?`, which throws for a lock of another class, is
  not modelled.

## Findings

| source | as written | input that shows it | evidently intended | confidence | as-written member | corrected member |
|---|---|---|---|---|---|---|
| app/src/main/java/com/sunion/ikeyconnect/settings/SettingsViewModel.kt:273-282 | the local-record delete is built inside a `map` on the reactive `lockInformationRepository.get(macAddress)`; nothing subscribes to it, so the delete flow is never launched | any successful user-sync read and write, e.g. `userSync = Ok(r)`, `syncWrite = Pass`, `localRecord = Ok(rec)`: no `LookUpLocalRecord` or `DeleteLocalRecord` happens | after the sync write succeeds, look the record up and delete it, logging either failure | medium, not executed | `Settings.AsWrittenNeverDeletesLocalRecord` | `Settings.LocalDeleteOnlyAfterSyncWrite` |
