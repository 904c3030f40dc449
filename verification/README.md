# Guardian Angel monitor — a Dafny model

Guardian Angel is an iOS app that watches a smart car-seat cushion and a
Bluetooth beacon. The cushion streams lines of the form `T=<temp> W=<weight>`
over a UART-over-Bluetooth-LE link. The app decides whether a baby is in the
seat and whether the seat is too hot. When it is, the app sends a local
notification. The beacon's region events and ranging distances tell the app
whether the driver is near the car, and they drive scanning for the cushion.

This project models the app's monitoring core:

- **`DeviceMonitor`** (`device.dfy`) is the device screen's controller as a
  class. It has one method per Bluetooth-central, peripheral and
  location-manager callback, plus the scan entry points, the 30-second
  stop-scan timers, the login spinners and `disconnectEverything`. Each
  method updates the controller's fields in place and is proved to leave
  exactly the state the matching function in `DeviceState` describes.
- **`DeviceState`** (`device_state.dfy`) is the same state as a value.
  - It has one transition function per handler.
  - Requests to the platform go into an effect log: scan, connect, subscribe,
    notify, range, and UI work queued for the main thread.
  - It proves an invariant kept by every handler: each scan started arms
    exactly one stop timer, and only beacon regions are ranged.
- **`DeviceProperties`** (`device_properties.dfy`) holds the handlers'
  promises as lemmas. They cover the scan gate, peripheral and
  characteristic filtering, the heat-alert rule, region enter/exit,
  ranging, and the connect/disconnect notifications in debug and
  production builds.
- **`Uart`** (`uart.dfy`) covers payload splitting, the weight threshold and
  the alert decision.
- **`Proximity`** (`proximity.dfy`) classifies the ranging distance.
- **`Temperature`** (`temperature.dfy`) has the String conversion
  extension, the max-temperature slider, and the settings screen's
  handlers as classes over the app settings.
- **`SwiftText`** (`swift_text.dfy`) states the Swift library behaviour the
  code relies on:
  - `Int(String)` with 64-bit range;
  - `String(Int)`;
  - `/` truncating toward zero;
  - `components(separatedBy:)`;
  - case-insensitive regular-expression removal of `T=`/`W=`.
- **`Spinners`** (`spinners.dfy`) models the status rows' spinner/label pairs.
- **`Utilities`** (`utilities.dfy`) models `CustomTimer`.
- **`UserModel`** (`user_model.dfy`) models the user record decoder.

Modelling decisions:

- **One state for several field spellings.** The controller's fields are
  spelled differently across revisions, for example `uart_is_connected`
  and `isUartConnected`. They are one state here. `connectionState ==
  .connected` is read as `uartConnected`.
- **Debug flag.** `isDebugging` and `AppDelegate.isDebugging` are one
  configuration flag.
- **Symbols whose definitions lie outside the model** are fields of
  `DeviceState.Config`:
  - the cushion's identifier and its service and characteristic UUIDs;
  - the "not connected" text;
  - the app's `convertTempString`.
- **Degree glyphs.** The String extension writes U+02DA (`˚`). The slider
  label writes U+00B0 (`°`). Both glyphs are kept as written.

## Model

| member | source | states |
|---|---|---|
| SwiftText.NatToDigits | GuardianAngelApp/UI/Settings/TemperatureAdjustViewController.swift:221 | the decimal digits of a natural number are non-empty, all digits, and denote that number |
| SwiftText.IntToString | GuardianAngelApp/UI/Settings/TemperatureAdjustViewController.swift:221 | `String(Int)` is non-empty, all digits except a leading minus sign, and starts with '-' exactly for negative numbers |
| SwiftText.ParseInt | GuardianAngelApp/UI/Settings/TemperatureAdjustViewController.swift:220 | `Int(String)` succeeds only with a value in the 64-bit range, on text that ends in a digit |
| SwiftText.ParseIntToString | GuardianAngelApp/UI/Settings/TemperatureAdjustViewController.swift:220-221 | parsing the text of any 64-bit integer gives that integer back |
| SwiftText.ParseIntRejectsNonDigit | GuardianAngelApp/UI/Settings/TemperatureAdjustViewController.swift:220 | text with a non-digit after its first character is not an integer literal |
| SwiftText.Quot | GuardianAngelApp/UI/Settings/TemperatureAdjustViewController.swift:221 | Swift's `/` truncates toward zero: the remainder has the dividend's sign and is smaller than the divisor |
| SwiftText.QuotNeg | GuardianAngelApp/UI/Settings/TemperatureAdjustViewController.swift:221 | truncating division commutes with negation (unlike Euclidean division) |
| SwiftText.Components | GuardianAngelApp/Extensions/BluetoothExtension.swift:145 | `components(separatedBy:)` yields at least one part, no part contains the separator, and joining the parts gives the text back |
| SwiftText.ComponentsOfUnseparated | GuardianAngelApp/Extensions/BluetoothExtension.swift:145 | text without a space splits into exactly one token |
| SwiftText.ComponentsAfterFirstSeparator | GuardianAngelApp/Extensions/BluetoothExtension.swift:145 | the first token is everything before the first separator, the rest splits alone |
| SwiftText.RemoveMatches | GuardianAngelApp/Extensions/BluetoothExtension.swift:155-158 | removing case-insensitive `T=`/`W=` matches never lengthens the text and keeps every character that cannot be part of a match |
| SwiftText.RemoveMatchesNoMatch | GuardianAngelApp/Extensions/BluetoothExtension.swift:155-158 | text with no match is left unchanged |
| SwiftText.RemoveMatchesDropsMatch | GuardianAngelApp/Extensions/BluetoothExtension.swift:155-158 | a match at the scan position, in either letter case, is deleted and the scan resumes right after it |
| SwiftText.RemoveMatchesKeepsOther | GuardianAngelApp/Extensions/BluetoothExtension.swift:155-158 | a character that does not start a match is kept, and the scan moves on by one character |
| SwiftText.RemoveMatchesDeletes | GuardianAngelApp/Extensions/BluetoothExtension.swift:155-158 | when a match occurs anywhere in the text, at least one whole match is deleted |
| SwiftText.RemoveMatchesUnchangedIff | GuardianAngelApp/Extensions/BluetoothExtension.swift:155-158 | the text comes back unchanged exactly when it holds no match |
| SwiftText.RemoveMatchesSinglePass | GuardianAngelApp/Extensions/BluetoothExtension.swift:155-158 | removal is one left-to-right pass: `TT==` becomes `T=`, not the empty text |
| SwiftText.IntToStringPlain | GuardianAngelApp/Extensions/BluetoothExtension.swift:155-158 | a number's text contains no match and no space, so it survives the split and strip |
| Temperature.CelsiusOfInRange | GuardianAngelApp/UI/Settings/TemperatureAdjustViewController.swift:221 | the Celsius value of a 64-bit Fahrenheit integer stays in the 64-bit range |
| Temperature.FahrenheitToCelsius | GuardianAngelApp/UI/Settings/TemperatureAdjustViewController.swift:219-223 | "invalid" exactly when the text is not an `Int` literal; otherwise the text is ((t-32)*5)/9, truncated and printed as Swift prints an `Int`, followed by ˚C |
| Temperature.CelsiusToFahrenheit | GuardianAngelApp/UI/Settings/TemperatureAdjustViewController.swift:225-229 | "invalid" exactly when the text is not an `Int` literal; otherwise the text is (t*9)/5+32, truncated and printed as Swift prints an `Int`, followed by ˚F |
| Temperature.CelsiusRoundTrip | GuardianAngelApp/UI/Settings/TemperatureAdjustViewController.swift:219-229 | Celsius to Fahrenheit and back loses at most one degree, always toward zero |
| Temperature.DisplayRoundTrip | GuardianAngelApp/UI/Settings/TemperatureAdjustViewController.swift:219-229 | converting a Celsius text to Fahrenheit and back gives a Celsius text within one degree |
| Temperature.FreezingPointExample | GuardianAngelApp/UI/Settings/TemperatureAdjustViewController.swift:219-223 | "0" °F displays as "-17˚C" (truncation, not flooring) |
| Temperature.Clamp | GuardianAngelApp/UI/Settings/TemperatureAdjustViewController.swift:116-117 | the slider shows a value within 60–100, and the stored threshold itself when it is in range |
| Temperature.SnapToStep | GuardianAngelApp/UI/Settings/TemperatureAdjustViewController.swift:204 | the snapped value is a multiple of 5 in 60–100 within 2.5 of the slider position |
| Temperature.SnapIsNearest | GuardianAngelApp/UI/Settings/TemperatureAdjustViewController.swift:204 | the snapped value is at least as close to the slider position as any other multiple of 5 |
| Temperature.SliderCelsiusRange | GuardianAngelApp/UI/Settings/TemperatureAdjustViewController.swift:210 | the Celsius label of any slider value lies between 15 and 37 |
| Temperature.LabelAgreesWithExtension | GuardianAngelApp/UI/Settings/TemperatureAdjustViewController.swift:187-188 | the slider's Celsius label has the same number as the String extension but a different degree glyph |
| Temperature.AppSettings.constructor | GuardianAngelApp/AppDelegate.swift:31-34 | the static initial values: Fahrenheit and metres, the sensor enabled and a threshold of 80 |
| Temperature.TemperatureAdjust.constructor | GuardianAngelApp/UI/Settings/TemperatureAdjustViewController.swift:94-120 | the slider starts at the stored threshold clamped to its range, with a label in the current unit |
| Temperature.TemperatureAdjust.SliderValueDidChange | GuardianAngelApp/UI/Settings/TemperatureAdjustViewController.swift:202-215 | the slider snaps to the nearest step, the threshold and the stored default become that value, the label shows it in the current unit, and nothing else changes |
| Temperature.TemperatureAdjust.FahrenheitOrCelsius | GuardianAngelApp/UI/Settings/TemperatureAdjustViewController.swift:177-193 | the unit flips exactly once, the threshold and stored default become the slider's Fahrenheit integer, and the label follows the new unit |
| Temperature.TemperatureAdjust.SwitchStateDidChange | GuardianAngelApp/UI/Settings/TemperatureAdjustViewController.swift:195-200 | the sensor flag becomes the switch state, the same value is stored, and nothing else changes |
| Uart.SplitPayloadAsWritten | GuardianAngelApp/Extensions/BluetoothExtension.swift:145-159 | the split as written, which traps on a line with one token |
| Uart.OneTokenPayloadTraps | GuardianAngelApp/Extensions/BluetoothExtension.swift:154 | the line `T=25` stops the app at the `[1]` index |
| Uart.SplitPayload | GuardianAngelApp/Extensions/BluetoothExtension.swift:145-159 | the split agrees with the written one wherever that returns, and an empty line gives the "not connected" text and "No" |
| Uart.OneTokenPayloadCorrected | GuardianAngelApp/Extensions/BluetoothExtension.swift:154 | a temperature-only line reads as temperature 25 and no weight, so no baby is detected |
| Uart.SplitEncoded | GuardianAngelApp/Extensions/BluetoothExtension.swift:145-159 | splitting `T=<temp> W=<weight>` gives back the temperature and weight texts |
| Uart.BabyInSeatThreshold | GuardianAngelApp/Extensions/BluetoothExtension.swift:172-179 | a baby is in the seat exactly when the weight is an integer strictly below 3000 |
| Uart.Assess | GuardianAngelApp/Extensions/BluetoothExtension.swift:160-188 | seat flag and "Yes"/"No" follow the weight threshold; the alert fires exactly when the converted temperature parses, exceeds the threshold, a baby is in the seat and the sensor is enabled; a disabled sensor or an "invalid" temperature shows "not connected"; otherwise the converted text is shown with ˚F appended, or converted on to Celsius |
| Uart.AssessEncoded | GuardianAngelApp/Extensions/BluetoothExtension.swift:145-188 | end to end from an encoded line: the seat flag is weight < 3000 and the alert is the rule on the converted temperature |
| Proximity.DistanceClass | GuardianAngelApp/Extensions/LocationExtension.swift:84-95 | first-match classification: negative keeps the old text, [0,10] "Very Close", (10,20] "Near", above 20 "Far" |
| Proximity.CloserNeverFarther | GuardianAngelApp/Extensions/LocationExtension.swift:84-95 | a shorter distance never gives a farther class |
| Proximity.BoundariesGoToCloserClass | GuardianAngelApp/Extensions/LocationExtension.swift:88-91 | 10 m is "Very Close" and 20 m is "Near" |
| Spinners.ShowHidePreserveCoupled | GuardianAngelApp/UI/DeviceViewController.swift:441-481 | show and hide keep "spinner animating iff label hidden" |
| Spinners.ShowHideIdempotent | GuardianAngelApp/UI/DeviceViewController.swift:441-481 | showing twice is showing once, and hiding twice is hiding once |
| Spinners.ShowHideOutcome | GuardianAngelApp/UI/DeviceViewController.swift:441-481 | on a coupled row, show leaves it spinning with the label hidden, and hide leaves it still with the label shown |
| Spinners.UncoupledIsStuck | GuardianAngelApp/UI/DeviceViewController.swift:441-481 | a row whose spinner and label disagree is never changed by show or hide |
| Spinners.StatusPanel.constructor | GuardianAngelApp/UI/DeviceViewController.swift:233-236 | every row starts still, with its label shown |
| Spinners.StatusPanel.ShowSpinner | GuardianAngelApp/UI/DeviceViewController.swift:441-446 | the chosen row is shown under its guard, the other rows and the title are unchanged, and coupling is preserved |
| Spinners.StatusPanel.HideSpinner | GuardianAngelApp/UI/DeviceViewController.swift:448-453 | the chosen row is hidden under its guard, the other rows and the title are unchanged, and coupling is preserved |
| Spinners.StatusPanel.ShowTitleSpinner | GuardianAngelApp/UI/DeviceViewController.swift:427-432 | the title spins and no row changes |
| Spinners.StatusPanel.HideTitleSpinner | GuardianAngelApp/UI/DeviceViewController.swift:434-439 | the title stops and no row changes |
| Utilities.CustomTimer.constructor | GuardianAngelApp/Utilities.swift:38-41 | nothing is scheduled, the count is 0, and the interval and callback are stored |
| Utilities.CustomTimer.Start | GuardianAngelApp/Utilities.swift:42-44 | one more non-repeating timer is scheduled and referenced; an earlier timer is not invalidated |
| Utilities.CustomTimer.Stop | GuardianAngelApp/Utilities.swift:45-49 | only the referenced timer is invalidated; before any start nothing changes |
| Utilities.CustomTimer.Fire | GuardianAngelApp/Utilities.swift:53-58 | a firing spends that timer, counts exactly once and hands back the callback when one is set |
| Utilities.StopBeforeStart | GuardianAngelApp/Utilities.swift:45-49 | stop before start leaves nothing to fire |
| Utilities.RestartThenStop | GuardianAngelApp/Utilities.swift:42-49 | after a second start, stop cancels only the second timer and the first still fires |
| Utilities.StartThenFire | GuardianAngelApp/Utilities.swift:42-58 | a started timer fires once, counts once and runs its callback |
| UserModel.Init | GuardianAngelApp/Model/UserModel.swift:18-23 | the uid is copied verbatim; a string stored under `name`, `email` or `profileImageUrl` becomes that field; a missing key or a value that is not a string gives "" |
| UserModel.InitOfStored | GuardianAngelApp/Model/UserModel.swift:18-23 | decoding a user's own stored dictionary gives the user back |
| UserModel.InitIgnoresOtherKeys | GuardianAngelApp/Model/UserModel.swift:18-23 | keys other than name, email and profileImageUrl are ignored |
| UserModel.InitNonStringIsMissing | GuardianAngelApp/Model/UserModel.swift:18-23 | a value that is not a String reads as a missing key |
| DeviceState.OnlyRxSubscribed | GuardianAngelApp/Extensions/BluetoothExtension.swift:116-127 | every subscription and read is of a discovered characteristic with the Rx UUID |
| DeviceState.LastRxIndex | GuardianAngelApp/Extensions/BluetoothExtension.swift:116-127 | the reference index is -1 exactly when no characteristic has the Rx UUID, else the last one that does |
| DeviceState.StoredRxIsLastMatch | GuardianAngelApp/Extensions/BluetoothExtension.swift:116-127 | the stored Rx characteristic is the last discovered one with the Rx UUID, or the old one when none has it |
| DeviceState.StopsEachNext | GuardianAngelApp/UI/DeviceViewController.swift:208-211 | stopping one more, not yet stopped, region extends a complete set of stop requests |
| DeviceState.TeardownComplete | GuardianAngelApp/UI/DeviceViewController.swift:205-213 | cancelling and then stopping each ranged region is the complete teardown |
| DeviceState.ScanCountAppend | GuardianAngelApp/Extensions/BluetoothExtension.swift:24-31 | scans counted over a joined log add up |
| DeviceState.ScansKeepInv | GuardianAngelApp/Extensions/BluetoothExtension.swift:14-51 | both scan entry points and stopScan keep one armed timer per scan started |
| DeviceState.ConnectKeepsInv | GuardianAngelApp/Extensions/BluetoothExtension.swift:61-85 | discovery and connection start no scan |
| DeviceState.DiscoveryKeepsInv | GuardianAngelApp/Extensions/BluetoothExtension.swift:92-130 | service and characteristic discovery start no scan |
| DeviceState.UpdateKeepsInv | GuardianAngelApp/Extensions/BluetoothExtension.swift:132-191 | a value update starts no scan |
| DeviceState.DisconnectKeepsInv | GuardianAngelApp/Extensions/BluetoothExtension.swift:194-215 | the rescan after a disconnection arms its own timer |
| DeviceState.FailureKeepsInv | GuardianAngelApp/Extensions/BluetoothExtension.swift:218-246 | radio-state changes and connection failures start no scan |
| DeviceState.BeaconCallsKeepInv | GuardianAngelApp/Extensions/LocationExtension.swift:14-42 | the beacon calls start no scan and range only beacon regions |
| DeviceState.RegionKeepsInv | GuardianAngelApp/Extensions/LocationExtension.swift:44-103 | region entry, exit and ranging keep one armed timer per scan started |
| DeviceState.StepKeepsInv | GuardianAngelApp/Extensions/BluetoothExtension.swift:14-246 | every handler keeps one armed stop timer per scan started and ranges only beacon regions |
| DeviceState.RunKeepsInv | GuardianAngelApp/Extensions/BluetoothExtension.swift:14-246 | any sequence of callbacks keeps that invariant |
| DeviceState.InitialInv | GuardianAngelApp/UI/DeviceViewController.swift:32-56 | the initial state satisfies the invariant |
| DeviceProperties.ScanIsIdempotent | GuardianAngelApp/Extensions/BluetoothExtension.swift:15 | a second scan request, from either entry point, changes nothing |
| DeviceProperties.ScanIsGated | GuardianAngelApp/Extensions/BluetoothExtension.swift:14-46 | a scan starts and arms exactly one timer iff the cushion is disconnected and no scan runs |
| DeviceProperties.DiscoverSelectsOnlyCushion | GuardianAngelApp/Extensions/BluetoothExtension.swift:61-66 | only the cushion's identifier, while disconnected, is selected and connected; otherwise nothing changes |
| DeviceProperties.ConnectStopsScan | GuardianAngelApp/Extensions/BluetoothExtension.swift:69-85 | connecting stops scanning, marks the cushion connected, leaves the armed timers alone, and notifies only when debugging |
| DeviceProperties.OtherCharacteristicIgnored | GuardianAngelApp/Extensions/BluetoothExtension.swift:134 | updates from any characteristic but the stored Rx one are ignored entirely |
| DeviceProperties.HeatNotificationRule | GuardianAngelApp/Extensions/BluetoothExtension.swift:132-191 | the seat flag follows the weight threshold; the heat notification is sent iff the sensor is enabled, a baby is in the seat and the converted temperature parses above the threshold |
| DeviceProperties.RadioStateKeepsConnection | GuardianAngelApp/Extensions/BluetoothExtension.swift:218-230 | a radio that is not powered on changes only the presentation, never the connection state |
| DeviceProperties.FailureToConnect | GuardianAngelApp/Extensions/BluetoothExtension.swift:233-246 | a failure without an error is ignored; with one, only the connection flag is cleared |
| DeviceProperties.DisconnectRescans | GuardianAngelApp/Extensions/BluetoothExtension.swift:194-215 | a disconnection leaves the cushion disconnected with a scan running, arms a timer unless one was running, and ends with the disconnected (debug) or left-region notification |
| DeviceProperties.EnterRegionRule | GuardianAngelApp/Extensions/LocationExtension.swift:44-57 | entry marks the beacon connected; a background scan with one stop timer starts exactly when the cushion is disconnected and idle; no other field changes; only a debug build notifies |
| DeviceProperties.StartBeaconRule | GuardianAngelApp/Extensions/LocationExtension.swift:19-23 | monitoring of the Guardian region is requested exactly when the beacon is not connected, and nothing else changes |
| DeviceProperties.RegionFlap | GuardianAngelApp/Extensions/LocationExtension.swift:44-73 | entering then leaving leaves the beacon disconnected and no scan running, while a timer armed on entry stays armed |
| DeviceProperties.ExitStopsScanning | GuardianAngelApp/Extensions/LocationExtension.swift:59-73 | leaving the region always stops scanning and disconnects the beacon |
| DeviceProperties.RangingRule | GuardianAngelApp/Extensions/LocationExtension.swift:75-103 | an empty list changes nothing; while disconnected ranging only rescans; while connected the first beacon's class (or the old text for a negative distance) becomes the proximity and is shown |
| DeviceProperties.MonitoringRule | GuardianAngelApp/Extensions/LocationExtension.swift:31-42 | monitoring connects the beacon and ranges the region only with ranging available and a beacon region; otherwise nothing changes |
| DeviceProperties.NotesAppend | GuardianAngelApp/Extensions/BluetoothExtension.swift:69-215 | notifications of a joined log are those of the parts in order |
| DeviceProperties.ConnectDisconnectCycle | GuardianAngelApp/Extensions/BluetoothExtension.swift:61-215 | discover, connect, lose: debug builds announce connected then disconnected, production only left-region, and a new scan starts |
| Device.DeviceMonitor.constructor | GuardianAngelApp/UI/DeviceViewController.swift:32-56 | the monitor starts disconnected, not scanning, with no baby, "Not Connected" and threshold 80 |
| Device.DeviceMonitor.BackgroundScan | GuardianAngelApp/Extensions/BluetoothExtension.swift:14-32 | exactly the background-scan transition; earlier timers kept |
| Device.DeviceMonitor.ForegroundScan | GuardianAngelApp/Extensions/BluetoothExtension.swift:35-46 | exactly the foreground-scan transition; earlier timers kept |
| Device.DeviceMonitor.StartScan | GuardianAngelApp/Extensions/BluetoothExtension.swift:24-31 | a scan starts and one fresh, started, 30-second timer whose task is stopScan is appended |
| Device.DeviceMonitor.StopScan | GuardianAngelApp/Extensions/BluetoothExtension.swift:49-51 | scanning stops and no timer is touched |
| Device.DeviceMonitor.ScanTimerFired | GuardianAngelApp/Extensions/BluetoothExtension.swift:28-30 | a live stop timer fires once and stops scanning, whatever scan runs by then |
| Device.DeviceMonitor.RestartCentralManager | GuardianAngelApp/Extensions/BluetoothExtension.swift:54-58 | a fresh manager is not scanning and reports its radio state; a radio that is off hides every row spinner |
| Device.DeviceMonitor.DidDiscover | GuardianAngelApp/Extensions/BluetoothExtension.swift:61-66 | exactly the discovery transition |
| Device.DeviceMonitor.DidConnect | GuardianAngelApp/Extensions/BluetoothExtension.swift:69-85 | exactly the connect transition; the armed timers are left alone |
| Device.DeviceMonitor.DidDiscoverServices | GuardianAngelApp/Extensions/BluetoothExtension.swift:92-103 | the alert on error, else one characteristic discovery per service in order |
| Device.DeviceMonitor.DidDiscoverCharacteristics | GuardianAngelApp/Extensions/BluetoothExtension.swift:108-130 | the alert on error, else the characteristic loop |
| Device.DeviceMonitor.VisitCharacteristics | GuardianAngelApp/Extensions/BluetoothExtension.swift:116-129 | the loop stores the last Rx characteristic and issues its requests in order |
| Device.DeviceMonitor.DidUpdateValue | GuardianAngelApp/Extensions/BluetoothExtension.swift:132-191 | the update transition under the current unit and sensor settings, reading the line with the corrected split; an accepted line hides the temperature and weight spinners |
| Device.DeviceMonitor.DidDisconnect | GuardianAngelApp/Extensions/BluetoothExtension.swift:194-215 | exactly the disconnection transition |
| Device.DeviceMonitor.DidUpdateState | GuardianAngelApp/Extensions/BluetoothExtension.swift:218-230 | exactly the radio-state transition; a radio that is off hides all three row spinners and leaves the title spinner alone |
| Device.DeviceMonitor.DidFailToConnect | GuardianAngelApp/Extensions/BluetoothExtension.swift:233-246 | exactly the failure transition; a failure with an error hides the temperature and weight spinners |
| Device.DeviceMonitor.HideReadingSpinners | GuardianAngelApp/Extensions/BluetoothExtension.swift:139-143 | the temperature and weight rows are hidden under their guards; the beacon row and the title are unchanged |
| Device.DeviceMonitor.StopRangingBeacon | GuardianAngelApp/Extensions/LocationExtension.swift:14-16 | ranging of the Guardian region stops |
| Device.DeviceMonitor.StartBeacon | GuardianAngelApp/Extensions/LocationExtension.swift:18-22 | monitoring is requested only while the beacon is disconnected |
| Device.DeviceMonitor.StopRangingAndMonitoringBeacon | GuardianAngelApp/Extensions/LocationExtension.swift:24-27 | monitoring and then ranging of the Guardian region stop |
| Device.DeviceMonitor.DidStartMonitoring | GuardianAngelApp/Extensions/LocationExtension.swift:30-42 | exactly the monitoring transition |
| Device.DeviceMonitor.DidEnterRegion | GuardianAngelApp/Extensions/LocationExtension.swift:44-57 | exactly the region-entry transition |
| Device.DeviceMonitor.DidExitRegion | GuardianAngelApp/Extensions/LocationExtension.swift:59-73 | exactly the region-exit transition |
| Device.DeviceMonitor.DidRangeBeacons | GuardianAngelApp/Extensions/LocationExtension.swift:75-103 | exactly the ranging transition |
| Device.DeviceMonitor.ShowLoginSpinners | GuardianAngelApp/UI/DeviceViewController.swift:120-127 | temp and weight rows spin only while the cushion is disconnected, the beacon row only while the beacon is, the title always |
| Device.DeviceMonitor.DisconnectEverything | GuardianAngelApp/UI/DeviceViewController.swift:205-213 | with no selected peripheral nothing changes; otherwise its connection is cancelled and ranging stops for each ranged region exactly once |
| Device.RangingStops | GuardianAngelApp/UI/DeviceViewController.swift:209-211 | one stop request per ranged region, each exactly once, in some order |

## Left out

- Notifications, alerts, title changes and label texts are entries in an effect log. Building the `UNNotificationRequest`s and the views themselves is platform I/O.
- `executeOnMainThread` runs its block at once on the main thread and queues it otherwise. Both managers deliver their callbacks on the main queue, so the blocks run inline. Each block is logged in order as one entry, and its spinner hides are applied to the panel. Its label texts, title changes and alerts stay log entries.
- `convertTempString`, `adjustBeaconStatus`, `sendLeftRegionLocalNotification`, `sendNotification(description:)`, `notConnected`, `isDebugging` and the UUID constants are not part of this model. They are configuration values, or a log entry for the calls.
- CoreBluetooth and CoreLocation objects are identifiers and callback arguments. A characteristic value that does not decode as UTF-8 is the absent payload. A missing value, which the code force-unwraps and traps on, is not modelled.
- The beacon accuracy is a `real` compared with the thresholds. NaN is not modelled.
- Device.DeviceMonitor.DidUpdateValue: reads the line with the corrected `Uart.SplitPayload`, as does DeviceState.DidUpdateValue. On a non-empty line without a space (`T=25`) the app stops at the `[1]` index of BluetoothExtension.swift:154. The model instead shows the temperature, sets the weight text to "No" and the seat to empty, and logs the UI updates. The trap is modelled only by Uart.SplitPayloadAsWritten and Uart.OneTokenPayloadTraps (see "## Findings").
- Temperature.SnapToStep: models Swift's `Float` rounding (`round`, halves away from zero) on exact reals. Float representation error is not modelled.
- Temperature.FahrenheitToCelsius: the arithmetic is unbounded. The overflow trap for values near the 64-bit limits is not modelled.
- Temperature.CelsiusToFahrenheit: the same unbounded arithmetic, without the overflow trap.
- `UserDefaults` loading at launch, push registration, authentication and the other screens are platform I/O. Persistence is a map of stored values.
- The payload is assumed to be ASCII, so `String.count` and the `NSString` length agree.
- `scanning` changes only through the app's own scan and stop requests. A scan the platform ends by itself, for example when the radio powers off, is not modelled. After such an end the model refuses to rescan until a stop timer fires.
- The scan timers' firing time is the run loop's business. A live timer may fire at any later point.

Behaviour of the code worth noting:

- The default threshold is 80.
- The heat alert compares with the controller's own `maxTemp`. It is set to 80 and never updated from the settings.
- Stop timers are never cancelled, so a timer armed for an earlier scan can stop a later one.
- A ranging callback while the cushion is disconnected starts a background scan.
- A disconnection in a production build sends the left-region notification.

## Findings

| source | as written | input that shows it | evidently intended | confidence | as-written member | corrected member |
|---|---|---|---|---|---|---|
| GuardianAngelApp/Extensions/BluetoothExtension.swift:154 | `parsedUartValues[1]` is read without checking that the line had a space | the payload line `T=25` (one token) | a line without a weight token reads as "no weight" instead of stopping the app | high; not executed | Uart.OneTokenPayloadTraps | Uart.OneTokenPayloadCorrected |
