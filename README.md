# ESPThermostat in Dafny

A model of the control core of the ESPThermostat firmware. This is an ESP32
room thermostat with an e-ink display, four front-panel buttons, a JSON HTTP
API and a Home Assistant bridge over MQTT. The core is a settings store that
writes through to a flash namespace, plus small time-gated state machines and
decision rules that read and write it. The firmware's single main loop calls
each manager's `update()` once per pass. The model keeps that shape:

- each manager is a `class` whose methods update its fields in place;
- each of those methods is proved against a pure function or predicate that
  states the rule;
- the multi-step properties are proved as lemmas about those functions.

| module | file | models |
|---|---|---|
| `Timing` | timing.dfy | `unsigned long` timestamp arithmetic, wrapping modulo 2^32 |
| `Settings` | settings.dfy | the settings record, the setters' clamping rules, and how the record is written to and loaded from flash |
| `Data` | data.dfy | `DataManager`: `begin`, every setter, `updateSettings`, `reset`, `getLanguagePack` |
| `Buttons` | buttons.dfy | `ButtonManager`'s click handlers |
| `Mqtt` | mqtt.dfy | `MQTTManager`: the connection machine, the 2 s change-detecting poll, the Home Assistant mode/preset mapping, and command handling |
| `Network` | network.dfy | `NetworkManager`'s Wi-Fi connection machine |
| `TimeSync` | time_manager.dfy | `TimeManager`'s NTP synchronisation machine |
| `Display` | display.dfy | `DisplayManager`'s redraw scheduling rule and the bookkeeping of what was drawn |
| `SslCert` | ssl_cert.dfy | `SSLCertificate`'s expiry arithmetic, its flash copy, and when it regenerates |
| `Api` | api.dfy | `APIHandler`: the `handleGet`/`handleSet` guard chains, `handleError`, `handleStatus`, and the endpoint bindings |

Conventions:

- Temperatures are `real`.
- `millis()` values are `U32` (integers below 2^32). Every difference and
  every `t -= d` is reduced modulo 2^32, as the 32-bit `unsigned long` of the
  ESP32 reduces it.
- Each flash namespace is a `map` from a key datatype to typed values.
- Sensor readings, the heater state, the radio's link status, the broker's
  connect result, the time library's "time is set" status, the free heap and
  certificate generation are all inputs.
- Messages handed to the MQTT client, and frames drawn on the panel, are
  collected in `seq` fields.
- `ESP.restart()` sets a `restartRequested` flag and changes nothing else.
  The operation that reached it ends there: nothing after the call takes
  effect, and a request that triggered it gets no response (`None` from
  `Api.ApiHandler.HandleSet`). A setter the model lets return false at that
  point stands for a device that never returns.

Three behaviours of the code that the model keeps as written:

- the eco setpoint is not dragged into `[minTemp, maxTemp]` when the bounds move
  (`Settings.EcoTempNotDraggedByMinTemp`);
- `begin` does not validate a record it loads from flash;
- the thermostat object is a stub that reports fixed readings and has no
  control loop, so none is modelled.

## Model

| member | source | states |
|---|---|---|
| `Timing.Elapsed` | src/network.cpp:54 | `now - since` on `unsigned long`: the true difference when `since <= now`, otherwise the difference plus 2^32 (one counter wrap) |
| `Timing.Rewind` | src/mqtt.cpp:378 | `t -= d` on `unsigned long`: exactly `d` elapses from the rewound timestamp to `t`, and adding `d` back (with wrap-around) returns `t` |
| `Timing.ElapsedAfterRewind` | src/mqtt.cpp:378 | rewinding a timestamp by `d` adds exactly `d` (mod 2^32) to the time elapsed since it |
| `Settings.KeyNamesDistinct` | src/data.cpp:77-88 | distinct settings keys have distinct flash names, so a map over the key type stands for the namespace |
| `Settings.Defaults` | include/data.h:10-15 | the struct defaults: mode "off", target 20.5, min 10, max 35. These satisfy the ordering invariant and a valid mode |
| `Settings.Constrain` | src/data.cpp:119 | Arduino `constrain`: the result is in `[lo, hi]` when `lo <= hi`; an in-range value is unchanged; the result is one of `x`, `lo`, `hi`; below `lo` gives `lo` |
| `Settings.WithTargetTemp` | src/data.cpp:114-125 | only `targetTemp` changes. It lands in `[minTemp, maxTemp]` and equals the request when the request is in range. The ordering invariant is preserved |
| `Settings.WithEcoTemp` | src/data.cpp:127-138 | only `ecoTemp` changes. It lands in `[minTemp, maxTemp]` and equals the request when the request is in range. The ordering invariant is preserved |
| `Settings.WithMaxTemp` | src/data.cpp:140-157 | only `maxTemp` and `targetTemp` change. `maxTemp` is clamped to `[minTemp, 50]`. `targetTemp` is lowered to the new maximum exactly when it was above it. `ecoTemp` is untouched. The invariant is preserved |
| `Settings.WithMinTemp` | src/data.cpp:159-176 | only `minTemp` and `targetTemp` change. `minTemp` is clamped to `[0, maxTemp]`. `targetTemp` is raised to the new minimum exactly when it was below it. `ecoTemp` is untouched. The invariant is preserved |
| `Settings.EcoTempNotDraggedByMinTemp` | src/data.cpp:159-176 | raising the minimum above the eco setpoint leaves the eco setpoint below the new minimum, while the ordering invariant still holds |
| `Settings.ApplyBounds` | src/data.cpp:99-102 | the four temperature setters in order change only the temperatures. Afterwards target and eco are both in `[minTemp, maxTemp]` |
| `Settings.ApplyTuning` | src/data.cpp:104-109 | the setters after `setMode` store offset, thresholds and refresh rate unconditionally. They store the timezone only if non-empty and the language code only if it has two characters. The temperatures and mode are left alone |
| `Settings.ApplyUpdate` | src/data.cpp:93-112 | `updateSettings` with a valid mode never writes `hysteresis`. It takes the mode, offset, thresholds and refresh rate. It takes timezone and language code when valid, and keeps the ordering invariant. Candidate bounds within the old maximum and the hard limits are taken as given. A minimum above the old maximum is cut to that maximum, because min is applied before max |
| `Settings.ActiveTarget` | src/display.cpp:24 | the working setpoint is `ecoTemp` in eco mode, otherwise `targetTemp`. It lies in `[minTemp, maxTemp]` when the record is ordered |
| `Settings.Write` | src/data.cpp:77-88 | one `put` per key, in order, storing the field of the record each key names; the "initialized" marker is never touched. `WriteSpec` gives the namespace it leaves |
| `Settings.WriteSpec` | src/data.cpp:77-88 | after a run of `put` calls, every written key holds the record's value, every other key keeps its old value, and the key set grows by exactly the written keys |
| `Settings.Load` | src/data.cpp:25-36 | each field is read with the current value as fallback: an empty namespace loads to the fallback record; a stored string mode is taken; a missing mode, or a refresh rate stored with another type, keeps the fallback |
| `Settings.LoadWritten` | src/data.cpp:25-36 | loading a namespace in which every settings key was written gives back the record written, whatever the fallback and whatever else is stored |
| `Settings.LoadSaved` | src/data.cpp:72-91 | round trip: `begin`'s load branch recovers exactly the record `saveAllSettings` wrote |
| `Settings.LoadIdempotent` | src/data.cpp:25-36 | loading twice from the same namespace equals loading once |
| `Settings.LoadIgnoresMarker` | src/data.cpp:22-36 | the "initialized" marker does not affect what is loaded |
| `Settings.Boot` | src/data.cpp:22-46 | after `begin` the marker is always present. With the marker, flash is untouched (load branch). Without it, on a store not yet initialised, the record is kept and only the marker is written, because `saveAllSettings` is a no-op at that point |
| `Settings.RebootRestores` | src/data.cpp:22-36 | a marked namespace whose entries load to `s` boots a fresh store into exactly `s`, with flash unchanged |
| `Settings.LanguagePackFor` | src/data.cpp:353-366 | the English pack exactly for "en"; the Dutch pack for "nl" and for every unknown code |
| `Data.ResetFlashAsWritten` | src/data.cpp:274-282 | flash after `reset` as written: it loads to the defaults but has no "initialized" marker |
| `Data.ResetFlash` | src/data.cpp:274-282 | flash after the corrected reset: it loads to the defaults and carries the marker |
| `Data.UpdateKeys` | src/data.cpp:99-109 | `updateSettings` writes every settings key except `hysteresis`; timezone and language code are written exactly when accepted |
| `Data.BoundsWrites` | src/data.cpp:99-102 | the `put` calls of `setMinTemp`, `setMaxTemp`, `setTargetTemp` and `setEcoTemp` (src/data.cpp:114-176) leave the stored mode alone; `BoundsWritesFinal` shows they amount to one `put` per temperature key of the final record |
| `Data.TuningWrites` | src/data.cpp:104-109 | the `put` calls after `setMode` store the refresh rate and leave `hysteresis` alone; `TuningWritesFinal` shows they amount to one `put` per written key of the final record |
| `Data.BoundsWritesFinal` | src/data.cpp:99-102 | the `put` calls of the four temperature setters, including the intermediate target writes of the bound setters, leave one final value per key |
| `Data.TuningWritesFinal` | src/data.cpp:104-109 | the `put` calls after `setMode` leave each key they wrote holding the final record's value |
| `Data.UpdateWritesFinal` | src/data.cpp:93-112 | all the writes of `updateSettings` amount to one `put` of the final record's value per key of `UpdateKeys` |
| `Data.DataManager.constructor` | include/data.h:24-26 | a fresh store is uninitialised, holds the struct defaults, and sees the flash contents as they are |
| `Data.DataManager.Begin` | src/data.cpp:11-51 | fails and changes nothing when the namespace cannot be opened. Otherwise it is initialised and its record and flash are those `Boot` gives. A store that could be rebooted into its record still can be afterwards (`Durable`) |
| `Data.DataManager.SaveAllSettings` | src/data.cpp:72-91 | writes every settings key, and only once initialised |
| `Data.DataManager.SetTargetTemp` | src/data.cpp:114-125 | false with no change when uninitialised. Otherwise the record becomes `WithTargetTemp` and the clamped value is persisted under "targetTemp". Durability is preserved |
| `Data.DataManager.SetEcoTemp` | src/data.cpp:127-138 | as `SetTargetTemp`, for `ecoTemp` |
| `Data.DataManager.SetMaxTemp` | src/data.cpp:140-157 | false with no change when uninitialised. Otherwise the record becomes `WithMaxTemp`, "maxTemp" is persisted, and "targetTemp" is also persisted when the target was dragged |
| `Data.DataManager.SetMinTemp` | src/data.cpp:159-176 | false with no change when uninitialised. Otherwise the record becomes `WithMinTemp`, "minTemp" is persisted, and "targetTemp" is also persisted when the target was dragged |
| `Data.DataManager.SetMode` | src/data.cpp:178-194 | true exactly for "off", "eco" and "on" on an initialised store, and then the mode is stored and persisted. Any other mode requests a restart and changes neither record nor flash |
| `Data.DataManager.SetTempOffset` | src/data.cpp:196-206 | false with no change when uninitialised; otherwise stores and persists the offset |
| `Data.DataManager.SetEpdRefreshRate` | src/data.cpp:208-218 | false with no change when uninitialised; otherwise stores and persists the rate |
| `Data.DataManager.SetTempChangeThreshold` | src/data.cpp:220-230 | false with no change when uninitialised; otherwise stores and persists the threshold |
| `Data.DataManager.SetHumidityChangeThreshold` | src/data.cpp:232-242 | false with no change when uninitialised; otherwise stores and persists the threshold |
| `Data.DataManager.SetTimezone` | src/data.cpp:244-257 | true exactly when initialised and the name is non-empty. The name is then stored and persisted; otherwise nothing changes |
| `Data.DataManager.SetLanguageCode` | src/data.cpp:259-272 | true exactly when initialised and the code has two characters. The code is then stored and persisted; otherwise nothing changes |
| `Data.DataManager.UpdateSettings` | src/data.cpp:93-112 | false with no change when uninitialised. With a valid mode it returns true even if a setter refused its value, the record becomes `ApplyUpdate`, and flash receives exactly the `UpdateKeys` writes. With an invalid mode only the four temperature setters take effect before the restart |
| `Data.DataManager.ResetAsWritten` | src/data.cpp:274-282 | does nothing when uninitialised. Otherwise the record is the defaults and flash is `ResetFlashAsWritten`, which lacks the marker |
| `Data.DataManager.Reset` | src/data.cpp:274-282 | the corrected reset: defaults in RAM and in flash with the marker, and durability preserved. Two resets in a row leave the same record and the same flash |
| `Data.DataManager.GetLanguagePack` | src/data.cpp:359-366 | English exactly when the stored code is "en" |
| `Data.ResetAsWrittenLosesLaterWrite` | src/data.cpp:274-282 | as written: after a reset, a target of 25.0 set and persisted is replaced by 20.5 at the next boot and comes back at the boot after |
| `Data.ResetKeepsLaterWrite` | src/data.cpp:274-282 | with the marker written back, any target set after a reset survives a reboot |
| `Buttons.SingleClickMode` | src/buttons.cpp:46-61 | a MODE click asks for "on" exactly from eco and for "eco" exactly from on. Any other mode, off included, asks for nothing |
| `Buttons.LongPressMode` | src/buttons.cpp:68-82 | a long press always asks for a valid mode: "off" from any other mode, "on" from off |
| `Buttons.SingleClickTwice` | src/buttons.cpp:46-61 | two clicks bring eco and on back to where they started |
| `Buttons.LongPressTwice` | src/buttons.cpp:68-82 | two long presses return off to off and take every other mode to on |
| `Buttons.NudgedTarget` | src/buttons.cpp:96 | the request moves the target by half a degree per click, up or down |
| `Buttons.NudgeMonotone` | src/buttons.cpp:89-114 | the stored result of TEMP UP never lowers the target and that of TEMP DOWN never raises it. Both stay within the bounds and keep the ordering invariant |
| `Buttons.NudgeUpDown` | src/buttons.cpp:89-114 | up then down by the same click count restores the record while the first nudge stays below the maximum |
| `Buttons.ButtonManager.constructor` | src/buttons.cpp:4-7 | the manager works on the given store |
| `Buttons.ButtonManager.HandleModeSingleClick` | src/buttons.cpp:46-61 | at most one `setMode`, from the mode read once: eco and on swap; off and an uninitialised store change nothing |
| `Buttons.ButtonManager.HandleModeLongClick` | src/buttons.cpp:68-82 | on an initialised store the mode becomes `LongPressMode` of the old mode and is persisted |
| `Buttons.ButtonManager.HandleTempUpClick` | src/buttons.cpp:89-98 | only in "on" mode: stores and persists the clamped nudged target; otherwise nothing changes |
| `Buttons.ButtonManager.HandleTempDownClick` | src/buttons.cpp:105-114 | as TEMP UP, downwards |
| `Buttons.ButtonManager.HandleProgSingleClick` | src/buttons.cpp:121-124 | the store is unchanged |
| `Mqtt.HaModePreset` | src/mqtt.cpp:184-208 | off maps to (off, comfort), eco to (heat, eco), anything else to (heat, comfort), each as an if-and-only-if |
| `Mqtt.StatePayloadFor` | src/mqtt.cpp:169-224 | the state document carries the mapped mode and preset and the active target. The current temperature gets +0.1 on a forced poll. The action is "heating" exactly while the heater is on |
| `Mqtt.Observed` | src/mqtt.cpp:118-147 | the five values a poll compares with, and then records as, the last published ones: the (possibly +0.1) current temperature, the active target, the humidity, the mode and the heater state |
| `Mqtt.ConnectMessages` | src/mqtt.cpp:48-65 | a successful connect sends five messages: availability "online" first and the state document last |
| `Mqtt.NextState` | src/mqtt.cpp:30-86 | each state of the connection machine as an if-and-only-if. Connecting is entered only from Disconnected, with the network up and more than 5 s since the last attempt. Connected is entered on a successful connect or kept while still connected. Failed follows a failed connect and lasts up to 5 s. Disconnected follows a lost connection or an expired Failed |
| `Mqtt.Poll` | src/mqtt.cpp:117-158 | nothing happens before 2 s have elapsed. A due poll publishes exactly when a tracked value changed or a poll was forced, and records what it published. A forced poll clears the flag without advancing `lastPollTime` |
| `Mqtt.PollSettles` | src/mqtt.cpp:117-158 | after an unforced poll, the next poll with the same reading and settings publishes nothing |
| `Mqtt.ForcedPollRepublishes` | src/mqtt.cpp:117-158 | a forced poll publishes, and the next due poll publishes again, since the +0.1 reading differs |
| `Mqtt.RewindMakesPollDue` | src/mqtt.cpp:378 | a command's rewind of `lastPollTime` makes the next poll due, unless the counter is within 2 s of a full wrap |
| `Mqtt.Lower` | src/mqtt.cpp:393 | ASCII lower-casing: the length is kept, upper-case letters move by 32, other characters are unchanged |
| `Mqtt.LowerIdempotent` | src/mqtt.cpp:393 | lower-casing twice is lower-casing once |
| `Mqtt.CommandFor` | src/mqtt.cpp:371-410 | the three command topics are recognised exactly by their full names |
| `Mqtt.ModeRequest` | src/mqtt.cpp:391-407 | "off" and "heat" in any case ask for off and on; anything else asks for nothing |
| `Mqtt.PresetRequest` | src/mqtt.cpp:410-431 | "eco" and "comfort" in any case ask for eco and on, but only while the mode is not off |
| `Mqtt.HaRoundTrip` | src/mqtt.cpp:184-208 | Home Assistant echoing back the mode and then the preset it was shown restores every valid internal mode |
| `Mqtt.MqttManager.constructor` | include/mqtt.h:31-55 | disconnected, uninitialised, nothing published, no poll pending |
| `Mqtt.MqttManager.Begin` | src/mqtt.cpp:12-28 | afterwards the manager is initialised; a second call changes nothing more |
| `Mqtt.MqttManager.Publish` | src/mqtt.cpp:161-167 | hands the message to the client only while connected. The result is true only then, and only if the client accepted it |
| `Mqtt.MqttManager.PublishState` | src/mqtt.cpp:169-224 | sends `StatePayloadFor` the current record, only while connected |
| `Mqtt.MqttManager.HandleConnectedState` | src/mqtt.cpp:105-159 | a lost connection drops to Disconnected and sends nothing. Otherwise the poll fields and the outbox follow `Poll` |
| `Mqtt.MqttManager.Update` | src/mqtt.cpp:30-86 | does nothing before `begin`. After it, the state follows `NextState` and the attempt time is stamped only on entering Connecting. A connect sends `ConnectMessages`, a connected pass follows `Poll`, and no other path sends anything |
| `Mqtt.MqttManager.HandleMessage` | src/mqtt.cpp:363-432 | a temperature command is refused in eco mode and forces a poll; otherwise it stores the clamped target. Mode and preset commands store `ModeRequest` and `PresetRequest`, and an inapplicable preset forces a poll. Every recognised command rewinds `lastPollTime` by 2 s; other topics change nothing |
| `Network.Step` | src/network.cpp:26-91 | each transition as an if-and-only-if. Connected is entered only from Connecting when the link is up. Failed is entered only after more than 30 s without a link, and stamps the retry time. Connecting is re-entered on a dropped link or after more than 30 s in Failed, and stamps the start time. Disconnected is never entered or left. A step that keeps its state changes nothing |
| `Network.NoLinkNeverConnects` | src/network.cpp:34-36 | over any run of passes in which the radio never reports a link, Connected is never reached |
| `Network.RunStaysStarted` | src/network.cpp:87-89 | over any run of passes, the machine is Disconnected at the end exactly when it was at the start |
| `Network.TimeoutThenRetry` | src/network.cpp:54-83 | an attempt without a link for more than 30 s fails and stamps the retry time. A pass more than 30 s later starts a new attempt |
| `Network.NetworkManager.constructor` | include/network.h:20-24 | Disconnected and uninitialised |
| `Network.NetworkManager.Begin` | src/network.cpp:8-24 | the first call enters Connecting with a fresh start time; later calls change nothing |
| `Network.NetworkManager.Update` | src/network.cpp:26-91 | does nothing before `begin`; afterwards the fields follow `Step` |
| `Network.NetworkManager.IsConnected` | src/network.cpp:93-96 | true exactly in the Connected state; `GetIP` and `GetRSSI` branch on it |
| `Network.NetworkManager.GetIP` | src/network.cpp:103-108 | the radio's address while connected, otherwise "Not connected" |
| `Network.NetworkManager.GetRSSI` | src/network.cpp:110-115 | the radio's reading while connected, otherwise 0 |
| `TimeSync.Step` | src/time_manager.cpp:24-75 | `wasConnected` ends equal to the connectivity, and `timeSynced` never falls. A sync happens exactly when one was requested, or requested by this pass's connect edge, and the library reports the time set. `justSynced` and the timezone application go with it. An NTP request goes out exactly on a connect edge or on a due retry, and stamps the attempt time. Losing the link after a sync withdraws the request |
| `TimeSync.RunAccounted` | src/time_manager.cpp:24-100 | over any interleaving of `update` passes and `checkAndClearJustSynced` calls, a pending `justSynced` plus the true answers given so far equals one once synced, zero before |
| `TimeSync.JustSyncedReportedOnce` | src/time_manager.cpp:92-100 | from power-on, `checkAndClearJustSynced` answers true at most once, whatever the link does. It has answered true exactly when the time is synced and the flag is no longer pending |
| `TimeSync.TimeManager.constructor` | include/time_manager.h:16-23 | nothing synced, requested or connected |
| `TimeSync.TimeManager.Begin` | src/time_manager.cpp:5-22 | the first call applies the stored timezone; later calls change nothing |
| `TimeSync.TimeManager.Update` | src/time_manager.cpp:24-75 | does nothing before `begin`. Afterwards the fields follow `Step`, the NTP request is `Step`'s, and the stored timezone is applied exactly on the pass that syncs |
| `TimeSync.TimeManager.IsSynced` | src/time_manager.cpp:82-85 | the `timeSynced` flag, which `Step` never lowers |
| `TimeSync.TimeManager.CheckAndClearJustSynced` | src/time_manager.cpp:92-100 | returns the pending flag and clears it. The count of true answers never exceeds one |
| `Display.RoundHalfAway` | src/display.cpp:25 | Arduino `round`: within half a unit of its argument, and of the same sign |
| `Display.HalfDegree` | src/display.cpp:23 | the displayed temperature is within a quarter degree of the reading |
| `Display.ViewOf` | src/display.cpp:23-26 | the displayed target is the active target. The current temperature is rounded to the half degree and the humidity to the unit |
| `Display.Decide` | src/display.cpp:20-44 | a status redraw happens exactly when the heater state or the target changed. Otherwise a reading redraw happens exactly when the refresh interval has elapsed and the temperature or humidity change reaches its threshold |
| `Display.Record` | src/display.cpp:29-35 | a redraw records target, current temperature and humidity. The heater state is recorded only on a status redraw. No redraw records nothing |
| `Display.RedrawSettles` | src/display.cpp:20-44 | with positive thresholds, a redraw is not repeated for the same view at any later time |
| `Display.IntervalFromBoot` | src/display.cpp:38-43 | because `lastRefresh` stays 0, once the uptime reaches the interval, any large enough change redraws at once |
| `Display.DisplayManager.constructor` | include/display.h:21-32 | the `last*` fields start at -999, -999, -1, false; `lastRefresh` is 0 and nothing is drawn |
| `Display.DisplayManager.Update` | src/display.cpp:20-44 | the recorded values follow `Record` of `Decide`, and `lastRefresh` never changes. A redraw appends the frame for the view and zeroes `partialRefreshCount`; otherwise nothing is drawn |
| `Display.DisplayManager.RefreshDisplay` | src/display.cpp:46-70 | draws one frame and records target, current temperature and humidity |
| `Display.FrameFor` | src/display.cpp:79-82 | the target is drawn exactly when the mode is not off. The fire icon is drawn exactly while the heater is on (src/display.cpp:128-131) |
| `SslCert.Until` | src/ssl_cert.cpp:289 | `expiry - now` on `unsigned long`: the true difference when not past, else wrapped |
| `SslCert.ValidityMs` | src/ssl_cert.cpp:90 | 365 days in milliseconds as the timestamp type holds it: 1,471,228,928 (about 17 days) in 32 bits, and the true value in 64 bits |
| `SslCert.GeneratedExpiry` | src/ssl_cert.cpp:90 | the expiry stamped on a new certificate: `now` plus the validity, wrapped at the word width |
| `SslCert.Unexpired` | src/ssl_cert.cpp:254-259 | `checkCertificateExpiry`: an expiry is set and `now` is before it |
| `SslCert.ExpiringSoon` | src/ssl_cert.cpp:285-291 | `isExpiringSoon`: true with no expiry set; while unexpired, true exactly when less than 30 days of milliseconds remain, in either word width |
| `SslCert.DaysUntilExpiry` | src/ssl_cert.cpp:298-306 | 0 when no expiry is set or it has passed. Otherwise the whole number of days left: `d` days with `d * 86400000 <= expiry - now < (d + 1) * 86400000` |
| `SslCert.ExpiringSoonIffUnderThirtyDays` | src/ssl_cert.cpp:285-306 | while unexpired, "expiring soon" holds exactly when fewer than 30 whole days are left |
| `SslCert.FreshCertificateExpiringSoon` | src/ssl_cert.cpp:90 | as written (32 bits): every freshly generated certificate is already expiring soon |
| `SslCert.FreshCertificateWrapsExpired` | src/ssl_cert.cpp:90 | as written: a certificate generated in the last 17 days before the counter wraps is already expired |
| `SslCert.FreshCertificateLasts` | src/ssl_cert.cpp:90 | with 64-bit timestamps a fresh certificate is unexpired and not expiring soon, with 365 days left |
| `SslCert.NumberAt` | src/ssl_cert.cpp:236 | a stored expiry read back into `unsigned long` fits the word width |
| `SslCert.StoredCert` | src/ssl_cert.cpp:229-239 | nothing is loaded exactly when one of the three keys is missing |
| `SslCert.SavedPrefs` | src/ssl_cert.cpp:241-252 | saving adds exactly the three certificate keys |
| `SslCert.ClearedPrefs` | src/ssl_cert.cpp:317-329 | clearing removes exactly the three certificate keys |
| `SslCert.LoadSaved` | src/ssl_cert.cpp:229-252 | loading what was saved gives back the same certificate |
| `SslCert.LoadCleared` | src/ssl_cert.cpp:229-239 | after a clear nothing can be loaded |
| `SslCert.SslCertificate.constructor` | src/ssl_cert.cpp:3-4 | empty PEMs, no expiry, not valid |
| `SslCert.SslCertificate.CheckCertificateExpiry` | src/ssl_cert.cpp:254-259 | the object's expiry is set and lies ahead of `now` (`Unexpired`) |
| `SslCert.SslCertificate.IsExpiringSoon` | src/ssl_cert.cpp:285-291 | true with no expiry set; while unexpired, true exactly when `getDaysUntilExpiry` is below 30 |
| `SslCert.SslCertificate.GetDaysUntilExpiry` | src/ssl_cert.cpp:298-306 | 0 unless unexpired; otherwise the whole days `d` with `d * 86400000 <= expiry - now < (d + 1) * 86400000` |
| `SslCert.SslCertificate.IsValid` | src/ssl_cert.cpp:281-283 | the valid flag is set and `checkCertificateExpiry` holds |
| `SslCert.SslCertificate.LoadStoredCertificate` | src/ssl_cert.cpp:229-239 | fails with no change when a key is missing. Otherwise it loads the three values and succeeds exactly when both PEMs are non-empty and the expiry is positive |
| `SslCert.SslCertificate.SaveCertificateToFlash` | src/ssl_cert.cpp:241-252 | succeeds exactly when both PEMs are non-empty, and then writes the three keys; otherwise writes nothing |
| `SslCert.SslCertificate.ClearStoredCertificate` | src/ssl_cert.cpp:317-329 | removes the three keys, empties both PEMs, zeroes the expiry, clears the valid flag, returns true |
| `SslCert.SslCertificate.GenerateNewCertificate` | src/ssl_cert.cpp:69-98 | succeeds exactly when generation does, and then installs the pair with the expiry `GeneratedExpiry`; on failure nothing changes |
| `SslCert.SslCertificate.EnsureValidCertificate` | src/ssl_cert.cpp:40-60 | a valid certificate that is not expiring soon is kept. Otherwise a failed generation returns false and changes nothing. A successful one installs the pair stamped with the later clock reading `genNow`, saves it when both PEMs are non-empty, and marks it valid even when the save was refused |
| `SslCert.SslCertificate.RegenerateIfNeeded` | src/ssl_cert.cpp:62-67 | regenerates exactly when `ensureValidCertificate` would, with the same effect |
| `SslCert.SslCertificate.Initialize` | src/ssl_cert.cpp:10-38 | fails with no change when the namespace cannot be opened. It keeps a stored certificate that is usable and unexpired, without writing flash. On a first start without one, it succeeds exactly when generation does, installs the generated pair stamped at `genNow`, and saves it to flash when both PEMs are non-empty |
| `Api.ErrorMessagesDistinct` | include/api.h:33-50 | the four error messages of the guard chain differ, so each failed check can be told apart |
| `Api.HandleError` | src/api.cpp:5-13 | exactly the keys "status" and "error", with status "error" and the given message |
| `Api.StatusDoc` | src/api.cpp:15-46 | status "ok" with address, signal, heap and uptime in seconds. The five settings keys are present exactly when the store is present and initialised, and the two sensor keys exactly when the thermostat is present. Each value is the one read |
| `Api.GetDoc` | include/api.h:18-29 | the "not initialized" error while the store is absent or uninitialised; otherwise exactly "status" = "ok" and the one requested key |
| `Api.SetBinding` | src/api.cpp:67-118 | each set endpoint's JSON key is the flash name of the field its setter writes; distinct endpoints have distinct keys and setters |
| `Api.SetEffect` | src/api.cpp:67-118 | only the mode endpoint can refuse a value (an invalid mode). The endpoint's own field is written, and `targetTemp` as well exactly when a bound setter drags it. The ordering invariant is kept, and offset, hysteresis, timezone and language are untouched |
| `Api.ApiHandler.constructor` | src/api.cpp:3 | the handler holds the given (possibly null) store |
| `Api.ApiHandler.Store` | src/api.cpp:27-34 | the settings are visible exactly when the store is present and initialised |
| `Api.ApiHandler.HandleStatus` | src/api.cpp:15-46 | status "ok"; the settings keys are present exactly when the store is present and initialised, the sensor keys exactly when the thermostat is; the mode is the stored one |
| `Api.ApiHandler.HandleGetEndpoint` | src/api.cpp:50-118 | every get endpoint, the sensor ones included, answers the "not initialized" error while the store is uninitialised. Otherwise it answers "ok" with its own key and value |
| `Api.ApiHandler.CallSetter` | src/api.cpp:67-118 | each set endpoint calls its bound setter. The store's record and flash follow `SetEffect`, and a refused value requests a restart |
| `Api.ApiHandler.HandleSet` | include/api.h:31-51 | the checks run in order: initialised, then parsed, then key present. Each failure returns its own error and leaves the store untouched. After the setter, it returns the full status when the value is accepted. A refused value (an invalid mode) restarts the device, which sends no response. The store is as `SetEffect` says |

## Left out

- Serial logging, `printSettings`, and `lastError` (a diagnostic string) are not modelled.
- The getters of `DataManager` are plain reads of the `settings` field; the model reads the field directly.
- `DataManager::begin` does not check a loaded record against the bounds; neither does the model.
- The thermostat object (src/thermostat.cpp) is a stub. Its readings and the heater state are inputs. `heaterActive`, which the display reads, is not declared in include/thermostat.h, so it is an input as well.
- Floating point: temperatures are exact reals. `round`, `String(x, 1)` and `%.1f` formatting are not modelled beyond `Display.RoundHalfAway`.
- JSON serialisation and parsing (ArduinoJson) are not modelled. A document is a map; a request body is a parsed document or nothing.
- `Api.AsFloat` and `Api.AsString`: a JSON value of the wrong type reads as 0.0 or "". This approximates ArduinoJson's conversions.
- The static Home Assistant discovery payloads are abstract messages (src/mqtt.cpp:226-348), and the PubSubClient calls are not modelled.
- OneButton debouncing and click counting: the click count is a parameter.
- Wi-Fi radio control, mDNS, the web server (src/web.cpp), LittleFS and the browser app (data/app.js) are not modelled.
- ezTime: the NTP request and "time is set" are an output and an input; the timezone lookup is the assignment of a location string.
- The RSA key and X.509 certificate generation (src/ssl_cert.cpp:100-227) are one input that yields two PEM texts or fails.
- Drawing on the e-ink panel (fonts, layout, `drawDate`) is not modelled. A redraw is recorded as a `Frame`.
- The display's build-time constants `EPD_REFRESH_RATE`, `TEMP_CHANGE_THRESHOLD` and `HUMIDITY_CHANGE_THRESHOLD` are not defined in any header of the repository. They are the `Display.Config` parameter.
- `Display.DisplayManager.Update`: `partialRefreshCount` is a `uint8_t` that only redraws write (to 0). The model keeps it as an integer.
- `Mqtt.MqttManager.HandleConnectedState`: the firmware reads `millis()` twice in one pass (src/mqtt.cpp:118, 156). The model uses one `now` for both.
- `Api.ApiHandler.HandleSet`: the "Failed to set value" response (include/api.h:50) is never produced. Past the first guard a setter returns false only by calling `ESP.restart()`, and the device reboots before any response is sent, so the model answers `None` there.
- `Data.DataManager.SetMode`: an invalid mode returns false in the model with only `restartRequested` set. On the device `ESP.restart()` (src/data.cpp:186) does not return, so no caller sees that false.
- `Mqtt.MqttManager.Update`: the firmware reads `millis()` twice in the Disconnected branch (src/mqtt.cpp:40, 44). The model uses one `now` for both.
- `Network.NetworkManager.Update`: the firmware reads `millis()` twice in the Connecting branch (src/network.cpp:54, 57). The model uses one `now` for both.
- `DisplayManager::begin` and the SPI/e-ink set-up are hardware initialisation.
- `Api.ApiHandler.HandleGetEndpoint` requires a non-null store for the settings endpoints. The firmware evaluates `dataManager->get…()` before `handleGet`'s null check (src/api.cpp:62-113), so a null store is a crash there, not an error document.
- The `/api/current-humidity` endpoint answers under the key "currentHumidity", while the status document uses "humidity". The model keeps both names.
- `SslCert.SslCertificate.EnsureValidCertificate`: the firmware reads `millis()` in `isExpiringSoon` (src/ssl_cert.cpp:288) and again when it stamps the generated certificate (src/ssl_cert.cpp:90), seconds later after the RSA key generation. The model keeps the two readings apart as `now` and `genNow`. `Initialize` uses one `now` for both `checkCertificateExpiry` (src/ssl_cert.cpp:257) and `isExpiringSoon`.
- `SslCert.SslCertificate.Initialize`: when a stored certificate is unusable or expired, the object keeps the loaded values until `ensureValidCertificate` runs. The contract gives the outcome only on a first start (nothing marked valid yet), the state a freshly constructed object is in (src/ssl_cert.cpp:3-4). The firmware itself never calls `initialize`.
- `regenerateIfNeeded` is never called by the firmware, and `SSLCertificate` is not instantiated by the web server in this repository.
- The stale headers include/data.h (`awayTemp`, no eco or threshold fields), include/web.h and include/buttons.h are not followed. The .cpp files are authoritative, and defaults missing from the header are the `Settings.ExtraDefaults` parameter.

## Findings

| source | as written | input that shows it | evidently intended | confidence | as-written member | corrected member |
|---|---|---|---|---|---|---|
| src/data.cpp:274-282 | `reset` clears the whole namespace, including the "initialized" marker, then saves the defaults without writing the marker back | after a reset, set the target to 25.0 (persisted), then reboot: `begin` finds no marker, takes the first-boot branch and runs with 20.5; only the boot after that loads 25.0 | a factory reset leaves a store whose later writes survive a reboot | high; not executed | `Data.ResetAsWrittenLosesLaterWrite` (with `Data.DataManager.ResetAsWritten`) | `Data.ResetKeepsLaterWrite` (with `Data.DataManager.Reset`) |
| src/ssl_cert.cpp:90 | `millis() + (CERT_VALIDITY_DAYS * 24UL * 60UL * 60UL * 1000UL)`, with `CERT_VALIDITY_DAYS` = 365, computed in 32-bit `unsigned long` wraps to 1,471,228,928 ms, about 17 days | any `now`: the new certificate has about 17 days left, below the 30-day renewal threshold, so `isExpiringSoon` is true at once; with `now` in the last 17 days before the counter wraps, it is already expired | a validity of 365 days, not expiring soon when fresh | high; not executed | `SslCert.FreshCertificateExpiringSoon`, `SslCert.FreshCertificateWrapsExpired` (width `W32`) | `SslCert.FreshCertificateLasts` (width `W64`) |
