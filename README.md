# Garage Bot controller core in Dafny

This project models the decision logic of the Garage Bot firmware. The firmware runs on an ESP32 that sits beside a garage door opener:

- two infrared sensors tell it where the door is;
- a relay "presses" the button of the original remote;
- an RF receiver listens for registered remotes;
- a front-panel button and a status LED form the local user interface;
- an optional MQTT client reports to a broker;
- a web app talks to it.

The model covers these components of the firmware:

- **Door state engine** (`door.dfy`, module `Door`):
  - sensor fusion;
  - assumed door states set by activate/open/close;
  - expiry of those assumptions;
  - `onStateChange` notifications.
- **Remote repeater** (`repeater.dfy`): the relay pulse, whose window a second activation extends.
- **RF receiver** (`rf.dfy`):
  - slot matching in normal mode;
  - counting of consecutive codes in registering mode;
  - the mode switch with its "all slots used" error;
  - both revisions (timed release, and press-only).
- **IR sensors**:
  - the sketch revision (`ir.dfy`): two circular buffers, ambient and active;
  - the garage_bot revision (`ir_legacy.dfy`): one buffer of reflected values.
- **Front-panel button** (`button.dfy`):
  - debouncing;
  - classification of a release by hold time;
  - the repeating factory-reset report.
- **Status LED** (`led.dfy`): the pattern sequencer driven by `nextCycle`.
- **Configuration setters of BotFS** (`botfs.dfy`). Saving and rebooting are recorded as ghost counters and flags.
- **MQTT client bookkeeping** (`mqtt.dfy`):
  - the ordered validation of the broker settings;
  - `setMQTTState`;
  - the reconnect throttle.
- **Pure helpers**:
  - `getMimeType` and `toVirtualButtonType` (`helpers.dfy`);
  - the web app's `commas` thousands separator (`commas.dfy`).

Every component whose source updates fields in place is a Dafny `class` with those fields. Its methods are proved against a pure step function over a value view (`Snapshot()`). The step functions carry the characterising contracts. Lemmas relate several calls: runs of RF codes, press/release sequences, LED periods, the IR buffer filling, and chains of door notifications.

Time is `millis()` as a monotonic natural number. The analog reads, the digital pin level, the RF demodulator's pending code and the broker library's answers are method parameters. Pin writes and callbacks are ghost logs.

## Model

| member | source | states |
|---|---|---|
| Repeater.Initial | arduino/build/sketch/remoteRepeater.cpp:21-33 | the repeater starts inactive with no window and the pin low |
| Repeater.ActivateStep | arduino/build/sketch/remoteRepeater.cpp:55-66 | activation always restarts the window at now; the pin is raised and `onChange(true)` fires only when it was inactive; pin and flag stay in step |
| Repeater.RunStep | arduino/build/sketch/remoteRepeater.cpp:41-49 | the relay drops, with one `onChange(false)`, exactly when active and strictly past start + 1000 ms; otherwise nothing changes |
| Repeater.ReactivationExtendsWindow | arduino/build/sketch/remoteRepeater.cpp:41-66 | two activations give one `true`; the relay only drops once the window measured from the second activation has passed |
| Repeater.RemoteRepeater.constructor | arduino/build/sketch/remoteRepeater.cpp:15-33 | the object starts in the initial relay state with no notifications |
| Repeater.RemoteRepeater.Activate | arduino/build/sketch/remoteRepeater.cpp:55-66 | new state and notifications are those of ActivateStep |
| Repeater.RemoteRepeater.Run | arduino/build/sketch/remoteRepeater.cpp:41-49 | new state and notifications are those of RunStep |
| Door.Initial | arduino/garage_bot/doorControl.cpp:23-33 | `init` leaves the door UNKNOWN with no assumption and no resolved sensor pair |
| Door.Fuse | arduino/garage_bot/doorControl.cpp:198-217 | OPEN iff both sensors read not-detected; CLOSED iff both read detected; otherwise a terminal state becomes the matching transitional one, and UNKNOWN or a transitional state is kept |
| Door.AssumeStep | arduino/garage_bot/doorControl.cpp:91-102 | assuming a different state adopts it and stamps the time; assuming the current state changes nothing; a notification exactly on change |
| Door.ClearStep | arduino/garage_bot/doorControl.cpp:110-123 | the assumption is dropped and the state is recomputed by Fuse from the stored pair; a notification exactly on change |
| Door.ActivateStep | arduino/garage_bot/doorControl.cpp:39-53 | always pulses the repeater; open/opening becomes closing, closed/closing becomes opening, unknown falls back to the sensors with no stamp; an assumed direction is stamped with the call's time, from which `run` counts the expiry |
| Door.OpenStep | arduino/garage_bot/doorControl.cpp:59-68 | pulses iff the door is neither open nor opening, then assumes opening, stamped with the call's time; otherwise nothing at all changes |
| Door.CloseStep | arduino/garage_bot/doorControl.cpp:74-83 | pulses iff the door is neither closed nor closing, then assumes closing, stamped with the call's time; otherwise nothing at all changes |
| Door.RunStep | arduino/garage_bot/doorControl.cpp:131-136 | the assumption is cleared exactly when its stamp is set and stamp + expiry < now; otherwise nothing changes |
| Door.SetSensorStatesStep | arduino/garage_bot/doorControl.cpp:145-165 | a repeated pair is ignored; a new pair is stored and re-fused only when no assumption is active; the assumption stamp is untouched |
| Door.DoorStateName | arduino/garage_bot/doorControl.cpp:179-192 | the name is "UNKNOWN" exactly for the UNKNOWN state |
| Door.DoorStateNameInjective | arduino/garage_bot/doorControl.cpp:179-192 | distinct states have distinct names |
| Door.ExecNotifiesOnlyChanges | arduino/garage_bot/doorControl.cpp:91-165 | over any sequence of calls the notifications form a chain of real changes ending in the final state; none means the state is unchanged |
| Door.ExpiredAssumptionKeepsDirection | arduino/garage_bot/doorControl.cpp:131-136 | an expired closing/opening assumption with a mixed sensor pair keeps its direction and raises no notification |
| Door.ActivateTwiceToggles | arduino/garage_bot/doorControl.cpp:39-53 | from OPEN, one activation assumes closing and a second assumes opening |
| Door.DoorControl.constructor | arduino/garage_bot/doorControl.cpp:17-33 | the engine starts in Initial with no notifications |
| Door.DoorControl.CalculateDoorStateFromSensors | arduino/garage_bot/doorControl.cpp:198-217 | the in-place recomputation equals Fuse of the stored pair |
| Door.DoorControl.SetAssumedDoorState | arduino/garage_bot/doorControl.cpp:91-102 | new state and notifications are those of AssumeStep |
| Door.DoorControl.ClearAssumedDoorState | arduino/garage_bot/doorControl.cpp:110-123 | new state and notifications are those of ClearStep |
| Door.DoorControl.Activate | arduino/garage_bot/doorControl.cpp:39-53 | door follows ActivateStep and the repeater follows its own ActivateStep |
| Door.DoorControl.Open | arduino/garage_bot/doorControl.cpp:59-68 | door follows OpenStep; the repeater is activated exactly when OpenStep pulses |
| Door.DoorControl.Close | arduino/garage_bot/doorControl.cpp:74-83 | door follows CloseStep; the repeater is activated exactly when CloseStep pulses |
| Door.DoorControl.Run | arduino/garage_bot/doorControl.cpp:131-136 | new state and notifications are those of RunStep |
| Door.DoorControl.SetSensorStates | arduino/garage_bot/doorControl.cpp:145-165 | new state and notifications are those of SetSensorStatesStep |
| Door.DoorControl.DoorStateAsString | arduino/garage_bot/doorControl.cpp:179-192 | "UNKNOWN" exactly when the current state is UNKNOWN |
| BotFs.RegisterCode | arduino/build/sketch/botFS.cpp:401-426 | a store with 5 or more codes is unchanged; otherwise the count rises by one, the code lands in the slot the old count indexes, and every other slot is kept |
| BotFs.RegisterCodeTakesEffect | arduino/build/sketch/botFS.cpp:401-426 | registering into a store that is not full changes it and leaves the code among the slots |
| BotFs.Config.constructor | arduino/garage_bot/_config.h:79-92 | the string defaults of the Config struct (empty credentials and IP, port 1833) with the stored flags, codes and thresholds; nothing saved |
| BotFs.Config.RegisterRFCode | arduino/build/sketch/botFS.cpp:401-426 | the code store follows RegisterCode; a save and a reboot happen exactly when it was not full |
| BotFs.Config.SetIRSensorThreshold | arduino/build/sketch/botFS.cpp:435-443 | "TOP" sets only the top threshold, "BOTTOM" only the bottom, any other name neither; one save always |
| BotFs.Config.ResetWiFiConfig | arduino/build/sketch/botFS.cpp:257-269 | the WiFi flag is set to the argument and the credentials are cleared, then a save and a reboot |
| BotFs.Config.ResetWiFiConfigNoReboot | arduino/garage_bot/botFS.cpp:217-227 | the credentials and the IP address are cleared and saved, with no reboot |
| BotFs.Config.SetWiFiSettings | arduino/build/sketch/botFS.cpp:306-323 | the credentials are stored verbatim, then a save and a reboot |
| BotFs.Config.SetGeneralConfig | arduino/build/sketch/botFS.cpp:340-395 | all ten network and MQTT settings are stored verbatim, then a save and a reboot |
| RfReceiver.Initial | arduino/build/sketch/rfReceiver.h:27-30 | normal mode, not pressed, last code 0, count 0 |
| RfReceiver.PairStep | arduino/build/sketch/rfReceiver.cpp:94-123 | a repeat of the last code increments the count and a different code resets it to 0; the code becomes the last code; registration is requested iff the new count reaches the threshold |
| RfReceiver.RunStep | arduino/build/sketch/rfReceiver.cpp:45-128 | a due release reports `false` and leaves the reception pending; otherwise a pending code is consumed; in normal mode a press iff the code is in a slot (edge-only with timed release, every time without); in registering mode PairStep |
| RfReceiver.SetModeStep | arduino/build/sketch/rfReceiver.cpp:155-191 | the mode is always stored; no change, no events; a change raises at most the "5x remotes" error (iff entering registering mode with 5 or more stored codes) and then exactly one mode-change notification, last |
| RfReceiver.PairRunContinues | arduino/build/sketch/rfReceiver.cpp:94-123 | continuing a run counted m times with n more copies gives count m + n and one registration request per copy whose count reaches the threshold |
| RfReceiver.FreshRunRegistersAfterThreshold | arduino/build/sketch/rfReceiver.cpp:94-123 | a fresh run of n copies ends with count n - 1 and requests n - threshold registrations, so none for n ≤ threshold |
| RfReceiver.DifferentCodeResetsCount | arduino/build/sketch/rfReceiver.cpp:96-107 | an interleaved different code resets the count and requests nothing |
| RfReceiver.RunLengthTable | arduino/build/sketch/rfReceiver.cpp:94-123 | with threshold 10, runs of 9 and 10 register nothing and a run of 11 registers once |
| RfReceiver.MatchingCode | arduino/build/sketch/rfReceiver.cpp:59-72 | the loop yields 0 iff the code is in no slot; otherwise 1 + the last slot holding it |
| RfReceiver.RFReceiver.constructor | arduino/build/sketch/rfReceiver.cpp:20-37 | the receiver starts in Initial with no events |
| RfReceiver.RFReceiver.Run | arduino/build/sketch/rfReceiver.cpp:45-128 | state, events and consumption follow RunStep; the configuration's code store follows RegisterCode exactly when RunStep requests a registration; a registration into a store that is not full saves once and requests a reboot, and every other call leaves both alone |
| RfReceiver.RFReceiver.HandleButtonPressed | arduino/build/sketch/rfReceiver.cpp:137-147 | pressed with the time refreshed; a press is reported only on the edge |
| RfReceiver.RFReceiver.SetMode | arduino/build/sketch/rfReceiver.cpp:155-191 | new state and events are those of SetModeStep |
| IrSensor.NextIndex | arduino/build/sketch/irsensor.cpp:86-89 | the advanced index stays below COUNT and equals (i + 1) mod COUNT |
| IrSensor.MeanWithin | arduino/build/sketch/irsensor.cpp:97-104 | the truncating mean of a full buffer of samples in [0, hi] lies in [0, hi] |
| IrSensor.Initial | arduino/build/sketch/irsensor.cpp:29-53 | both buffers zero, threshold stored, index, count and detection cleared |
| IrSensor.AmbientPhaseWritesOneSlot | arduino/build/sketch/irsensor.cpp:63-72 | phase 1 writes the current ambient slot only and switches the emitter on; the active buffer, counters and detection are kept |
| IrSensor.ActivePhase | arduino/build/sketch/irsensor.cpp:75-90 | phase 2 writes the reading into the same slot of the active buffer and keeps the ambient buffer, threshold and detection; it advances the index mod COUNT and caps the count at COUNT - 1 |
| IrSensor.Evaluate | arduino/build/sketch/irsensor.cpp:93-115 | both averages are the truncating means; detected iff their absolute difference reaches the threshold; `onChange` exactly on a flip |
| IrSensor.RunStep | arduino/build/sketch/irsensor.cpp:61-117 | at most one phase per call, selected by the two timing conditions; evaluation only once COUNT - 1 cycles are counted; the flag changes only with a notification |
| IrSensor.CycleStep | arduino/build/sketch/irsensor.cpp:61-117 | a full cycle writes one slot of each buffer and advances both counters |
| IrSensor.CountersFromInit | arduino/build/sketch/irsensor.cpp:85-90 | after k cycles from `init` the index is k mod COUNT and the count min(k, COUNT - 1) |
| IrSensor.FillingFromInit | arduino/build/sketch/irsensor.cpp:61-117 | for k < COUNT cycles the buffers hold the k samples in order, then zeros, so the first evaluation still averages one zero slot; no detection before COUNT - 1 cycles |
| IrSensor.SumBoth | arduino/build/sketch/irsensor.cpp:97-102 | the summing loop computes the sums of both buffers |
| IrSensor.IRSensor.constructor | arduino/build/sketch/irsensor.cpp:17-53 | the zeroing loop and `init` give the Initial sampler with two distinct buffers |
| IrSensor.IRSensor.Run | arduino/build/sketch/irsensor.cpp:61-117 | buffers, fields and notifications follow RunStep; the representation stays well formed |
| IrSensor.IRSensor.SampleAmbient | arduino/build/sketch/irsensor.cpp:63-72 | the in-place phase 1 equals AmbientPhase |
| IrSensor.IRSensor.SampleActive | arduino/build/sketch/irsensor.cpp:75-90 | the in-place phase 2 equals ActivePhase |
| IrSensor.IRSensor.EvaluateReadings | arduino/build/sketch/irsensor.cpp:93-115 | the in-place evaluation equals Evaluate |
| IrSensor.IRSensor.SetThreshold | arduino/build/sketch/irsensor.cpp:122-133 | the threshold is stored and the configuration's threshold for this sensor's name is set and saved; the other threshold is kept, and a name other than TOP or BOTTOM changes neither |
| IrSensorLegacy.AsWrittenIndexCycle | arduino/garage_bot/irsensor.cpp:83-86 | with the advance as written, the index after k cycles is k mod (COUNT + 1), so it reaches COUNT |
| IrSensorLegacy.AsWrittenIndexOutOfRange | arduino/garage_bot/irsensor.cpp:83-86 | from a fresh sensor, after COUNT cycles the index as written is COUNT, one past the buffer |
| IrSensorLegacy.Initial | arduino/garage_bot/irsensor.cpp:29-52 | buffer zero, threshold stored, index, count and detection cleared |
| IrSensorLegacy.AmbientPhase | arduino/garage_bot/irsensor.cpp:62-67 | phase 1 records the ambient reading and switches the emitter on; the buffer, counters, threshold and detection are kept |
| IrSensorLegacy.ActivePhase | arduino/garage_bot/irsensor.cpp:70-88 | phase 2 stores abs(ambient - receiver) in the current slot, advances the index mod COUNT (intended wrap) and caps the count at COUNT |
| IrSensorLegacy.Evaluate | arduino/garage_bot/irsensor.cpp:91-109 | detected iff the truncating mean of the buffer reaches the threshold; `onChange` exactly on a flip |
| IrSensorLegacy.RunStep | arduino/garage_bot/irsensor.cpp:60-111 | at most one phase per call; evaluation only once COUNT cycles are counted |
| IrSensorLegacy.CycleStep | arduino/garage_bot/irsensor.cpp:60-111 | a full cycle stores one reflected value and advances both counters |
| IrSensorLegacy.CountersFromInit | arduino/garage_bot/irsensor.cpp:83-91 | with the intended wrap, after k cycles the index is k mod COUNT and the count min(k, COUNT); no detection before COUNT cycles |
| IrSensorLegacy.SumReadings | arduino/garage_bot/irsensor.cpp:95-98 | the summing loop computes the buffer's sum |
| IrSensorLegacy.IRSensor.constructor | arduino/garage_bot/irsensor.cpp:17-52 | the sensor starts in Initial |
| IrSensorLegacy.IRSensor.Run | arduino/garage_bot/irsensor.cpp:60-111 | buffer, fields and notifications follow RunStep |
| IrSensorLegacy.IRSensor.SampleReflected | arduino/garage_bot/irsensor.cpp:70-88 | the in-place phase 2 equals ActivePhase |
| IrSensorLegacy.IRSensor.EvaluateReadings | arduino/garage_bot/irsensor.cpp:91-109 | the in-place evaluation equals Evaluate |
| IrSensorLegacy.IRSensor.Detected | arduino/garage_bot/irsensor.cpp:117-119 | the getter returns the detection flag |
| Button.Initial | arduino/build/sketch/botButton.h:27-30 | released, last level low, both time stamps 0 |
| Button.Classify | arduino/build/sketch/botButton.cpp:113-130 | SIMPLE iff hold < 1000; REGISTER_REMOTE iff ≥ 1000 and above the register duration; RESET_WIFI iff ≥ 1000, not above it and above 3000; nothing otherwise; never DISABLE_WIFI or FACTORY_RESET |
| Button.StateChangeStep | arduino/build/sketch/botButton.cpp:84-132 | the level is committed; a press records the start time and reports nothing; a release clears it and reports the classification of the hold |
| Button.RunStep | arduino/build/sketch/botButton.cpp:49-74 | the raw level is always remembered; a raw change only restarts the debounce; a level is committed iff stable and different; a release classifies now − press start; a held button reports FACTORY_RESET on every call past its duration |
| Button.PressAndReleaseClassifies | arduino/build/sketch/botButton.cpp:49-132 | a debounced press then release reports exactly the classification of the time between the two commits |
| Button.FactoryResetRepeats | arduino/build/sketch/botButton.cpp:66-69 | a button held past the factory-reset duration reports FACTORY_RESET once per call, not once overall |
| Button.BotButton.constructor | arduino/build/sketch/botButton.cpp:17-20 | the button starts in Initial with no events |
| Button.BotButton.Run | arduino/build/sketch/botButton.cpp:49-74 | new state and events are those of RunStep |
| Button.BotButton.HandleStateChange | arduino/build/sketch/botButton.cpp:84-132 | new state and events are those of StateChangeStep |
| Led.InitStep | arduino/garage_bot/botLED.cpp:37-57 | the mode and level are stored, the level written, step 0 with nothing to hold |
| Led.SetStateStep | arduino/garage_bot/botLED.cpp:63-68 | only LED_SOLID takes the new level; a write exactly on change |
| Led.ApplyCycleStep | arduino/garage_bot/botLED.cpp:147-169 | a flashing mode at a step of 0 or more shows that step's pattern value; LED_SOLID or a negative step keeps the level; a write exactly on change |
| Led.NextCycleStep | arduino/garage_bot/botLED.cpp:98-141 | with ticks left, one is counted down and nothing else changes; otherwise the step advances, back to 0 after the last step or when the unsigned sum is out of range, loads its hold count and shows its value; LED_SOLID never writes and goes to step 0 |
| Led.NextCycleKeepsReady | arduino/garage_bot/botLED.cpp:98-141 | from a consistent state one call reaches a consistent state whose step is never -1 |
| Led.IterateReady | arduino/garage_bot/botLED.cpp:98-141 | any number of calls from a consistent state stay consistent, and after one call the step is never -1 |
| Led.SetModeStep | arduino/garage_bot/botLED.cpp:82-89 | the same mode changes nothing; a new flashing mode starts at step 0 showing its first value at once, a switch to LED_SOLID keeps the level at step 0; a consistent state stays consistent |
| Led.HoldCountsDown | arduino/garage_bot/botLED.cpp:138-140 | while a step is held, k ≤ ticks calls only count down |
| Led.HoldSpan | arduino/garage_bot/botLED.cpp:98-141 | from any state, ticks + 1 calls end exactly where one call from the same state with nothing to hold ends |
| Led.StepSpan | arduino/garage_bot/botLED.cpp:98-141 | a step with t ticks to hold lasts t + 1 calls and then the next step (step 0 after the last) shows its value with its hold count loaded |
| Led.NextStepStart | arduino/garage_bot/botLED.cpp:98-141 | from the start of step c, ticks[c] + 1 calls reach the start of the next step |
| Led.PrefixSpan | arduino/garage_bot/botLED.cpp:98-141 | for every step c of the pattern, the calls of the first c steps lead from the start of step 0 to the start of step c |
| Led.PatternRepeats | arduino/garage_bot/botLED.cpp:13-23 | each flashing pattern repeats after 10 (flash), 6 (fast) or 18 (pair) calls |
| Led.BotLED.constructor | arduino/garage_bot/botLED.cpp:28-57 | the object equals InitStep with its one write |
| Led.BotLED.SetState | arduino/garage_bot/botLED.cpp:63-68 | new state and writes are those of SetStateStep |
| Led.BotLED.GetState | arduino/garage_bot/botLED.cpp:74-76 | returns the current level |
| Led.BotLED.SetMode | arduino/garage_bot/botLED.cpp:82-89 | new state and writes are those of SetModeStep |
| Led.BotLED.NextCycle | arduino/garage_bot/botLED.cpp:98-141 | new state and writes are those of NextCycleStep |
| Led.BotLED.ApplyCycle | arduino/garage_bot/botLED.cpp:147-169 | new state and writes are those of ApplyCycleStep |
| Helpers.SuffixesExclusive | arduino/garage_bot/helpers.cpp:18-27 | a name ends with at most one of ".html", ".css", ".js", ".svg", so the order of the checks does not matter |
| Helpers.GetMimeType | arduino/garage_bot/helpers.cpp:16-28 | each of the four types iff the name has its suffix; "text/plain" iff it has none of them |
| Helpers.MimeTypeIgnoresStem | arduino/garage_bot/helpers.cpp:18-27 | with a known suffix, the type does not depend on what precedes it |
| Helpers.ToVirtualButtonType | arduino/garage_bot/helpers.cpp:37-46 | OPEN iff exactly "OPEN", CLOSE iff exactly "CLOSE", ACTIVATE for every other string |
| Mqtt.ConfigurationError | arduino/garage_bot/mqttClient.cpp:43-52 | each message iff its check fails and every earlier check passes; none iff all five pass (so port 65535 is rejected) |
| Mqtt.DefaultSettingsNeedAddress | arduino/garage_bot/mqttClient.cpp:43-52 | the default settings are refused for the missing broker address, and accepted once an address is set |
| Mqtt.FirstFailureWins | arduino/garage_bot/mqttClient.cpp:43-52 | with no broker address, the message is the address one whatever the port |
| Mqtt.SetStateStep | arduino/garage_bot/mqttClient.cpp:71-78 | state and error are overwritten and one notification fires, even when nothing changed |
| Mqtt.InitStep | arduino/garage_bot/mqttClient.cpp:32-63 | DISCONNECTED is reported first; then either CONFIG_ERROR with the first failing message, or with valid settings exactly one connect attempt |
| Mqtt.RunStep | arduino/garage_bot/mqttClient.cpp:247-271 | disconnected: a connect iff more than 5000 ms since the last attempt, stamping now, or 0 on success, then the library state is reported; connected: a differing library state is reported |
| Mqtt.ThrottleBlocksWithinInterval | arduino/garage_bot/mqttClient.cpp:249-258 | calls within 5000 ms of the last attempt make no further connect attempt |
| Mqtt.MQTTClient.constructor | arduino/garage_bot/mqttClient.cpp:25 | the empty constructor leaves the zero-initialised global: state CONNECTION_TIMEOUT (enumerator 0), no error, reconnect stamp 0, no notifications |
| Mqtt.MQTTClient.Init | arduino/garage_bot/mqttClient.cpp:32-63 | new state, notifications and connect attempts are those of InitStep on the configuration's settings |
| Mqtt.MQTTClient.SetMQTTState | arduino/garage_bot/mqttClient.cpp:71-78 | new state and notifications are those of SetStateStep |
| Mqtt.MQTTClient.GetMQTTState | arduino/garage_bot/mqttClient.cpp:226-228 | returns the current state |
| Mqtt.MQTTClient.GetMQTTError | arduino/garage_bot/mqttClient.cpp:234-236 | returns the current error |
| Mqtt.MQTTClient.Run | arduino/garage_bot/mqttClient.cpp:247-271 | new state, notifications and connect attempts are those of RunStep |
| Commas.Commas | app/src/helpers/commas.helper.ts:9-15 | a falsy input (0 or "") comes back as its string form; for every input, deleting commas from the result equals deleting them from the input's string form |
| Commas.SepFromInsertsOnlyCommas | app/src/helpers/commas.helper.ts:11 | the replace only inserts commas |
| Commas.NumberRoundTrip | app/src/helpers/commas.helper.ts:11 | deleting the commas from the result for an integer gives back its decimal string |
| Commas.NoDigitsUnchanged | app/src/helpers/commas.helper.ts:11 | a text without digits comes back unchanged |
| Commas.SmallNumbersUnchanged | app/src/helpers/commas.helper.ts:2-3 | integers strictly between -1000 and 1000 come back as their decimal string, without a comma |
| Commas.GroupLayout | app/src/helpers/commas.helper.ts:5-7 | a grouped number starts with a group of 1 to 3 digits, and every comma is followed by exactly three digits and then a comma or the end |
| Commas.GroupRoundTrip | app/src/helpers/commas.helper.ts:11 | deleting the commas of a grouped digit string gives back the digits |
| Commas.SeparateDigits | app/src/helpers/commas.helper.ts:11 | on an all-digit string the regular-expression replace equals the grouping into threes from the right |
| Commas.NumberGrouping | app/src/helpers/commas.helper.ts:11 | every integer comes back as its sign followed by its digits grouped in threes from the right |
| Commas.Example | app/src/helpers/commas.helper.ts:5-7 | `commas(123456)` is "123,456" |

## Left out

- Hardware primitives are parameters or ghost logs: `analogRead`, `digitalRead`, `digitalWrite`, `pinMode`, `millis`, and the RCSwitch demodulation.
- `millis()` wrap-around is not modelled; time is a monotonic natural number. The button and MQTT subtractions therefore require `now` to be at least the stored stamps.
- RF codes are unbounded integers. The source compares a 32-bit `int` with an `unsigned long`; at 32 bits that comparison is a bijection, so equality is unaffected.
- The composed main loop (garage_bot.ino.cpp) is not modelled. It is setup glue with LED calls, a 3-second delay and error halting. DoorControl's header declares bool sensor fields and a bool `setSensorStates`. The model follows the .cpp, which uses SensorDetectionState.
- The WiFi engine, captive portal, web server routes and WebSocket/JSON handling are network I/O over libraries not in this model.
- Not modelled in BotFS: `init`, `loadConfig`, `saveConfig` and `factoryReset`. They are filesystem I/O and JSON serialisation, plus the `_writingConfig` spin lock. Saves and reboots are ghost fields.
- BotFs.Config.ResetWiFiConfigNoReboot: the garage_bot revision declares a `bool` result and returns nothing. The model has no result.
- reboot.cpp, otaUpdateManager and ledTimer.cpp are not modelled: a restart, an OTA wrapper, and a timer interrupt with critical sections.
- MQTT connect, publish and subscribe, and the mapping between the library's state codes and the firmware's enumeration, are not modelled. The library's reported state is a parameter, already mapped to `MqttState`.
- Mqtt.RunStep: the connected branch compares the library's raw state with the firmware's enumeration. The model compares the mapped state, so it matches the source only where the raw code and the enumeration agree.
- mqttClient.h declares only `init()`. The members used by mqttClient.cpp come from the .cpp. Their initial values are assumed from the zero-initialisation of the global `mqttClient` (build/sketch/garage_bot.ino.cpp:78): `_mqttState` is enumerator 0, CONNECTION_TIMEOUT (build/sketch/helpers.h:69), `_error` is empty and `_lastReconnectAttempt` is 0.
- `getMQTTStateAsString` and `_getPubSubClientStateAsString` are not modelled: they depend on the library's constants.
- Each of ASSUMED_DOOR_STATE_EXPIRY, RF_REMOTE_BUTTON_PRESS_SEPERAION, REMOTE_CONSECUTIVE_CODES_FOR_REGISTRATION, BTN_REGISTER_REMOTE_DURATION and BTN_FACTORY_RESET_DURATION is a positive constructor or settings parameter. No ordering between them is assumed.
  - Button.Classify therefore reports nothing for holds between 1000 and 3000 ms only when the register-remote duration is at least the hold.
  - BTN_PAIR_REMOTE_DURATION (10000) is defined but the button never uses it.
- Every notification and event log assumes a listener is attached. The source calls each listener only when one is set: `onStateChange` in doorControl.cpp and mqttClient.cpp, `onPress` on release in botButton.cpp, `onButtonPress`, `onError` and `onModeChanged` in rfReceiver.cpp, and `onChange` in irsensor.cpp. The exceptions are `onPress(FACTORY_RESET)` (botButton.cpp:68) and the repeater's `onChange` (remoteRepeater.cpp:47, 64), which are called with no check; garage_bot.ino.cpp:180 attaches the repeater's listener during setup. The logs record every call either way.
- Mqtt.InitStep: garage_bot.ino.cpp calls `mqttClient.init` before it assigns `onStateChange`. In the firmware, the DISCONNECTED and CONFIG_ERROR notifications of `init` therefore reach no listener. The model's log still records them.
- The garage_bot header irsensor.h declares the two-buffer fields of the sketch revision. The legacy model follows irsensor.cpp, with a single `_readings` buffer and `_ambientReading` and `_receiverReading`.
- BotFs.Config: neither revision's Config struct declares every field the model holds. The garage_bot _config.h has no `wifi_enabled`, `mqtt_enabled`, `stored_rf_code_count`, `rf_codes` or IR thresholds. The sketch _config.h also lacks `mdns_name`, the device name and every `mqtt_*` field. The model takes these fields from the setters that use them.
- The sketch header botButton.h declares `onPress` as an `eventFiredFunction`, which takes no argument. botButton.cpp calls it with a ButtonPressType, and the model follows the .cpp.
- The sketch header rfReceiver.h declares no `_buttonPressed` or `_lastButtonDown`, though rfReceiver.cpp uses both. RfReceiver.Initial takes them as not pressed and 0, the zero-initialised values of the global receiver.
- IrSensorLegacy.ActivePhase, IrSensorLegacy.RunStep, IrSensorLegacy.CycleStep, IrSensorLegacy.Cycles, IrSensorLegacy.CountersFromInit, IrSensorLegacy.IRSensor.Run and IrSensorLegacy.IRSensor.SampleReflected advance the index with the corrected wrap of IrSensor.NextIndex (back to 0 on reaching COUNT). The as-written advance of irsensor.cpp:83-86, which lets the index reach COUNT, is modelled only by IrSensorLegacy.AsWrittenIndexCycle and IrSensorLegacy.AsWrittenIndexOutOfRange (see Findings).
- Led.BotLED: botLED.h declares a `set` member that botLED.cpp does not define; it is not modelled.
- Led.NextCycleStep: the step and the hold count are unbounded integers. The unsigned `newCycleNo` is modelled by sending a negative sum back to step 0, which is what its wrap-around to a huge unsigned value does. A step counter near the 32-bit limit is not modelled.
- Commas.Commas: only integers and strings are inputs. Non-integer numbers, exponent notation for very large numbers, NaN and -0 are not modelled. A JavaScript number holds integers exactly only up to 2^53. Above that, `toString` prints the shortest digits that round-trip: `commas(2**64)` gives "18,446,744,073,709,552,000". The model prints the exact digits, "18,446,744,073,709,551,616". So the model matches the source only for integers of magnitude at most 2^53. The source's `Math.floor` callers in pretty-file-size.helper.ts are not modelled.
- The rest of the web app is not modelled: React components, socket clients and build configuration.

## Findings

| source | as written | input that shows it | evidently intended | confidence | as-written member | corrected member |
|---|---|---|---|---|---|---|
| arduino/garage_bot/irsensor.cpp:83-86 | the index is reset only when it exceeds SENSOR_IR_SMOOTHING_READING_COUNT | 20 completed cycles from a fresh sensor leave the index at 20, so the 21st cycle writes `_readings[20]`, one past a 20-slot buffer | reset when the index reaches the count (`>=`), as the sketch revision does, so the index stays in 0..19 | not executed | IrSensorLegacy.AsWrittenIndexCycle | IrSensor.NextIndex |
