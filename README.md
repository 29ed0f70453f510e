# ESP32 fish and plant controller: a Dafny model of the control core

The repository holds two near-identical ESP32 sketches that run a combined
aquarium/plant enclosure.

- `fish_plant_03.cpp` is the web-enabled variant. Its relays are active-high,
  and it keeps its log in a String buffer trimmed to 12000 characters.
- `fish_plant_02.cpp` is the serial-console variant. Its relays are
  active-low, and its control lines go to the serial port only.

Both poll the same handlers from `loop()`:

- `handlePump` runs the pump on a 5 min on / 15 min off cycle over the wrapping
  32-bit `millis()` counter, and reports the time left once a minute.
- `handleLED` keeps the grow light on from 05:30 up to 22:30.
- `handleSensorLog` reads the sensors at most every 5 seconds and passes the
  water temperature to `handleWaterControl`.
- `handleStatusLine` reports the readings, the pump's time left and the four
  outputs at most every 5 seconds. In fish_plant_03 that line goes into the
  log buffer as well.
- `handleWaterControl` drives heater and fan by two-point hysteresis. The
  heater goes on at or below 22.0 and off at or above 22.5; the fan goes on at
  or above 26.0 and off at or below 25.5. A fail-safe switches both off on a
  disconnected (-127) or out-of-range (below 0, above 50) reading.

The model has four modules:

- `Millis` (millis.dfy): the 32-bit `unsigned long` and its wrapping
  subtraction.
- `Control` (control.dfy): the decisions both sketches share, as pure
  functions. These are the hysteresis step, the control lines it logs, the
  pump phase timer and `getPumpRemainMs`, the minute/second split, the light
  window and the 5-second sensor and status gates. It also holds the lemmas
  about runs of readings and about the timers across the wrap.
- `FishPlant03` (fish_plant_03.dfy): a class whose fields are the sketch's
  globals, including `logBuffer`, whose methods are its handlers, and whose
  constructor is the globals' initial values plus `setup()`. The ghost field
  `lines` holds every line ever appended. The invariant `Valid()` says the
  buffer is the last 12000 characters of all those lines, each followed by its
  newline. The ghost fields `events` and `writes` record the control lines and
  the relay pin writes in order. The texts of the lines are rendered as the
  sketch prints them, with `%02lu` shown to read back as the value it prints.
- `FishPlant02` (fish_plant_02.dfy): the same class shape without the buffer.
  `events` records the control lines it prints and `writes` its active-low
  pin writes. `Tick` is one pass of its `loop()`.

Clock readings are parameters. Each handler takes `now` for its `millis()`
reading and `hour`/`minute` for its real-time clock reading; the status line
takes a second `millis()` reading for the time left, as `getPumpRemainMs`
makes its own. `stamp` stands for the time text of `nowString()`: one
`stamp` per handler call, although the sketch calls `nowString()` afresh for
every line (see "Left out"). The water reading arrives as a `real`.

A plain reading of the sketches suggests three things the code does not do;
the model follows the code:

- A tick is not one snapshot of time. Every handler reads `millis()` and the
  real-time clock itself, so every handler gets its own `now`, and `Tick`
  takes one per handler.
- Mutual exclusion is not a correction applied after both hysteresis tests.
  The code forces the other output off inside each branch.
  `Control.WaterStep` is written as the code does it, and its contract shows
  the result is the same independent per-output hysteresis.
- Relay polarity is not abstracted away. The model keeps each sketch's
  polarity at its pin writes, as the code does.

## Model

| member | source | states |
|---|---|---|
| Millis.Sub | fish_plant_03.cpp:112 | `a - b` on `unsigned long`: the offset that, added to `b` modulo 2^32, gives `a`. It is the plain difference when `b <= a` and `2^32 + a - b` across the wrap |
| Millis.After | fish_plant_03.cpp:135 | the counter `d` ms after reading `t` is `t + d` or `t + d - 2^32` |
| Millis.ElapsedAfter | fish_plant_03.cpp:142 | `now - start` gives back the true elapsed time `d` for any `d` under a full wrap, whatever `start` is |
| Control.PinLevel | fish_plant_03.cpp:17-18 | active-high: HIGH exactly when on; active-low (fish_plant_02.cpp:191): LOW exactly when on |
| Control.Abnormal | fish_plant_03.cpp:207 | the fail-safe refuses a reading iff it is below 0 or above 50; the "disconnected" test is redundant, because -127 already lies below 0 |
| Control.WaterStep | fish_plant_03.cpp:202-240 | heater and fan are never both on afterwards, whatever the state before. On a refused reading both are off. On a usable one the heater is on iff (it was on and t < 22.5) or (it was off and t <= 22.0); the fan is on iff (it was on and t > 25.5) or (it was off and t >= 26.0) |
| Control.WaterEvents | fish_plant_03.cpp:207-254 | lines are logged exactly when the outputs change. A refused reading logs one "abnormal" line if an output was on, else nothing. A usable one logs at most two relay lines, one per changed output, carrying its new value, heater before fan, and never an "abnormal" line |
| Control.ChangesExact | fish_plant_03.cpp:242-254 | the relay lines of the two change blocks: none iff nothing changes, one for an output iff it changed, carrying its new value, the heater's before the fan's |
| Control.ChangeWritesFollow | fish_plant_03.cpp:242-254 | the pin writes of the two change blocks: one per relay line, in the same order, to that line's relay at the level of its new value |
| Control.WaterWrites | fish_plant_03.cpp:214-252 | the pin writes of handleWaterControl: at most two, none iff no output changes, each to the heater or the fan at the level of that relay's new value |
| Control.WaterWritesFollowEvents | fish_plant_03.cpp:242-254 | every relay pin write pairs with its relay line, in the same order and at the new state's level. The fail-safe writes the off level to both relays exactly when it logs |
| Control.DeadZone | fish_plant_02.cpp:219-252 | both off and 22.0 < t < 26.0: nothing changes and nothing is logged |
| Control.Run | fish_plant_02.cpp:197-253 | repeated handleWaterControl calls give one state per reading |
| Control.RunEvents | fish_plant_02.cpp:197-253 | repeated handleWaterControl calls give one list of lines per reading |
| Control.RunExclusive | fish_plant_02.cpp:219-252 | heater and fan are never on together in any state of any run, from any start |
| Control.HeaterHolds | fish_plant_03.cpp:222-230 | an on heater stays on and logs nothing while readings stay usable and below 22.5 (no chatter) |
| Control.DeadZoneRun | fish_plant_02.cpp:219-252 | from both off, readings strictly between 22.0 and 26.0 keep both off and log nothing, for a whole run |
| Control.HeaterScenario | fish_plant_03.cpp:222-246 | readings 23.0, 22.0, 21.0, 22.6 from both off give off, on, on, off, with heater lines at the 2nd and 4th reading |
| Control.PhaseLength | fish_plant_03.cpp:111 | the phase length (also fish_plant_03.cpp:140 and 156) is 5 min exactly when the pump runs and three times that (15 min) when it rests, a whole number of minutes either way |
| Control.PhaseOver | fish_plant_03.cpp:142 | the phase test (also fish_plant_03.cpp:158) holds iff getPumpRemainMs is 0; a phase is not over at the instant it starts and is over once its length has passed |
| Control.RemainLogDue | fish_plant_03.cpp:171 | the minute gate is closed at the instant it restarts and open a minute later |
| Control.RemainMs | fish_plant_03.cpp:109-115 | getPumpRemainMs is at most the phase length (5 or 15 min); it is 0 iff the wrapped elapsed time reaches the phase length; otherwise remain + elapsed == phase length |
| Control.RemainAfter | fish_plant_03.cpp:109-115 | `d` ms into a phase started at any `t0`, across the wrap, the time left is `length - d`, or 0 once `d >= length` |
| Control.RemainCountsDown | fish_plant_03.cpp:109-115 | within a phase, the time left falls strictly as time advances |
| Control.FreshPhase | fish_plant_03.cpp:144-145 | a phase starting at `now` has its full length left at `now` |
| Control.PumpGatesAfter | fish_plant_03.cpp:138-171 | `d` ms after `t0`, across the wrap: the on phase is over iff d >= 300000, the rest phase iff d >= 900000, and the minute gate is open iff d >= 60000 |
| Control.PumpEvents | fish_plant_03.cpp:133-180 | at most one line per call. If the phase ran its length, that line is the flip to the other phase. Otherwise it is the remaining-time line when the minute gate is open, else nothing. The remaining time is what getPumpRemainMs gives at that instant, and lies in (0, phase length] |
| Control.MinSec | fish_plant_03.cpp:120-122 | the minute/second split (also fish_plant_02.cpp:103-105 and fish_plant_03.cpp:414-417): seconds < 60, minutes * 60 + seconds == remainMs / 1000, and at most 15 minutes for any time left within a phase |
| Control.LightOn | fish_plant_03.cpp:187-191 | for a clock reading, on iff (hour, minute) is at or after 05:30 and before 22:30, in lexicographic order |
| Control.LightBoundaries | fish_plant_03.cpp:188-191 | 05:29 off, 05:30 on, 22:29 on, 22:30 off |
| Control.SensorDue | fish_plant_03.cpp:261 | the sensor gate is closed at the instant it restarts and open 5 s later |
| Control.StatusDue | fish_plant_03.cpp:304 | the status gate is closed at the instant it restarts and open 5 s later |
| Control.FiveSecondGatesAfter | fish_plant_03.cpp:260-262 | `d` ms after the last reading or status line, across the wrap, the sensor gate and the status gate (fish_plant_03.cpp:303-305) are open iff d >= 5000 |
| FishPlant03.Tail | fish_plant_03.cpp:94-95 | the trimmed buffer is a suffix of its input, at most 12000 characters, all of the input when it fits and exactly 12000 otherwise |
| FishPlant03.TailAppend | fish_plant_03.cpp:89-98 | trimming before an append keeps everything trimming after it would: Tail(Tail(s) + t) == Tail(s + t) |
| FishPlant03.Digits | fish_plant_03.cpp:125-127 | the decimal digits `%lu` prints: digit characters only, at least one, one below 10, two from 10 to 99 |
| FishPlant03.DigitsRead | fish_plant_03.cpp:125-127 | the printed digits of `n` read back as `n` |
| FishPlant03.Pad2 | fish_plant_03.cpp:125-127 | `%02lu` prints digit characters only, exactly two for values below 100 |
| FishPlant03.Pad2Read | fish_plant_03.cpp:125-127 | the zero-padded digits of `n` read back as `n` |
| FishPlant03.Clock | fish_plant_03.cpp:120-127 | the `mm:ss` of a time left within a phase is five characters with the colon in the middle |
| FishPlant03.ClockRead | fish_plant_03.cpp:120-127 | the printed minutes times 60 plus the printed seconds equal the whole seconds left |
| FishPlant03.Line | fish_plant_03.cpp:103-104 | the text of each control line: the relay lines (103-104), the pump switch lines (149, 165), the fail-safe line (217) and the remaining-time line (125-127). Every line but the fail-safe's opens with the bracketed stamp, and the remaining-time line ends with its `mm:ss` |
| FishPlant03.SensorLines | fish_plant_03.cpp:274-295 | four reading lines: the separator, the bracketed stamp, the DHT11 line, and the DS18B20 line, which is "[DS18B20] read fail" for a disconnected probe and the value line otherwise |
| FishPlant03.StatusText | fish_plant_03.cpp:312-335 | the status line opens with the bracketed stamp and shows the time left as its `mm:ss` after the readings and `PUMP_REM=` |
| FishPlant03.Texts | fish_plant_03.cpp:101-106 | one log line per control line |
| FishPlant03.TextsAppend | fish_plant_03.cpp:242-254 | the text of two runs of control lines is the text of the first followed by that of the second |
| FishPlant03.JoinSnoc | fish_plant_03.cpp:91-92 | appending a line adds its text and a newline to the full log |
| FishPlant03.AppendTrims | fish_plant_03.cpp:89-95 | if the buffer is the tail of the log, then after appendLog(s) it is the tail of the log with `s` added |
| FishPlant03.Controller.constructor | fish_plant_03.cpp:435-475 | all four relay pins are written LOW (off) and all outputs start off. The pump timer and minute gate start at their two `millis()` readings, so the pump rests with its full 15 min to go. The log holds "System start" then the AP address line, and the buffer invariant holds |
| FishPlant03.Controller.AppendLog | fish_plant_03.cpp:89-98 | the new buffer is Tail(old buffer + s + "\n"): a suffix of it, at most 12000 characters, all of it when it fits. The line is added to the log and the buffer stays the tail of the whole log |
| FishPlant03.Controller.Log | fish_plant_03.cpp:101-106 | a control line is appended as its text and recorded as its event |
| FishPlant03.Controller.HandlePump | fish_plant_03.cpp:133-180 | logs PumpEvents. On a flip, the phase changes, pumpTimer = lastPumpRemainLog = now, one pump write is made at the new phase's level, and the new phase has its full length left. Otherwise phase, timer and pins are unchanged, and the minute gate restarts iff it was open |
| FishPlant03.Controller.SwitchPump | fish_plant_03.cpp:142-168 | a flip sets the phase, starts its timer and the minute gate at `now`, and makes one pin write and one line |
| FishPlant03.Controller.LogRemain | fish_plant_03.cpp:171-179 | within a phase, logs the remaining-time line iff the minute gate is open, and then restarts the gate |
| FishPlant03.Controller.HandleLED | fish_plant_03.cpp:183-199 | the light follows LightOn; one pin write at its level and one relay line happen iff it changed |
| FishPlant03.Controller.HandleLEDTwice | fish_plant_03.cpp:183-199 | a second call at the same clock reading changes nothing and logs nothing: the log lines, the events and the pin writes are those of the first call alone |
| FishPlant03.Controller.HandleWaterControl | fish_plant_03.cpp:202-255 | outputs become WaterStep (never both on). The lines logged and the pins written are WaterEvents and WaterWrites at active-high levels |
| FishPlant03.Controller.ApplyOutputs | fish_plant_03.cpp:242-254 | outputs take the new values, with one pin write and one relay line per output that changed, heater first |
| FishPlant03.Controller.FailSafe | fish_plant_03.cpp:209-218 | both off, both pins written at the off level, one "abnormal" line |
| FishPlant03.Controller.SetHeater | fish_plant_03.cpp:244-246 | heater set, its pin written at the new level, its relay line logged |
| FishPlant03.Controller.SetFan | fish_plant_03.cpp:251-253 | fan set, its pin written at the new level, its relay line logged |
| FishPlant03.Controller.SetLed | fish_plant_03.cpp:195-197 | light set, its pin written at the new level, its relay line logged |
| FishPlant03.Controller.HandleSensorLog | fish_plant_03.cpp:258-298 | under 5 s since the last reading, nothing changes. Otherwise the gate restarts at `now`, the four reading lines are logged, and handleWaterControl runs on the reading |
| FishPlant03.Controller.HandleStatusLine | fish_plant_03.cpp:301-338 | under 5 s since the last status line nothing changes. Otherwise the gate restarts at `now` and one status line is appended, with getPumpRemainMs at its own clock reading and the current four outputs |
| FishPlant03.Controller.LogReadings | fish_plant_03.cpp:274-295 | logs the separator, the time line, the DHT11 line, and the DS18B20 line or its failure line on a disconnected probe |
| FishPlant03.Controller.LogHeader | fish_plant_03.cpp:274-275 | logs the separator and the time line |
| FishPlant03.Controller.LogSensors | fish_plant_03.cpp:277-295 | logs the DHT11 line, then the DS18B20 line or "[DS18B20] read fail" |
| FishPlant02.Controller.constructor | fish_plant_02.cpp:356-393 | all four relay pins are written HIGH (off on this board) and all outputs are off. Pump timer and minute gate start at their `millis()` readings, so the pump rests with 15 min to go. No control line is logged yet |
| FishPlant02.Controller.HandlePump | fish_plant_02.cpp:119-175 | prints PumpEvents. A flip resets pumpTimer and lastPumpRemainLog to `now` and writes the pump HIGH when stopping, LOW when starting. Otherwise nothing else changes and the minute gate restarts iff it was open |
| FishPlant02.Controller.HandleLED | fish_plant_02.cpp:178-194 | the light follows LightOn; on a change only, one pin write (LOW for on) and one relay line |
| FishPlant02.Controller.HandleWaterControl | fish_plant_02.cpp:197-253 | outputs become WaterStep (never both on). The lines printed and the writes are WaterEvents and WaterWrites at active-low levels |
| FishPlant02.Controller.HandleSensorLog | fish_plant_02.cpp:256-298 | under 5 s since the last reading nothing changes; otherwise the gate restarts at `now` and handleWaterControl runs |
| FishPlant02.Controller.HandleStatusLine | fish_plant_02.cpp:301-305 | the status gate restarts at `now` iff 5 s have passed since it last did |
| FishPlant02.Controller.Tick | fish_plant_02.cpp:396-402 | one pass of the four handlers, giving the whole new state. The pump flips iff its phase is over, and then its timer and minute gate move to the pump's `now`; otherwise the minute gate moves iff it was open. The light follows LightOn. The sensor gate moves and the outputs take WaterStep iff 5 s have passed, and the status gate moves iff its 5 s have passed. The lines and the pin writes are the pump's, then the light's, then the water control's |
| FishPlant02.Controller.LightSensorsStatus | fish_plant_02.cpp:399-401 | handleLED, handleSensorLog and handleStatusLine in turn: the light follows LightOn, the sensor and status gates move iff due, and the lines and writes are the light's then the water control's |

## Left out

- WiFi access point, web server routes, the HTML page and the JSON status
  reply (fish_plant_03.cpp:341-432, 458-471) are network presentation. Only
  the minute/second split of `handleStatusApi` appears, as `Control.MinSec`.
- `stamp`: one time text stands for every `nowString()` call made in one
  handler call. The sketch reads the real-time clock again for each line
  (each `logRelay`, the sensor header line), so a second boundary crossed in
  the middle of a handler shows in the sketch's lines and not in the model's.
- The air temperature, humidity and water values shown in the status line
  (`lastAirTemp`, `lastHum`, `lastWaterTemp`) are formatted floats; the
  status line takes their text as `readings`, and the three globals are not
  modelled.
- fish_plant_03's `loop()` has no `Tick`. It runs the same four handlers in
  the same order as fish_plant_02's, after `server.handleClient()`. Each of
  its handlers is modelled with its full contract.
- Sensor and clock drivers (DHT11, DS18B20 over OneWire, the DS3231 real-time
  clock, `Wire`) are foreign library calls. Their results are parameters:
  `now`, `hour`/`minute`, the time text `stamp` and the water reading.
- Floating point: readings are `real`, with -127.0 for "disconnected". NaN and
  the `isnan` checks on air temperature and humidity are not modelled. The
  DHT11 line and the DS18B20 value line hold formatted floats and come in as
  text (`dhtLine`, `waterLine`).
- The text of fish_plant_02's serial output is left out. Its control lines
  are recorded as events. Its other prints (the reading lines, the status
  line, "System start", the "[RTC] begin FAIL" diagnostic at
  fish_plant_02.cpp:378-381) have no control effect; of `handleStatusLine`
  only its gate is modelled.
- `pinMode`, `Serial.begin` and the `Serial` echo in fish_plant_03's
  `appendLog` are hardware effects; pin writes appear only as the ghost
  `writes` record.
- The access point's address comes into the fish_plant_03 constructor as text.
- The pump remain check inside `handlePump` (`elapsed < targetTime`) is always
  true on the path that reaches it, because the phase test just failed.
  `Control.PumpEvents` shows the logged value is therefore never 0.
