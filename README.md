# Greenhouse LED and ThingSpeak controller, modelled in Dafny

The repository is a set of Raspberry Pi scripts. Each one polls push buttons on
wiringPi pins, reads a BMP280 climate sensor and a BH1750 light sensor, drives
an LED pin and exchanges field values with a ThingSpeak channel. Values go out
as MQTT publishes, as HTTP `update` pushes, and come back as fetches of the last
feed entry. This project models the control loop of seven of those scripts,
one Dafny module each:

- `T11` (t11.py): three buttons step the lux goal by 20 within [0, 1000] and
  toggle a manual LED status. Every 15 s the last entry is merged into six
  globals. Every `interval` seconds a sample applies the "below 40 lux" rule
  and publishes.
- `T8` (t8.py): the buttons step a PWM brightness, but only in manual mode. In
  automatic mode every reading switches the LED, and only on a change of
  classification.
- `T7` (t7.py): two buttons step the brightness and push the matching goal to
  field5. One-shot notices are shown at the ends of the range.
- `T6` (t6.py): two buttons step the temperature goal and push it to field4. A
  toggle flips manual mode. The automatic rule compares lux with LUX_GOAL.
- `T4` (t4.py): like T6 without the toggle. Every press pushes the goal.
- `T2` (t2.py): the blocking loop that fetches the goal, drives the LED,
  publishes and sleeps.
- `Knop` (knop.py): the standalone button loop whose `action` lambdas push a
  value.

Shared modules:

- `Common`: pin levels, the event log, fetched values and responses, the
  `int(float(...))` conversion, timers and scalings.
- `Payload`: the `key=value&...&status=MQTTPUBLISH` payload, its decoder and
  the round trip between them.
- `Light`: the BH1750 bit assembly and the read-or-zero wrapper.
- `Edge`: edge detection over a whole trace of reads.

Every variant has the same three parts:

- A `datatype State` of the module globals.
- Pure phase functions. Each returns `After(st, out)`: the new globals and the
  events of that phase, in order. The events are LED writes, MQTT publishes,
  reconnects, HTTP pushes, notices and sleeps.
- A `class Controller`. Its fields are the globals, updated in place. Its
  methods are proved to equal the phase functions
  (`After(Snapshot(), events) == Step(old(Snapshot()), inputs)`). The
  `for pin in [...]` loop stays a `for` loop whose invariant is a left fold
  over the pins.

A publish event records the field list it sends. The bytes on the wire are
`Payload.Payload(fields)`, and `Payload.PayloadRoundTrip` shows that decoding
them gives the fields back, in order.

## Model

| member | source | states |
|---|---|---|
| Common.Pressed | t11.py:177 | definition: a press is a read of Low while the recorded level is High; its meaning over a trace is in `Edge.PressesAreFallingEdges` |
| Common.Due | t11.py:203 | definition: a timer fires once `now - last >= period`, the test every timed block makes; `T11.TimersGate` shows the timers reset exactly then |
| Common.Convert | t11.py:85-90 | `int(float(data.get(key, current)))`: fails exactly when the key is present with an unconvertible value; an absent key yields the current value; a numeric one yields that number |
| Common.FetchTemperatureGoal | t2.py:64-78 | the fetched field4 when the reply is a 200 carrying a convertible field4; the current goal in every other case (non-200, no reply, absent or unconvertible field4) |
| Common.PublishEvents | t11.py:163-167 | one publish attempt issues the publish first and, exactly when the transport raises, a single reconnect after it |
| Common.ScaleToPwm | t8.py:86 | `int((goal / 1000) * 100)` truncates toward zero: for a non-negative goal the result r satisfies 10r <= goal < 10r + 10, with the mirror bound for a negative goal |
| Common.ScaleToLux | t8.py:167 | a brightness scaled to lux-goal units scales back to the same brightness |
| Light.RawLux | t11.py:125-130 | the count assembled from the two sensor bytes is in 0..1023 and keeps only the low two bits of the high byte |
| Light.ReadOrZero | t8.py:134-143 | a read that raised yields 0; a successful read yields its value |
| Edge.Presses | t11.py:175-200 | the per-tick rule yields one press flag per read |
| Edge.FallingEdge | t11.py:177 | the independent reference: the level before read i is High and read i is Low; `Edge.PressesAreFallingEdges` equates it with the press flags |
| Edge.FallingEdgeCount | t11.py:175-200 | the independent reference count of High-to-Low transitions in a trace; `Edge.OnePressPerFallingEdge` equates it with the press count |
| Edge.PressesAreFallingEdges | t11.py:175-200 | a press fires at read i if and only if the pin goes from High to Low between read i-1 and read i |
| Edge.NoPressWhileHeldOrReleased | t11.py:177 | holding a button Low, or reading it High, never fires a press |
| Edge.OnePressPerFallingEdge | t11.py:175-200 | over any trace, the number of presses equals the number of High-to-Low transitions |
| Edge.HeldButtonFiresOnce | t11.py:177-200 | a button pressed and held Low for any number of ticks fires exactly one press |
| Edge.HeldLowHasNoEdge | t11.py:177 | a trace that stays Low has no falling edge |
| Payload.Digit | t11.py:152-160 | each decimal digit value maps to a digit character |
| Payload.NatToString | t11.py:152-160 | str() of a natural number is non-empty and all digits |
| Payload.IntToString | t11.py:152-160 | str() of an integer never contains the `&` or `=` separators |
| Payload.ParseNatToString | t11.py:152-160 | reading back the decimal text of a natural number gives the number |
| Payload.IntToStringRoundTrip | t11.py:152-160 | reading back str() of any integer, negative ones included, gives the integer |
| Payload.IndexOf | t11.py:152-160 | the index of the first occurrence of a character, or the length when there is none |
| Payload.Split | t11.py:152-160 | splitting on `&` yields at least one segment |
| Payload.SplitAfterFirst | t11.py:152-160 | splitting a text whose first segment has no separator yields that segment followed by the split of the rest |
| Payload.EncodeField | t11.py:153-158 | a `key=value` segment with a valid key contains no `&` |
| Payload.EncodeFields | t11.py:153-158 | one segment per field |
| Payload.DecodeEncodeField | t11.py:153-158 | a `key=value` segment decodes back to its key and value |
| Payload.DecodeEncodeFields | t11.py:153-158 | the segments of a field list decode back to the same list, in order |
| Payload.Payload | t11.py:152-160 | definition: each field as `key=str(value)` followed by `&`, then `status=MQTTPUBLISH`; its meaning is in `Payload.PayloadRoundTrip` |
| Payload.Decode | t11.py:152-160 | definition: a reference reader of this format, splitting on `&`, requiring the trailing sentinel and reading each `key=value` segment; `Payload.PayloadRoundTrip` shows it inverts `Payload.Payload` |
| Payload.SplitPayload | t11.py:152-160 | splitting the payload on `&` yields exactly the field segments followed by `status=MQTTPUBLISH` |
| Payload.PayloadRoundTrip | t11.py:152-160 | the payload decodes back to exactly the fields it was built from, in field order |
| T11.Defaults | t11.py:51-65 | the start-up globals record all three buttons |
| T11.Fields | t11.py:152-158 | definition: the six globals in payload order field1 .. field6; `T11.PayloadCarriesSixFields` states what the payload carries |
| T11.PayloadOf | t11.py:151-160 | definition: send_data_to_thingspeak's MQTT_DATA, the payload of the six globals; stated by `T11.PayloadCarriesSixFields` |
| T11.Fetch | t11.py:75-118 | definition: fetch_last_entry, the six globals overwritten field1 first, stopping at the first value whose conversion raises; its meaning is in `T11.FetchMerge`, `T11.FetchKeepsControlState` and `T11.FetchFailureKeepsEverything` |
| T11.Initial | t11.py:120-148 | the loop starts from the defaults after the initial fetch, with LED_BRIGHTNESS reset to 100; all three buttons are recorded |
| T11.Press | t11.py:177-198 | a press never touches the recorded button levels |
| T11.OnPin | t11.py:176-200 | one pass of the loop body keeps all three buttons recorded |
| T11.Poll | t11.py:175-200 | the button loop keeps all three buttons recorded |
| T11.FetchPhase | t11.py:203-209 | definition: every 15 s the fetch, then in automatic mode brightness := LUX_GOAL and a write; `T11.FetchSetsBrightnessToGoal` and `T11.TimersGate` state it |
| T11.AutoRule | t11.py:217-223 | definition: in automatic mode write the brightness below 40 lux and 0 otherwise, nothing in manual mode; stated by `T11.SampleAppliesDarkRule` |
| T11.SamplePhase | t11.py:212-231 | definition: every `interval` take the readings, apply the automatic rule, publish and reset the timer; stated by `T11.SampleAppliesDarkRule` and `T11.TimersGate` |
| T11.Step | t11.py:173-233 | one iteration of the main loop keeps all three buttons recorded |
| T11.StepComposes | t11.py:173-233 | an iteration is the button loop, then the fetch block, then the sample block, with their events in that order |
| T11.FieldsValid | t11.py:152-160 | the six field names are valid payload keys |
| T11.PayloadCarriesSixFields | t11.py:151-160 | the published payload decodes to temperature, temperature goal, lux, brightness, lux goal and pressure as field1..field6 |
| T11.PollTouchesOnlyButtonState | t11.py:175-200 | the button loop changes only LUX_GOAL, the two manual flags and the recorded levels |
| T11.OnPinTouchesOnlyButtonState | t11.py:176-200 | one pass changes only LUX_GOAL, the two manual flags and the recorded levels |
| T11.OnPinIgnoresTransport | t11.py:163-200 | the globals after one pass do not depend on whether the publish raised |
| T11.PollRecordsEveryRead | t11.py:175-200 | after the first n passes each of those pins records this tick's read and every later pin keeps its old level |
| T11.OnPinRecordsRead | t11.py:200 | a pass overwrites exactly the polled pin's recorded level with its read |
| T11.NoEdgeNoEffect | t11.py:175-200 | when no pin has a falling edge the loop issues nothing and changes nothing but the three recorded levels, which become this tick's reads |
| T11.OnPinWithoutEdge | t11.py:176-200 | a pass without a falling edge only records the read |
| T11.PollKeepsLuxGoalInRange | t11.py:178-185 | LUX_GOAL stays within [0, 1000] through any button loop |
| T11.StepPressPublishes | t11.py:178-185 | decrement and increment move LUX_GOAL by 20, clamped to 0 and 1000, change nothing else, and publish the new globals at once |
| T11.ToggleCouplesOverrideToStatus | t11.py:186-198 | a toggle flips the status, sets the override to its negation, changes nothing else, and writes the brightness or 0 |
| T11.ToggleTwiceRestores | t11.py:186-198 | once the override is the negation of the status, two toggles restore both |
| T11.ToggleTwiceFromStartEndsManual | t11.py:57-58 | from the start-up flags (automatic, status off) two toggles end in manual mode |
| T11.FirstMalformedFrom | t11.py:85-90 | the first fetched key from position i onward whose conversion raises, or 6 |
| T11.FirstMalformed | t11.py:85-90 | the first fetched key whose conversion raises, or 6; no earlier key raises |
| T11.FetchMerge | t11.py:79-90 | each global before the first unconvertible field takes the fetched value (or keeps its own when absent); that field and all later ones keep their globals |
| T11.FetchKeepsControlState | t11.py:75-90 | the fetch writes only the six measured globals; flags, recorded levels and timers are never changed |
| T11.FetchFailureKeepsEverything | t11.py:115-118 | a non-200 reply or a request that raised changes nothing |
| T11.FetchOnlyLuxGoal | t11.py:85-90 | a reply carrying only field5 replaces LUX_GOAL alone |
| T11.FetchSetsBrightnessToGoal | t11.py:203-209 | a due fetch in automatic mode sets the brightness to LUX_GOAL without clamping and writes it to the LED; in manual mode it keeps the merged brightness and writes nothing; the fetch timer resets either way |
| T11.FirstFetchWritesTwoHundred | t11.py:203-209 | with no reply the first due fetch writes the start-up LUX_GOAL of 200 to the PWM pin, outside the pin's 0..100 range |
| T11.SampleAppliesDarkRule | t11.py:212-231 | a due sample in automatic mode writes the brightness below 40 lux and 0 otherwise; in manual mode it writes nothing before the publish; then it publishes the six globals with the sampled temperature, pressure and lux (`Fields`), with a reconnect after a failure; the brightness itself is unchanged |
| T11.TimersGate | t11.py:202-231 | the fetch timer resets exactly when 15 s have elapsed and the publish timer exactly when `interval` has |
| T11.PollIgnoresTransport | t11.py:163-200 | the globals after the button loop do not depend on whether publishes raise |
| T11.PublishFailureChangesNoState | t11.py:163-167 | a failed publish only adds a reconnect: an iteration leaves the same globals either way |
| T11.Controller.constructor | t11.py:50-148 | start-up sets the defaults, runs the initial fetch and sets LED_BRIGHTNESS to 100 |
| T11.Controller.FetchLastEntry | t11.py:75-118 | fetch_last_entry updates the globals in place exactly as the merge specifies |
| T11.Controller.SendData | t11.py:151-167 | send_data_to_thingspeak publishes the current six globals and reconnects on failure |
| T11.Controller.HandlePress | t11.py:178-198 | the press branch updates the globals and issues events exactly as a press specifies |
| T11.Controller.OnButton | t11.py:176-200 | one pass of the loop body, in place, equals one pin step |
| T11.Controller.PollButtons | t11.py:175-200 | the `for pin` loop, in place, equals the button loop in pin order |
| T11.Controller.FetchIfDue | t11.py:203-209 | the fetch block, in place, equals the fetch phase |
| T11.Controller.SampleIfDue | t11.py:212-231 | the sample block, in place, equals the sample phase |
| T11.Controller.Tick | t11.py:173-233 | one iteration of `while True`, in place, equals one loop step: same globals, same events in the same order |
| T8.Defaults | t8.py:53-67 | the start-up globals record all three buttons from their actual reads |
| T8.Start | t8.py:77-118 | the loop starts after the initial fetch with all three buttons recorded |
| T8.Fetch | t8.py:77-114 | definition: fetch_last_entry, LED_LUX_GOAL from field5 and the brightness as its truncated tenth, written to the LED; stated by `T8.FetchScalesGoalToBrightness` |
| T8.Press | t8.py:163-183 | a press never touches the recorded levels or the remembered LED state |
| T8.OnPin | t8.py:162-184 | one pass keeps all three buttons recorded |
| T8.Poll | t8.py:161-184 | the button loop keeps all three buttons recorded |
| T8.AutoPhase | t8.py:187-192 | definition: in automatic mode classify the reading, write 100 or 0 only on a change and remember the class; stated by `T8.AutoRuleWritesFullDuty`, `T8.AutoRuleIdempotent` and `T8.AutoRunWritesOncePerChange` |
| T8.Fields | t8.py:209-210 | definition: the five published fields, field6 = 1 iff the brightness is positive; stated by `T8.PayloadCarriesFiveFields` |
| T8.PayloadOf | t8.py:209-210 | definition: the published MQTT_DATA string; stated by `T8.PayloadCarriesFiveFields` |
| T8.PublishPhase | t8.py:195-217 | definition: every `interval` publish the readings and the goal and reset the timer; stated by `T8.PublishGate` |
| T8.PollRecordsEveryRead | t8.py:161-184 | after the first n passes each of those pins records this tick's read and every later pin keeps its old level |
| T8.OnPinRecordsRead | t8.py:184 | a pass overwrites exactly the polled pin's recorded level with its read |
| T8.NoEdgeNoEffect | t8.py:161-184 | when no pin has a falling edge the loop issues nothing and changes nothing but the three recorded levels, which become this tick's reads |
| T8.OnPinWithoutEdge | t8.py:162-184 | a pass without a falling edge only records the read |
| T8.Step | t8.py:156-219 | one iteration keeps all three buttons recorded |
| T8.StartRecordsActualLevels | t8.py:53-67 | start-up records each button's actual level and starts in automatic mode with no remembered LED state |
| T8.FetchScalesGoalToBrightness | t8.py:83-87 | a convertible field5 (or the kept goal when field5 is absent) sets the goal and the brightness as its truncated tenth, which is written to the LED; any other reply changes and writes nothing |
| T8.StartBrightness | t8.py:53-87 | without a reply the brightness stays 50; an empty 200 reply rescales the goal of 100 to 10 and writes it |
| T8.StepButtonsNeedOverride | t8.py:164-175 | in automatic mode the step buttons change nothing and write nothing |
| T8.StepPressCouplesGoal | t8.py:164-175 | in manual mode a step inside the range moves the brightness by 20 within [0, 100], sets the goal to brightness * 10 and writes the brightness; at the end of the range it is a no-op |
| T8.PressKeepsBrightnessInRange | t8.py:164-175 | a press keeps the brightness within [0, 100] |
| T8.PollKeepsBrightnessInRange | t8.py:161-184 | the button loop keeps the brightness within [0, 100] |
| T8.ToggleTwiceRestores | t8.py:176-183 | two toggles restore every global; entering manual writes 0, leaving it writes the brightness |
| T8.AutoRuleIdempotent | t8.py:187-192 | the automatic rule applied again to the same reading writes nothing |
| T8.AutoRuleWritesFullDuty | t8.py:187-192 | in automatic mode the rule remembers the classification and writes nothing or 100/0, never the manual brightness; in manual mode it does nothing |
| T8.FailedReadTurnsLedOn | t8.py:158-191 | a light read that raised counts as 0 lux, so in automatic mode the LED is switched fully on |
| T8.ResumeKeepsManualBrightness | t8.py:176-192 | leaving manual mode writes the manual brightness; with the classification unchanged, the automatic rule then writes nothing |
| T8.AutoRunWritesOncePerChange | t8.py:187-192 | over successive readings the LED is written exactly once per change of dark/bright classification |
| T8.ThreeWritesForFourReadings | t8.py:187-192 | readings 60, 30, 30, 60 from start-up write 0, 100, 0 |
| T8.FieldsValid | t8.py:209-210 | the five field names are valid payload keys |
| T8.PayloadCarriesFiveFields | t8.py:209-210 | the payload decodes to field1, field2, field3, field5 and field6 = 1 exactly when the brightness is positive, with no field4 |
| T8.PublishGate | t8.py:195-217 | a publish happens exactly when `interval` has elapsed; it sends the readings, the goal and field6 = [brightness > 0] (`Fields`), with a reconnect after a failure; it resets the timer and changes nothing else |
| T8.PublishFailureChangesNoState | t8.py:211-215 | a failed publish leaves the same globals as a successful one |
| T8.Controller.constructor | t8.py:52-67 | start-up sets the defaults and records the buttons' actual levels |
| T8.Controller.FetchLastEntry | t8.py:77-114 | fetch_last_entry, in place, equals the fetch |
| T8.Controller.OnButton | t8.py:162-184 | one pass of the loop body, in place, equals one pin step |
| T8.Controller.PollButtons | t8.py:161-184 | the `for pin` loop, in place, equals the button loop |
| T8.Controller.AutoControl | t8.py:187-192 | the automatic-control block, in place, equals the automatic rule |
| T8.Controller.PublishIfDue | t8.py:195-217 | the publish block, in place, equals the publish phase |
| T8.Controller.Tick | t8.py:156-219 | one iteration of `while True`, in place, equals one loop step |
| T7.Defaults | t7.py:49-64 | the start-up globals record both buttons |
| T7.Fetch | t7.py:74-98 | definition: fetch_last_entry, LUX_GOAL from field5 and the brightness as its truncated tenth, written to the LED; stated by `T7.FetchScalesGoalToBrightness` |
| T7.Adjust | t7.py:147-164 | definition: a step that moves the brightness by 20 within [0, 100], rescales the goal, pushes it to field5 and clears both flags; no change at the ends; stated by `T7.AdjustmentPushesGoal` and `T7.PressAtLimitIsNoop` |
| T7.Press | t7.py:146-169 | a press never touches the recorded levels |
| T7.OnPin | t7.py:145-171 | one pass keeps both buttons recorded |
| T7.Poll | t7.py:144-171 | the button loop keeps both buttons recorded |
| T7.NoticePhase | t7.py:174-184 | definition: the LED-state check with its two flags; stated by `T7.NoticeConditions` and `T7.NoticeSettles` |
| T7.NoticeRun | t7.py:142-184 | definition: the LED-state check on successive ticks over which nothing else changes; stated by `T7.NoticeShownAtMostOnce` |
| T7.Fields | t7.py:197-198 | definition: the six published fields with field4 = 0 and field6 = the brightness; stated by `T7.PayloadCarriesSixFields` |
| T7.PayloadOf | t7.py:197-198 | definition: the published MQTT_DATA string; stated by `T7.PayloadCarriesSixFields` |
| T7.PublishPhase | t7.py:187-206 | definition: every `interval` read the sensors, the light read or 0, publish and reset the timer; stated by `T7.PublishGate` |
| T7.PollRecordsEveryRead | t7.py:144-171 | after the first n passes each of those pins records this tick's read and every later pin keeps its old level |
| T7.OnPinRecordsRead | t7.py:171 | a pass overwrites exactly the polled pin's recorded level with its read |
| T7.NoEdgeNoEffect | t7.py:144-171 | when no pin has a falling edge the loop issues nothing and changes nothing but the two recorded levels, which become this tick's reads |
| T7.OnPinWithoutEdge | t7.py:145-171 | a pass without a falling edge only records the read |
| T7.Step | t7.py:142-208 | one iteration keeps both buttons recorded |
| T7.FetchScalesGoalToBrightness | t7.py:80-84 | a convertible field5 (or the kept goal) sets the goal and the brightness as its truncated tenth and writes it; otherwise nothing changes, and from start-up the LED stays at 0 |
| T7.EveryPressWritesLed | t7.py:168-169 | every press ends by writing the current brightness to the LED, changed or not |
| T7.PressAtLimitIsNoop | t7.py:147-169 | decrement at 0 and increment at 100 or above change nothing and only rewrite the LED |
| T7.AdjustmentPushesGoal | t7.py:150-164 | a step inside the range moves the brightness by 20 within [0, 100], sets the goal to brightness * 10, pushes it to field5 before the LED write, and clears both notice flags |
| T7.PressKeepsBrightnessInRange | t7.py:147-166 | a press keeps the brightness within [0, 100] |
| T7.PollKeepsBrightnessInRange | t7.py:144-171 | the button loop keeps the brightness within [0, 100] |
| T7.NoticeConditions | t7.py:174-184 | the "out" notice appears exactly when brightness and goal are 0 and it was not yet shown; the "maximum" notice exactly when brightness is 100 (and not out) and it was not yet shown; showing a notice sets its flag; away from both extremes both flags are cleared; at most one notice per tick; only the flags change |
| T7.NoticeSettles | t7.py:174-184 | a second check right after the first shows nothing and changes nothing |
| T7.NoticeRunAtFixpoint | t7.py:174-184 | at a settled state any number of checks shows nothing |
| T7.NoticeShownAtMostOnce | t7.py:174-184 | however many ticks the brightness stays put, at most one notice is shown |
| T7.MaximumNoticeReappears | t7.py:178-184 | after the maximum notice, a tick at a middle brightness shows nothing and clears the flag, so a return to 100 shows the notice again |
| T7.FieldsValid | t7.py:197-198 | the six field names are valid payload keys |
| T7.PayloadCarriesSixFields | t7.py:197-198 | the payload decodes to the readings, field4 = 0, the goal and field6 = the brightness |
| T7.PublishGate | t7.py:187-206 | for any light read, a publish happens exactly when `interval` has elapsed; it sends the readings with the light read or 0 (`Fields`), with a reconnect after a failure; it resets the timer and changes nothing else; a failed light read is published as 0 |
| T7.PublishFailureChangesNoState | t7.py:200-204 | a failed publish leaves the same globals as a successful one |
| T7.Controller.constructor | t7.py:49-64 | start-up sets the defaults |
| T7.Controller.FetchLastEntry | t7.py:74-98 | fetch_last_entry, in place, equals the fetch |
| T7.Controller.OnButton | t7.py:145-171 | one pass of the loop body, in place, equals one pin step |
| T7.Controller.PollButtons | t7.py:144-171 | the `for pin` loop, in place, equals the button loop |
| T7.Controller.ShowNotices | t7.py:173-184 | the LED-state check, in place, equals the notice phase |
| T7.Controller.PublishIfDue | t7.py:186-206 | the publish block, in place, equals the publish phase |
| T7.Controller.Tick | t7.py:142-208 | one iteration of `while True`, in place, equals one loop step |
| T6.Defaults | t6.py:50-61 | the start-up globals record all three buttons |
| T6.Initial | t6.py:105-107 | the loop starts after the initial fetch with all three buttons recorded |
| T6.Fetch | t6.py:71-103 | definition: fetch_last_entry, field4 then field5, stopping at a value whose conversion raises; stated by `T6.FetchMergesGoals` |
| T6.Press | t6.py:147-160 | a press never touches the recorded levels |
| T6.OnPin | t6.py:146-162 | one pass keeps all three buttons recorded |
| T6.Poll | t6.py:145-162 | the button loop keeps all three buttons recorded |
| T6.AutoRule | t6.py:169-178 | definition: in automatic mode the LED and its status follow lux < LUX_GOAL; stated by `T6.SampleDrivesStatus` |
| T6.Fields | t6.py:186-187 | definition: the readings, both goals and field6 = 1 iff the status is on; stated by `T6.PayloadCarriesSixFields` |
| T6.PayloadOf | t6.py:186-187 | definition: the published MQTT_DATA string; stated by `T6.PayloadCarriesSixFields` |
| T6.SamplePhase | t6.py:165-195 | definition: every `interval` sample, apply the automatic rule, publish and reset the timer; stated by `T6.SampleDrivesStatus` and `T6.SampleWaitsForInterval` |
| T6.PollRecordsEveryRead | t6.py:145-162 | after the first n passes each of those pins records this tick's read and every later pin keeps its old level |
| T6.OnPinRecordsRead | t6.py:162 | a pass overwrites exactly the polled pin's recorded level with its read |
| T6.NoEdgeNoEffect | t6.py:145-162 | when no pin has a falling edge the loop issues nothing and changes nothing but the three recorded levels, which become this tick's reads |
| T6.OnPinWithoutEdge | t6.py:146-162 | a pass without a falling edge only records the read |
| T6.Step | t6.py:143-197 | one iteration keeps all three buttons recorded |
| T6.FetchMergesGoals | t6.py:77-80 | field4 then field5, each replacing its goal when present and keeping it when absent; a malformed field4 stops before field5; a failed fetch changes nothing; nothing but the two goals ever changes |
| T6.StepPressPushesGoal | t6.py:148-155 | decrement and increment move the goal by one, never below 0, and push the new goal to field4 |
| T6.PressKeepsGoalNonNegative | t6.py:148-155 | a press keeps a non-negative goal non-negative |
| T6.PollKeepsGoals | t6.py:145-162 | the button loop keeps the goal non-negative and never touches LUX_GOAL |
| T6.ToggleTwiceRestores | t6.py:156-160 | a toggle flips both flags and drives the pin to the new status; two toggles restore both |
| T6.SampleDrivesStatus | t6.py:165-195 | a due sample in automatic mode sets the status to lux < LUX_GOAL and writes it before the publish; in manual mode only the publish is issued |
| T6.SampleWaitsForInterval | t6.py:165 | before `interval` has elapsed nothing is sampled, written or published |
| T6.FieldsValid | t6.py:186-187 | the six field names are valid payload keys |
| T6.PayloadCarriesSixFields | t6.py:186-187 | the payload decodes to the readings, both goals and the status as 1 or 0 |
| T6.PublishFailureChangesNoState | t6.py:189-193 | a failed publish leaves the same globals as a successful one |
| T6.Controller.constructor | t6.py:50-107 | start-up sets the defaults and runs the initial fetch |
| T6.Controller.FetchLastEntry | t6.py:71-103 | fetch_last_entry, in place, equals the fetch |
| T6.Controller.OnButton | t6.py:146-162 | one pass of the loop body, in place, equals one pin step |
| T6.Controller.PollButtons | t6.py:145-162 | the `for pin` loop, in place, equals the button loop |
| T6.Controller.SampleIfDue | t6.py:165-195 | the sample block, in place, equals the sample phase |
| T6.Controller.Tick | t6.py:143-197 | one iteration of `while True`, in place, equals one loop step |
| T4.Defaults | t4.py:49-58 | the start-up globals record both buttons |
| T4.Adjust | t4.py:120-126 | definition: decrement floors at 0, increment is uncapped; stated by `T4.EveryPressPushesGoal` |
| T4.Press | t4.py:120-129 | a press never touches the recorded levels |
| T4.OnPin | t4.py:119-130 | one pass keeps both buttons recorded |
| T4.Poll | t4.py:118-130 | the button loop keeps both buttons recorded |
| T4.Fields | t4.py:153-154 | definition: the readings, both goals and led_status; stated by `T4.PayloadCarriesSixFields` |
| T4.PayloadOf | t4.py:153-154 | definition: the published MQTT_DATA string; stated by `T4.PayloadCarriesSixFields` |
| T4.SamplePhase | t4.py:133-162 | definition: every `interval` drive the LED from lux < LUX_GOAL, publish and reset the timer; stated by `T4.LedStatusFollowsLux` and `T4.SampleWaitsForInterval` |
| T4.PollRecordsEveryRead | t4.py:118-130 | after the first n passes each of those pins records this tick's read and every later pin keeps its old level |
| T4.OnPinRecordsRead | t4.py:130 | a pass overwrites exactly the polled pin's recorded level with its read |
| T4.NoEdgeNoEffect | t4.py:118-130 | when no pin has a falling edge the loop issues nothing and changes nothing but the two recorded levels, which become this tick's reads |
| T4.OnPinWithoutEdge | t4.py:119-130 | a pass without a falling edge only records the read |
| T4.Step | t4.py:116-164 | one iteration keeps both buttons recorded |
| T4.EveryPressPushesGoal | t4.py:120-129 | every press pushes the goal it leaves to field4; decrement floors at 0, increment has no cap; nothing else changes |
| T4.PollKeepsGoals | t4.py:118-130 | the button loop keeps the goal non-negative and never touches LUX_GOAL |
| T4.LuxGoalNeverModified | t4.py:116-164 | an iteration never changes LUX_GOAL and keeps the goal non-negative |
| T4.LedStatusFollowsLux | t4.py:138-154 | a due sample drives the LED HIGH exactly when lux < LUX_GOAL and publishes led_status 1 or 0 to match |
| T4.SampleWaitsForInterval | t4.py:133 | before `interval` has elapsed nothing is written or published |
| T4.FieldsValid | t4.py:153-154 | the six field names are valid payload keys |
| T4.PayloadCarriesSixFields | t4.py:153-154 | the payload decodes to the readings, both goals and led_status |
| T4.PublishFailureChangesNoState | t4.py:156-160 | a failed publish leaves the same globals as a successful one |
| T4.Controller.constructor | t4.py:49-58 | start-up sets the defaults |
| T4.Controller.OnButton | t4.py:119-130 | one pass of the loop body, in place, equals one pin step |
| T4.Controller.PollButtons | t4.py:118-130 | the `for pin` loop, in place, equals the button loop |
| T4.Controller.SampleIfDue | t4.py:133-162 | the sample block, in place, equals the sample phase |
| T4.Controller.Tick | t4.py:116-164 | one iteration of `while True`, in place, equals one loop step |
| T2.Defaults | t2.py:39 | definition: TEMPERATURE_GOAL starts at 25 |
| T2.Fields | t2.py:120-121 | definition: the readings, the goal, LUX_GOAL = 100 and led_status; stated by `T2.PayloadCarriesSixFields` |
| T2.PayloadOf | t2.py:120-121 | definition: the published MQTT_DATA string; stated by `T2.PayloadCarriesSixFields` |
| T2.Step | t2.py:94-130 | definition: one iteration, the goal fetched, the LED driven from lux < 100, the publish, then the sleep or the reconnect; stated by `T2.LedStatusFollowsLux` and `T2.FailedPublishSkipsSleep` |
| T2.Run | t2.py:94-130 | definition: successive iterations, the last applied last; stated by `T2.GoalIsLastFetched` |
| T2.LastFetchedGoal | t2.py:64-78 | the independent reference: the field4 of the most recent reply that carried a convertible one, or the starting goal; `T2.GoalIsLastFetched` equates it with the loop |
| T2.GoalIsLastFetched | t2.py:103 | after any run the goal is the field4 of the most recent reply that carried a convertible one, or the starting goal if none did |
| T2.LedStatusFollowsLux | t2.py:105-121 | the LED is driven HIGH exactly when lux < 100, and the payload reports led_status 1 exactly then, with the goal just fetched |
| T2.FailedPublishSkipsSleep | t2.py:125-130 | a successful publish is followed by the sleep, a failed one by a reconnect and no sleep |
| T2.FieldsValid | t2.py:120-121 | the six field names are valid payload keys |
| T2.PayloadCarriesSixFields | t2.py:120-121 | the payload decodes to the readings, the goal, LUX_GOAL = 100 and led_status |
| T2.Controller.constructor | t2.py:39 | start-up sets the goal to 25 |
| T2.Controller.FetchGoal | t2.py:103 | the global becomes the fetched goal |
| T2.Controller.Iterate | t2.py:94-130 | one iteration of `while True`, in place, equals one loop step |
| Knop.Defaults | knop.py:21-27 | the start-up globals record both buttons |
| Knop.Adjust | knop.py:55-60 | definition: decrement floors at 0, increment is uncapped; stated by `Knop.LateBindingPushesOneStepAhead` |
| Knop.Action | knop.py:49-50 | definition: the value each lambda passes to update_temperature_goal, from the global as it stands when called; stated by `Knop.LateBindingPushesOneStepAhead` |
| Knop.PressAsWritten | knop.py:48-61 | a press as written never touches the recorded levels |
| Knop.Press | knop.py:55-61 | the corrected press never touches the recorded levels and pushes exactly the goal it leaves |
| Knop.OnPin | knop.py:52-62 | one pass runs the press as written on a falling edge and keeps both buttons recorded |
| Knop.Poll | knop.py:48-62 | the button loop keeps both buttons recorded |
| Knop.LateBindingPushesOneStepAhead | knop.py:48-61 | as written, increment stores g + 1 but pushes g + 2 and decrement stores max(0, g - 1) but pushes max(0, g - 2): the pushed value differs from the stored goal |
| Knop.IncrementFromStartPushes27 | knop.py:21-61 | as written, from the start-up goal of 25 one increment stores 26 and pushes 27 |
| Knop.PressKeepsGoalNonNegative | knop.py:49-61 | both presses keep a non-negative goal non-negative, and the value the lambdas push is a non-negative push to field4 |
| Knop.PollPushesOnlyGoalField | knop.py:48-62 | through the loop as written the goal stays non-negative, at most one push is made per pin, and every event is a non-negative push to field4 |
| Knop.PollRecordsEveryRead | knop.py:48-62 | after the first n passes each of those pins records this tick's read and every later pin keeps its old level |
| Knop.OnPinRecordsRead | knop.py:53-62 | a pass overwrites exactly the polled pin's recorded level and pushes once exactly when its read is a falling edge |
| Knop.NoEdgeNoEffect | knop.py:48-62 | when neither pin has a falling edge the iteration pushes nothing and changes nothing but the two recorded levels |
| Knop.OnPinWithoutEdge | knop.py:52-62 | a pass without a falling edge only records the read |
| Knop.PollPushCount | knop.py:48-62 | one iteration pushes once for each pin whose read is a falling edge |
| Knop.Reads | knop.py:52 | the reads of one pin over successive iterations, one per iteration |
| Knop.Run | knop.py:47-63 | successive iterations keep both buttons recorded |
| Knop.PushesMatchFallingEdges | knop.py:47-63 | over any run, the number of pushes equals the presses the per-pin edge rule (`Edge.Presses`) fires on the two buttons, and so the number of High-to-Low transitions |
| Knop.PressesStep | knop.py:53 | the press count of a trace is its first flag plus the count from that read on |
| Knop.IntendedPushesStoredGoal | knop.py:55-61 | the corrected press stores the same goal as the press as written and pushes exactly that goal |
| Knop.Controller.constructor | knop.py:21-27 | start-up sets the goal to 25 and both buttons High |
| Knop.Controller.OnButton | knop.py:49-62 | one pass of the loop body, moving the goal and then running the pin's action on the moved goal, in place, equals one pin step as written |
| Knop.Controller.Tick | knop.py:47-63 | one iteration of `while True`, in place, equals the button loop as written |

## Code over description

Some properties one might expect of these scripts do not hold of the code.
The model follows the code and states what it does instead:

- One might expect a failed fetch to leave every value untouched. In t11.py
  and t6.py, a value whose `int(float(...))` raises mid-merge leaves the
  globals already assigned at their new values (`T11.FetchMerge`,
  `T6.FetchMergesGoals`).
- One might expect two toggles to restore the mode. In t11.py this holds only
  once the override is the negation of the status. From the start-up flags,
  two toggles end in manual mode (`T11.ToggleTwiceFromStartEndsManual`).
- One might expect the automatic rule in t8.py to switch to the manual
  brightness. It writes 100 on ON. `previous_led_state` starts as None, so
  the first reading always writes the LED.
- Leaving manual mode in t8.py writes the manual brightness. That value then
  stands until the classification changes (`T8.ResumeKeepsManualBrightness`).

## Left out

- Hardware and network I/O are left out: wiringPi setup, the BMP280 and BH1750
  buses, HTTP requests, the MQTT client and its callbacks. Pin reads, sensor
  readings, fetch replies and the publish outcome are inputs; LED writes,
  publishes, reconnects and pushes are events.
- `print` output other than the two LED-state notices of t7.py (lines 176 and
  180, the `Notice` events) is left out, as are the fetched timestamp's
  conversion to local time and `update_*_goal`'s handling of the HTTP status. A push is one
  event whatever the reply.
- The clock is one integer per tick. The scripts call `time.time()` several
  times per iteration.
- The publish outcome is one boolean per tick, shared by every publish in that
  tick.
- The `/ 1.2` lux conversion is left out: a reading is an integer input.
  `Light.RawLux` models the bit assembly that precedes it.
- In t11.py, t6.py, t4.py and t2.py an exception from a sensor read ends the
  script, and so does one from the BMP280 reads in t8.py (lines 196-197) and
  t7.py (lines 188-189). Those reads are modelled as always succeeding; only
  the light reads that t8.py and t7.py guard are modelled as failing.
- A `client.reconnect()` that raises ends the script (t11.py:166, t8.py:214,
  t7.py:203, t6.py:192, t4.py:159, t2.py:129): the call is not guarded. The
  model's `Reconnect` event always returns, so the `PublishFailureChangesNoState`
  lemmas and `T2.FailedPublishSkipsSleep` speak of runs that survive it.
- The `time.sleep(0.1)` at the end of every button loop (t11.py:233,
  t8.py:219, t7.py:208, t6.py:197, t4.py:164, knop.py:64) is left out: it
  issues nothing and changes no global, and the clock is an input.
- `int(float(v))` on a fetched value is modelled by `Value`: a number, or a
  value on which the conversion raises. Fractional strings and their
  truncation are not modelled.
- Common.ScaleToPwm: computed exactly as the truncated tenth. Python's
  floating point can land just below an integer; for example,
  `int((290 / 1000) * 100)` is 28, not 29.
- Common.ScaleToLux: computed exactly as brightness * 10, for the same reason.
- The initial `softPwmWrite` of the start brightness in t11.py (line 148) is not an event
  of the model. The constructor sets the globals only.
- In t8.py and t7.py the initial fetch is a separate `FetchLastEntry` call after
  the constructor, because it issues an LED write. In t11.py and t6.py the
  constructor runs it.
- In t4.py, `fetch_temperature_goal` (t4.py:68-80) is never called. Its copy in
  t2.py is modelled once as `Common.FetchTemperatureGoal`.
- In knop.py, the loop (`Knop.OnPin`, `Knop.Poll`, `Knop.Run`, `Knop.Controller`)
  runs the press as written, whose pushed value is one step ahead of the stored
  goal. The corrected press `Knop.Press` is stated beside it and compared in
  `Knop.IntendedPushesStoredGoal` (see Findings); no loop runs it.
- In t8.py, `update_led_lux_goal` (t8.py:121-131) is never called and is not
  modelled.
- The t8.py and t7.py fetches can set the brightness outside [0, 100]. The
  range lemmas take a brightness already in range.
- The other scripts (t.py, thing.py, t3.py, Test.py, testwp.py, testje.py,
  ledtest.py) are not part of this model.

## Findings

| source | as written | input that shows it | evidently intended | confidence | as-written member | corrected member |
|---|---|---|---|---|---|---|
| knop.py:48-61 | the `action` lambdas read TEMPERATURE_GOAL when they run, which is after the loop body has already moved it, so they push the goal moved a second time | goal 25, increment pressed: the stored goal is 26 but 27 is pushed to field4 | push the goal the press has just stored, as t4.py and t6.py do | high; not executed | Knop.LateBindingPushesOneStepAhead | Knop.IntendedPushesStoredGoal |
