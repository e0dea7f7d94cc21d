# ESP32 four-port battery charger/discharger — a Dafny model

The firmware drives four battery ports. Each port has one INA226 sensor and
one discharge MOSFET. A `PortData` record per port holds the configuration
(mode, chemistry, cutoff), the filtered measurements, the mAh/Wh totals and
the status. Three objects share the global table of these records:

- the logger reads the sensors every 500 ms. It validates each reading,
  median-filters it over a five-sample ring buffer and integrates charge and
  energy.
- the front panel UI handles an OLED menu, a rotary encoder with a push
  button, and a buzzer.
- the web UI has HTTP handlers that change a port's configuration and a
  rate-limited WebSocket status push.

The main loop runs `logger.update`, `updateMOSFETs`, `physicalUI.update`,
`webUI.update` and `syncUIStates` in that order. `updateMOSFETs` decides per
port whether the MOSFET conducts. It applies the discharge, charge and safety
rules, then three fault checks.

## How the model is built

- The record is a value type (`BatteryTypes.PortData`). The shared table is
  an `array<PortData>` aliased by the classes `Logger.BatteryLogger`,
  `UI.PhysicalUI`, `Web.WebUI` and `Controller.Charger`.
- The five-slot ring buffers are `array2<real>` plus an index array. The
  median filter copies a window into an array and selection-sorts it in
  place.
- One pass of `updateMOSFETs` over one port is the function
  `Switching.SwitchCycle`. The imperative loop `Controller.Charger.UpdateMosfets`
  is proved to compute it port by port, writing each pin and calling
  `notifyComplete`/`notifyError` in order. The calls are recorded in the ghost
  log `PhysicalUI.notifications`.
- `millis()` is a parameter `now` of type `Millis`. It is an unsigned 32-bit
  value, and every interval is computed as the unsigned difference
  `Arduino.Elapsed`, modulo 2^32, so a clock wrap is handled as in the firmware.
- The sensor readings are parameters of `BatteryLogger.Update`. The sensor
  presence seen by `begin` is the `sensorFound` parameter of `Setup`.

## Behaviour of the code as written

The model follows the code. These consequences of the code are proved:

- **Signed current.** The accumulator adds `current * dt` with its sign and
  only then clamps at zero. A negative (charging) current lowers the mAh
  total (`Accumulator.NegativeCurrentLowersCharge`). The code does not add
  the magnitude of the current.
- **First fault wins.** The three fault checks only write while the status is
  not ERROR. Among simultaneous faults, the first check's message is kept
  (`Switching.FirstFaultWins`).
- **No-battery floor.** The low-voltage fault requires `voltage > 0.1`, so a
  reading of 0 V never trips it.
- **Sensor errors.** More than ten invalid readings put a port in ERROR but
  leave `active` set. The next `updateMOSFETs` pass then overwrites ERROR
  with ACTIVE or COMPLETE, or with IDLE in safety mode
  (`Switching.ModeRulesKeepError`). Meanwhile the
  logger stops sampling the port (`Logger.ErrorPortIsInert`).
- **Logged data never faults.** The logger stores only medians of slots
  holding zero or a validated reading. A record it produced therefore never
  trips a fault check (`Switching.LoggedPortsNeverFault`). Neither the web
  handlers nor the panel write measurements, so on the logger's data the three
  fault checks of `updateMOSFETs` should never fire. Only the record-level
  fact is proved. The step from it to a whole run of `loop` is an argument:
  the controller invariant does not carry the logger's plausibility
  invariant.
- **Right after boot.** The first valid sample filters to 0 V, because four
  of five slots still hold 0 (`Logger.FirstSampleFiltersToZero`). The median
  stays 0 V while fewer than three readings are in the window. A port started
  discharging in that time completes on the next pass, unless its current
  trips the overcurrent check
  (`Switching.ZeroVoltageDischargeCompletes`).
- **Safety mode re-notifies.** In safety mode under a fault, every pass turns
  ERROR back into IDLE and then into ERROR again, so `notifyError` fires on
  every pass (`Switching.SafetyFaultRenotifies`).
- **Redundant guard.** With the logger's 10 s resynchronisation, the 0.1 h
  guard of `updateAccumulators` can never fire
  (`Accumulator.HourGuardSubsumed`).
- **Reset keeps the clock.** `reset` keeps `lastUpdate`. The first step
  after a reset therefore integrates if the port was sampled within the last
  10 s (`Logger.ValidReadingEffects`). Otherwise the logger only
  resynchronises `lastUpdate` (`Accumulator.Integrated`).
- **Session start at time 0.** `handleSetMode` treats `startTime == 0` as
  "never started". A session started at `millis() == 0` is therefore
  restarted by the next mode selection (`Web.ModeSetKeepsSessionStart`
  excludes that case).
- **Two cutoff ranges.** The panel accepts cutoffs from 0.0 to 3.5 V. The web
  handler accepts 2.0 to 3.5 V. Every web value lies within the panel's range
  (`Web.WebCutoffInPanelRange`).

## Model

| member | source | states |
|---|---|---|
| Arduino.Elapsed | src/Logger.cpp:69-73 | unsigned 32-bit difference of two `millis()` values: the plain difference, or the difference plus 2^32 when the clock wrapped |
| Arduino.ElapsedAfterDelay | src/Logger.cpp:69-73 | a delay measured across a wrap of the 32-bit clock is the delay itself |
| Arduino.Abs | src/main.cpp:105 | `abs` is non-negative and equals the argument or its negation |
| Arduino.TruncToInt | src/UI.cpp:222 | the `(int)` cast truncates toward zero: the integer part of a positive value, bounded the other way for a negative one |
| BatteryTypes.BatteryType.Index | Include/BatteryTypes.h:10-27 | the enum's integer value is 0..2 |
| BatteryTypes.BatteryTypeOf | src/WebUI.cpp:284-296 | the `(BatteryType)` cast of an index 0..2 is the enumerator with that index |
| BatteryTypes.OperationMode.Index | Include/BatteryTypes.h:10-27 | the enum's integer value is 0..2 |
| BatteryTypes.ModeOf | src/WebUI.cpp:260-282 | the `(OperationMode)` cast of an index 0..2 is the enumerator with that index |
| BatteryTypes.IndexRoundTrips | Include/BatteryTypes.h:10-27 | casting an enumerator to int and back gives the same enumerator, for mode and chemistry |
| BatteryTypes.ConfigFor | Include/BatteryTypes.h:40-44 | each chemistry has cutoff < nominal < maximum, all within the global 2.0..4.5 V window |
| BatteryTypes.TableCutoffsMatchConfig | Include/BatteryTypes.h:40-44 | the table's cutoffs are the configured LIION/LIFEPO4/LIPO cutoffs |
| BatteryTypes.PortData.CutoffVoltage | Include/BatteryTypes.h:86-91 | the custom cutoff when enabled, otherwise the chemistry's; within 0..3.5 V on a valid record |
| BatteryTypes.PortData.ShouldStopDischarge | Include/BatteryTypes.h:120-123 | true exactly in discharge mode at or below the effective cutoff |
| BatteryTypes.PortData.Reset | Include/BatteryTypes.h:126-133 | totals, error count, message and status cleared and the session clock restarted; configuration, readings, `active` and `lastUpdate` kept |
| BatteryTypes.NewPortData | Include/BatteryTypes.h:75-83 | the default record is valid, idle and inactive in safety mode, with the Li-ion cutoff, zero readings and totals, and no error |
| BatteryTypes.ResetIdempotent | Include/BatteryTypes.h:126-133 | resetting twice at the same instant is the same as resetting once |
| BatteryTypes.CutoffBelowChargeTarget | Include/BatteryTypes.h:86-91 | every cutoff a valid record can hold lies below its chemistry's charge-termination voltage |
| BatteryTypes.NamesDistinct | Include/BatteryTypes.h:94-117 | different modes, statuses and chemistries have different display names |
| BatteryTypes.PortData.BatteryName | Include/BatteryTypes.h:94-97 | the chemistry's configured name; no contract, its distinctness is stated by `BatteryTypes.NamesDistinct` |
| BatteryTypes.PortData.ModeName | Include/BatteryTypes.h:99-106 | the mode's display name; no contract, specified by `BatteryTypes.NamesDistinct` |
| BatteryTypes.PortData.StatusName | Include/BatteryTypes.h:108-117 | the status's display name; no contract, specified by `BatteryTypes.NamesDistinct` |
| SignalFilter.Insert | src/Logger.cpp:152-174 | insertion adds exactly the one element to the samples (as a multiset) |
| SignalFilter.InsertSorted | src/Logger.cpp:152-174 | inserting into an ascending sequence keeps it ascending |
| SignalFilter.SortedCopy | src/Logger.cpp:152-174 | the reference sort is sorted and a permutation of its input |
| SignalFilter.Median | src/Logger.cpp:172-173 | the reference median is one of the samples |
| SignalFilter.SortedHeadIsLeast | src/Logger.cpp:152-174 | the head of a sorted sequence is at most every element |
| SignalFilter.SortedTail | src/Logger.cpp:152-174 | the tail of a sorted sequence is sorted |
| SignalFilter.SortedUnique | src/Logger.cpp:152-174 | two sorted permutations of the same samples are equal |
| SignalFilter.MedianIsMiddle | src/Logger.cpp:172-173 | the median is the middle element of any sorted permutation of the window |
| SignalFilter.MedianOfPermutation | src/Logger.cpp:152-174 | the median depends only on the multiset of samples, not on their ring-buffer order |
| SignalFilter.CountsOfInsert | src/Logger.cpp:152-174 | inserting an element raises the count of samples at most (at least) a bound by one exactly when the element is at most (at least) it |
| SignalFilter.CountsOfSortedCopy | src/Logger.cpp:152-174 | sorting keeps the counts of elements at most and at least a bound |
| SignalFilter.CountAtMostPrefix | src/Logger.cpp:152-174 | n leading samples all at most a bound give at least n samples at most it |
| SignalFilter.CountAtLeastSuffix | src/Logger.cpp:152-174 | n trailing samples all at least a bound give at least n samples at least it |
| SignalFilter.MedianSplitsWindow | src/Logger.cpp:152-174 | more than half the samples are at most the median, and at least half are at least it |
| SignalFilter.MinIndexFrom | src/Logger.cpp:158-165 | the inner scan finds the index of the first minimum of the unsorted suffix |
| SignalFilter.SwapExtendsPrefix | src/Logger.cpp:158-168 | swapping the suffix minimum into place extends the sorted, lower-than-rest prefix by one |
| SignalFilter.SelectionSort | src/Logger.cpp:156-169 | the in-place sort leaves the first n slots sorted, a permutation of their old contents, and later slots untouched |
| SignalFilter.MedianFilter | src/Logger.cpp:152-174 | `medianFilter` returns the median of the first `size` buffer entries and leaves the buffer unchanged |
| SignalFilter.Channel.Push | src/Logger.cpp:105-108 | a new sample overwrites the slot at the ring index, no other slot changes, and the index advances modulo 5 |
| SignalFilter.EmptyChannel | src/Logger.cpp:12-18 | the constructor's buffers hold five zeros in each channel, with index 0 |
| SignalFilter.PushAll | src/Logger.cpp:105-108 | a run of pushes keeps the channel well formed |
| SignalFilter.NextSlot | src/Logger.cpp:105-108 | one push advances the ring index by one modulo 5 |
| SignalFilter.PushAllIndex | src/Logger.cpp:105-108 | after up to five pushes the ring index has advanced by their number, wrapping past the last slot |
| SignalFilter.PushAllSlot | src/Logger.cpp:105-108 | after up to five pushes the k-th sample sits k slots after the starting index, with wrap-around |
| SignalFilter.RotatedWindow | src/Logger.cpp:105-108 | a window holding five samples in rotated slot order is a permutation of them |
| SignalFilter.FullWindowMedian | src/Logger.cpp:105-112 | after five pushes the filtered voltage and current are the medians of exactly the last five samples |
| Accumulator.DeltaHours | src/Logger.cpp:180-183 | the step in hours is non-negative and exceeds 0.1 h exactly for steps over 360000 ms |
| Accumulator.Integrates | src/Logger.cpp:177-185 | the two guards of `updateAccumulators`: a non-zero step of at most 0.1 h; no contract, specified by `Accumulator.Accumulated` and `Accumulator.HourGuardSubsumed` |
| Accumulator.ChargeOf | src/Logger.cpp:187-188 | the step's signed charge in mAh; no contract, specified by `Accumulator.DischargeAccumulatesExactly`, `Accumulator.NegativeCurrentLowersCharge` and `Accumulator.StepsAdd` |
| Accumulator.EnergyOf | src/Logger.cpp:190-191 | the step's signed energy in Wh; no contract, specified by `Accumulator.DischargeAccumulatesExactly` and `Accumulator.StepsAdd` |
| Accumulator.ClampNonNegative | src/Logger.cpp:195-196 | a negative total becomes zero, a non-negative one is kept |
| Accumulator.Accumulated | src/Logger.cpp:176-197 | a zero or over-0.1 h step changes nothing; otherwise both totals advance by the signed step and are clamped at zero; only mAh and Wh change; validity kept |
| Accumulator.Integrated | src/Logger.cpp:119-137 | the clock is updated; the first sample only seeds it, and a gap over 10 s or of 0 ms changes neither total; a step of 1 ms to 10 s adds the signed charge and energy of the stored filtered values, each total clamped at zero; only mAh, Wh and `lastUpdate` change |
| Accumulator.HourGuardSubsumed | src/Logger.cpp:126-137 | within the 10 s resync bound the 0.1 h guard never rejects a non-zero step |
| Accumulator.DischargeAccumulatesExactly | src/Logger.cpp:176-197 | with non-negative voltage and current the totals grow by exactly the step's charge and energy |
| Accumulator.NegativeCurrentLowersCharge | src/Logger.cpp:189-195 | a negative current lowers the mAh total, or leaves it clamped at zero |
| Accumulator.StepsAdd | src/Logger.cpp:176-197 | at constant non-negative readings, two consecutive steps accumulate what one combined step does |
| Logger.ValidateReading | src/Logger.cpp:199-219 | a reading is accepted exactly when the voltage is in 2.0..4.5 V and the current within ±3 A |
| Logger.CountError | src/Logger.cpp:94-98 | an invalid reading bumps the error count; past ten the port goes to ERROR with the "invalid readings" message |
| Logger.Sampled | src/Logger.cpp:84-146 | one `updatePort` on a port's record and window keeps the window well formed |
| Logger.ErrorPortIsInert | src/Logger.cpp:86 | a port in ERROR is not sampled: record and window stay unchanged |
| Logger.InvalidReadingEffects | src/Logger.cpp:93-100 | an invalid reading leaves the window alone and only counts the error, raising ERROR on the eleventh |
| Logger.ValidReadingEffects | src/Logger.cpp:102-137 | a valid reading stores the window's medians and their product, keeps status, configuration, `active` and `startTime`, and stamps `lastUpdate`; after an earlier sample and a step of 1 ms to 10 s the totals grow by the new medians' signed charge and energy, clamped at zero, and otherwise they are kept |
| Logger.SampledPreservesValid | src/Logger.cpp:84-146 | sampling keeps the record valid and never changes the configuration or `active` |
| Logger.SampledPreservesPlausible | src/Logger.cpp:93-117 | every slot and stored measurement stays zero or within the validation limits |
| Logger.BootStateIsPlausible | src/Logger.cpp:7-19 | the boot record and zeroed buffers satisfy that plausibility invariant |
| Logger.FirstSampleFiltersToZero | src/Logger.cpp:12-18 | the first valid sample after boot filters to 0 V, because the other four slots still hold 0 |
| Logger.SampleRun | src/Logger.cpp:84-146 | a run of samples keeps the window well formed |
| Logger.ValidRunPushesAll | src/Logger.cpp:102-117 | a run of valid readings pushes every sample, keeps the status, and after it the stored values are the window's medians |
| Logger.FilteredIsMedianOfLastWindow | src/Logger.cpp:102-117 | after five valid readings the stored voltage and current are the medians of exactly those readings |
| Logger.BatteryLogger.constructor | src/Logger.cpp:7-19 | the buffers are fresh and hold an empty window per port; the sample clock starts at 0 |
| Logger.BatteryLogger.InitPort | src/Logger.cpp:41-60 | a missing sensor puts the port in ERROR with the "sensor not found" message; the result is true exactly for a found sensor on a port in range |
| Logger.BatteryLogger.Begin | src/Logger.cpp:25-39 | `begin` is true exactly when every sensor is found, and marks each missing one ERROR |
| Logger.BatteryLogger.IsPortReady | src/Logger.cpp:221-224 | a port is ready exactly when its index is in range and it is not in ERROR |
| Logger.BatteryLogger.UpdateAccumulators | src/Logger.cpp:176-197 | the port's record becomes `Accumulated` of its old value; no other record changes |
| Logger.BatteryLogger.RecordInvalidReading | src/Logger.cpp:93-100 | the port's record becomes `CountError` of its old value; no other record changes |
| Logger.BatteryLogger.PushSample | src/Logger.cpp:105-108 | the port's window is pushed with the raw sample; every other port's window is unchanged |
| Logger.BatteryLogger.FilterWindow | src/Logger.cpp:111-112 | the filtered values are the medians of the port's current window |
| Logger.BatteryLogger.StoreFiltered | src/Logger.cpp:115-137 | stores the filtered values and power, then integrates at `now`; no other record changes |
| Logger.BatteryLogger.UpdatePort | src/Logger.cpp:84-146 | an out-of-range port changes nothing; otherwise that port's state becomes `Sampled`, and no other port's state changes |
| Logger.BatteryLogger.Update | src/Logger.cpp:66-82 | before 500 ms nothing changes; otherwise the clock is stamped and exactly the active ports are sampled |
| Switching.LowVoltage | src/main.cpp:81 | the critical-low check: below 2.0 V but above the 0.1 V no-battery floor; no contract, specified by `Switching.FaultForcesOff` and `Switching.FirstFaultWins` |
| Switching.OverVoltage | src/main.cpp:93 | the overvoltage check: above 4.5 V; no contract, specified by `Switching.FaultForcesOff` |
| Switching.OverCurrent | src/main.cpp:105 | the overcurrent check on the current's magnitude: above 3 A; no contract, specified by `Switching.FaultForcesOff` and `Switching.ZeroVoltageDischargeCompletes` |
| Switching.ChargeComplete | src/main.cpp:58-59 | charge termination: within 0.1 V of the chemistry's maximum with under 50 mA; no contract, specified by `Switching.ChargingRules` and `Switching.CompleteNotifiedExactly` |
| Switching.FaultMessage | src/main.cpp:81-114 | the message of the first fault check that fires: low voltage, then overvoltage, then overcurrent |
| Switching.ModeRules | src/main.cpp:29-77 | the mode rules write only status and `active`, and conduct only for an active discharge above its cutoff |
| Switching.ModeRulesKeepError | src/main.cpp:35-77 | the mode rules leave ERROR exactly on an idle port in ERROR outside safety mode |
| Switching.Trip | src/main.cpp:81-114 | one fault check; no contract, specified by `Switching.TripEffect` and `Controller.TripNotices` |
| Switching.TripEffect | src/main.cpp:81-114 | a check that does not fire changes nothing; one that fires switches off and leaves ERROR, and on a port not yet in ERROR also deactivates, stores its message and notifies; the completion notice is never touched |
| Switching.SwitchCycle | src/main.cpp:30-117 | one port's pass; no contract, specified by `Switching.SwitchOnExactly`, `Switching.FaultForcesOff`, `Switching.NoFaultIsModeRules`, `Switching.ErrorNotifiedExactly`, `Switching.CompleteNotifiedExactly` and `Switching.SwitchCycleFrame` |
| Switching.SwitchOnExactly | src/main.cpp:35-117 | the MOSFET is on exactly for an active discharge above its cutoff with no fault, and the port is then ACTIVE |
| Switching.FaultForcesOff | src/main.cpp:81-117 | any fault turns the MOSFET off and leaves ERROR; a new ERROR is inactive, carries the first fault's message, and is notified |
| Switching.NoFaultIsModeRules | src/main.cpp:29-117 | without a fault the pass is exactly the mode rules and no error is notified |
| Switching.ErrorNotifiedExactly | src/main.cpp:81-114 | `notifyError` fires exactly when a fault meets a port the mode rules left out of ERROR |
| Switching.DischargeStops | src/main.cpp:35-51 | an active discharge at or below its cutoff stops, completes unless faulted, and notifies only on the first completion |
| Switching.ChargingRules | src/main.cpp:54-70 | charging never conducts; without a fault a port terminates exactly when the voltage and taper criteria hold, otherwise stays ACTIVE |
| Switching.SafetyRules | src/main.cpp:73-77 | safety mode deactivates, never conducts, never completes, and is IDLE unless a fault fires |
| Switching.CompleteNotifiedExactly | src/main.cpp:35-70 | `notifyComplete` fires exactly when a non-COMPLETE active port reaches its cutoff or charge termination |
| Switching.SwitchCycleFrame | src/main.cpp:29-117 | a pass writes only status, `active` and the message, changes the message only under a fault, never activates, and keeps validity |
| Switching.FirstFaultWins | src/main.cpp:81-114 | with a voltage fault and an overcurrent together, the stored message is the voltage fault's |
| Switching.SafetyFaultRenotifies | src/main.cpp:73-114 | in safety mode under a fault, a second pass reaches the same record and notifies the error again |
| Switching.PlausibleMeasurementsNeverFault | src/main.cpp:81-114 | zero or validated measurements never trip a fault check |
| Switching.LoggedPortsNeverFault | src/main.cpp:81-114 | a record the logger can produce never trips a fault check or notifies an error |
| Switching.ZeroVoltageDischargeCompletes | src/main.cpp:35-51 | a valid discharging port reading 0 V completes and switches off on the next pass |
| Switching.LiFePO4DischargeScenario | src/main.cpp:35-51 | a LiFePO4 discharge at 1 A over 3.2, 2.6 and 2.4 V conducts twice, then completes with 5/18 mAh |
| UI.NextMenu | src/UI.cpp:191-246 | a button press always moves to a different screen |
| UI.MaxIndexFor | src/UI.cpp:194-245 | the range each screen's press sets; no contract, specified by `UI.Press` |
| UI.MenuCycle | src/UI.cpp:191-246 | six presses return to the first screen, visiting Main, PortSelect, ModeSelect, BatterySelect, CutoffAdjust and Confirm in order |
| UI.Wrapped | src/UI.cpp:175-189 | the encoder index stays in 0..max, wrapping below 0 to max and above max to 0 |
| UI.CutoffOfIndex | src/UI.cpp:228 | a tenths index 0..35 gives a cutoff in 0..3.5 V of one tenth that value |
| UI.IndexOfCutoff | src/UI.cpp:222 | a cutoff in 0..3.5 V gives a tenths index in 0..35 |
| UI.CutoffIndexRoundTrip | src/UI.cpp:222-228 | converting a tenths index to a cutoff and back gives the same index |
| UI.Frequency | src/UI.cpp:474-491 | tone frequencies lie between the error and completion tones, which are unique to their patterns |
| UI.Duration | src/UI.cpp:500-517 | durations lie between the short and completion lengths, the latter only for the completion beep |
| UI.NoticeBeep | src/UI.cpp:530-538 | a completion notice plays the completion beep and a fault notice the error beep |
| UI.AnnouncedChain | src/UI.cpp:469-494 | two runs of notices in a row leave the beep, tone and redraw request of the later run's last notice, or of the earlier run's if the later one is empty |
| UI.TimedOut | src/UI.cpp:136-137 | the menu timeout test: outside MAIN with more than 30 s since the last activity; no contract, specified by `UI.PhysicalUI.TimeoutStep` and `UI.PhysicalUI.MenuStep` |
| UI.PressAccepted | src/UI.cpp:121-133 | the debounce test: a latched press more than the debounce time after the last accepted one; no contract, specified by `UI.PhysicalUI.ButtonStep` |
| UI.Turn | src/UI.cpp:113-118 | encoder travel moves only the index, wrapped into the screen's range, and keeps the menu invariant; no travel changes nothing |
| UI.Press | src/UI.cpp:191-246 | a press moves to the next screen with that screen's range, keeps the menu invariant, and selects the highlighted port only on port selection |
| UI.PressBeep | src/UI.cpp:191-246 | a press plays the completion beep exactly on "Start" of the confirmation screen, and the select beep otherwise |
| UI.PressFrame | src/UI.cpp:191-246 | a press writes at most the selected port's record and keeps every valid record valid |
| UI.PressPerScreen | src/UI.cpp:191-246 | per screen: MAIN and port selection write no record, the mode, chemistry and cutoff screens write only their field and open the next screen on its current value, "Start" activates and resets the port and "Cancel" writes nothing |
| UI.PhysicalUI.constructor | src/UI.cpp:10-33 | the constructor's initial menu, encoder, display and buzzer state |
| UI.PhysicalUI.EncoderEdge | src/UI.cpp:78-89 | an encoder edge counts up when the two phases agree and down otherwise |
| UI.PhysicalUI.ButtonEdge | src/UI.cpp:96-100 | the button interrupt latches a press |
| UI.PhysicalUI.PlayBeep | src/UI.cpp:469-494 | starts the pattern now at its frequency |
| UI.PhysicalUI.UpdateBuzzer | src/UI.cpp:496-524 | an active beep past its duration is silenced; otherwise nothing changes |
| UI.PhysicalUI.NotifyComplete | src/UI.cpp:530-533 | plays the completion beep, requests a redraw, and logs the completion; the panel outputs are those `UI.Announced` gives for that one notice |
| UI.PhysicalUI.NotifyError | src/UI.cpp:535-538 | plays the error beep, requests a redraw, and logs the fault; the panel outputs are those `UI.Announced` gives for that one notice |
| UI.PhysicalUI.ForceRedraw | src/UI.cpp:540-542 | requests a redraw |
| UI.PhysicalUI.ReturnToMain | src/UI.cpp:248-252 | back to the main screen with index 0 over the four ports |
| UI.PhysicalUI.HandleEncoderChange | src/UI.cpp:175-189 | the index moves by the encoder delta with wrap-around, with a menu beep; the menu invariant is kept |
| UI.PhysicalUI.EnterPortSelect | src/UI.cpp:195-200 | opens port selection with index 0 over the four ports |
| UI.PhysicalUI.SelectPort | src/UI.cpp:202-208 | the highlighted port is selected and mode selection opens on that port's current mode |
| UI.PhysicalUI.SelectMode | src/UI.cpp:210-216 | writes the highlighted mode to the selected port only, then opens chemistry selection on its chemistry |
| UI.PhysicalUI.SelectBattery | src/UI.cpp:218-224 | writes the highlighted chemistry to the selected port only, then opens the cutoff screen on its cutoff in tenths |
| UI.PhysicalUI.SelectCutoff | src/UI.cpp:226-233 | writes and enables the highlighted cutoff on the selected port only, then opens confirmation on "Start" |
| UI.PhysicalUI.ConfirmChoice | src/UI.cpp:235-244 | "Start" activates and resets the selected port with a completion beep, "Cancel" changes no port, and both return to the main screen |
| UI.PhysicalUI.HandleButtonPress | src/UI.cpp:191-246 | the menu state and port table become `Press` of their old value, with the `PressBeep` beep started now |
| UI.PhysicalUI.EncoderStep | src/UI.cpp:113-118 | an encoder movement wraps the index, beeps, marks activity and a redraw; no movement changes nothing |
| UI.PhysicalUI.ButtonStep | src/UI.cpp:121-133 | a debounced press makes the menu state and port table `Press` of their old value, beeps, and marks activity and a redraw; a bounce changes only the latch; the latch is cleared either way |
| UI.PhysicalUI.TimeoutStep | src/UI.cpp:136-140 | after 30 s without activity outside the main screen, the menu returns to the main screen |
| UI.PhysicalUI.RefreshStep | src/UI.cpp:143-168 | the screen is redrawn when requested or after 200 ms, and the request is cleared |
| UI.PhysicalUI.HandleInput | src/UI.cpp:113-133 | the encoder step, then the button step: an accepted press gives `Press` of the `Turn`ed state with its beep; otherwise the state is the `Turn`ed one, with the menu beep and its tone only if the encoder moved; the activity clocks follow |
| UI.PhysicalUI.MenuStep | src/UI.cpp:113-140 | the encoder, button and timeout steps: `Press` of the `Turn`ed state with its beep on an accepted press, the `Turn`ed state with the menu beep after travel alone, and otherwise the MAIN screen after 30 s without activity outside it, with the beep unchanged; a redraw is requested exactly when one was pending or any of the three acted |
| UI.PhysicalUI.Update | src/UI.cpp:106-169 | one `update`: the menu state, port table and beep as in `MenuStep`, the beep expired or else unchanged when there is no input, the activity clocks, and `lastRefresh` moved to now exactly when a redraw was pending, any input or the timeout acted, or 200 ms have passed |
| Web.ModeSet | src/WebUI.cpp:268-278 | sets the mode; safety deactivates, any other mode activates and starts the session clock if it was never started; validity kept |
| Web.ModeSetKeepsSessionStart | src/WebUI.cpp:268-278 | selecting a non-safety mode again keeps the first selection's session start, unless that was at time 0 |
| Web.WebCutoffInPanelRange | src/WebUI.cpp:298-311 | every cutoff the web accepts can be shown on the panel's adjust screen and keeps the record valid |
| Web.WebUI.constructor | src/WebUI.cpp:7-12 | the broadcast clock starts at 0 with nothing sent |
| Web.WebUI.Update | src/WebUI.cpp:74-82 | broadcasts and restarts the interval exactly when 1000 ms have elapsed |
| Web.WebUI.HandleSetMode | src/WebUI.cpp:260-282 | 200 exactly for a port in range and a mode 0..2, changing only that port by `ModeSet`; otherwise 400 and no change |
| Web.WebUI.HandleSetBattery | src/WebUI.cpp:284-296 | 200 exactly for a port in range and a type 0..2, changing only that port's chemistry; otherwise 400 and no change |
| Web.WebUI.HandleSetCutoff | src/WebUI.cpp:298-311 | 200 exactly for a port in range and a voltage in 2.0..3.5 V, setting and enabling that port's custom cutoff; otherwise 400 and no change |
| Web.WebUI.HandleReset | src/WebUI.cpp:313-324 | 200 exactly for a port in range, resetting only that port; otherwise 400 and no change |
| Web.HandlersKeepValid | src/WebUI.cpp:260-324 | every accepted handler keeps the record valid |
| Controller.SafetyDefaults | src/main.cpp:199-206 | the setup loop puts a port in inactive, idle Li-ion safety mode with the table cutoff, and keeps the rest of the record |
| Controller.DefaultsAreInert | src/main.cpp:199-206 | the defaults leave the default record unchanged, and a pass over it keeps the MOSFET off and notifies nothing |
| Controller.Notices | src/main.cpp:47-110 | one port's pass issues at most two notifications, all naming that port |
| Controller.NoticesContent | src/main.cpp:47-110 | a completion and a fault are notified exactly when the pass calls for them, each at most once |
| Controller.Cycles | src/main.cpp:29-119 | the pass over the table applies the single-port pass to each record |
| Controller.CyclesKeepValid | src/main.cpp:29-119 | the pass keeps every valid record valid |
| Controller.AllNotices | src/main.cpp:29-119 | the first n ports issue at most 2n notifications, all naming those ports |
| Controller.NoticesNameCycles | src/main.cpp:29-119 | every notification of a pass names a port whose pass called for it |
| Controller.NoticesDistinct | src/main.cpp:29-119 | no notification is issued twice in one pass |
| Controller.TripNotices | src/main.cpp:81-114 | a fault check appends `Controller.TripNotice`: an error notification exactly when it fires on a port not already in ERROR |
| Controller.TripNotice | src/main.cpp:81-114 | a fault check adds at most one notification |
| Controller.SwitchesOff | src/main.cpp:21-27 | `initMOSFETs` drives every switch pin low |
| Controller.DefaultTable | src/main.cpp:12-15 | the global table starts with the default record on every port |
| Controller.Charger.Setup | src/main.cpp:181-254 | after `setup` all switches are off and every port holds the safety defaults, with ERROR on ports whose sensor is missing; the logger's windows are empty and its clock 0; the front panel holds every field its constructor sets (MAIN, indices 0, encoder 0, no press, redraw pending, no beep, no notices); the web clock is 0 with no broadcasts |
| Controller.Charger.ApplyModeRules | src/main.cpp:32-77 | the port becomes its mode-rule result with its notifications, the panel's beep and redraw request follow them, and no other port changes |
| Controller.Charger.CheckFault | src/main.cpp:81-114 | one fault check applied to the port, consistent with `Trip`; no other port changes; the panel's beep and redraw request follow its notice and, with the earlier ones, all of the port's notices so far |
| Controller.Charger.UpdatePortSwitch | src/main.cpp:30-117 | one iteration: the port and its pin become the single-port pass's result, only its notifications are logged, and the panel's beep and redraw request are those of its last notice, unchanged if it has none |
| Controller.Charger.SwitchNext | src/main.cpp:29-118 | one round of the loop keeps the loop invariant from port i to port i + 1 |
| Controller.Charger.SwitchAll | src/main.cpp:29-119 | every port and pin becomes the pass's result on the old table, with all notifications in port order; the beep and redraw request are those of the last notice, unchanged if there is none |
| Controller.Charger.UpdateMosfets | src/main.cpp:29-119 | `updateMOSFETs`: each port and pin becomes the pass's result, the notifications are logged in port order, the panel's beep, tone and redraw request are those of the last notice (unchanged if there is none), and the controller invariant is kept |
| Controller.Charger.SyncUIStates | src/main.cpp:158-175 | every second the status snapshot is refreshed and a redraw requested exactly when some port's status changed; otherwise nothing changes |
| Controller.Charger.Sample | src/main.cpp:262 | the logger step of `loop`: before 500 ms no record changes; otherwise exactly the active ports are sampled; every record stays valid |
| Controller.Charger.Panel | src/main.cpp:268 | the front-panel step of `loop` keeps the controller invariant; its effect is stated by `UI.PhysicalUI.Update` |
| Controller.Charger.Loop | src/main.cpp:260-281 | one `loop` iteration keeps the controller invariant |

## Left out

- Controller.Charger.Loop: states only that one iteration keeps the shared-table and object invariants. The effect of each step is stated by the member it calls.
- Controller.Charger.Panel: a helper of `Loop` that states only the invariant; the effect of the front-panel step is stated by `UI.PhysicalUI.Update`.
- The INA226 and I²C driver are left out: probing, configuration, bus-voltage and current registers, and `calibratePort`. The readings and the sensor-found flags are parameters.
- The NaN/Inf clause of `validateReading` is left out, because reals are always finite.
- Float rounding is left out: volts, amps, mAh and Wh are exact reals.
- CSV formatting (`getCSVHeader`, `getCSVLine`) and `printSystemStatus` are left out: they only produce text.
- The `snprintf` error texts become an `ErrorMessage` datatype that carries the kind and the measured value, not the formatted string.
- The web plumbing is left out: Wi-Fi access point, route registration, the HTML page, `handleGetStatus`, `handleGetLogs`, JSON status and the WebSocket send. Only the fact and time of each broadcast is kept.
- The `toInt`/`toFloat` parsing of form values is left out. Handlers receive the already converted value or `Absent`.
- The asynchronous web handlers run concurrently with `loop` on the device. The model runs each handler atomically, between loop steps.
- OLED drawing, `tone`/`noTone` hardware, `PhysicalUI::begin`, `WebUI::begin` and `attachInterrupt` are left out. The tone is kept as the `toneFrequency` field.
- The encoder and button interrupts are modelled as methods, and they do not interleave with `update`.
- Controller.Charger.Setup: the BEEP_SELECT that `PhysicalUI::begin` plays during setup (src/UI.cpp:68) is not modelled, so the beep state after `Setup` is the constructor's silence, not the firmware's start-up beep.
- `encoderPos`, `menuIndex` and a port's `errorCount` are unbounded, so `int` overflow is not modelled. `errorCount` can keep growing across ERROR to ACTIVE cycles, because `updateMOSFETs` overwrites ERROR and the logger then samples the port again.
- `delay`, `Serial` and the debug prints are left out.
- Controller.Charger.SyncUIStates: the `delay(1000)` and two `delay(500)` calls of `setup` (src/main.cpp:183, 217, 228) are not modelled, so the model lets `Loop` run with `now` below 1000 ms, where the first sync is skipped because `lastSync` starts at 0. On the device `loop` starts at 2000 ms or later, and its first sync runs.
- Each method uses one value of `millis()`, even where the firmware calls it several times in the same function.
- `tools/parse_logs.py` and `test/i2c_scanner.cpp` are left out. They are host-side tools, not firmware.
