# Soil Moisture Guard: a verified model of the control engine

The Soil Moisture Guard firmware runs on an ATmega328P board with four
channels. Each channel has:
- a capacitive moisture sensor;
- a potentiometer that sets the desired moisture level (the reference);
- a water pump.

A 3-to-8 line decoder powers exactly one sensor or one pump at a time.

Each duty cycle (`loop`) works in four steps:
1. `updateState` samples every channel, averages its readings, and converts
   them to percentages.
2. It filters the percentages through a hysteresis of 2 points, resets the
   retry counter of every channel that is wet enough, and reports whether
   anything needs attention.
3. Only when it reports an update does the cycle refresh the display and run
   `runPumps`. That gives every dry channel below its retry ceiling one more
   attempt, and one pump run.
4. The board then sleeps for ten minutes, as 75 watchdog sleeps of 8 s.

The model is split into modules that follow these parts:

- `Types` (`types.dfy`): the machine widths `uint8`, `uint16` and the 10-bit
  converter range. The firmware's narrowing conversions are written out
  (`Trunc8`, `Wrap16`).
- `Calibration` (`calibration.dfy`): `convertMeasurementToPercent` and the
  reference percentage `measurement_ref/10`. The exact linear calibration is
  a ghost function over reals.
- `Hysteresis` (`hysteresis.dfy`): `almostEqual` and the tolerance 2.
- `Averaging` (`averaging.dfy`): a channel's sampling window and the
  accumulation in 16-bit counters. Its loop is an imperative method.
- `Decoder` (`decoder.dfy`): the address-bit split of `setDecoder`.
- `Channels` (`channels.dfy`): the channel record, the initial
  `channel_state` table and the per-channel rules:
  - `Observe` is one pass of `updateState`'s loop after sampling.
  - `Pumped` is one pass of `runPumps`'s loop.
  - `Episode` is many cycles of one channel.
- `Events` (`events.dfy`): the hardware actions as a trace of events, and
  the decoder's power discipline over such traces. A line is selected only
  while every line is off. Settling delays and pump runs take place with a
  line powered. The display refresh and the sleep take place with
  everything off.
- `Controller` (`controller.dfy`): the class `Board`, which holds:
  - the `channel_state` array, updated in place;
  - the decoder's enable and address pins;
  - the trace of actions so far.

  Its methods `UpdateState`, `RunPumps` and `Loop` are the firmware's
  `updateState`, `runPumps` and `loop`, with the same loops. Each is proved
  against the specification functions of the same module (`Observed`,
  `AnyUpdate`, `PumpedAll`, `CycleChannels`, `CycleTrace`), and the
  properties of those functions are proved as lemmas.

The hardware reads and calls are inputs and events:
- `analogRead` is an input: one `Window` per channel, holding the sensor
  readings and the reference readings (values 0..1023).
- `digitalWrite(DEC_EN, …)`, `delay`, the display refresh and
  `Watchdog.sleep` are events appended to the trace.

Three behaviours of the code that are easy to miss:

- A channel whose level is at or above its reference has its attempts reset
  (lines 184–185). The reset by itself does not set the `update` flag; only
  an accepted level or reference (lines 178, 182) or a dry channel (line
  187) does. On every record a run can reach, though, a channel with
  attempts on record is dry, so it turns wet only through an accepted
  change, and recovery always refreshes the display
  (`Channels.ResetMeansUpdate`, with the concrete case
  `Channels.RecoveryRefreshes`).
- A dry channel at its retry ceiling whose readings stay within the
  tolerance forces an update every cycle, so the display is refreshed
  every ten minutes although nothing changed
  (`Channels.ExhaustedRefreshesForNothing`).
- The reference percentage is `measurement_ref/10` (line 172). It ranges
  over 0..102 and is not clamped to 99. A reference of 100..102 makes a
  channel dry whatever its sensor reads (`Channels.HighReferenceAlwaysDry`),
  so a potentiometer turned near its top end forces an update every cycle
  (`Channels.HighReferenceForcesUpdate`).

## Model

| member | source | states |
|---|---|---|
| Types.Trunc8 | platformio/soil_moisture/src/main.cpp:171-175 | the implicit conversion to `uint8_t`: a value below 256 is kept, and any value is kept modulo 256 |
| Types.Wrap16 | platformio/soil_moisture/src/main.cpp:162-166 | the `uint16_t` accumulation: a value below 2^16 is kept, and any value is kept modulo 2^16 |
| Calibration.ConvertMeasurementToPercent | platformio/soil_moisture/src/main.cpp:117-123 | every raw reading maps to a percentage in 0..99 |
| Calibration.ConvertFollowsLine | platformio/soil_moisture/src/main.cpp:119-122 | the percentage is the integer part of the calibration line through (660, 0%) and (150, 100%), clamped to [0, 99] |
| Calibration.DrySaturates | platformio/soil_moisture/src/main.cpp:117-123 | the dry point 660, and any reading above it, maps to 0 |
| Calibration.WetSaturates | platformio/soil_moisture/src/main.cpp:117-123 | the wet point 150, and any reading below it, saturates at 99 |
| Calibration.MidpointIsHalf | platformio/soil_moisture/src/main.cpp:66-67 | the middle of the calibration range, 405, maps to 50% |
| Calibration.ConvertAntitone | platformio/soil_moisture/src/main.cpp:117-123 | a higher reading never gives a higher percentage |
| Calibration.ReferencePercent | platformio/soil_moisture/src/main.cpp:172 | the reference percentage is the reading divided by 10, rounded down |
| Calibration.ReferenceRange | platformio/soil_moisture/src/main.cpp:172 | over the converter's range the reference stays at or below 102, and 1023 gives 102, above the moisture ceiling |
| Hysteresis.AlmostEqual | platformio/soil_moisture/src/main.cpp:147-149 | holds exactly when the two values are at most `absdiff` apart, in both directions |
| Hysteresis.AlmostEqualReflexive | platformio/soil_moisture/src/main.cpp:147-149 | every value is almost equal to itself |
| Hysteresis.AlmostEqualSymmetric | platformio/soil_moisture/src/main.cpp:147-149 | the argument order does not matter |
| Hysteresis.BeyondTolerance | platformio/soil_moisture/src/main.cpp:147-149 | a value `absdiff + 1` away is not almost equal |
| Averaging.Sum16 | platformio/soil_moisture/src/main.cpp:162-166 | the `uint16_t` accumulator `m += analogRead(...)`: after any number of readings it holds their exact sum modulo 2^16 |
| Averaging.SumBetween | platformio/soil_moisture/src/main.cpp:164-169 | the sum of n readings lies between n times the smallest and n times the largest reading |
| Averaging.SumAtMost | platformio/soil_moisture/src/main.cpp:164-167 | n converter readings add up to at most 1023 * n |
| Averaging.NoOverflow | platformio/soil_moisture/src/main.cpp:68 | with fewer than 64 readings the wrapping 16-bit sum equals the exact sum |
| Averaging.Average | platformio/soil_moisture/src/main.cpp:169-170 | the average of the four readings is their exact sum divided by 4, and lies between the smallest and the largest reading |
| Averaging.ReadSamples | platformio/soil_moisture/src/main.cpp:162-167 | the inner sampling loop leaves in both accumulators the exact sum of the readings, which is also the wrapped sum |
| Decoder.Line | platformio/soil_moisture/src/main.cpp:139-142 | three address levels select one of the lines 0..7 |
| Decoder.AddressLevels | platformio/soil_moisture/src/main.cpp:128-130 | the three bits of `setDecoder` select line `val` modulo 8 |
| Decoder.AddressRoundTrip | platformio/soil_moisture/src/main.cpp:128-142 | a line number below 8 comes back out of the bit split unchanged |
| Decoder.AddressInjective | platformio/soil_moisture/src/main.cpp:128-142 | distinct line numbers below 8 give distinct address levels |
| Channels.InitialTable | platformio/soil_moisture/src/main.cpp:84-90 | the initial table has four valid records (so the invariant that only dry channels carry attempts holds from the start) with no attempts; pump lines are 0..3, sensor lines 4..7, all pairwise distinct |
| Channels.ConfigAtIsTable | platformio/soil_moisture/src/main.cpp:86-89 | channel k has sensor line 4 + k, pump line k, input Ak, 10 s pump runs and 3 attempts |
| Channels.ReferenceOf | platformio/soil_moisture/src/main.cpp:170-172 | the averaged reference of a window is at most 102 |
| Channels.Observe | platformio/soil_moisture/src/main.cpp:171-188 | one pass of `updateState` never touches the constant fields and keeps a valid record valid |
| Channels.ObserveLevel | platformio/soil_moisture/src/main.cpp:175-179 | level and raw value are replaced together, and only when the new percentage is more than 2 points from the stored one; otherwise both are unchanged |
| Channels.ObserveReference | platformio/soil_moisture/src/main.cpp:180-183 | the reference level follows the same rule, independently of the level |
| Channels.ObserveResetLaw | platformio/soil_moisture/src/main.cpp:184-188 | a channel left wet has no attempts; a dry one keeps its attempts unchanged |
| Channels.ObserveUpdate | platformio/soil_moisture/src/main.cpp:175-188 | a channel reports an update exactly when it accepted a new level, accepted a new reference, or is left dry |
| Channels.DryForcesUpdate | platformio/soil_moisture/src/main.cpp:186-187 | a dry channel always reports an update |
| Channels.ShouldPump | platformio/soil_moisture/src/main.cpp:277-279 | the pump runs exactly when the channel is dry and not exhausted, and the attempt count it then increments cannot overflow its `uint8_t` |
| Channels.Pumped | platformio/soil_moisture/src/main.cpp:277-279 | attempts go up by exactly one when the channel is dry and below its ceiling, and stay put otherwise; no other field changes; validity is kept; a dry channel at its ceiling is unchanged |
| Channels.CycleChannel | platformio/soil_moisture/src/main.cpp:303-308 | one duty cycle of one channel, `updateState`'s pass followed by `runPumps`'s pass: the constant fields are kept and a valid record stays valid |
| Channels.Episode | platformio/soil_moisture/src/main.cpp:303-308 | repeated cycles keep a channel's constant fields, and keep a valid channel valid (attempts never exceed the ceiling) |
| Channels.WetCycleResets | platformio/soil_moisture/src/main.cpp:184-185 | a cycle that finds the channel wet ends with no attempts |
| Channels.DryEpisode | platformio/soil_moisture/src/main.cpp:277-279 | over an episode of dry cycles the attempts rise by one per cycle up to the ceiling, then stay there |
| Channels.ExhaustedStays | platformio/soil_moisture/src/main.cpp:277-278 | a dry channel at its ceiling runs no pump and stays at the ceiling |
| Channels.HighReferenceAlwaysDry | platformio/soil_moisture/src/main.cpp:172 | a reference of 100..102 is above every valid level, so the channel is dry |
| Channels.HighReferenceForcesUpdate | platformio/soil_moisture/src/main.cpp:172-187 | with an averaged reference reading of 1000 or more that is accepted (or a stored reference already at 100 or more), the channel is left dry and reports an update |
| Channels.ResetMeansUpdate | platformio/soil_moisture/src/main.cpp:175-188 | on a valid record, a pass that changes the attempt count accepted a new level or a new reference, and so reports an update |
| Channels.RecoveryRefreshes | platformio/soil_moisture/src/main.cpp:175-188 | a dry channel at 2 attempts whose reference drops from 79% to 75% while its level stays at 78% is reset to 0 attempts and reports an update |
| Channels.ExhaustedRefreshesForNothing | platformio/soil_moisture/src/main.cpp:175-187 | a dry channel at its ceiling whose readings stay within the tolerance reports an update while its cycle leaves the record unchanged |
| Events.SleepsFacts | platformio/soil_moisture/src/main.cpp:316-318 | n watchdog sleeps keep the discipline with every line off, render nothing, run no pump and last n times the sleep length |
| Events.BlockFacts | platformio/soil_moisture/src/main.cpp:287-289 | select a line, wait with it powered, power it down: the discipline is kept and every line ends up off |
| Controller.Observed | platformio/soil_moisture/src/main.cpp:152-188 | the table after `updateState`'s loop: one record per channel, each keeping its constant fields and staying valid |
| Controller.AnyUpdate | platformio/soil_moisture/src/main.cpp:152-200 | the value `updateState` returns, "some channel reported a change", equals the flag its loop ORs together over all the channels |
| Controller.UpdateAmongExists | platformio/soil_moisture/src/main.cpp:152-200 | the flag ORed together over the first n passes is set exactly when one of those passes reported a change |
| Controller.UpdateMeansChange | platformio/soil_moisture/src/main.cpp:152-200 | `updateState` returns true exactly when some channel accepted a new level or reference, or is left dry |
| Controller.PumpedAll | platformio/soil_moisture/src/main.cpp:275-301 | the table after `runPumps`: each record gains one attempt exactly when it should pump, no other field changes, and validity is kept |
| Controller.CycleChannels | platformio/soil_moisture/src/main.cpp:303-308 | the table after one `loop`: one record per channel, each keeping its constant fields |
| Controller.CycleTrace | platformio/soil_moisture/src/main.cpp:303-320 | the hardware actions of one `loop` keep the power discipline and end with every line off |
| Controller.CycleIsPerChannel | platformio/soil_moisture/src/main.cpp:303-308 | gating `runPumps` on the update flag loses nothing: every channel ends the cycle as if observed and pumped on its own |
| Controller.CyclePreservesValid | platformio/soil_moisture/src/main.cpp:303-308 | a cycle keeps every record valid (attempts at most the ceiling, and attempts only on a dry channel) and keeps its constant fields |
| Controller.SamplingTraceFacts | platformio/soil_moisture/src/main.cpp:153-168 | the sampling windows keep the power discipline, power every line down again, and render, pump and sleep nothing |
| Controller.PumpTraceFacts | platformio/soil_moisture/src/main.cpp:275-301 | the pump runs keep the power discipline, power every line down again, and number one per channel that is dry and below its ceiling |
| Controller.NoPumpWhenNoneDry | platformio/soil_moisture/src/main.cpp:277 | with no dry channel, `runPumps` runs no pump |
| Controller.NoUpdateNoneDry | platformio/soil_moisture/src/main.cpp:184-188 | when `updateState` reports no update, no channel is left dry |
| Controller.ActingFacts | platformio/soil_moisture/src/main.cpp:304-308 | the display is refreshed once when there is an update and never otherwise, and there are as many pump runs as observed channels that are dry and below their ceiling |
| Controller.CycleTraceFacts | platformio/soil_moisture/src/main.cpp:303-320 | a whole cycle keeps the power discipline and ends with every line off; it renders exactly when there was an update; it runs one pump per dry channel below its ceiling; it sleeps 600000 ms either way |
| Controller.Board.constructor | platformio/soil_moisture/src/main.cpp:84-90 | the board starts with the initial `channel_state` table, the decoder disabled and no actions |
| Controller.Board.SetDecoder | platformio/soil_moisture/src/main.cpp:126-144 | the decoder is enabled on line `val` modulo 8, with the address levels of the bit split |
| Controller.Board.DisableDecoder | platformio/soil_moisture/src/main.cpp:168 | every line is powered down; the address is kept |
| Controller.Board.UpdateState | platformio/soil_moisture/src/main.cpp:152-201 | the table becomes the channel-wise `Observe` of the old table, the result is whether any channel reported an update, the decoder ends disabled, and `SamplingTrace`, one `SamplingBlock` (select the sensor line, settle, power down; lines 156–168) per channel in order, is recorded; the returned flag is the loop's OR `UpdateAmong` |
| Controller.Board.SampleChannel | platformio/soil_moisture/src/main.cpp:153-188 | one pass changes only its own record, exactly as `Observe`, and records one sampling window on the channel's sensor line |
| Controller.Board.UpdateDisplay | platformio/soil_moisture/src/main.cpp:306 | a display refresh showing the current records is recorded |
| Controller.Board.RunPumps | platformio/soil_moisture/src/main.cpp:275-301 | every record becomes its `Pumped` form, the decoder ends disabled, and `PumpTrace` is recorded: one `PumpBlock` (select the pump line, run, power down; lines 287–289) per channel that receives an attempt, in order |
| Controller.Board.PumpChannel | platformio/soil_moisture/src/main.cpp:277-290 | one pass changes only its own record, exactly as `Pumped`, and records a pump run on the channel's pump line when it pumps |
| Controller.Board.Loop | platformio/soil_moisture/src/main.cpp:303-320 | one call leaves the table as `CycleChannels` and appends `CycleTrace`: sampling, then `ActingTrace` (the refresh and pumps, only on an update), then the sleeps |
| Controller.Board.SleepTenMinutes | platformio/soil_moisture/src/main.cpp:315-318 | `Sleeps`: 75 calls of an 8000 ms watchdog sleep are recorded |

## Left out

- `updateDisplay` (lines 204–272) draws on the e-ink display through the
  Adafruit library, with floating-point bar scaling. The model records a
  refresh event carrying the records shown. The display's colour rules are
  the predicates `Channels.IsDry` and `Channels.IsExhausted`.
- `setup` (lines 96–114) is pin modes, the clock-divider register writes
  and display initialisation: hardware set-up with no logic. The model
  starts from the state `setup` leaves, with the decoder disabled.
- `clk_scaler` (lines 61–62) and the durations of `delay`: the model
  records that a settling delay or a pump run happens, and the pump run's
  length in seconds, but not the scaled milliseconds.
- The `DEBUG` build (serial output, and the one-second delay in place of
  the watchdog sleeps, lines 309–313) and `VERSION`: `DEBUG` is not defined
  in the firmware as shipped.
- `analogRead`, `digitalWrite`, `delay` and `Watchdog.sleep` are foreign
  hardware calls. Readings are an input window per channel. The other calls
  are events in the trace. The interleaving of sensor and reference reads
  within a window is not recorded as events.
- The three `digitalWrite` calls on the address pins in `setDecoder` are
  modelled as one update of the address. The intermediate pin levels are
  not modelled; the decoder is disabled while they are written.
- `Calibration.ConvertMeasurementToPercent`: computed in exact arithmetic,
  not in single-precision floating point. It does not claim bit-exact
  agreement with the firmware where the line meets an integer exactly.
- `Channels.Channel`: `sensor_analog_pin` holds k for the analog input Ak,
  rather than the board's pin number for it.
- The loop counters of `updateState`, `runPumps` and `loop` are `uint8_t`.
  They never exceed 75, so they are unbounded integers in the model.
- The display, its pins and the e-ink controller constants are not part of
  this model.
