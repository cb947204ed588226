# GPSTimer in Dafny

This project models the GPSTimer library for AVR (ATmega328P) Arduino boards. GPSTimer disciplines the 16 MHz oscillator against a GPS one-pulse-per-second (PPS) reference. Timer1 runs free with prescaler 1:

- **PPS edge.** The input-capture interrupt (`ppsEvent`) stamps each edge. The overflow interrupt (`incrementOvf`) counts timer periods. Two consecutive edges calibrate the number of oscillator ticks per second.
- **Polled `update()`.** It takes a new fix early in the second, recomputes the square-wave parameters, and drops calibration once the reference has been silent for 32,000,000 ticks.
- **Square wave.** Optionally the compare-match interrupt (`sendWave`) toggles an output pin. A correction accumulator in `nextWaveInterrupt` spreads the remainder of the tick division over the second.
- **Data pin.** On the wave's high phases, `sendDataBit` shifts out a 98-bit frame: a start bit, the 64-bit location word, the 32-bit time, and an end bit. Each bit is held for `dataInterval` high phases.

All arithmetic is at the source's widths. On AVR `int` is 16 bits, so:

- `frequency*2`, `pulseLength*(frequency*2)`, the projected correction and `pulseLength*pulseCount` all wrap at 2^16;
- `totalCycles` wraps at 2^32.

Every truncation is written out with `Uint.Wrap8`/`Wrap16`/`Wrap32`.

## Layout

- `uint.dfy`: the unsigned newtypes `u8`, `u16`, `u32`, `u64` and the wrap-around functions.
- `wrappers.dfy`: `Option`.
- `clock.dfy` (module `Clock`): `totalCycles`, `adjustedMicros`, `microsecond` and `calibrateSecond` as functions, with a replay of edge and stale events.
- `wave.dfy` (module `Wave`): `calibrateWave` and one `nextWaveInterrupt` step as functions. It also holds the accumulator invariant and the lemmas about a whole second of compare-matches.
- `data_frame.dfy` (module `DataFrame`): `sendDataBit` as a state-machine function. It also holds the frame layout, its decoder, and the lemmas relating runs of high phases to the frame on the pin.
- `gps_timer.dfy` (module `GpsTimer`): class `Timer`.
  - The class holds the library's static fields.
  - It has one method per handler and per public operation. Each method body follows the source statement by statement.
  - Each method's `ensures` ties the new state to the functions above, whose properties are proved there.
  - Hardware registers and TimeLib's `now()` are parameters: `TCNT1` as `tcnt`/`tcntLater`, `ICR1` as `icr1`. `OCR1A` is the field `ocr1a`. Every `digitalWrite` is appended to the ghost log `writes`.

The statics that the source always handles together are grouped in record-valued fields. The record fields keep the source's names and widths:

- `calibration`: calibrateFlag, cyclesPerSecond, calcFlag;
- `timing`: pulseLength, pulseLengthError;
- `schedule`: pulseCount, errorCorrection, correctionSum, projectedCorrection;
- `encoder`: dataBuffer, dataRemaining, dataCount, dataType, dataFinished;
- `fix`: timeValid, locValid, latBin, lngBin.

Where the design description and the code differ, the model follows the code:

- **Frame layout.** The frame is 1 + 64 + 32 + 1 = 98 bits. Its time field is the 32-bit `now()` value, not a packed 44-bit calendar field.
- **Location word.** The location word is `(lngBin << 32) + latBin`. Sent least significant bit first, the latitude pattern goes out first.
- **When fields are read.** The location and time are read when their field is loaded into the shift register, during the frame. They are not snapshotted when the frame starts.
- **When the wave restarts.** An edge restarts the wave only if the reference was already active before it (GPSTimer.cpp:121).
- **Data-pin gating.** The data pin is not gated on the reference being active; only `waveEnabled` and `dataEnabled` gate it.
- **`pulseLength` width.** `pulseLength` is 16 bits. At 1 Hz and 16,000,003 ticks the stored pulse length is 4609, not 8,000,001 (`Wave.OneHertzCalibration`).
- **`getDataEnabled`.** It returns `waveEnabled`.
- **`dataInterval` of 0.** An interval of 0 is accepted. The source compares `dataCount == dataInterval - 1` in `int`, so that bit is then never shifted out; this is modelled, not excluded.

## Model

| member | source | states |
|---|---|---|
| Clock.TotalCycles | GPSTimer.cpp:249-251 | the 32-bit result is congruent to ovfCount*65536 + timestamp - ppsStamp modulo 2^32, and equals it when that count is in range |
| Clock.OverflowAddsOnePeriod | GPSTimer.cpp:310-312 | one overflow interrupt (with the 16-bit counter wrapping) moves totalCycles on by exactly 65536 ticks modulo 2^32 |
| Clock.AdjustedMicros | GPSTimer.cpp:254-260 | when the quotient fits in 32 bits, the result is the floor of cycles*10^6/cyclesPerSecond: r*cps <= cycles*10^6 < (r+1)*cps |
| Clock.Microsecond | GPSTimer.cpp:329-332 | never 1,000,000 or more; equals min(cycles*10^6/cyclesPerSecond, 999,999) when the quotient fits in 32 bits |
| Clock.MicrosecondIsMonotone | GPSTimer.cpp:329-332 | a later timer reading in the same second never gives a smaller microsecond value |
| Clock.MicrosecondWithinSecond | GPSTimer.cpp:254-260 | before a full calibrated second has elapsed the clamp is not reached and the result is the exact rounded-down fraction |
| Clock.CalibrateSecond | GPSTimer.cpp:266-278 | an armed discipline takes the measured ticks as the rate and raises calcFlag; an unarmed one keeps rate and calcFlag; both end armed |
| Clock.RateIsLastInterval | GPSTimer.cpp:266-278 | after any history, two consecutive edges leave the rate equal to the ticks of the last second with a recalculation pending |
| Clock.StaleThenLoneEdgeKeepsRate | GPSTimer.cpp:82-89 | after a stale reset a single edge re-arms calibration without changing the rate |
| Wave.HalfPulses | GPSTimer.cpp:239 | frequency*2 in 16 bits: exactly 2f below 32768, and zero exactly for frequency 0 or 32768 |
| Wave.CalibrateWave | GPSTimer.cpp:238-241 | pulseLength*2f + pulseLengthError equals cyclesPerSecond modulo 2^16; when the quotient fits in 16 bits, they are exactly the quotient and remainder with pulseLengthError < 2f |
| Wave.OneHertzCalibration | GPSTimer.cpp:238-241 | at 1 Hz and 16,000,003 ticks the stored fields are the truncated 4609 and remainder 1 |
| Wave.Advance | GPSTimer.cpp:285-297 | pulseCount steps by 1; errorCorrection goes up, down (wrapping) or stays as the projection is below, above or at pulseLengthError; correctionSum adds the new errorCorrection |
| Wave.ZeroRemainderKeepsCorrectionZero | GPSTimer.cpp:281-300 | with no remainder and cleared counters, errorCorrection and correctionSum stay 0 for any number of compare-matches |
| Wave.ProjectionOnTrack | GPSTimer.cpp:286 | while the accumulator is on track, the 16-bit projection does not wrap |
| Wave.AdvanceKeepsOnTrack | GPSTimer.cpp:286-297 | one compare-match preserves the accumulator invariant (correction 0 or 1, the sum has not wrapped, the projection steers toward the remainder) |
| Wave.AccumulatorOnTrack | GPSTimer.cpp:281-300 | after k of the second's half-pulses, starting from an edge, the accumulator invariant holds |
| Wave.IntendedSecondIsExact | GPSTimer.cpp:297 | after the second's 2f half-pulses, correctionSum has distributed the whole remainder: pulseLength*2f + correctionSum = pulseLength*2f + pulseLengthError |
| Wave.IntendedHalfPulseWithinOneTick | GPSTimer.cpp:281-300 | each half-pulse placed by pulseLength*pulseCount + correctionSum is pulseLength or pulseLength+1 ticks long |
| Wave.IntendedWaveSpansSecond | GPSTimer.cpp:238-241 | with calibrateWave's fields, the last target placed by correctionSum falls exactly cyclesPerSecond ticks after the edge |
| Wave.AsWrittenSecondFallsShort | GPSTimer.cpp:299 | as written, the last target of the second is offset by the final errorCorrection (0 or 1), not by pulseLengthError |
| Wave.AsWrittenOneHertzCounterexample | GPSTimer.cpp:299 | at 1 Hz with a one-tick remainder, the as-written target after both half-pulses is one tick before the intended one |
| DataFrame.Load | GPSTimer.cpp:190-222 | loading a field always leaves bits to send, so the nested sendDataBit takes the emitting branch and recursion is at most two deep |
| DataFrame.HighPhase | GPSTimer.cpp:176-231 | with bits left: writes dataBuffer & 1, and shifts and decrements exactly when dataCount == dataInterval-1, else increments dataCount; with none and a field due: writes that field's low bit and advances dataType; otherwise marks the frame finished without writing |
| DataFrame.Step | GPSTimer.cpp:232-234 | in the low phase only the data pin is driven low; nothing else changes |
| DataFrame.FrameBits | GPSTimer.cpp:190-221 | the frame on the pin is 98 bits long |
| DataFrame.BitsRoundTrip | GPSTimer.cpp:178-189 | shifting n bits out least significant first and reassembling them gives the value back |
| DataFrame.FromBitsRoundTrip | GPSTimer.cpp:178-189 | the shift-register decode of any bit string, re-encoded at the same width, gives the string back |
| DataFrame.DecodeSentFrame | GPSTimer.cpp:190-221 | decoding a sent frame recovers exactly its location and time |
| DataFrame.DecodedFrameIsSent | GPSTimer.cpp:190-221 | every bit string the decoder accepts is the frame it decodes to |
| DataFrame.HoldBit | GPSTimer.cpp:182-189 | from dataCount = c the current bit is written dataInterval - c more times and then shifted out |
| DataFrame.ShiftOut | GPSTimer.cpp:178-189 | k bits in the register take k*dataInterval high phases, each bit written dataInterval times, LSB first |
| DataFrame.SendField | GPSTimer.cpp:190-228 | from an empty register, a field's width*dataInterval high phases write its bits stretched and leave the next field due |
| DataFrame.FrameRun | GPSTimer.cpp:190-231 | 98*dataInterval high phases from dataType 0 write the whole frame, each bit held dataInterval times |
| DataFrame.SendFrame | GPSTimer.cpp:190-231 | after the frame, the next high phase marks it finished without writing, and nothing is written afterwards |
| DataFrame.FinishedStaysSilent | GPSTimer.cpp:146-148 | once the frame is finished, sendWave no longer calls sendDataBit, so high phases write nothing |
| DataFrame.EdgeAsWritten | GPSTimer.cpp:121-138 | an edge always leaves dataType 0; with data output disabled it only clears dataFinished and writes nothing |
| DataFrame.AsWrittenEdgeAfterFrameIsSilent | GPSTimer.cpp:121-138 | as written, an edge after a completed frame re-marks it finished: nothing is written during the next second |
| DataFrame.AsWrittenEdgeRepeatsStartBit | GPSTimer.cpp:121-138 | as written, an edge on a cleared register sends the start bit, then the whole frame: one extra start bit |
| DataFrame.IntendedEdgeSendsOneFrame | GPSTimer.cpp:121-138 | with dataType reset before the restarting sendWave, each second writes exactly one frame and then finishes |
| GpsTimer.Timer.constructor | GPSTimer.cpp:9-38 | the static initial values, with OCR1A = 0 as begin() sets it |
| GpsTimer.Timer.Microsecond | GPSTimer.cpp:329-332 | below one second, and equal to Clock.Microsecond of the current cycle count and rate |
| GpsTimer.Timer.GetDataEnabled | GPSTimer.cpp:306-308 | reports waveEnabled, not dataEnabled |
| GpsTimer.Timer.Update | GPSTimer.cpp:68-90 | a new fix is taken only below 4,000,000 ticks with a fresh GPS time; a pending calcFlag recomputes the wave and is cleared; past 32,000,000 ticks the overflow count, calibrateFlag and ppsActive are cleared, otherwise kept |
| GpsTimer.Timer.SetGpsInfo | GPSTimer.cpp:314-327 | stores the validity flags and the coordinate bit patterns |
| GpsTimer.Timer.EnableWave | GPSTimer.cpp:93-95 | raises waveEnabled |
| GpsTimer.Timer.EnableWaveWith | GPSTimer.cpp:96-105 | sets pin and frequency, raises waveEnabled and recalculates the wave at once |
| GpsTimer.Timer.DisableWave | GPSTimer.cpp:108-110 | clears waveEnabled only |
| GpsTimer.Timer.EnableData | GPSTimer.cpp:153-156 | raises both waveEnabled and dataEnabled |
| GpsTimer.Timer.EnableDataWith | GPSTimer.cpp:157-166 | sets the pin, stores the 16-bit interval truncated to 8 bits, raises both flags |
| GpsTimer.Timer.DisableData | GPSTimer.cpp:169-171 | clears dataEnabled only |
| GpsTimer.Timer.IncrementOvf | GPSTimer.cpp:310-312 | the overflow count goes up by one modulo 2^16 |
| GpsTimer.Timer.CalibrateSecond | GPSTimer.cpp:266-278 | the calibration fields become Clock.CalibrateSecond of the old ones |
| GpsTimer.Timer.CalibrateSecondNow | GPSTimer.cpp:263-265 | calibrates with the cycle count at the current TCNT1 |
| GpsTimer.Timer.CalibrateWave | GPSTimer.cpp:238-241 | the timing fields become Wave.CalibrateWave of the rate and frequency |
| GpsTimer.Timer.NextWaveInterrupt | GPSTimer.cpp:281-300 | writes the wave level, advances the schedule by Wave.Advance and sets OCR1A to pulseLength*pulseCount + errorCorrection in 16 bits |
| GpsTimer.Timer.LoadField | GPSTimer.cpp:190-222 | the switch on dataType loads DataFrame.Load of the current field |
| GpsTimer.Timer.SendDataBit | GPSTimer.cpp:174-235 | the encoder and the data-pin log change as DataFrame.Step describes, including the nested call after a load |
| GpsTimer.Timer.SendWave | GPSTimer.cpp:142-150 | disabled, it changes nothing; enabled, it toggles waveState once, advances the schedule, and runs sendDataBit only if dataEnabled and not finished |
| GpsTimer.Timer.RestartWave | GPSTimer.cpp:121-129 | clears the counters and dataFinished, then one sendWave: the wave goes high and the encoder takes DataFrame.EdgeAsWritten's step |
| GpsTimer.Timer.PpsEvent | GPSTimer.cpp:113-139 | calibrates on the edge's cycle count; afterwards ppsStamp = ICR1, ovfCount = 0, ppsActive, dataType = 0 and totalCycles(ICR1) = 0; the wave restarts only if waveEnabled and the previous ppsActive were both true, otherwise the wave, schedule, OCR1A and pin log are unchanged |

## Left out

- `begin()` (GPSTimer.cpp:53-65) and the ISR vectors (GPSTimer.cpp:357-367): hardware set-up. The environment calls `PpsEvent`, `SendWave` and `IncrementOvf` in their place.
- Interrupt preemption and `cli`/`sei`: every handler and every `Update` is one indivisible method call. Races between an edge and an overflow at a timer wrap are not modelled.
- Timer1 itself: when a compare match fires relative to `TCNT1`, and hence how `OCR1A` (which is not offset by `ppsStamp`) maps to real time, is not modelled. `ocr1a` holds the value the code writes.
- `setGPS`, the TinyGPSPlus calls and TimeLib's `setTime` inside `setGPSInfo` (GPSTimer.cpp:314-327): foreign code. `Update` receives whether the GPS time was updated and the fix it would store.
- The float `lat`/`lng` fields and the union that reinterprets a float as `uint32_t` (GPSTimer.cpp:42-45): floating point. `latBin` and `lngBin` are opaque 32-bit words.
- TimeLib's `now()`: a clock. It is the parameter `now`.
- `digitalWrite`: only its pin and level are recorded, in the ghost log `writes`.
- The getters `getWaveEnabled`, `getCyclesPerSecond`, `getPulseLength`, `getPulseLengthError`, `isPPSActive` and `isTimeValid` (GPSTimer.cpp:302-354): each returns one field unchanged.
- `totalCycles()` with no argument (GPSTimer.cpp:244-246): it is `TotalCyclesAt` applied to a `TCNT1` parameter.
- GPSTimer.h is not part of this model. Its calendar fields and `add*` functions have no definitions in GPSTimer.cpp.
- Clock.TotalCycles: `ovfCount*65536` is a signed 32-bit product in C, and above 2^31 it is undefined behaviour. The model takes the two's-complement wrap that the compiler produces, i.e. the result modulo 2^32.
- Wave.CalibrateWave: the exact quotient-and-remainder split is proved only when the quotient fits in 16 bits. Otherwise only the modulo-2^16 identity is stated, because the stored fields are truncations.

## Findings

| source | as written | input that shows it | evidently intended | confidence | as-written member | corrected member |
|---|---|---|---|---|---|---|
| GPSTimer.cpp:121-138 | `ppsEvent` runs the restarting `sendWave` (and so one `sendDataBit` high phase) before it sets `dataType = 0` | data enabled, an edge after a completed frame (dataRemaining 0, dataType 4): the edge's high phase sets dataFinished again and the whole next second is silent; an edge after that silent second (dataType 0) sends the start bit twice | reset the frame (dataType, dataRemaining, dataCount) before the restarting `sendWave`, so every second carries exactly one frame | medium, not executed | DataFrame.AsWrittenEdgeAfterFrameIsSilent, DataFrame.AsWrittenEdgeRepeatsStartBit | DataFrame.IntendedEdgeSendsOneFrame |
| GPSTimer.cpp:299 | `OCR1A = pulseLength*pulseCount + errorCorrection` | frequency 1, pulseLengthError 1: after both half-pulses errorCorrection is 0 and correctionSum is 1, so the target is 2*pulseLength instead of 2*pulseLength + 1 | `pulseLength*pulseCount + correctionSum`: the accumulator is built so that correctionSum reaches pulseLengthError at the end of the second and each half-pulse lasts pulseLength or pulseLength + 1 | medium, not executed | Wave.AsWrittenSecondFallsShort, Wave.AsWrittenOneHertzCounterexample | Wave.IntendedSecondIsExact, Wave.IntendedHalfPulseWithinOneTick, Wave.IntendedWaveSpansSecond |

Class `Timer` keeps both lines as the code has them. `PpsEvent` uses `DataFrame.EdgeAsWritten`, and `NextWaveInterrupt` sets `Wave.AsWrittenTarget`. The corrected definitions, `DataFrame.EdgeIntended` and `Wave.IntendedTarget`, carry the intended properties.
