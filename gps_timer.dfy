/**
  The GPSTimer class: its static fields and the handlers that change them.
  Each hardware interrupt handler (input capture -> PpsEvent, compare match
  -> SendWave, overflow -> IncrementOvf) and each foreground Update call is
  one indivisible method call. The hardware registers TCNT1 and ICR1 are
  parameters, TimeLib's now() is the parameter `now`, and every digitalWrite
  is appended to the ghost log `writes`.

  Statics that the source always reads and writes together are held in one
  record-valued field each: `calibration` (calibrateFlag, cyclesPerSecond,
  calcFlag), `timing` (pulseLength, pulseLengthError), `schedule`
  (pulseCount, errorCorrection, correctionSum, projectedCorrection),
  `encoder` (dataBuffer, dataRemaining, dataCount, dataType, dataFinished)
  and `fix` (timeValid, locValid, latBin, lngBin).
*/
module GpsTimer {
  import opened Uint
  import opened Wrappers
  import Clock
  import Wave
  import DataFrame

  /** One digitalWrite: the pin and the level driven onto it. */
  datatype PinWrite = PinWrite(pin: u8, level: bool)

  /** The parts of a navigation fix that setGPSInfo stores. */
  datatype GpsFix = GpsFix(timeValid: bool, locValid: bool, latBin: u32, lngBin: u32)

  /** The data-pin writes of one sendDataBit call. */
  function DataWrites(pin: u8, out: Option<bool>): seq<PinWrite> {
    if out.Some? then [PinWrite(pin, out.value)] else []
  }

  class Timer {
    var ppsActive: bool
    var wavePin: u8
    var waveEnabled: bool
    var frequency: u16
    var waveState: bool
    var ovfCount: u16
    var ppsStamp: u16
    var calibration: Clock.Discipline
    var timing: Wave.WaveTiming
    var schedule: Wave.Schedule
    var dataPin: u8
    var dataEnabled: bool
    var dataInterval: u8
    var encoder: DataFrame.EncoderState
    var fix: GpsFix
    /** Timer1's output-compare register A. */
    var ocr1a: u16
    /** Every digitalWrite so far, oldest first. */
    ghost var writes: seq<PinWrite>

    /** calibrateWave divides by frequency*2, which must not be zero in 16 bits. */
    ghost predicate Valid()
      reads this`frequency
    {
      Wave.HalfPulses(frequency) > 0
    }

    /** What sendDataBit reads when it loads a field, with now() = now. */
    function SourceAt(now: u32): DataFrame.FrameSource
      reads this`fix
    {
      DataFrame.FrameSource(fix.locValid, fix.latBin, fix.lngBin, fix.timeValid, now)
    }

    /** The static initialisers, and begin()'s OCR1A = 0. */
    constructor ()
      ensures Valid()
      ensures !ppsActive && wavePin == 5 && !waveEnabled && frequency == 1 && !waveState
      ensures ovfCount == 0 && ppsStamp == 0
      ensures calibration == Clock.Discipline(false, 16000000, false)
      ensures timing == Wave.WaveTiming(0, 0) && schedule == Wave.Schedule(0, 0, 0, 0)
      ensures dataPin == 6 && !dataEnabled && dataInterval == 1
      ensures encoder == DataFrame.EncoderState(0, 0, 0, DataFrame.FIELD_COUNT, true)
      ensures fix == GpsFix(false, false, 0, 0) && ocr1a == 0 && writes == []
    {
      ppsActive, wavePin, waveEnabled, frequency, waveState := false, 5, false, 1, false;
      ovfCount, ppsStamp := 0, 0;
      calibration := Clock.Discipline(false, 16000000, false);
      timing := Wave.WaveTiming(0, 0);
      schedule := Wave.Schedule(0, 0, 0, 0);
      dataPin, dataEnabled, dataInterval := 6, false, 1;
      encoder := DataFrame.EncoderState(0, 0, 0, DataFrame.FIELD_COUNT, true);
      fix := GpsFix(false, false, 0, 0);
      ocr1a := 0;
      writes := [];
    }

    /** totalCycles(timestamp). */
    function TotalCyclesAt(timestamp: u32): u32
      reads this`ovfCount, this`ppsStamp
    {
      Clock.TotalCycles(ovfCount, ppsStamp, timestamp)
    }

    /** adjustedMicros(), reading TCNT1 as tcnt. */
    function AdjustedMicros(tcnt: u16): u32
      reads this`ovfCount, this`ppsStamp, this`calibration
      requires calibration.cyclesPerSecond > 0
    {
      Clock.AdjustedMicros(TotalCyclesAt(tcnt as u32), calibration.cyclesPerSecond)
    }

    /** microsecond(), reading TCNT1 as tcnt: never a whole second or more. */
    function Microsecond(tcnt: u16): (r: u32)
      reads this`ovfCount, this`ppsStamp, this`calibration
      requires calibration.cyclesPerSecond > 0
      ensures r as int < Clock.MICROS_PER_SECOND
      ensures r == Clock.Microsecond(TotalCyclesAt(tcnt as u32), calibration.cyclesPerSecond)
    {
      var microTime := AdjustedMicros(tcnt);
      if microTime as int < Clock.MICROS_PER_SECOND then microTime else Clock.MAX_MICROSECOND
    }

    /** getDataEnabled(): reports the wave flag, not dataEnabled. */
    function GetDataEnabled(): (r: bool)
      reads this`waveEnabled
      ensures r == waveEnabled
    {
      waveEnabled
    }

    /**
      update(), polled from the foreground. It reads TCNT1 twice, as tcnt
      and later as tcntLater: it takes a new fix early in the second, runs a
      pending wave recalculation, and drops calibration once the reference
      has been silent too long.
    */
    method Update(tcnt: u16, gpsTimeUpdated: bool, newFix: GpsFix, tcntLater: u16)
      requires calibration.calcFlag ==> Valid()
      modifies this`fix, this`timing, this`calibration, this`ovfCount, this`ppsActive
      ensures fix == if old(TotalCyclesAt(tcnt as u32)) < Clock.FIX_WINDOW && gpsTimeUpdated then newFix else old(fix)
      ensures timing == if old(calibration.calcFlag) then Wave.CalibrateWave(calibration.cyclesPerSecond, frequency) else old(timing)
      ensures calibration.cyclesPerSecond == old(calibration.cyclesPerSecond) && !calibration.calcFlag
      ensures old(TotalCyclesAt(tcntLater as u32)) > Clock.STALE_LIMIT ==>
                ovfCount == 0 && !calibration.calibrateFlag && !ppsActive
      ensures old(TotalCyclesAt(tcntLater as u32)) <= Clock.STALE_LIMIT ==>
                ovfCount == old(ovfCount) && calibration.calibrateFlag == old(calibration.calibrateFlag)
                && ppsActive == old(ppsActive)
    {
      if TotalCyclesAt(tcnt as u32) < Clock.FIX_WINDOW && gpsTimeUpdated {
        SetGpsInfo(newFix);
      }
      if calibration.calcFlag {
        CalibrateWave();
        calibration := calibration.(calcFlag := false);
      }
      if TotalCyclesAt(tcntLater as u32) > Clock.STALE_LIMIT {
        ovfCount := 0;
        calibration := calibration.(calibrateFlag := false);
        ppsActive := false;
      }
    }

    /** setGPSInfo(): stores the validity flags and the coordinates' bit patterns. */
    method SetGpsInfo(newFix: GpsFix)
      modifies this`fix
      ensures fix == newFix
    {
      fix := newFix;
    }

    /** enableWave(). */
    method EnableWave()
      modifies this`waveEnabled
      ensures waveEnabled
    {
      waveEnabled := true;
    }

    /** enableWave(wavePin, frequency): configures the wave and recalculates it at once. */
    method EnableWaveWith(pin: u8, freq: u16)
      requires Wave.HalfPulses(freq) > 0
      modifies this`wavePin, this`frequency, this`waveEnabled, this`timing
      ensures Valid() && wavePin == pin && frequency == freq && waveEnabled
      ensures timing == Wave.CalibrateWave(calibration.cyclesPerSecond, freq)
    {
      wavePin := pin;
      frequency := freq;
      EnableWave();
      CalibrateWave();
    }

    /** disableWave(): a flag only; the pin keeps its last level. */
    method DisableWave()
      modifies this`waveEnabled
      ensures !waveEnabled
    {
      waveEnabled := false;
    }

    /** enableData(): data output rides on the wave, so it enables both. */
    method EnableData()
      modifies this`waveEnabled, this`dataEnabled
      ensures waveEnabled && dataEnabled
    {
      EnableWave();
      dataEnabled := true;
    }

    /** enableData(dataPin, dataInterval): the 16-bit interval is stored in 8 bits. */
    method EnableDataWith(pin: u8, interval: u16)
      modifies this`dataPin, this`dataInterval, this`waveEnabled, this`dataEnabled
      ensures dataPin == pin && dataInterval as int == interval as int % TWO_8
      ensures waveEnabled && dataEnabled
    {
      dataPin := pin;
      dataInterval := Wrap8(interval as int);
      EnableData();
    }

    /** disableData(). */
    method DisableData()
      modifies this`dataEnabled
      ensures !dataEnabled
    {
      dataEnabled := false;
    }

    /** incrementOvf(): the overflow handler; the 16-bit counter wraps. */
    method IncrementOvf()
      modifies this`ovfCount
      ensures ovfCount as int == (old(ovfCount) as int + 1) % TWO_16
    {
      ovfCount := Wrap16(ovfCount as int + 1);
    }

    /** calibrateSecond(cycles). */
    method CalibrateSecond(cycles: u32)
      modifies this`calibration
      ensures calibration == Clock.CalibrateSecond(old(calibration), cycles)
    {
      if calibration.calibrateFlag {
        calibration := calibration.(cyclesPerSecond := cycles);
        calibration := calibration.(calcFlag := true);
      }
      calibration := calibration.(calibrateFlag := true);
    }

    /** calibrateSecond() with TCNT1 = tcnt. */
    method CalibrateSecondNow(tcnt: u16)
      modifies this`calibration
      ensures calibration == Clock.CalibrateSecond(old(calibration), TotalCyclesAt(tcnt as u32))
    {
      CalibrateSecond(TotalCyclesAt(tcnt as u32));
    }

    /** calibrateWave(). */
    method CalibrateWave()
      requires Valid()
      modifies this`timing
      ensures timing == Wave.CalibrateWave(calibration.cyclesPerSecond, frequency)
    {
      var halfPulses := Wave.HalfPulses(frequency) as int;
      var cyclesPerSecond := calibration.cyclesPerSecond as int;
      var pulseLength := Wrap16(cyclesPerSecond / halfPulses);
      timing := Wave.WaveTiming(pulseLength, Wrap16(Wrap32(cyclesPerSecond - Wrap16(pulseLength as int * halfPulses) as int) as int));
    }

    /** nextWaveInterrupt(): drives the wave pin and programs the next compare target. */
    method NextWaveInterrupt()
      modifies this`schedule, this`ocr1a, this`writes
      ensures writes == old(writes) + [PinWrite(wavePin, waveState)]
      ensures schedule == Wave.Advance(old(schedule), timing, frequency)
      ensures ocr1a == Wave.AsWrittenTarget(schedule, timing)
    {
      writes := writes + [PinWrite(wavePin, waveState)];
      var s := schedule;
      var remaining := Wrap16(Wave.HalfPulses(frequency) as int - s.pulseCount as int);
      s := s.(projectedCorrection := Wrap16(s.correctionSum as int + s.errorCorrection as int * remaining as int));
      if s.projectedCorrection < timing.pulseLengthError {
        s := s.(errorCorrection := Wrap16(s.errorCorrection as int + 1));
      } else if s.projectedCorrection > timing.pulseLengthError {
        s := s.(errorCorrection := Wrap16(s.errorCorrection as int - 1));
      }
      s := s.(pulseCount := Wrap16(s.pulseCount as int + 1));
      s := s.(correctionSum := Wrap16(s.correctionSum as int + s.errorCorrection as int));
      schedule := s;
      ocr1a := Wrap16(timing.pulseLength as int * s.pulseCount as int + s.errorCorrection as int);
    }

    /** sendDataBit's switch on dataType: the next field enters the shift register. */
    method LoadField(now: u32)
      requires encoder.dataType < DataFrame.FIELD_COUNT
      modifies this`encoder
      ensures encoder == DataFrame.Load(old(encoder), SourceAt(now))
    {
      var e := encoder;
      if e.dataType == 0 {
        e := e.(buffer := 1, remaining := 1);
      } else if e.dataType == 1 {
        if fix.locValid {
          e := e.(buffer := (fix.lngBin as int * TWO_32 + fix.latBin as int) as u64);
        } else {
          e := e.(buffer := 0);
        }
        e := e.(remaining := 64);
      } else if e.dataType == 2 {
        if fix.timeValid {
          e := e.(buffer := now as u64);
        } else {
          e := e.(buffer := 0);
        }
        e := e.(remaining := 32);
      } else {
        e := e.(buffer := 1, remaining := 1);
      }
      encoder := e;
    }

    /**
      sendDataBit(), reading TimeLib's now() as `now`. The recursive call
      follows a load, which always leaves bits to send, so the measure drops
      from 1 to 0 and the recursion is at most two calls deep.
    */
    method SendDataBit(now: u32)
      modifies this`encoder, this`writes
      decreases if waveState && encoder.remaining == 0 then 1 else 0
      ensures var (next, out) := DataFrame.Step(old(encoder), waveState, dataInterval, SourceAt(now));
              encoder == next && writes == old(writes) + DataWrites(dataPin, out)
    {
      if waveState {
        if encoder.remaining > 0 {
          writes := writes + [PinWrite(dataPin, encoder.buffer % 2 == 1)];
          if encoder.count as int == dataInterval as int - 1 {
            encoder := encoder.(buffer := encoder.buffer / 2, remaining := encoder.remaining - 1, count := 0);
          } else {
            encoder := encoder.(count := Wrap8(encoder.count as int + 1));
          }
        } else if encoder.dataType < DataFrame.FIELD_COUNT {
          ghost var start := encoder;
          LoadField(now);
          SendDataBit(now);
          assert encoder.dataType == start.dataType;
          encoder := encoder.(dataType := encoder.dataType + 1);
        } else {
          encoder := encoder.(finished := true);
        }
      } else {
        writes := writes + [PinWrite(dataPin, false)];
      }
    }

    /**
      sendWave(): the compare-match handler. With the wave disabled it
      changes nothing; otherwise it toggles the wave, schedules the next
      compare and passes the phase to the data encoder until the frame is
      finished.
    */
    method SendWave(now: u32)
      modifies this`waveState, this`schedule, this`ocr1a, this`encoder, this`writes
      ensures !waveEnabled ==> unchanged(this)
      ensures waveEnabled ==>
                waveState == !old(waveState)
                && schedule == Wave.Advance(old(schedule), timing, frequency)
                && ocr1a == Wave.AsWrittenTarget(schedule, timing)
      ensures waveEnabled ==>
                var (next, out) :=
                  if dataEnabled && !old(encoder.finished)
                  then DataFrame.Step(old(encoder), waveState, dataInterval, SourceAt(now))
                  else (old(encoder), None);
                encoder == next && writes == old(writes) + [PinWrite(wavePin, waveState)] + DataWrites(dataPin, out)
    {
      if waveEnabled {
        waveState := !waveState;
        NextWaveInterrupt();
        if dataEnabled && !encoder.finished {
          SendDataBit(now);
        }
      }
    }

    /**
      The restarting branch of ppsEvent: the wave goes low, the counters
      and the finished flag are cleared and sendWave runs at once, so the
      edge itself is the second's first rising toggle.
    */
    method RestartWave(now: u32)
      requires waveEnabled
      modifies this`waveState, this`schedule, this`ocr1a, this`encoder, this`writes
      ensures waveState
      ensures schedule == Wave.Advance(Wave.Restart(old(schedule)), timing, frequency)
      ensures ocr1a == Wave.AsWrittenTarget(schedule, timing)
      ensures var (next, out) := DataFrame.EdgeAsWritten(old(encoder), dataEnabled, dataInterval, SourceAt(now));
              encoder.(dataType := 0) == next
              && writes == old(writes) + [PinWrite(wavePin, true)] + DataWrites(dataPin, out)
    {
      waveState := false;
      schedule := schedule.(pulseCount := 0, errorCorrection := 0, correctionSum := 0);
      encoder := encoder.(finished := false);
      SendWave(now);
    }

    /**
      ppsEvent(), the input-capture handler with ICR1 = icr1: calibrates
      against the ticks since the previous edge, stamps the edge, restarts
      the wave (only when the reference was already active) and points the
      encoder back at the start of the frame.
    */
    method PpsEvent(icr1: u16, now: u32)
      modifies this`calibration, this`ppsStamp, this`ovfCount, this`ppsActive
      modifies this`waveState, this`schedule, this`ocr1a, this`encoder, this`writes
      ensures calibration == Clock.CalibrateSecond(old(calibration), old(TotalCyclesAt(icr1 as u32)))
      ensures ppsStamp == icr1 && ovfCount == 0 && ppsActive && encoder.dataType == 0
      ensures TotalCyclesAt(icr1 as u32) == 0
      ensures old(waveEnabled && ppsActive) ==>
                waveState
                && schedule == Wave.Advance(Wave.Restart(old(schedule)), timing, frequency)
                && ocr1a == Wave.AsWrittenTarget(schedule, timing)
      ensures old(waveEnabled && ppsActive) ==>
                var (next, out) := DataFrame.EdgeAsWritten(old(encoder), dataEnabled, dataInterval, SourceAt(now));
                encoder == next && writes == old(writes) + [PinWrite(wavePin, true)] + DataWrites(dataPin, out)
      ensures !old(waveEnabled && ppsActive) ==>
                unchanged(this`waveState, this`schedule, this`ocr1a, this`writes)
                && encoder == old(encoder).(dataType := 0)
    {
      CalibrateSecond(TotalCyclesAt(icr1 as u32));
      ppsStamp := icr1;
      if waveEnabled && ppsActive {
        RestartWave(now);
      }
      ovfCount := 0;
      ppsActive := true;
      encoder := encoder.(dataType := 0);
    }
  }
}
