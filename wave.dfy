/**
  Square-wave scheduler: calibrateWave splits the calibrated ticks per second
  into a half-pulse length and a remainder, and nextWaveInterrupt runs the
  correction accumulator that places each compare target.
*/
module Wave {
  import opened Uint

  /**
    frequency*2, the number of half-pulses per second, as the source
    computes it: in 16-bit unsigned arithmetic, so it is zero for a
    frequency of 0 or 32768.
  */
  function HalfPulses(frequency: u16): (r: u16)
    ensures frequency < 0x8000 ==> r as int == 2 * frequency as int
    ensures r == 0 <==> frequency == 0 || frequency == 0x8000
  {
    Wrap16(2 * frequency as int)
  }

  /** The two fields calibrateWave stores. */
  datatype WaveTiming = WaveTiming(pulseLength: u16, pulseLengthError: u16)

  /**
    calibrateWave(): pulseLength = cyclesPerSecond/(frequency*2) and
    pulseLengthError = cyclesPerSecond - pulseLength*(frequency*2), both
    stored in 16 bits, the product also taken in 16 bits. The two fields
    always account for the whole second modulo 2^16; when the quotient fits
    in 16 bits they are the exact quotient and remainder.
  */
  function CalibrateWave(cyclesPerSecond: u32, frequency: u16): (r: WaveTiming)
    requires HalfPulses(frequency) > 0
    ensures (r.pulseLength as int * HalfPulses(frequency) as int + r.pulseLengthError as int) % TWO_16
            == cyclesPerSecond as int % TWO_16
    ensures cyclesPerSecond as int / HalfPulses(frequency) as int < TWO_16 ==>
              r.pulseLength as int * HalfPulses(frequency) as int + r.pulseLengthError as int == cyclesPerSecond as int
              && r.pulseLengthError < HalfPulses(frequency)
  {
    var halfPulses := HalfPulses(frequency) as int;
    var pulseLength := Wrap16(cyclesPerSecond as int / halfPulses);
    var product := Wrap16(pulseLength as int * halfPulses);
    var pulseLengthError := Wrap16(Wrap32(cyclesPerSecond as int - product as int) as int);
    ErrorIsResidue(cyclesPerSecond as int, pulseLength as int * halfPulses, pulseLengthError as int);
    DivMod(cyclesPerSecond as int, halfPulses);
    CalibrationAccounts(cyclesPerSecond as int, halfPulses, cyclesPerSecond as int / halfPulses,
                        cyclesPerSecond as int % halfPulses, pulseLength as int, pulseLengthError as int);
    WaveTiming(pulseLength, pulseLengthError)
  }

  /**
    16,000,003 ticks at 1 Hz: the quotient 8,000,001 does not fit the
    16-bit pulseLength, so the stored fields are its truncation 4609 and
    the 16-bit remainder 1.
  */
  lemma OneHertzCalibration()
    ensures CalibrateWave(16000003, 1) == WaveTiming(4609, 1)
  {
    assert HalfPulses(1) == 2;
  }

  lemma DivMod(c: nat, d: nat)
    requires d > 0
    ensures 0 <= c / d && c == d * (c / d) + c % d && c % d < d
  {
  }

  lemma ModShift(x: int, k: int, m: nat)
    requires m > 0
    ensures (x - m * k) % m == x % m
  {
    var r, q := x % m, x / m;
    assert x == m * q + r;
    assert x - m * k == m * (q - k) + r;
    ModUnique(x - m * k, m, q - k, r);
  }

  /** Quotient and remainder are the only such pair. */
  lemma ModUnique(y: int, m: nat, a: int, r: int)
    requires m > 0 && 0 <= r < m && y == m * a + r
    ensures y % m == r && y / m == a
  {
    var a', r' := y / m, y % m;
    assert m * (a - a') == r' - r;
    if a - a' >= 1 {
      assert false;
    } else if a - a' <= -1 {
      assert false;
    }
  }

  /** The 16-bit product and the 32-bit difference do not change the residue modulo 2^16. */
  lemma ErrorIsResidue(c: int, p: int, e: int)
    requires e == ((c - p % TWO_16) % TWO_32) % TWO_16
    ensures e == (c - p) % TWO_16
  {
    var x := c - p % TWO_16;
    ModShift(x, x / TWO_32 * TWO_16, TWO_16);
    assert x % TWO_32 == x - TWO_16 * (x / TWO_32 * TWO_16);
    assert e == x % TWO_16;
    ModShift(c - p, -(p / TWO_16), TWO_16);
    assert x == (c - p) - TWO_16 * (-(p / TWO_16));
  }

  /**
    The fields calibrateWave stores, in terms of the true quotient q and
    remainder r of the ticks per second by the half-pulse count.
  */
  lemma CalibrationAccounts(c: nat, d: nat, q: nat, r: nat, pl: nat, e: int)
    requires 0 < d < TWO_16 && c == d * q + r && r < d
    requires pl == q % TWO_16 && e == (c - pl * d) % TWO_16
    ensures (pl * d + e) % TWO_16 == c % TWO_16
    ensures q < TWO_16 ==> pl * d + e == c && e < d
  {
    ResidueAccounts(c, pl * d, e);
    if q < TWO_16 {
      CalibrationExact(c, d, q, r, pl, e);
    }
  }

  /** With a quotient below 2^16 nothing is truncated: the fields are quotient and remainder. */
  lemma CalibrationExact(c: nat, d: nat, q: nat, r: nat, pl: nat, e: int)
    requires 0 < d < TWO_16 && c == d * q + r && r < d && q < TWO_16
    requires pl == q % TWO_16 && e == (c - pl * d) % TWO_16
    ensures pl * d + e == c && e < d
  {
    ModUnique(q, TWO_16, 0, q);
    assert c - pl * d == r;
    ModUnique(r, TWO_16, 0, r);
  }

  /** A residue added back to the subtracted amount restores the residue of the whole. */
  lemma ResidueAccounts(c: int, p: int, e: int)
    requires e == (c - p) % TWO_16
    ensures (p + e) % TWO_16 == c % TWO_16
  {
    var k := (c - p) / TWO_16;
    assert p + e == c - TWO_16 * k;
    ModShift(c, k, TWO_16);
  }

  /** The accumulator fields nextWaveInterrupt updates. */
  datatype Schedule = Schedule(pulseCount: u16, errorCorrection: u16, correctionSum: u16, projectedCorrection: u16)

  /** The counters as a PPS edge leaves them when it restarts the wave. */
  function Restart(s: Schedule): Schedule {
    Schedule(0, 0, 0, s.projectedCorrection)
  }

  /**
    projectedCorrection: the correction sum the second would end with if
    errorCorrection were added unchanged for each half-pulse that remains,
    all in 16-bit arithmetic.
  */
  function Projection(s: Schedule, frequency: u16): u16 {
    var remaining := Wrap16(HalfPulses(frequency) as int - s.pulseCount as int);
    Wrap16(s.correctionSum as int + s.errorCorrection as int * remaining as int)
  }

  /**
    One compare-match of nextWaveInterrupt: the correction moves one tick
    towards the remainder (and may wrap below zero), the half-pulse count
    advances and the correction is added to the running sum.
  */
  function Advance(s: Schedule, t: WaveTiming, frequency: u16): (r: Schedule)
    ensures r.pulseCount as int == (s.pulseCount as int + 1) % TWO_16
    ensures r.projectedCorrection == Projection(s, frequency)
    ensures r.projectedCorrection < t.pulseLengthError ==>
              r.errorCorrection as int == (s.errorCorrection as int + 1) % TWO_16
    ensures r.projectedCorrection > t.pulseLengthError ==>
              r.errorCorrection as int == (s.errorCorrection as int - 1) % TWO_16
    ensures r.projectedCorrection == t.pulseLengthError ==> r.errorCorrection == s.errorCorrection
    ensures r.correctionSum as int == (s.correctionSum as int + r.errorCorrection as int) % TWO_16
  {
    var projected := Projection(s, frequency);
    var correction :=
      if projected < t.pulseLengthError then Wrap16(s.errorCorrection as int + 1)
      else if projected > t.pulseLengthError then Wrap16(s.errorCorrection as int - 1)
      else s.errorCorrection;
    Schedule(Wrap16(s.pulseCount as int + 1), correction,
             Wrap16(s.correctionSum as int + correction as int), projected)
  }

  /** The compare target OCR1A as the source sets it: pulseLength*pulseCount + errorCorrection. */
  function AsWrittenTarget(s: Schedule, t: WaveTiming): u16 {
    Wrap16(t.pulseLength as int * s.pulseCount as int + s.errorCorrection as int)
  }

  /** The compare target the accumulator is built for: pulseLength*pulseCount + correctionSum. */
  function IntendedTarget(s: Schedule, t: WaveTiming): u16 {
    Wrap16(t.pulseLength as int * s.pulseCount as int + s.correctionSum as int)
  }

  /** Ticks from the edge to the intended k-th toggle, before the 16-bit truncation. */
  function IntendedOffset(s: Schedule, t: WaveTiming): int {
    t.pulseLength as int * s.pulseCount as int + s.correctionSum as int
  }

  /** The counters after k compare-matches. */
  function Run(s: Schedule, t: WaveTiming, frequency: u16, k: nat): Schedule {
    if k == 0 then s else Advance(Run(s, t, frequency, k - 1), t, frequency)
  }

  /**
    With no remainder to distribute and cleared counters, errorCorrection
    and correctionSum stay zero however many half-pulses follow, and every
    compare target is a whole number of pulse lengths.
  */
  lemma {:induction false} ZeroRemainderKeepsCorrectionZero(s: Schedule, t: WaveTiming, frequency: u16, k: nat)
    requires s.errorCorrection == 0 && s.correctionSum == 0 && t.pulseLengthError == 0
    ensures Run(s, t, frequency, k).errorCorrection == 0
    ensures Run(s, t, frequency, k).correctionSum == 0
    ensures Run(s, t, frequency, k).pulseCount as int == (s.pulseCount as int + k) % TWO_16
  {
    if k > 0 {
      ZeroRemainderKeepsCorrectionZero(s, t, frequency, k - 1);
      var p := Run(s, t, frequency, k - 1);
      assert Projection(p, frequency) == Wrap16(0);
      WrapIncrement(s.pulseCount as int + k - 1);
    }
  }

  lemma WrapIncrement(x: int)
    ensures (x % TWO_16 + 1) % TWO_16 == (x + 1) % TWO_16
  {
    ModShift(x + 1, x / TWO_16, TWO_16);
    assert x + 1 - TWO_16 * (x / TWO_16) == x % TWO_16 + 1;
  }

  /**
    Signed distance between the projected final correction sum (computed
    without wrap-around) and the remainder to distribute.
  */
  function Gap(s: Schedule, t: WaveTiming, halfPulses: int): int {
    s.correctionSum as int + s.errorCorrection as int * (halfPulses - s.pulseCount as int)
      - t.pulseLengthError as int
  }

  /**
    The accumulator's invariant after k of the second's half-pulses: the
    correction is 0 or 1, the sum has not wrapped, and the projection is
    within the number of half-pulses left of the remainder, on the side the
    current correction is steering from.
  */
  ghost predicate OnTrack(s: Schedule, t: WaveTiming, halfPulses: int, k: nat) {
    s.pulseCount as int == k && s.errorCorrection <= 1 && s.correctionSum as int <= k
    && -(halfPulses - k) <= Gap(s, t, halfPulses) <= halfPulses - k
    && (s.errorCorrection == 1 ==> Gap(s, t, halfPulses) >= 0)
    && (s.errorCorrection == 0 ==> Gap(s, t, halfPulses) <= 0)
  }

  /** On track, the 16-bit projection does not wrap. */
  lemma ProjectionOnTrack(s: Schedule, frequency: u16, k: nat)
    requires 0 < HalfPulses(frequency) < 0x8000 && k < HalfPulses(frequency) as int
    requires s.pulseCount as int == k && s.errorCorrection <= 1 && s.correctionSum as int <= k
    ensures s.errorCorrection == 0 ==> Projection(s, frequency) as int == s.correctionSum as int
    ensures s.errorCorrection == 1 ==>
              Projection(s, frequency) as int == s.correctionSum as int + (HalfPulses(frequency) as int - k)
  {
    var d := HalfPulses(frequency) as int;
    var remaining := Wrap16(d - k);
    assert remaining as int == d - k;
    if s.errorCorrection == 0 {
      assert s.errorCorrection as int * remaining as int == 0;
    } else {
      assert s.errorCorrection as int * remaining as int == d - k;
    }
  }

  /**
    One step of the accumulator in plain integers: with d half-pulses in
    the second, k of them done, correction ec, sum cs and remainder ple,
    the corrected ec2 is again 0 or 1 and the gap stays within reach.
  */
  lemma GapStep(d: int, k: int, ple: int, ec: int, cs: int, ec2: int)
    requires 0 <= k < d && 0 <= cs <= k && (ec == 0 || ec == 1)
    requires -(d - k) <= cs + ec * (d - k) - ple <= d - k
    requires ec == 1 ==> cs + ec * (d - k) - ple >= 0
    requires ec == 0 ==> cs + ec * (d - k) - ple <= 0
    requires cs + ec * (d - k) < ple ==> ec2 == (ec + 1) % TWO_16
    requires cs + ec * (d - k) > ple ==> ec2 == (ec - 1) % TWO_16
    requires cs + ec * (d - k) == ple ==> ec2 == ec
    ensures (ec2 == 0 || ec2 == 1) && 0 <= cs + ec2 <= k + 1
    ensures -(d - (k + 1)) <= cs + ec2 + ec2 * (d - (k + 1)) - ple <= d - (k + 1)
    ensures ec2 == 1 ==> cs + ec2 + ec2 * (d - (k + 1)) - ple >= 0
    ensures ec2 == 0 ==> cs + ec2 + ec2 * (d - (k + 1)) - ple <= 0
  {
    if ec == 0 {
      assert ec * (d - k) == 0;
    } else {
      assert ec * (d - k) == d - k;
    }
    if ec2 == 0 {
      assert ec2 * (d - (k + 1)) == 0;
    } else {
      assert ec2 == 1;
      assert ec2 * (d - (k + 1)) == d - (k + 1);
    }
  }

  /**
    One compare-match keeps the accumulator on track, adding the new
    correction (0 or 1) to the sum without wrap-around.
  */
  lemma AdvanceKeepsOnTrack(s: Schedule, t: WaveTiming, frequency: u16, k: nat)
    requires 0 < HalfPulses(frequency) < 0x8000
    requires t.pulseLengthError < HalfPulses(frequency)
    requires k < HalfPulses(frequency) as int
    requires OnTrack(s, t, HalfPulses(frequency) as int, k)
    ensures OnTrack(Advance(s, t, frequency), t, HalfPulses(frequency) as int, k + 1)
    ensures Advance(s, t, frequency).correctionSum as int
            == s.correctionSum as int + Advance(s, t, frequency).errorCorrection as int
  {
    var d := HalfPulses(frequency) as int;
    var r := Advance(s, t, frequency);
    ProjectionOnTrack(s, frequency, k);
    GapStep(d, k, t.pulseLengthError as int, s.errorCorrection as int, s.correctionSum as int,
            r.errorCorrection as int);
    assert r.pulseCount as int == k + 1;
    assert r.correctionSum as int == s.correctionSum as int + r.errorCorrection as int;
  }

  lemma {:induction false} AccumulatorOnTrack(t: WaveTiming, frequency: u16, s: Schedule, k: nat)
    requires 0 < HalfPulses(frequency) < 0x8000
    requires t.pulseLengthError < HalfPulses(frequency)
    requires k <= HalfPulses(frequency) as int
    ensures OnTrack(Run(Restart(s), t, frequency, k), t, HalfPulses(frequency) as int, k)
  {
    if k > 0 {
      AccumulatorOnTrack(t, frequency, s, k - 1);
      AdvanceKeepsOnTrack(Run(Restart(s), t, frequency, k - 1), t, frequency, k - 1);
    }
  }

  /**
    The scheduler as the accumulator is designed to work: after the
    second's 2*frequency half-pulses the correction sum has distributed the
    whole remainder, so the final toggle lands pulseLength*2f +
    pulseLengthError ticks after the edge.
  */
  lemma IntendedSecondIsExact(t: WaveTiming, frequency: u16, s: Schedule)
    requires 0 < HalfPulses(frequency) < 0x8000
    requires t.pulseLengthError < HalfPulses(frequency)
    ensures var d := HalfPulses(frequency) as int;
            IntendedOffset(Run(Restart(s), t, frequency, d), t)
            == t.pulseLength as int * d + t.pulseLengthError as int
  {
    var d := HalfPulses(frequency) as int;
    AccumulatorOnTrack(t, frequency, s, d);
    var last := Run(Restart(s), t, frequency, d);
    assert last.errorCorrection as int * (d - last.pulseCount as int) == 0;
    assert last.correctionSum == t.pulseLengthError;
  }

  /**
    Each half-pulse of the corrected scheduler lasts pulseLength or
    pulseLength + 1 ticks: no toggle is more than one tick from nominal.
  */
  lemma IntendedHalfPulseWithinOneTick(t: WaveTiming, frequency: u16, s: Schedule, k: nat)
    requires 0 < HalfPulses(frequency) < 0x8000
    requires t.pulseLengthError < HalfPulses(frequency)
    requires k < HalfPulses(frequency) as int
    ensures var step := IntendedOffset(Run(Restart(s), t, frequency, k + 1), t)
                        - IntendedOffset(Run(Restart(s), t, frequency, k), t);
            step == t.pulseLength as int || step == t.pulseLength as int + 1
  {
    AccumulatorOnTrack(t, frequency, s, k);
    var before := Run(Restart(s), t, frequency, k);
    AdvanceKeepsOnTrack(before, t, frequency, k);
    var after := Run(Restart(s), t, frequency, k + 1);
    assert after.pulseCount as int == before.pulseCount as int + 1;
    assert t.pulseLength as int * after.pulseCount as int
           == t.pulseLength as int * before.pulseCount as int + t.pulseLength as int;
  }

  /**
    Combined with calibrateWave: when the quotient fits in 16 bits the
    corrected scheduler's last toggle of the second falls exactly
    cyclesPerSecond ticks after the edge.
  */
  lemma IntendedWaveSpansSecond(cyclesPerSecond: u32, frequency: u16, s: Schedule)
    requires 0 < frequency < 0x4000
    requires cyclesPerSecond as int / (2 * frequency as int) < TWO_16
    ensures var t := CalibrateWave(cyclesPerSecond, frequency);
            IntendedOffset(Run(Restart(s), t, frequency, 2 * frequency as nat), t) == cyclesPerSecond as int
  {
    var t := CalibrateWave(cyclesPerSecond, frequency);
    IntendedSecondIsExact(t, frequency, s);
  }

  /**
    The scheduler as written: after the second's half-pulses the target is
    offset by the last errorCorrection, which is 0 or 1, instead of by the
    remainder; whenever the remainder exceeds that, the second's last
    toggle comes early.
  */
  lemma AsWrittenSecondFallsShort(t: WaveTiming, frequency: u16, s: Schedule)
    requires 0 < HalfPulses(frequency) < 0x8000
    requires t.pulseLengthError < HalfPulses(frequency)
    ensures var d := HalfPulses(frequency) as int;
            var last := Run(Restart(s), t, frequency, d);
            last.errorCorrection <= 1
            && AsWrittenTarget(last, t) as int == (t.pulseLength as int * d + last.errorCorrection as int) % TWO_16
            && IntendedTarget(last, t) as int == (t.pulseLength as int * d + t.pulseLengthError as int) % TWO_16
  {
    var d := HalfPulses(frequency) as int;
    AccumulatorOnTrack(t, frequency, s, d);
    IntendedSecondIsExact(t, frequency, s);
    var last := Run(Restart(s), t, frequency, d);
    assert t.pulseLength as int * last.pulseCount as int == t.pulseLength as int * d;
    assert IntendedTarget(last, t) as int == IntendedOffset(last, t) % TWO_16;
  }

  /**
    The smallest case: at 1 Hz with a remainder of one tick the as-written
    target after both half-pulses is a whole number of pulse lengths, one
    tick before the intended one.
  */
  lemma AsWrittenOneHertzCounterexample(t: WaveTiming, s: Schedule)
    requires t.pulseLengthError == 1
    ensures var last := Run(Restart(s), t, 1, 2);
            last.errorCorrection == 0 && last.correctionSum == 1
            && AsWrittenTarget(last, t) as int == (2 * t.pulseLength as int) % TWO_16
            && IntendedTarget(last, t) as int == (2 * t.pulseLength as int + 1) % TWO_16
            && AsWrittenTarget(last, t) != IntendedTarget(last, t)
  {
    assert HalfPulses(1) == 2;
    assert Run(Restart(s), t, 1, 0) == Restart(s);
    assert Projection(Restart(s), 1) == 0;
    var first := Run(Restart(s), t, 1, 1);
    assert first == Schedule(1, 1, 1, 0);
    assert Projection(first, 1) == 2;
    var last := Run(Restart(s), t, 1, 2);
    assert last == Schedule(2, 0, 1, 2);
  }
}
