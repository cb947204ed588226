/**
  Clock discipline: the 16-bit Timer1 count folded into a 32-bit tick count
  since the last PPS edge, its conversion to microseconds, and the two-edge
  calibration of the oscillator's ticks per second.
*/
module Clock {
  import opened Uint

  /** Timer1 counts 2^16 ticks between two overflow interrupts. */
  const TICKS_PER_OVERFLOW: int := 0x1_0000
  /** update() accepts a new navigation fix only this early in the second. */
  const FIX_WINDOW: u32 := 4000000
  /** update() declares the PPS reference lost beyond this many ticks. */
  const STALE_LIMIT: u32 := 32000000
  const MICROS_PER_SECOND: int := 1000000
  const MAX_MICROSECOND: u32 := 999999

  /**
    The tick count the 32-bit result of totalCycles stands for: whole timer
    periods counted by the overflow handler, plus the timestamp, less the
    timer value stamped at the last PPS edge.
  */
  function Elapsed(ovfCount: u16, ppsStamp: u16, timestamp: u32): int {
    ovfCount as int * TICKS_PER_OVERFLOW + timestamp as int - ppsStamp as int
  }

  /**
    totalCycles(timestamp). The product ovfCount*65536 is a 32-bit long on
    the target and the sum is taken in 32-bit unsigned arithmetic, so the
    result is the elapsed count modulo 2^32.
  */
  function TotalCycles(ovfCount: u16, ppsStamp: u16, timestamp: u32): (r: u32)
    ensures (r as int - Elapsed(ovfCount, ppsStamp, timestamp)) % TWO_32 == 0
    ensures 0 <= Elapsed(ovfCount, ppsStamp, timestamp) < TWO_32 ==>
              r as int == Elapsed(ovfCount, ppsStamp, timestamp)
  {
    Wrap32(Elapsed(ovfCount, ppsStamp, timestamp))
  }

  /**
    An overflow interrupt (incrementOvf, whose 16-bit counter wraps) moves
    the folded count on by exactly one timer period, modulo 2^32.
  */
  lemma OverflowAddsOnePeriod(ovfCount: u16, ppsStamp: u16, timestamp: u32)
    ensures TotalCycles(Wrap16(ovfCount as int + 1), ppsStamp, timestamp)
            == Wrap32(TotalCycles(ovfCount, ppsStamp, timestamp) as int + TICKS_PER_OVERFLOW)
  {
    var e := Elapsed(ovfCount, ppsStamp, timestamp);
    if ovfCount as int + 1 < TWO_16 {
      assert Elapsed(Wrap16(ovfCount as int + 1), ppsStamp, timestamp) == e + TICKS_PER_OVERFLOW;
    } else {
      assert Elapsed(Wrap16(ovfCount as int + 1), ppsStamp, timestamp) == e + TICKS_PER_OVERFLOW - TWO_32;
    }
  }

  /**
    The exact number of microseconds that adjustedMicros truncates: the tick
    count scaled by 10^6 and divided by the calibrated rate. The source works
    in int64, where this product of a 32-bit count and 10^6 cannot overflow,
    and all operands are non-negative, so C's division agrees with Dafny's.
  */
  function MicrosQuotient(cycles: u32, cyclesPerSecond: u32): nat
    requires cyclesPerSecond > 0
  {
    cycles as int * MICROS_PER_SECOND / cyclesPerSecond as int
  }

  /** adjustedMicros(): the quotient cast to uint32_t. */
  function AdjustedMicros(cycles: u32, cyclesPerSecond: u32): (r: u32)
    requires cyclesPerSecond > 0
    ensures MicrosQuotient(cycles, cyclesPerSecond) < TWO_32 ==>
              r as int * cyclesPerSecond as int <= cycles as int * MICROS_PER_SECOND
              < (r as int + 1) * cyclesPerSecond as int
  {
    Wrap32(MicrosQuotient(cycles, cyclesPerSecond))
  }

  /** microsecond(): adjustedMicros clamped below one second. */
  function Microsecond(cycles: u32, cyclesPerSecond: u32): (r: u32)
    requires cyclesPerSecond > 0
    ensures r as int < MICROS_PER_SECOND
    ensures MicrosQuotient(cycles, cyclesPerSecond) < TWO_32 ==>
              r as int == Min(MicrosQuotient(cycles, cyclesPerSecond), MAX_MICROSECOND as int)
  {
    var micros := AdjustedMicros(cycles, cyclesPerSecond);
    if micros as int < MICROS_PER_SECOND then micros else MAX_MICROSECOND
  }

  function Min(a: int, b: int): int { if a <= b then a else b }

  lemma MulIsMonotone(c: nat, x: nat, y: nat)
    requires x <= y
    ensures c * x <= c * y
  {
  }

  lemma DivIsMonotone(a: nat, b: nat, c: nat)
    requires a <= b && c > 0
    ensures a / c <= b / c
  {
    var qa, qb := a / c, b / c;
    assert c * qa <= a;
    assert b < c * (qb + 1);
    if qa > qb {
      MulIsMonotone(c, qb + 1, qa);
    }
  }

  /**
    Within one calibrated second (while the 32-bit quotient does not wrap),
    a later timer reading never yields a smaller microsecond value.
  */
  lemma MicrosecondIsMonotone(cycles1: u32, cycles2: u32, cyclesPerSecond: u32)
    requires cyclesPerSecond > 0 && cycles1 <= cycles2
    requires MicrosQuotient(cycles2, cyclesPerSecond) < TWO_32
    ensures Microsecond(cycles1, cyclesPerSecond) <= Microsecond(cycles2, cyclesPerSecond)
  {
    DivIsMonotone(cycles1 as int * MICROS_PER_SECOND, cycles2 as int * MICROS_PER_SECOND, cyclesPerSecond as int);
  }

  /**
    Before a full second's worth of ticks has elapsed the clamp is not
    reached: the result is the elapsed fraction of the second in whole
    microseconds, rounded down.
  */
  lemma MicrosecondWithinSecond(cycles: u32, cyclesPerSecond: u32)
    requires cycles < cyclesPerSecond
    ensures var r := Microsecond(cycles, cyclesPerSecond) as int;
            r * cyclesPerSecond as int <= cycles as int * MICROS_PER_SECOND < (r + 1) * cyclesPerSecond as int
  {
    var q := MicrosQuotient(cycles, cyclesPerSecond);
    DivIsMonotone(cycles as int * MICROS_PER_SECOND, cyclesPerSecond as int * MICROS_PER_SECOND - 1, cyclesPerSecond as int);
    assert (cyclesPerSecond as int * MICROS_PER_SECOND - 1) / cyclesPerSecond as int < MICROS_PER_SECOND;
    assert q < MICROS_PER_SECOND;
  }

  /** The calibration flags and rate that calibrateSecond and update() change. */
  datatype Discipline = Discipline(calibrateFlag: bool, cyclesPerSecond: u32, calcFlag: bool)

  /**
    calibrateSecond(cycles): a rate is taken only once an earlier edge has
    armed calibration; a lone edge only arms it.
  */
  function CalibrateSecond(d: Discipline, cycles: u32): (r: Discipline)
    ensures r.calibrateFlag
    ensures d.calibrateFlag ==> r.cyclesPerSecond == cycles && r.calcFlag
    ensures !d.calibrateFlag ==> r.cyclesPerSecond == d.cyclesPerSecond && r.calcFlag == d.calcFlag
  {
    if d.calibrateFlag then Discipline(true, cycles, true) else d.(calibrateFlag := true)
  }

  /** An accepted PPS edge with the ticks counted since the previous one, or update()'s stale reset. */
  datatype ClockEvent = Edge(cycles: u32) | Stale

  function Apply(d: Discipline, ev: ClockEvent): Discipline {
    match ev
    case Edge(cycles) => CalibrateSecond(d, cycles)
    case Stale => d.(calibrateFlag := false)
  }

  /** The calibration state after a history of events, oldest first. */
  function Replay(d: Discipline, events: seq<ClockEvent>): Discipline
    decreases |events|
  {
    if events == [] then d else Replay(Apply(d, events[0]), events[1..])
  }

  lemma {:induction false} ReplayAppend(d: Discipline, a: seq<ClockEvent>, b: seq<ClockEvent>)
    ensures Replay(d, a + b) == Replay(Replay(d, a), b)
    decreases |a|
  {
    if a != [] {
      assert (a + b)[0] == a[0];
      assert (a + b)[1..] == a[1..] + b;
      ReplayAppend(Apply(d, a[0]), a[1..], b);
    } else {
      assert a + b == b;
    }
  }

  /**
    Two consecutive edges at the end of any history leave the rate equal to
    the ticks measured over the last second and a recalculation pending.
  */
  lemma RateIsLastInterval(d: Discipline, events: seq<ClockEvent>, i1: u32, i2: u32)
    ensures Replay(d, events + [Edge(i1), Edge(i2)]).cyclesPerSecond == i2
    ensures Replay(d, events + [Edge(i1), Edge(i2)]).calcFlag
  {
    ReplayAppend(d, events, [Edge(i1), Edge(i2)]);
    var armed := Apply(Replay(d, events), Edge(i1));
    assert Replay(Replay(d, events), [Edge(i1), Edge(i2)]) == Replay(armed, [Edge(i2)]);
    assert Replay(armed, [Edge(i2)]) == Replay(Apply(armed, Edge(i2)), []);
  }

  /**
    After a stale reset a single edge does not change the rate: the reset
    forces two fresh edges before the oscillator is calibrated again.
  */
  lemma StaleThenLoneEdgeKeepsRate(d: Discipline, events: seq<ClockEvent>, i: u32)
    ensures Replay(d, events + [Stale, Edge(i)]).cyclesPerSecond == Replay(d, events).cyclesPerSecond
    ensures Replay(d, events + [Stale, Edge(i)]).calibrateFlag
  {
    ReplayAppend(d, events, [Stale, Edge(i)]);
    var reset := Apply(Replay(d, events), Stale);
    assert Replay(Replay(d, events), [Stale, Edge(i)]) == Replay(reset, [Edge(i)]);
    assert Replay(reset, [Edge(i)]) == Replay(Apply(reset, Edge(i)), []);
  }
}
