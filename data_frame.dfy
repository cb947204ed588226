/**
  Serial data encoder: sendDataBit's shift-register state machine, the frame
  it emits (start bit, 64-bit location, 32-bit time, end bit, each least
  significant bit first) and how a PPS edge restarts it.
*/
module DataFrame {
  import opened Uint
  import opened Wrappers

  /** dataType counts the frame's fields: start bit, location, time, end bit. */
  const FIELD_COUNT: u8 := 4
  /** Bits in one frame: 1 + 64 + 32 + 1. */
  const FRAME_BITS: nat := 98

  /** The encoder fields: dataBuffer, dataRemaining, dataCount, dataType, dataFinished. */
  datatype EncoderState = EncoderState(buffer: u64, remaining: u8, count: u8, dataType: u8, finished: bool)

  /**
    What sendDataBit reads when it loads a field: the stored fix (its
    validity flags and the IEEE 754 bit patterns of latitude and longitude,
    taken as opaque words) and the value of TimeLib's now() at that moment.
  */
  datatype FrameSource = FrameSource(locValid: bool, latBin: u32, lngBin: u32, timeValid: bool, now: u32)

  /** The frame's payload. */
  datatype Frame = Frame(location: u64, time: u32)

  /** (lngBin << 32) + latBin, or 0 without a valid location. */
  function Location(src: FrameSource): u64 {
    if src.locValid then (src.lngBin as int * TWO_32 + src.latBin as int) as u64 else 0
  }

  function FrameOf(src: FrameSource): Frame {
    Frame(Location(src), if src.timeValid then src.now else 0)
  }

  function FieldWidth(dataType: u8): u8
    requires dataType < FIELD_COUNT
  {
    match dataType
    case 0 => 1
    case 1 => 64
    case 2 => 32
    case _ => 1
  }

  function FieldValue(dataType: u8, src: FrameSource): u64
    requires dataType < FIELD_COUNT
  {
    match dataType
    case 0 => 1
    case 1 => Location(src)
    case 2 => FrameOf(src).time as u64
    case _ => 1
  }

  /**
    Loading the next field into the shift register. It always leaves bits
    to send, so the nested sendDataBit that follows a load takes the
    emitting branch: the recursion is at most two calls deep.
  */
  function Load(e: EncoderState, src: FrameSource): (r: EncoderState)
    requires e.dataType < FIELD_COUNT
    ensures r.remaining > 0
  {
    e.(buffer := FieldValue(e.dataType, src), remaining := FieldWidth(e.dataType))
  }

  /**
    Writing the buffer's low bit; the bit is shifted out once it has been
    held for dataInterval high phases (the comparison dataCount ==
    dataInterval-1 is made in int, so an interval of 0 never shifts).
  */
  function Emit(e: EncoderState, interval: u8): (r: (EncoderState, bool))
    requires e.remaining > 0
  {
    var bit := e.buffer % 2 == 1;
    if e.count as int == interval as int - 1 then
      (e.(buffer := e.buffer / 2, remaining := e.remaining - 1, count := 0), bit)
    else
      (e.(count := Wrap8(e.count as int + 1)), bit)
  }

  /**
    sendDataBit in the wave's high phase: the new encoder fields and the
    level written to the data pin, if any.
  */
  function HighPhase(e: EncoderState, interval: u8, src: FrameSource): (r: (EncoderState, Option<bool>))
    ensures e.remaining > 0 ==>
              r.1 == Some(e.buffer % 2 == 1) && r.0.dataType == e.dataType && r.0.finished == e.finished
              && (e.count as int == interval as int - 1 ==>
                    r.0.buffer == e.buffer / 2 && r.0.remaining == e.remaining - 1 && r.0.count == 0)
              && (e.count as int != interval as int - 1 ==>
                    r.0.buffer == e.buffer && r.0.remaining == e.remaining
                    && r.0.count as int == (e.count as int + 1) % TWO_8)
    ensures e.remaining == 0 && e.dataType < FIELD_COUNT ==>
              r.1 == Some(FieldValue(e.dataType, src) % 2 == 1) && r.0.dataType == e.dataType + 1
              && r.0.finished == e.finished
    ensures e.remaining == 0 && e.dataType >= FIELD_COUNT ==> r == (e.(finished := true), None)
  {
    if e.remaining > 0 then
      var (next, bit) := Emit(e, interval);
      (next, Some(bit))
    else if e.dataType < FIELD_COUNT then
      var (next, bit) := Emit(Load(e, src), interval);
      (next.(dataType := e.dataType + 1), Some(bit))
    else
      (e.(finished := true), None)
  }

  /** sendDataBit in either phase: in the low phase it only drives the data pin low. */
  function Step(e: EncoderState, high: bool, interval: u8, src: FrameSource): (r: (EncoderState, Option<bool>))
    ensures !high ==> r == (e, Some(false))
  {
    if high then HighPhase(e, interval, src) else (e, Some(false))
  }

  /**
    The data side of one high-phase compare-match with data output enabled:
    sendWave calls sendDataBit only while the frame is not finished.
  */
  function GatedHigh(e: EncoderState, interval: u8, src: FrameSource): (EncoderState, Option<bool>) {
    if e.finished then (e, None) else HighPhase(e, interval, src)
  }

  function Written(out: Option<bool>): seq<bool> {
    if out.Some? then [out.value] else []
  }

  /** The encoder after n high phases, and the levels written to the data pin. */
  function RunHigh(e: EncoderState, interval: u8, src: FrameSource, n: nat): (EncoderState, seq<bool>)
    decreases n
  {
    if n == 0 then (e, [])
    else
      var (next, out) := GatedHigh(e, interval, src);
      var (last, bits) := RunHigh(next, interval, src, n - 1);
      (last, Written(out) + bits)
  }

  function Pow2(n: nat): nat {
    if n == 0 then 1 else 2 * Pow2(n - 1)
  }

  /** The n low bits of v, least significant first. */
  function Bits(v: nat, n: nat): (r: seq<bool>)
    ensures |r| == n
  {
    if n == 0 then [] else [v % 2 == 1] + Bits(v / 2, n - 1)
  }

  /** v shifted right by n places. */
  function Shr(v: nat, n: nat): (r: nat)
    ensures r <= v
  {
    if n == 0 then v else Shr(v / 2, n - 1)
  }

  /** A least-significant-first shift-register decode. */
  function FromBits(bs: seq<bool>): (r: nat)
    ensures r < Pow2(|bs|)
  {
    if bs == [] then 0 else (if bs[0] then 1 else 0) + 2 * FromBits(bs[1..])
  }

  lemma {:induction false} BitsRoundTrip(v: nat, n: nat)
    requires v < Pow2(n)
    ensures FromBits(Bits(v, n)) == v
  {
    if n > 0 {
      BitsRoundTrip(v / 2, n - 1);
      assert Bits(v, n)[1..] == Bits(v / 2, n - 1);
    }
  }

  lemma {:induction false} FromBitsRoundTrip(bs: seq<bool>)
    ensures Bits(FromBits(bs), |bs|) == bs
  {
    if bs != [] {
      FromBitsRoundTrip(bs[1..]);
      var v := FromBits(bs);
      assert v / 2 == FromBits(bs[1..]);
      assert (v % 2 == 1) == bs[0];
    }
  }

  lemma {:induction false} Pow2Add(a: nat, b: nat)
    ensures Pow2(a + b) == Pow2(a) * Pow2(b)
  {
    if a > 0 {
      Pow2Add(a - 1, b);
      calc {
        Pow2(a + b);
        2 * Pow2(a - 1 + b);
        2 * (Pow2(a - 1) * Pow2(b));
        (2 * Pow2(a - 1)) * Pow2(b);
        Pow2(a) * Pow2(b);
      }
    }
  }

  lemma Pow2Widths()
    ensures Pow2(32) == TWO_32 && Pow2(64) == TWO_64
  {
    assert Pow2(1) == 2 && Pow2(2) == 4 && Pow2(3) == 8 && Pow2(4) == 16;
    assert Pow2(8) == 0x100 by { Pow2Add(4, 4); }
    assert Pow2(16) == 0x1_0000 by { Pow2Add(8, 8); }
    assert Pow2(32) == TWO_32 by { Pow2Add(16, 16); }
    assert Pow2(64) == TWO_64 by { Pow2Add(32, 32); }
  }

  /** The frame as it appears on the data pin, one level per bit. */
  function FrameBits(f: Frame): (r: seq<bool>)
    ensures |r| == FRAME_BITS
  {
    [true] + Bits(f.location as nat, 64) + Bits(f.time as nat, 32) + [true]
  }

  /** The receiving side: checks the start and end bits and reassembles both fields. */
  function DecodeFrame(bs: seq<bool>): Option<Frame> {
    if |bs| == FRAME_BITS && bs[0] && bs[FRAME_BITS - 1] then
      Pow2Widths();
      Some(Frame(FromBits(bs[1..65]) as u64, FromBits(bs[65..97]) as u32))
    else
      None
  }

  /** Decoding a sent frame recovers exactly the location and time it carried. */
  lemma DecodeSentFrame(f: Frame)
    ensures DecodeFrame(FrameBits(f)) == Some(f)
  {
    var bs := FrameBits(f);
    assert bs[1..65] == Bits(f.location as nat, 64);
    assert bs[65..97] == Bits(f.time as nat, 32);
    Pow2Widths();
    BitsRoundTrip(f.location as nat, 64);
    BitsRoundTrip(f.time as nat, 32);
  }

  /** Conversely, every bit string the decoder accepts is the frame it decodes to. */
  lemma DecodedFrameIsSent(bs: seq<bool>, f: Frame)
    requires DecodeFrame(bs) == Some(f)
    ensures FrameBits(f) == bs
  {
    FromBitsRoundTrip(bs[1..65]);
    FromBitsRoundTrip(bs[65..97]);
    assert bs == [bs[0]] + bs[1..65] + bs[65..97] + [bs[97]];
  }

  function Repeat(b: bool, n: nat): (r: seq<bool>)
    ensures |r| == n
  {
    if n == 0 then [] else [b] + Repeat(b, n - 1)
  }

  /** Each bit held for interval consecutive high phases. */
  function Stretch(bs: seq<bool>, interval: nat): seq<bool> {
    if bs == [] then [] else Repeat(bs[0], interval) + Stretch(bs[1..], interval)
  }

  lemma {:induction false} StretchAppend(a: seq<bool>, b: seq<bool>, interval: nat)
    ensures Stretch(a + b, interval) == Stretch(a, interval) + Stretch(b, interval)
  {
    if a == [] {
      assert a + b == b;
    } else {
      assert (a + b)[0] == a[0];
      assert (a + b)[1..] == a[1..] + b;
      StretchAppend(a[1..], b, interval);
    }
  }

  lemma {:induction false} RunHighAppend(e: EncoderState, interval: u8, src: FrameSource, m: nat, n: nat)
    ensures var (mid, first) := RunHigh(e, interval, src, m);
            var (last, second) := RunHigh(mid, interval, src, n);
            RunHigh(e, interval, src, m + n) == (last, first + second)
    decreases m
  {
    if m > 0 {
      var (next, out) := GatedHigh(e, interval, src);
      RunHighAppend(next, interval, src, m - 1, n);
      var (mid, rest) := RunHigh(next, interval, src, m - 1);
      var (last, second) := RunHigh(mid, interval, src, n);
      assert RunHigh(e, interval, src, m) == (mid, Written(out) + rest);
      assert RunHigh(e, interval, src, m + n) == (last, Written(out) + (rest + second));
      assert Written(out) + (rest + second) == (Written(out) + rest) + second;
    } else {
      assert RunHigh(e, interval, src, 0) == (e, []);
      assert [] + RunHigh(e, interval, src, n).1 == RunHigh(e, interval, src, n).1;
    }
  }

  /** The register after one bit has been shifted out. */
  function Shifted(e: EncoderState): EncoderState
    requires e.remaining > 0
  {
    e.(buffer := e.buffer / 2, remaining := e.remaining - 1, count := 0)
  }

  /** From dataCount = c, the current bit is written interval - c more times and then shifted out. */
  lemma {:induction false} HoldBit(e: EncoderState, interval: u8, src: FrameSource, c: nat)
    requires e.remaining > 0 && !e.finished && e.count as int == c < interval as int
    ensures RunHigh(e, interval, src, interval as int - c) == (Shifted(e), Repeat(e.buffer % 2 == 1, interval as int - c))
    decreases interval as int - c
  {
    var bit := e.buffer % 2 == 1;
    if c == interval as int - 1 {
      assert RunHigh(Shifted(e), interval, src, 0) == (Shifted(e), []);
    } else {
      var next := e.(count := (c + 1) as u8);
      assert GatedHigh(e, interval, src) == (next, Some(bit));
      HoldBit(next, interval, src, c + 1);
      assert Repeat(bit, interval as int - c) == [bit] + Repeat(bit, interval as int - c - 1);
    }
  }

  /** Sending the k bits left in the register, each held for interval high phases. */
  lemma {:induction false} ShiftOut(e: EncoderState, interval: u8, src: FrameSource, k: nat)
    requires e.remaining as int == k && e.count == 0 && !e.finished && interval >= 1
    ensures RunHigh(e, interval, src, k * interval as int)
            == (e.(buffer := Shr(e.buffer as nat, k) as u64, remaining := 0), Stretch(Bits(e.buffer as nat, k), interval as nat))
    decreases k
  {
    var i := interval as int;
    if k == 0 {
      assert e.(buffer := Shr(e.buffer as nat, k) as u64, remaining := 0) == e;
    } else {
      HoldBit(e, interval, src, 0);
      var next := Shifted(e);
      var bit := e.buffer % 2 == 1;
      ShiftOut(next, interval, src, k - 1);
      var rest := Stretch(Bits(next.buffer as nat, k - 1), interval as nat);
      var last := next.(buffer := Shr(next.buffer as nat, k - 1) as u64, remaining := 0);
      MulSplit(k, i);
      RunHighAppend(e, interval, src, i, (k - 1) * i);
      assert Shr(e.buffer as nat, k) == Shr(next.buffer as nat, k - 1);
      StretchBits(e.buffer as nat, k, interval as nat);
    }
  }

  lemma MulSplit(k: nat, i: nat)
    requires k > 0
    ensures (k - 1) * i >= 0 && k * i == i + (k - 1) * i
  {
  }

  lemma StretchBits(v: nat, k: nat, interval: nat)
    requires k > 0
    ensures Stretch(Bits(v, k), interval) == Repeat(v % 2 == 1, interval) + Stretch(Bits(v / 2, k - 1), interval)
  {
    var bs := Bits(v, k);
    assert bs[0] == (v % 2 == 1) && bs[1..] == Bits(v / 2, k - 1);
  }

  /** The register loaded with the current field, dataType already advanced. */
  function Loaded(e: EncoderState, src: FrameSource): EncoderState
    requires e.dataType < FIELD_COUNT
  {
    Load(e, src).(dataType := e.dataType + 1)
  }

  /**
    Sending one whole field: from an empty register with field d due,
    FieldWidth * interval high phases write the field's bits, each held
    for interval phases, and leave the register empty with field d + 1 due.
  */
  lemma SendField(e: EncoderState, interval: u8, src: FrameSource, d: u8, w: nat, v: nat)
    requires Between(e, d) && d < FIELD_COUNT && interval >= 1
    requires w == FieldWidth(d) as nat && v == FieldValue(d, src) as nat
    ensures RunHigh(e, interval, src, w * interval as int)
            == (EncoderState(Shr(v, w) as u64, 0, 0, d + 1, false), Stretch(Bits(v, w), interval as nat))
  {
    var l := Loaded(e, src);
    assert GatedHigh(e, interval, src) == GatedHigh(l, interval, src);
    assert w * interval as int >= 1 by {
      assert w >= 1;
      assert w * interval as int >= 1 * interval as int;
    }
    assert RunHigh(e, interval, src, w * interval as int) == RunHigh(l, interval, src, w * interval as int);
    ShiftOut(l, interval, src, w);
  }

  /** Two runs back to back, with their lengths and outputs named. */
  lemma RunHighChain(e: EncoderState, mid: EncoderState, last: EncoderState, interval: u8, src: FrameSource,
                     m: nat, n: nat, first: seq<bool>, second: seq<bool>)
    requires RunHigh(e, interval, src, m) == (mid, first)
    requires RunHigh(mid, interval, src, n) == (last, second)
    ensures RunHigh(e, interval, src, m + n) == (last, first + second)
  {
    RunHighAppend(e, interval, src, m, n);
  }

  /** The encoder between two fields: nothing of the last one left, field dataType due next. */
  predicate Between(e: EncoderState, dataType: u8) {
    e.remaining == 0 && e.count == 0 && e.dataType == dataType && !e.finished
  }

  /** Two fields back to back, from field d: their widths and values named. */
  lemma SendTwoFields(e: EncoderState, interval: u8, src: FrameSource, d: u8, w1: nat, v1: nat, w2: nat, v2: nat)
    requires Between(e, d) && d <= 2 && interval >= 1
    requires w1 == FieldWidth(d) as nat && v1 == FieldValue(d, src) as nat
    requires w2 == FieldWidth(d + 1) as nat && v2 == FieldValue(d + 1, src) as nat
    ensures var (next, bits) := RunHigh(e, interval, src, (w1 + w2) * interval as int);
            Between(next, d + 2) && bits == Stretch(Bits(v1, w1) + Bits(v2, w2), interval as nat)
  {
    var i := interval as int;
    SendField(e, interval, src, d, w1, v1);
    var (e1, b1) := RunHigh(e, interval, src, w1 * i);
    SendField(e1, interval, src, d + 1, w2, v2);
    var (e2, b2) := RunHigh(e1, interval, src, w2 * i);
    RunHighChain(e, e1, e2, interval, src, w1 * i, w2 * i, b1, b2);
    assert w1 * i + w2 * i == (w1 + w2) * i;
    StretchAppend(Bits(v1, w1), Bits(v2, w2), interval as nat);
  }

  /**
    The four fields of a frame, one after another: 98 * dataInterval high
    phases from a cleared encoder write the frame with every bit held
    dataInterval times and leave the encoder past the last field.
  */
  lemma FrameRun(e: EncoderState, interval: u8, src: FrameSource)
    requires Between(e, 0) && interval >= 1
    ensures var (last, bits) := RunHigh(e, interval, src, FRAME_BITS * interval as int);
            Between(last, FIELD_COUNT) && bits == Stretch(FrameBits(FrameOf(src)), interval as nat)
  {
    var i := interval as int;
    var f := FrameOf(src);
    var head := Bits(1, 1) + Bits(f.location as nat, 64);
    var tail := Bits(f.time as nat, 32) + Bits(1, 1);
    SendTwoFields(e, interval, src, 0, 1, 1, 64, f.location as nat);
    var (e2, b1) := RunHigh(e, interval, src, 65 * i);
    SendTwoFields(e2, interval, src, 2, 32, f.time as nat, 1, 1);
    var (e4, b2) := RunHigh(e2, interval, src, 33 * i);
    RunHighChain(e, e2, e4, interval, src, 65 * i, 33 * i, b1, b2);
    assert 65 * i + 33 * i == FRAME_BITS * i;
    StretchAppend(head, tail, interval as nat);
    FrameBitsHalves(f);
  }

  /** The frame as the start bit and location, then the time and end bit. */
  lemma FrameBitsHalves(f: Frame)
    ensures FrameBits(f) == (Bits(1, 1) + Bits(f.location as nat, 64)) + (Bits(f.time as nat, 32) + Bits(1, 1))
  {
    assert Bits(1, 1) == [true];
  }

  /**
    A frame from its start: with dataType, dataRemaining and dataCount
    cleared and the frame not finished, 98 * dataInterval high phases write
    the frame with every bit held dataInterval times; the next high phase
    marks it finished without writing, and after that nothing is written.
  */
  lemma SendFrame(e: EncoderState, interval: u8, src: FrameSource, after: nat)
    requires e.remaining == 0 && e.count == 0 && e.dataType == 0 && !e.finished && interval >= 1
    ensures var (last, bits) := RunHigh(e, interval, src, FRAME_BITS * interval as int);
            bits == Stretch(FrameBits(FrameOf(src)), interval as nat)
            && last.remaining == 0 && last.dataType == FIELD_COUNT && !last.finished
            && GatedHigh(last, interval, src) == (last.(finished := true), None)
            && RunHigh(last.(finished := true), interval, src, after) == (last.(finished := true), [])
  {
    FrameRun(e, interval, src);
    var (last, bits) := RunHigh(e, interval, src, FRAME_BITS * interval as int);
    assert GatedHigh(last, interval, src) == (last.(finished := true), None);
    FinishedStaysSilent(last.(finished := true), interval, src, after);
  }

  lemma {:induction false} FinishedStaysSilent(e: EncoderState, interval: u8, src: FrameSource, n: nat)
    requires e.finished
    ensures RunHigh(e, interval, src, n) == (e, [])
    decreases n
  {
    if n > 0 {
      FinishedStaysSilent(e, interval, src, n - 1);
      assert GatedHigh(e, interval, src) == (e, None);
      assert Written(None) + [] == [];
    }
  }

  /**
    The data side of a PPS edge that restarts the wave, as written: the
    finished flag is cleared, the restarting sendWave runs one high phase
    (if data output is enabled) on the fields the previous second left, and
    only afterwards is dataType reset to 0.
  */
  function EdgeAsWritten(e: EncoderState, dataEnabled: bool, interval: u8, src: FrameSource): (r: (EncoderState, Option<bool>))
    ensures r.0.dataType == 0
    ensures !dataEnabled ==> r == (e.(finished := false, dataType := 0), None)
  {
    var cleared := e.(finished := false);
    var (next, out) := if dataEnabled then HighPhase(cleared, interval, src) else (cleared, None);
    (next.(dataType := 0), out)
  }

  /**
    The edge as the frame protocol needs it: the new second starts a fresh
    frame (field pointer and bit counters cleared) before the restarting
    high phase runs.
  */
  function EdgeIntended(e: EncoderState, dataEnabled: bool, interval: u8, src: FrameSource): (EncoderState, Option<bool>) {
    var newFrame := e.(remaining := 0, count := 0, dataType := 0, finished := false);
    if dataEnabled then HighPhase(newFrame, interval, src) else (newFrame, None)
  }

  /**
    As written, an edge that follows a completed frame (all four fields
    sent, register empty) re-marks the frame finished in its own high
    phase: nothing at all is written to the data pin during the next
    second.
  */
  lemma AsWrittenEdgeAfterFrameIsSilent(e: EncoderState, interval: u8, src: FrameSource, n: nat)
    requires e.remaining == 0 && e.dataType == FIELD_COUNT
    ensures EdgeAsWritten(e, true, interval, src) == (e.(finished := true, dataType := 0), None)
    ensures RunHigh(e.(finished := true, dataType := 0), interval, src, n) == (e.(finished := true, dataType := 0), [])
  {
    FinishedStaysSilent(e.(finished := true, dataType := 0), interval, src, n);
  }

  /**
    As written, an edge that finds a cleared register with dataType 0 (the
    state a silent second leaves) sends the start bit in its own high
    phase, then resets dataType, so the second carries the start bit twice:
    one extra bit ahead of a complete frame.
  */
  lemma AsWrittenEdgeRepeatsStartBit(e: EncoderState, interval: u8, src: FrameSource)
    requires e.remaining == 0 && e.count == 0 && e.dataType == 0 && interval >= 1
    ensures var (next, out) := EdgeAsWritten(e, true, interval, src);
            var i := interval as int;
            Written(out) + RunHigh(next, interval, src, (i - 1) + FRAME_BITS * i).1
            == Repeat(true, i) + Stretch(FrameBits(FrameOf(src)), interval as nat)
  {
    var i := interval as int;
    var (next, out) := EdgeAsWritten(e, true, interval, src);
    var restarted := e.(buffer := 0, remaining := 0, count := 0, dataType := 0, finished := false);
    EdgeSendsStartBit(e, interval, src);
    SendFrame(restarted, interval, src, 0);
    ComposeRuns(out, next, restarted, interval, src, i - 1, FRAME_BITS * i, Stretch(FrameBits(FrameOf(src)), interval as nat));
  }

  /** The extra start bit written at the edge, held m more times, followed by n high phases. */
  lemma ComposeRuns(out: Option<bool>, next: EncoderState, mid: EncoderState, interval: u8, src: FrameSource,
                    m: nat, n: nat, rest: seq<bool>)
    requires out == Some(true)
    requires RunHigh(next, interval, src, m) == (mid, Repeat(true, m))
    requires RunHigh(mid, interval, src, n).1 == rest
    ensures Written(out) + RunHigh(next, interval, src, m + n).1 == Repeat(true, m + 1) + rest
  {
    RunHighChain(next, mid, RunHigh(mid, interval, src, n).0, interval, src, m, n, Repeat(true, m), rest);
    assert Written(out) == [true];
    ConsAssoc(true, Repeat(true, m), rest);
    RepeatCons(true, m + 1);
  }

  lemma ConsAssoc(b: bool, xs: seq<bool>, ys: seq<bool>)
    ensures [b] + (xs + ys) == ([b] + xs) + ys
  {
  }

  lemma RepeatCons(b: bool, n: nat)
    requires n > 0
    ensures Repeat(b, n) == [b] + Repeat(b, n - 1)
  {
  }

  /**
    The edge's own high phase writes the start bit once more, and the
    remaining dataInterval - 1 high phases hold it and leave a cleared
    register with dataType 0.
  */
  lemma EdgeSendsStartBit(e: EncoderState, interval: u8, src: FrameSource)
    requires e.remaining == 0 && e.count == 0 && e.dataType == 0 && interval >= 1
    ensures var (next, out) := EdgeAsWritten(e, true, interval, src);
            out == Some(true)
            && RunHigh(next, interval, src, interval as int - 1)
               == (e.(buffer := 0, remaining := 0, count := 0, dataType := 0, finished := false),
                   Repeat(true, interval as int - 1))
  {
    var (next, out) := EdgeAsWritten(e, true, interval, src);
    var restarted := e.(buffer := 0, remaining := 0, count := 0, dataType := 0, finished := false);
    if interval == 1 {
      assert next == restarted;
      assert RunHigh(next, interval, src, 0) == (next, []);
    } else {
      assert next == e.(buffer := 1, remaining := 1, count := 1, dataType := 0, finished := false);
      HoldBit(next, interval, src, 1);
      assert Shifted(next) == restarted;
    }
  }

  /**
    With the corrected edge every second carries exactly one frame: the
    edge's own high phase writes its first level, the following 98 *
    dataInterval - 1 high phases the rest, and the frame is then finished.
  */
  lemma IntendedEdgeSendsOneFrame(e: EncoderState, interval: u8, src: FrameSource)
    requires interval >= 1
    ensures var (next, out) := EdgeIntended(e, true, interval, src);
            var (last, bits) := RunHigh(next, interval, src, FRAME_BITS * interval as int - 1);
            Written(out) + bits == Stretch(FrameBits(FrameOf(src)), interval as nat)
            && GatedHigh(last, interval, src) == (last.(finished := true), None)
  {
    var newFrame := e.(remaining := 0, count := 0, dataType := 0, finished := false);
    SendFrame(newFrame, interval, src, 0);
    var (next, out) := EdgeIntended(e, true, interval, src);
    assert GatedHigh(newFrame, interval, src) == (next, out);
    var n := FRAME_BITS * interval as int;
    assert RunHigh(newFrame, interval, src, n) == (RunHigh(next, interval, src, n - 1).0, Written(out) + RunHigh(next, interval, src, n - 1).1);
  }
}
