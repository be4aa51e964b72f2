/**
 * The S-A-A-2 binary register protocol shared by both drivers: the three
 * command frames, and the register writes that program a sweep.
 */
module Saa2Protocol {
  import opened Wrappers
  import opened Bytes
  import opened Transport

  // ---------------------------------------------------------------- frames

  const OpIndicate: int := 0x0D
  const OpWrite: int := 0x20
  const OpReadFifo: int := 0x18

  /** Register addresses of the sweep registers and of the FIFO. */
  const RegSweepStart: int := 0x00
  const RegSweepStep: int := 0x10
  const RegSweepPoints: int := 0x20
  const RegValuesPerFrequency: int := 0x22
  const RegFifo: int := 0x30

  /** The single reply byte, ASCII '2', by which the device identifies the protocol. */
  const IndicateReply: seq<int> := [0x32]

  datatype Command =
    | Indicate
    | Write(addr: int, value: int)
    | ReadFifo(addr: int, len: int)

  predicate WellFormed(c: Command)
  {
    match c
    case Indicate => true
    case Write(a, v) => IsByte(a) && IsByte(v)
    case ReadFifo(a, n) => IsByte(a) && 0 <= n < TwoTo16
  }

  /** The bytes of a command on the wire; a READFIFO length goes low byte first. */
  function Encode(c: Command): seq<int>
  {
    match c
    case Indicate => [OpIndicate]
    case Write(a, v) => [OpWrite, a, v]
    case ReadFifo(a, n) => [OpReadFifo, a, n % 256, (n / 256) % 256]
  }

  /** How the device reads a frame; None for anything that is not one of the three. */
  function Decode(f: seq<int>): Option<Command>
  {
    if f == [OpIndicate] then Some(Indicate)
    else if |f| == 3 && f[0] == OpWrite then Some(Write(f[1], f[2]))
    else if |f| == 4 && f[0] == OpReadFifo then Some(ReadFifo(f[1], f[2] + 256 * f[3]))
    else None
  }

  lemma DecodeEncode(c: Command)
    requires WellFormed(c)
    ensures Decode(Encode(c)) == Some(c)
  {
  }

  lemma EncodeDecode(f: seq<int>)
    requires IsBytes(f) && Decode(f).Some?
    ensures WellFormed(Decode(f).value) && Encode(Decode(f).value) == f
  {
    if |f| == 4 && f[0] == OpReadFifo {
      var n := f[2] + 256 * f[3];
      assert n % 256 == f[2] && n / 256 == f[3];
    }
  }

  function WriteFrame(addr: int, value: int): seq<int>
  {
    Encode(Write(addr, value))
  }

  function ReadFifoFrame(addr: int, len: int): seq<int>
  {
    Encode(ReadFifo(addr, len))
  }

  /** The write to the FIFO register that empties the device's sample buffer. */
  function ClearFifoFrame(): seq<int>
  {
    WriteFrame(RegFifo, 0x00)
  }

  /**
   * One `_send_command(bytes([0x20, base + i, bs[i]]))` per byte, in order, as the
   * `for i in range(8)` loops of `setup_sweep` do; the replies are discarded.
   */
  method SendRegisterWrites(link: SerialLink, base: int, bs: seq<int>)
    modifies link
    ensures link.sent == old(link.sent) + RegisterWrites(base, bs)
    ensures link.replies == Drop(old(link.replies), |bs|)
  {
    ghost var q0 := link.replies;
    var i := 0;
    while i < |bs|
      invariant 0 <= i <= |bs|
      invariant link.sent == old(link.sent) + RegisterWrites(base, bs)[..i]
      invariant link.replies == Drop(q0, i)
    {
      DropStep(q0, i);
      var _ := link.Send(WriteFrame(base + i, bs[i]));
      assert RegisterWrites(base, bs)[..i + 1] == RegisterWrites(base, bs)[..i] + [WriteFrame(base + i, bs[i])];
      i := i + 1;
    }
    assert RegisterWrites(base, bs)[..|bs|] == RegisterWrites(base, bs);
  }

  /**
   * `value.to_bytes(n, 'little')` followed by its register writes: nothing is
   * sent when the value does not fit (the OverflowError is raised first).
   */
  method SendLittleEndian(link: SerialLink, base: int, value: int, n: nat) returns (bytes: Option<seq<int>>)
    modifies link
    ensures bytes == ToBytes(value, n)
    ensures bytes.None? ==> link.sent == old(link.sent) && link.replies == old(link.replies)
    ensures bytes.Some? ==> link.sent == old(link.sent) + RegisterWrites(base, bytes.value)
    ensures bytes.Some? ==> link.replies == Drop(old(link.replies), n)
  {
    bytes := ToBytes(value, n);
    if bytes.Some? {
      SendRegisterWrites(link, base, bytes.value);
    }
  }

  // ---------------------------------------------------------------- sweep

  /** Python's `int(x)` on a float: truncation toward zero. */
  function TruncToInt(x: real): (n: int)
    ensures x >= 0.0 ==> n >= 0 && n as real <= x < n as real + 1.0
    ensures x < 0.0 ==> n <= 0 && n as real - 1.0 < x <= n as real
  {
    if x >= 0.0 then x.Floor else -((-x).Floor)
  }

  /** The step between sweep points: `(stop - start) / (points - 1)`, or 0 for at most one point. */
  function StepHz(startHz: real, stopHz: real, points: int): real
  {
    if points > 1 then (stopHz - startHz) / ((points - 1) as real) else 0.0
  }

  /** One WRITE frame per byte, at consecutive register addresses from base. */
  function RegisterWrites(base: int, bs: seq<int>): (fs: seq<seq<int>>)
    ensures |fs| == |bs|
  {
    seq(|bs|, i requires 0 <= i < |bs| => WriteFrame(base + i, bs[i]))
  }

  /** Where programming a sweep stopped with a raised OverflowError. */
  datatype SweepFailure = StartOverflow | StepOverflow | PointsOverflow

  /** The frames `setup_sweep` sends, and the failure it raises if any. */
  datatype SweepPlan = SweepPlan(frames: seq<seq<int>>, failure: Option<SweepFailure>)

  /**
   * The frames `setup_sweep` sends: start (8 bytes), step (8 bytes), points
   * (2 bytes), values-per-frequency (2 bytes, the constant 1), each little-endian.
   * Every `to_bytes` may raise; the frames already sent stay sent.
   */
  function PlanSweep(startHz: real, stopHz: real, points: int): SweepPlan
  {
    match ToBytes(TruncToInt(startHz), 8)
    case None => SweepPlan([], Some(StartOverflow))
    case Some(startBytes) =>
      var f1 := RegisterWrites(RegSweepStart, startBytes);
      match ToBytes(TruncToInt(StepHz(startHz, stopHz, points)), 8)
      case None => SweepPlan(f1, Some(StepOverflow))
      case Some(stepBytes) =>
        var f2 := f1 + RegisterWrites(RegSweepStep, stepBytes);
        match ToBytes(points, 2)
        case None => SweepPlan(f2, Some(PointsOverflow))
        case Some(pointBytes) =>
          SweepPlan(f2 + RegisterWrites(RegSweepPoints, pointBytes)
                       + RegisterWrites(RegValuesPerFrequency, [1, 0]), None)
  }

  /** `(1).to_bytes(2, 'little')`, the values-per-frequency bytes. */
  lemma ValuesPerFrequencyBytes()
    ensures ToBytes(1, 2) == Some([1, 0])
  {
    assert Pow256(2) == 65536;
    assert LeBytes(1, 2) == [1, 0];
  }

  /** The first half of `setup_sweep`: the start and step registers. */
  function PlanRange(startHz: real, stopHz: real, points: int): SweepPlan
  {
    match ToBytes(TruncToInt(startHz), 8)
    case None => SweepPlan([], Some(StartOverflow))
    case Some(startBytes) =>
      var f1 := RegisterWrites(RegSweepStart, startBytes);
      match ToBytes(TruncToInt(StepHz(startHz, stopHz, points)), 8)
      case None => SweepPlan(f1, Some(StepOverflow))
      case Some(stepBytes) => SweepPlan(f1 + RegisterWrites(RegSweepStep, stepBytes), None)
  }

  /** The second half: the point count and the values-per-frequency registers. */
  function PlanCounts(points: int): SweepPlan
  {
    match ToBytes(points, 2)
    case None => SweepPlan([], Some(PointsOverflow))
    case Some(pointBytes) =>
      SweepPlan(RegisterWrites(RegSweepPoints, pointBytes) + RegisterWrites(RegValuesPerFrequency, [1, 0]), None)
  }

  /** One part after the other: a raised error ends the whole, the frames sent so far stay sent. */
  function Then(first: SweepPlan, second: SweepPlan): SweepPlan
  {
    if first.failure.Some? then first else SweepPlan(first.frames + second.frames, second.failure)
  }

  /** The sweep programming is its two halves in sequence. */
  lemma PlanSweepHalves(startHz: real, stopHz: real, points: int)
    ensures PlanSweep(startHz, stopHz, points) == Then(PlanRange(startHz, stopHz, points), PlanCounts(points))
  {
    var start := ToBytes(TruncToInt(startHz), 8);
    var step := ToBytes(TruncToInt(StepHz(startHz, stopHz, points)), 8);
    var count := ToBytes(points, 2);
    if start.Some? && step.Some? && count.Some? {
      var f2 := RegisterWrites(RegSweepStart, start.value) + RegisterWrites(RegSweepStep, step.value);
      var f3 := RegisterWrites(RegSweepPoints, count.value);
      var f4 := RegisterWrites(RegValuesPerFrequency, [1, 0]);
      assert PlanRange(startHz, stopHz, points) == SweepPlan(f2, None);
      assert PlanCounts(points) == SweepPlan(f3 + f4, None);
      assert f2 + f3 + f4 == f2 + (f3 + f4);
    }
  }

  /** `setup_sweep`'s start and step registers, with the OverflowError of either `to_bytes`. */
  method ProgramRange(link: SerialLink, startHz: real, stopHz: real, points: int) returns (failure: Option<SweepFailure>)
    modifies link
    ensures failure == PlanRange(startHz, stopHz, points).failure
    ensures link.sent == old(link.sent) + PlanRange(startHz, stopHz, points).frames
    ensures link.replies == Drop(old(link.replies), |PlanRange(startHz, stopHz, points).frames|)
  {
    ghost var q0 := link.replies;
    ghost var s0 := link.sent;
    var stepHz := StepHz(startHz, stopHz, points);
    var startBytes := SendLittleEndian(link, RegSweepStart, TruncToInt(startHz), 8);
    if startBytes.None? {
      return Some(StartOverflow);
    }
    ghost var f1 := RegisterWrites(RegSweepStart, startBytes.value);
    var stepBytes := SendLittleEndian(link, RegSweepStep, TruncToInt(stepHz), 8);
    if stepBytes.None? {
      return Some(StepOverflow);
    }
    SentTwice(s0, f1, RegisterWrites(RegSweepStep, stepBytes.value));
    DropAdd(q0, 8, 8);
    failure := None;
  }

  /** The register address of the k-th frame of a complete sweep programming. */
  function SweepAddress(k: nat): int
  {
    if k < 8 then RegSweepStart + k
    else if k < 16 then RegSweepStep + (k - 8)
    else if k < 18 then RegSweepPoints + (k - 16)
    else RegValuesPerFrequency + (k - 18)
  }

  /** The value byte carried by each of frames[lo..hi] (-1 for a frame that is not a WRITE). */
  function Payload(frames: seq<seq<int>>, lo: nat, hi: nat): (bs: seq<int>)
    requires lo <= hi <= |frames|
    ensures |bs| == hi - lo
  {
    seq(hi - lo, i requires 0 <= i < hi - lo =>
      if |frames[lo + i]| == 3 && frames[lo + i][0] == OpWrite then frames[lo + i][2] else -1)
  }

  lemma PayloadOfWrites(pre: seq<seq<int>>, base: int, bs: seq<int>, post: seq<seq<int>>)
    ensures Payload(pre + RegisterWrites(base, bs) + post, |pre|, |pre| + |bs|) == bs
  {
    var all := pre + RegisterWrites(base, bs) + post;
    forall i | 0 <= i < |bs|
      ensures Payload(all, |pre|, |pre| + |bs|)[i] == bs[i]
    {
      assert all[|pre| + i] == WriteFrame(base + i, bs[i]);
    }
  }

  /** Four consecutive register groups of sizes 8, 8, 2 and 2 are 20 WRITE frames to the sweep addresses. */
  lemma GroupLayout(sb: seq<int>, tb: seq<int>, pb: seq<int>, vb: seq<int>)
    requires |sb| == 8 && |tb| == 8 && |pb| == 2 && |vb| == 2
    requires IsBytes(sb) && IsBytes(tb) && IsBytes(pb) && IsBytes(vb)
    ensures var fs := RegisterWrites(RegSweepStart, sb) + RegisterWrites(RegSweepStep, tb)
                    + RegisterWrites(RegSweepPoints, pb) + RegisterWrites(RegValuesPerFrequency, vb);
      |fs| == 20 &&
      forall k :: 0 <= k < 20 ==> |fs[k]| == 3 && Decode(fs[k]) == Some(Write(SweepAddress(k), fs[k][2]))
  {
    var fs := RegisterWrites(RegSweepStart, sb) + RegisterWrites(RegSweepStep, tb)
            + RegisterWrites(RegSweepPoints, pb) + RegisterWrites(RegValuesPerFrequency, vb);
    forall k | 0 <= k < 20
      ensures |fs[k]| == 3 && Decode(fs[k]) == Some(Write(SweepAddress(k), fs[k][2]))
    {
      if k < 8 {
        assert fs[k] == WriteFrame(RegSweepStart + k, sb[k]);
      } else if k < 16 {
        assert fs[k] == WriteFrame(RegSweepStep + (k - 8), tb[k - 8]);
      } else if k < 18 {
        assert fs[k] == WriteFrame(RegSweepPoints + (k - 16), pb[k - 16]);
      } else {
        assert fs[k] == WriteFrame(RegValuesPerFrequency + (k - 18), vb[k - 18]);
      }
    }
  }

  /** When it completes, programming a sweep is 20 WRITE frames to the register addresses in order. */
  lemma SweepFrameLayout(startHz: real, stopHz: real, points: int)
    requires PlanSweep(startHz, stopHz, points).failure == None
    ensures var fs := PlanSweep(startHz, stopHz, points).frames;
      |fs| == 20 &&
      forall k :: 0 <= k < 20 ==> |fs[k]| == 3 && Decode(fs[k]) == Some(Write(SweepAddress(k), fs[k][2]))
  {
    var sb := ToBytes(TruncToInt(startHz), 8).value;
    var tb := ToBytes(TruncToInt(StepHz(startHz, stopHz, points)), 8).value;
    var pb := ToBytes(points, 2).value;
    assert PlanSweep(startHz, stopHz, points).frames
        == RegisterWrites(RegSweepStart, sb) + RegisterWrites(RegSweepStep, tb)
         + RegisterWrites(RegSweepPoints, pb) + RegisterWrites(RegValuesPerFrequency, [1, 0]);
    GroupLayout(sb, tb, pb, [1, 0]);
  }

  /** The value bytes of four consecutive register groups of sizes 8, 8, 2 and 2. */
  lemma GroupPayloads(sb: seq<int>, tb: seq<int>, pb: seq<int>, vb: seq<int>)
    requires |sb| == 8 && |tb| == 8 && |pb| == 2 && |vb| == 2
    ensures var fs := RegisterWrites(RegSweepStart, sb) + RegisterWrites(RegSweepStep, tb)
                    + RegisterWrites(RegSweepPoints, pb) + RegisterWrites(RegValuesPerFrequency, vb);
      |fs| == 20 && Payload(fs, 0, 8) == sb && Payload(fs, 8, 16) == tb
      && Payload(fs, 16, 18) == pb && Payload(fs, 18, 20) == vb
  {
    var w1, w2 := RegisterWrites(RegSweepStart, sb), RegisterWrites(RegSweepStep, tb);
    var w3, w4 := RegisterWrites(RegSweepPoints, pb), RegisterWrites(RegValuesPerFrequency, vb);
    var fs := w1 + w2 + w3 + w4;
    PayloadOfWrites([], RegSweepStart, sb, w2 + w3 + w4);
    assert [] + w1 + (w2 + w3 + w4) == fs;
    PayloadOfWrites(w1, RegSweepStep, tb, w3 + w4);
    assert w1 + w2 + (w3 + w4) == fs;
    PayloadOfWrites(w1 + w2, RegSweepPoints, pb, w4);
    PayloadOfWrites(w1 + w2 + w3, RegValuesPerFrequency, vb, []);
    assert w1 + w2 + w3 + w4 + [] == fs;
  }

  /** The value bytes of each register group of a complete programming are the `to_bytes` results. */
  lemma SweepPayloads(startHz: real, stopHz: real, points: int)
    requires PlanSweep(startHz, stopHz, points).failure == None
    ensures var fs := PlanSweep(startHz, stopHz, points).frames;
      |fs| == 20 &&
      Payload(fs, 0, 8) == ToBytes(TruncToInt(startHz), 8).value &&
      Payload(fs, 8, 16) == ToBytes(TruncToInt(StepHz(startHz, stopHz, points)), 8).value &&
      Payload(fs, 16, 18) == ToBytes(points, 2).value &&
      Payload(fs, 18, 20) == [1, 0]
  {
    var sb := ToBytes(TruncToInt(startHz), 8).value;
    var tb := ToBytes(TruncToInt(StepHz(startHz, stopHz, points)), 8).value;
    var pb := ToBytes(points, 2).value;
    assert PlanSweep(startHz, stopHz, points).frames
        == RegisterWrites(RegSweepStart, sb) + RegisterWrites(RegSweepStep, tb)
         + RegisterWrites(RegSweepPoints, pb) + RegisterWrites(RegValuesPerFrequency, [1, 0]);
    GroupPayloads(sb, tb, pb, [1, 0]);
  }

  /**
   * Reading the value bytes back, little-endian, from each register group gives the
   * programmed start, step, point count and values-per-frequency (1).
   */
  lemma SweepRoundTrip(startHz: real, stopHz: real, points: int)
    requires PlanSweep(startHz, stopHz, points).failure == None
    ensures var fs := PlanSweep(startHz, stopHz, points).frames;
      |fs| == 20 &&
      LeValue(Payload(fs, 0, 8)) == TruncToInt(startHz) &&
      LeValue(Payload(fs, 8, 16)) == TruncToInt(StepHz(startHz, stopHz, points)) &&
      LeValue(Payload(fs, 16, 18)) == points &&
      LeValue(Payload(fs, 18, 20)) == 1
  {
    SweepPayloads(startHz, stopHz, points);
    assert LeValue([1, 0]) == 1;
  }

  /** The programming completes exactly when start, step and point count all fit their registers. */
  lemma SweepCompletes(startHz: real, stopHz: real, points: int)
    ensures PlanSweep(startHz, stopHz, points).failure == None <==>
      (0 <= TruncToInt(startHz) < TwoTo64 &&
       0 <= TruncToInt(StepHz(startHz, stopHz, points)) < TwoTo64 &&
       0 <= points < TwoTo16)
  {
    Pow256Values();
  }

  /**
   * Where a raise leaves the link: nothing sent for a bad start; exactly the 8
   * start frames (and no step frame) for a bad step -- a negative one included;
   * the 16 start and step frames for a bad point count.
   */
  lemma SweepFailureFrames(startHz: real, stopHz: real, points: int)
    ensures var p := PlanSweep(startHz, stopHz, points);
      (p.failure == Some(StartOverflow) <==> !(0 <= TruncToInt(startHz) < TwoTo64)) &&
      (p.failure == Some(StartOverflow) ==> p.frames == []) &&
      (p.failure == Some(StepOverflow) ==> |p.frames| == 8 && LeValue(Payload(p.frames, 0, 8)) == TruncToInt(startHz)) &&
      (p.failure == Some(PointsOverflow) ==> |p.frames| == 16)
  {
    Pow256Values();
    var p := PlanSweep(startHz, stopHz, points);
    if p.failure == Some(StepOverflow) {
      var sb := ToBytes(TruncToInt(startHz), 8).value;
      assert p.frames == RegisterWrites(RegSweepStart, sb);
      PayloadOfWrites([], RegSweepStart, sb, []);
      assert [] + RegisterWrites(RegSweepStart, sb) + [] == p.frames;
    }
  }

  lemma NegativeStepRaises(startHz: real, stopHz: real, points: int)
    requires 0 <= TruncToInt(startHz) < TwoTo64
    requires TruncToInt(StepHz(startHz, stopHz, points)) < 0
    ensures PlanSweep(startHz, stopHz, points).failure == Some(StepOverflow)
    ensures |PlanSweep(startHz, stopHz, points).frames| == 8
  {
    Pow256Values();
  }

  lemma FloorOfQuotient(a: int, b: int)
    requires a >= 0 && b > 0
    ensures ((a as real) / (b as real)).Floor == a / b
  {
    var q, r := a / b, a % b;
    var x := (a as real) / (b as real);
    assert a == q * b + r && 0 <= r < b;
    assert (q * b) as real == (q as real) * (b as real);
    assert ((q + 1) * b) as real == ((q + 1) as real) * (b as real);
    assert x * (b as real) == a as real;
    assert (q as real) <= x;
    assert x < (q + 1) as real;
  }

  /** For integral start <= stop and at least two points, the step register gets the floor quotient. */
  lemma StepIsFloorDivision(startHz: int, stopHz: int, points: int)
    requires startHz <= stopHz
    ensures TruncToInt(StepHz(startHz as real, stopHz as real, points)) ==
      (if points > 1 then (stopHz - startHz) / (points - 1) else 0)
  {
    if points > 1 {
      FloorOfQuotient(stopHz - startHz, points - 1);
      assert (stopHz as real) - (startHz as real) == (stopHz - startHz) as real;
    }
  }

  lemma ExampleBytes()
    ensures LeBytes(1000000, 8) == [0x40, 0x42, 0x0F, 0x00, 0x00, 0x00, 0x00, 0x00]
    ensures LeBytes(9900000, 8) == [0xE0, 0x0F, 0x97, 0x00, 0x00, 0x00, 0x00, 0x00]
    ensures LeBytes(11, 2) == [0x0B, 0x00]
  {
    LeBytesZero(5);
    assert LeBytes(15, 6) == [15] + LeBytes(0, 5);
    assert LeBytes(3906, 7) == [0x42] + LeBytes(15, 6);
    assert LeBytes(1000000, 8) == [0x40] + LeBytes(3906, 7);
    assert LeBytes(151, 6) == [151] + LeBytes(0, 5);
    assert LeBytes(38671, 7) == [0x0F] + LeBytes(151, 6);
    assert LeBytes(9900000, 8) == [0xE0] + LeBytes(38671, 7);
    assert LeBytes(11, 2) == [11] + LeBytes(0, 1);
  }

  lemma ExampleStep()
    ensures TruncToInt(1000000.0) == 1000000
    ensures TruncToInt(StepHz(1000000.0, 100000000.0, 11)) == 9900000
  {
    assert StepHz(1000000.0, 100000000.0, 11) == 9900000.0;
  }

  /** The sweep the SAA2 session programs, 1 MHz to 100 MHz in 11 points, byte by byte. */
  lemma WorkedSweepExample()
    ensures var p := PlanSweep(1000000.0, 100000000.0, 11);
      p.failure == None &&
      TruncToInt(StepHz(1000000.0, 100000000.0, 11)) == 9900000 &&
      Payload(p.frames, 0, 8) == [0x40, 0x42, 0x0F, 0x00, 0x00, 0x00, 0x00, 0x00] &&
      Payload(p.frames, 8, 16) == [0xE0, 0x0F, 0x97, 0x00, 0x00, 0x00, 0x00, 0x00] &&
      Payload(p.frames, 16, 18) == [0x0B, 0x00] &&
      Payload(p.frames, 18, 20) == [0x01, 0x00]
  {
    ExampleStep();
    ExampleBytes();
    SweepCompletes(1000000.0, 100000000.0, 11);
    SweepPayloads(1000000.0, 100000000.0, 11);
  }
}
