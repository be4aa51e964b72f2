/**
 * The minimal driver `NanoVNA_Simple`: the same handshake and sweep programming
 * as the S-A-A-2 driver, a single 1024-byte FIFO read per capture, S11 only,
 * and the menu step that validates a sweep request before measuring.
 */
module NanoVnaSimple {
  import opened Wrappers
  import opened Slices
  import opened Bytes
  import opened ComplexArith
  import opened Transport
  import opened Saa2Protocol
  import opened Axis
  import opened Floats
  import NanoVna

  /** Bytes asked for by the single READFIFO of `capture_data`: 32 records. */
  const CaptureReadSize: int := 1024

  /** Bounds of the point count accepted by the menu. */
  const MinPoints: int := 2
  const MaxPoints: int := 1001

  /** The menu multiplies MHz by this to get Hz. */
  const HzPerMhz: real := 1000000.0

  // ---------------------------------------------------------------- parsing

  /**
   * `_parse_data`: S11 from the first 16 bytes. A buffer too short for one of
   * the four `struct.unpack` calls raises, which the bare `except` turns into None.
   */
  function ParseData(data: seq<int>): (s11: Option<Complex>)
    ensures s11.Some? <==> |data| >= 16
  {
    if |data| < 16 then None
    else
      var reference := Complex(Int32Le(data[0..4]) as real, Int32Le(data[4..8]) as real);
      var s11Raw := Complex(Int32Le(data[8..12]) as real, Int32Le(data[12..16]) as real);
      if AbsAbove(reference, Epsilon) then Some(Div(s11Raw, reference)) else Some(Zero)
  }

  /** Only the reference and port-0 words are read; whatever follows them is ignored. */
  lemma ParseIgnoresTail(data: seq<int>, tail: seq<int>)
    requires |data| >= 16
    ensures ParseData(data + tail) == ParseData(data)
  {
    var d := data + tail;
    assert d[0..4] == data[0..4] && d[4..8] == data[4..8];
    assert d[8..12] == data[8..12] && d[12..16] == data[12..16];
  }

  /** On a whole record this driver computes the same S11 as the S-A-A-2 driver. */
  lemma ParseAgreesWithSaa2(chunk: seq<int>)
    requires |chunk| == NanoVna.RecordSize
    ensures ParseData(chunk) == Some(NanoVna.DecodeRecord(chunk).s11)
  {
  }

  /** A zero reference yields S11 = 0 rather than a division error. */
  lemma ParseZeroReference(data: seq<int>)
    requires |data| >= 16
    requires Int32Le(data[0..4]) == 0 && Int32Le(data[4..8]) == 0
    ensures ParseData(data) == Some(Zero)
  {
    GuardOnIntegers(0, 0);
  }

  /** The measurements of a byte stream: S11 of each complete 32-byte chunk, in order. */
  function MeasurementStream(data: seq<int>): seq<Complex>
  {
    seq(|data| / 32, k requires 0 <= k < |data| / 32 => ParseData(data[32 * k .. 32 * k + 32]).value)
  }

  /** Both drivers read the same S11 values from the same stream. */
  lemma MeasurementsAgreeWithSaa2(data: seq<int>)
    ensures |MeasurementStream(data)| == |NanoVna.DecodeStream(data)|
    ensures forall k :: 0 <= k < |MeasurementStream(data)| ==>
      MeasurementStream(data)[k] == NanoVna.DecodeStream(data)[k].s11
  {
    forall k | 0 <= k < |MeasurementStream(data)|
      ensures MeasurementStream(data)[k] == NanoVna.DecodeStream(data)[k].s11
    {
      ParseAgreesWithSaa2(data[32 * k .. 32 * k + 32]);
    }
  }

  /** The `for i in range(0, len(data), 32)` loop of `capture_data`. */
  method ChunkMeasurements(data: seq<int>) returns (measurements: seq<Complex>)
    ensures measurements == MeasurementStream(data)
  {
    measurements := [];
    var i := 0;
    while i < |data|
      invariant 0 <= i < |data| + 32 && i % 32 == 0
      invariant measurements == MeasurementStream(data)[..Min(i, |data|) / 32]
    {
      var chunk := data[i .. Min(i + 32, |data|)];
      if |chunk| == 32 {
        var measurement := ParseData(chunk);
        if measurement.Some? {
          measurements := measurements + [measurement.value];
        }
      }
      i := i + 32;
    }
    assert Min(i, |data|) / 32 == |MeasurementStream(data)|;
  }

  /** The READFIFO frame of `capture_data`: `[0x18, 0x30, 0x00, 0x04]`. */
  function CaptureReadFrame(): seq<int>
  {
    ReadFifoFrame(RegFifo, CaptureReadSize)
  }

  lemma CaptureReadFrameBytes()
    ensures CaptureReadFrame() == [0x18, 0x30, 0x00, 0x04]
  {
  }

  // ---------------------------------------------------------------- menu validation

  /** The two checks of the menu, in the order they are made. */
  datatype Rejection = StartNotBelowStop | PointsOutOfRange

  function CheckRequest(startMhz: real, stopMhz: real, points: int): (r: Option<Rejection>)
    ensures r == None <==> startMhz < stopMhz && MinPoints <= points <= MaxPoints
    ensures r == Some(StartNotBelowStop) <==> startMhz >= stopMhz
  {
    if startMhz >= stopMhz then Some(StartNotBelowStop)
    else if points < MinPoints || points > MaxPoints then Some(PointsOutOfRange)
    else None
  }

  /**
   * An accepted request whose bounds are non-negative and below 2^64 Hz programs
   * the whole sweep: the point count and the step always fit their registers.
   */
  lemma AcceptedRequestProgramsSweep(startMhz: real, stopMhz: real, points: int)
    requires CheckRequest(startMhz, stopMhz, points) == None
    requires 0.0 <= startMhz && stopMhz * HzPerMhz < TwoTo64 as real
    ensures PlanSweep(startMhz * HzPerMhz, stopMhz * HzPerMhz, points).failure == None
  {
    AcceptedRequestFits(startMhz, stopMhz, points);
    SweepCompletes(startMhz * HzPerMhz, stopMhz * HzPerMhz, points);
  }

  /** The register bounds an accepted request meets: u64 start and step, u16 point count. */
  lemma AcceptedRequestFits(startMhz: real, stopMhz: real, points: int)
    requires CheckRequest(startMhz, stopMhz, points) == None
    requires 0.0 <= startMhz && stopMhz * HzPerMhz < TwoTo64 as real
    ensures 0 <= TruncToInt(startMhz * HzPerMhz) < TwoTo64
    ensures 0 <= TruncToInt(StepHz(startMhz * HzPerMhz, stopMhz * HzPerMhz, points)) < TwoTo64
    ensures 0 <= points < TwoTo16
  {
    var startHz, stopHz := startMhz * HzPerMhz, stopMhz * HzPerMhz;
    StepWithinSpan(startHz, stopHz, points);
    TruncBelow(startHz, TwoTo64);
    TruncBelow(StepHz(startHz, stopHz, points), TwoTo64);
  }

  /** With at least two points the step lies between 0 and the span. */
  lemma StepWithinSpan(startHz: real, stopHz: real, points: int)
    requires startHz < stopHz && points >= 2
    ensures 0.0 <= StepHz(startHz, stopHz, points) <= stopHz - startHz
  {
    QuotientBounds(stopHz - startHz, (points - 1) as real);
  }

  /** A non-negative real below n truncates to an integer in [0, n). */
  lemma TruncBelow(x: real, n: int)
    requires 0.0 <= x < n as real
    ensures 0 <= TruncToInt(x) < n
  {
  }

  lemma QuotientBounds(x: real, d: real)
    requires x >= 0.0 && d >= 1.0
    ensures 0.0 <= x / d <= x
  {
    var q := x / d;
    assert q * d == x;
    NanoVna.SignOfFactor(q, d);
    NanoVna.ProductNonNegative(q, d - 1.0);
    assert x - q == q * (d - 1.0);
  }

  // ---------------------------------------------------------------- the driver

  /** What one "configure and measure" round of the menu ends in. */
  datatype RoundOutcome =
    | Rejected(reason: Rejection)
    | SweepRaised(failure: SweepFailure)
    | Measured(frequencies: seq<real>, measurements: seq<Complex>)

  /** `plot_results`' axis: `np.linspace(start_hz, stop_hz, n)`, plotted only for n > 0. */
  function PlotAxis(startHz: real, stopHz: real, n: nat): (fs: seq<real>)
    ensures |fs| == n
  {
    if n > 0 then Linspace(startHz, stopHz, n) else []
  }

  /**
   * What programming the sweep and capturing ends in, given the replies and the
   * sent log before it: the OverflowError after the frames already sent, or the
   * first `points` values of the capture reply (the one after the clear) with
   * their plotted axis; and the replies left, one consumed per frame sent.
   */
  predicate SweepRound(startHz: real, stopHz: real, points: int, replies: seq<seq<int>>,
                       sentBefore: seq<seq<int>>, outcome: RoundOutcome, sentAfter: seq<seq<int>>,
                       repliesAfter: seq<seq<int>>)
  {
    var plan := PlanSweep(startHz, stopHz, points);
    (plan.failure.Some? ==>
       outcome == SweepRaised(plan.failure.value) && sentAfter == sentBefore + plan.frames
       && repliesAfter == Drop(replies, |plan.frames|))
    && (plan.failure == None ==>
       var ms := SliceTo(MeasurementStream(Nth(replies, |plan.frames| + 1)), points);
       outcome == Measured(PlotAxis(startHz, stopHz, |ms|), ms)
       && sentAfter == sentBefore + plan.frames + [ClearFifoFrame(), CaptureReadFrame()]
       && repliesAfter == Drop(replies, |plan.frames| + 2))
  }

  /** The plotted axis runs from the requested start to the requested stop. */
  lemma PlotAxisEnds(startHz: real, stopHz: real, n: nat)
    requires n >= 2
    ensures PlotAxis(startHz, stopHz, n)[0] == startHz
    ensures PlotAxis(startHz, stopHz, n)[n - 1] == stopHz
  {
    LinspaceEnds(startHz, stopHz, n);
  }

  class NanoVnaSimpleDriver {
    const link: SerialLink
    var portOpen: bool

    constructor (link: SerialLink)
      ensures this.link == link && !portOpen
    {
      this.link := link;
      portOpen := false;
    }

    /** Opens the port (`opens` false when that raises) and checks the INDICATE reply "2". */
    method Connect(opens: bool) returns (ok: bool)
      modifies this, link
      ensures ok <==> opens && NextReply(old(link.replies)) == IndicateReply
      ensures portOpen == (old(portOpen) || opens)
      ensures opens ==> link.sent == old(link.sent) + [Encode(Indicate)]
                        && link.replies == Rest(old(link.replies))
      ensures !opens ==> link.sent == old(link.sent) && link.replies == old(link.replies)
    {
      if !opens {
        return false;
      }
      portOpen := true;
      var response := link.Send(Encode(Indicate));
      return response == IndicateReply;
    }

    /** The same register programming as the S-A-A-2 driver, with the literal value bytes 1, 0. */
    method SetupSweep(startHz: real, stopHz: real, points: int) returns (failure: Option<SweepFailure>)
      requires portOpen
      modifies link
      ensures failure == PlanSweep(startHz, stopHz, points).failure
      ensures link.sent == old(link.sent) + PlanSweep(startHz, stopHz, points).frames
      ensures link.replies == Drop(old(link.replies), |PlanSweep(startHz, stopHz, points).frames|)
    {
      ghost var q0 := link.replies;
      ghost var s0 := link.sent;
      PlanSweepHalves(startHz, stopHz, points);
      ghost var range := PlanRange(startHz, stopHz, points);
      failure := ProgramRange(link, startHz, stopHz, points);
      if failure.Some? {
        return;
      }
      failure := SendCounts(points);
      SentTwice(s0, range.frames, PlanCounts(points).frames);
      DropAdd(q0, |range.frames|, |PlanCounts(points).frames|);
    }

    /** The point count through `to_bytes(2, 'little')`, then the literal bytes 1 and 0. */
    method SendCounts(points: int) returns (failure: Option<SweepFailure>)
      modifies link
      ensures failure == PlanCounts(points).failure
      ensures link.sent == old(link.sent) + PlanCounts(points).frames
      ensures link.replies == Drop(old(link.replies), |PlanCounts(points).frames|)
    {
      ghost var q0 := link.replies;
      ghost var s0 := link.sent;
      var pointsBytes := SendLittleEndian(link, RegSweepPoints, points, 2);
      if pointsBytes.None? {
        return Some(PointsOverflow);
      }
      SendRegisterWrites(link, RegValuesPerFrequency, [1, 0]);
      SentTwice(s0, RegisterWrites(RegSweepPoints, pointsBytes.value), RegisterWrites(RegValuesPerFrequency, [1, 0]));
      DropAdd(q0, 2, 2);
      failure := None;
    }

    /**
     * Clears the FIFO, asks once for 1024 bytes, decodes the complete records of
     * the reply and keeps `[:points]` of them.
     */
    method CaptureData(points: int) returns (measurements: seq<Complex>)
      requires portOpen
      modifies link
      ensures link.sent == old(link.sent) + [ClearFifoFrame(), CaptureReadFrame()]
      ensures link.replies == Drop(old(link.replies), 2)
      ensures measurements == SliceTo(MeasurementStream(Nth(old(link.replies), 1)), points)
    {
      ghost var q0 := link.replies;
      DropStep(q0, 0);
      var _ := link.Send(ClearFifoFrame());
      DropStep(q0, 1);
      var data := link.Send(CaptureReadFrame());
      measurements := ChunkMeasurements(data);
      measurements := SliceTo(measurements, points);
    }

    /** Programs the sweep in Hz and, when that raises nothing, captures `points` values. */
    method SweepAndCapture(startHz: real, stopHz: real, points: int) returns (outcome: RoundOutcome)
      requires portOpen
      modifies link
      ensures SweepRound(startHz, stopHz, points, old(link.replies), old(link.sent), outcome, link.sent, link.replies)
    {
      ghost var q0 := link.replies;
      var failure := SetupSweep(startHz, stopHz, points);
      if failure.Some? {
        return SweepRaised(failure.value);
      }
      ghost var n := |PlanSweep(startHz, stopHz, points).frames|;
      var measurements := CaptureData(points);
      assert Nth(Drop(q0, n), 1) == Nth(q0, n + 1);
      DropAdd(q0, n, 2);
      outcome := Measured(PlotAxis(startHz, stopHz, |measurements|), measurements);
    }

    /**
     * One round of menu option 1 with the entered values: reject a bad request
     * without touching the device, otherwise program the sweep in Hz and capture.
     */
    method ConfigureAndMeasure(startMhz: real, stopMhz: real, points: int) returns (outcome: RoundOutcome)
      requires portOpen
      modifies link
      ensures CheckRequest(startMhz, stopMhz, points).Some? ==>
        outcome == Rejected(CheckRequest(startMhz, stopMhz, points).value)
        && link.sent == old(link.sent) && link.replies == old(link.replies)
      ensures CheckRequest(startMhz, stopMhz, points) == None ==>
        SweepRound(startMhz * HzPerMhz, stopMhz * HzPerMhz, points, old(link.replies), old(link.sent), outcome,
                   link.sent, link.replies)
    {
      var rejection := CheckRequest(startMhz, stopMhz, points);
      if rejection.Some? {
        return Rejected(rejection.value);
      }
      outcome := SweepAndCapture(startMhz * HzPerMhz, stopMhz * HzPerMhz, points);
    }
  }
}
