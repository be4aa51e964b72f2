/**
 * The NanoVNA S-A-A-2 driver (`NanoVNA_SAA2`): connection handshake, sweep
 * configuration, FIFO capture with early stop, decoding of the 32-byte FIFO
 * records and their reference calibration, and the VSWR plotted from |S11|.
 */
module NanoVna {
  import opened Wrappers
  import opened Slices
  import opened Bytes
  import opened ComplexArith
  import opened Transport
  import opened Saa2Protocol
  import opened Axis
  import opened Floats

  /** Size of one FIFO record in bytes. */
  const RecordSize: nat := 32

  /** Records requested per READFIFO command: 256 bytes, i.e. 8 records. */
  const ReadBlockSize: int := 256

  /** The capture gives up after this many READFIFO attempts. */
  const MaxAttempts: nat := 5

  /** The frequency axis of a capture assumes the sweep 1 MHz .. 100 MHz. */
  const AxisStartHz: real := 1000000.0
  const AxisStopHz: real := 100000000.0

  // ---------------------------------------------------------------- FIFO records

  /** The integer fields of a FIFO record: forward (reference), reverse port 0, reverse port 1, index. */
  datatype RawRecord = RawRecord(
    fwdRe: int, fwdIm: int,
    rev0Re: int, rev0Im: int,
    rev1Re: int, rev1Im: int,
    freqIndex: int)

  /** Offsets 0..24 hold six little-endian int32 values, 24..26 the uint16 index, 26..32 are ignored. */
  function RawOf(chunk: seq<int>): RawRecord
    requires |chunk| == RecordSize
  {
    RawRecord(
      Int32Le(chunk[0..4]), Int32Le(chunk[4..8]),
      Int32Le(chunk[8..12]), Int32Le(chunk[12..16]),
      Int32Le(chunk[16..20]), Int32Le(chunk[20..24]),
      Uint16Le(chunk[24..26]))
  }

  predicate Int32InRange(v: int) { -TwoTo31 <= v < TwoTo31 }

  predicate RawInRange(r: RawRecord)
  {
    Int32InRange(r.fwdRe) && Int32InRange(r.fwdIm)
    && Int32InRange(r.rev0Re) && Int32InRange(r.rev0Im)
    && Int32InRange(r.rev1Re) && Int32InRange(r.rev1Im)
    && 0 <= r.freqIndex < TwoTo16
  }

  /** The record the device would send for r, with the six trailing bytes zero. */
  function EncodeRaw(r: RawRecord): (chunk: seq<int>)
    requires RawInRange(r)
    ensures |chunk| == RecordSize && IsBytes(chunk)
  {
    Int32ToLe(r.fwdRe) + Int32ToLe(r.fwdIm)
    + Int32ToLe(r.rev0Re) + Int32ToLe(r.rev0Im)
    + Int32ToLe(r.rev1Re) + Int32ToLe(r.rev1Im)
    + LeBytes(r.freqIndex, 2) + [0, 0, 0, 0, 0, 0]
  }

  /** Every field read back from an encoded record is the field written. */
  lemma RawRoundTrip(r: RawRecord)
    requires RawInRange(r)
    ensures RawOf(EncodeRaw(r)) == r
  {
    var e := EncodeRaw(r);
    assert e[0..4] == Int32ToLe(r.fwdRe);
    assert e[4..8] == Int32ToLe(r.fwdIm);
    assert e[8..12] == Int32ToLe(r.rev0Re);
    assert e[12..16] == Int32ToLe(r.rev0Im);
    assert e[16..20] == Int32ToLe(r.rev1Re);
    assert e[20..24] == Int32ToLe(r.rev1Im);
    assert e[24..26] == LeBytes(r.freqIndex, 2);
    Int32RoundTrip(r.fwdRe);
    Int32RoundTrip(r.fwdIm);
    Int32RoundTrip(r.rev0Re);
    Int32RoundTrip(r.rev0Im);
    Int32RoundTrip(r.rev1Re);
    Int32RoundTrip(r.rev1Im);
    Pow256Values();
    LeRoundTrip(r.freqIndex, 2);
  }

  /** Any 32 bytes decode to fields inside the int32 / uint16 ranges. */
  lemma RawRange(chunk: seq<int>)
    requires |chunk| == RecordSize && IsBytes(chunk)
    ensures RawInRange(RawOf(chunk))
  {
    Int32Range(chunk[0..4]);
    Int32Range(chunk[4..8]);
    Int32Range(chunk[8..12]);
    Int32Range(chunk[12..16]);
    Int32Range(chunk[16..20]);
    Int32Range(chunk[20..24]);
    Uint16Range(chunk[24..26]);
  }

  /** A decoded point: S11 and S21 relative to the forward (reference) wave. */
  datatype FifoPoint = FifoPoint(freqIndex: int, s11: Complex, s21: Complex, reference: Complex)

  function Reference(r: RawRecord): Complex { Complex(r.fwdRe as real, r.fwdIm as real) }
  function Rev0(r: RawRecord): Complex { Complex(r.rev0Re as real, r.rev0Im as real) }
  function Rev1(r: RawRecord): Complex { Complex(r.rev1Re as real, r.rev1Im as real) }

  /**
   * The "basic calibration": both reverse waves divided by the reference when
   * `abs(reference) > 1e-6`, and 0 for both otherwise.
   */
  function Calibrate(r: RawRecord): (p: FifoPoint)
    ensures p.freqIndex == r.freqIndex && p.reference == Reference(r)
    ensures AbsAbove(Reference(r), Epsilon) ==>
              Mul(p.s11, Reference(r)) == Rev0(r) && Mul(p.s21, Reference(r)) == Rev1(r)
    ensures !AbsAbove(Reference(r), Epsilon) ==> p.s11 == Zero && p.s21 == Zero
  {
    var reference := Reference(r);
    if AbsAbove(reference, Epsilon) then
      FifoPoint(r.freqIndex, Div(Rev0(r), reference), Div(Rev1(r), reference), reference)
    else
      FifoPoint(r.freqIndex, Zero, Zero, reference)
  }

  function DecodeRecord(chunk: seq<int>): FifoPoint
    requires |chunk| == RecordSize
  {
    Calibrate(RawOf(chunk))
  }

  /** `_parse_fifo_data`: None unless the buffer is exactly one record long. */
  function ParseFifoData(data: seq<int>): (p: Option<FifoPoint>)
    ensures p.Some? <==> |data| == RecordSize
  {
    if |data| != RecordSize then None else Some(DecodeRecord(data))
  }

  /** The division is taken exactly when the reference is not 0 + 0i. */
  lemma GuardIsNonZeroReference(r: RawRecord)
    ensures AbsAbove(Reference(r), Epsilon) <==> (r.fwdRe != 0 || r.fwdIm != 0)
  {
    GuardOnIntegers(r.fwdRe, r.fwdIm);
  }

  /** A record with a zero reference reads as S11 = S21 = 0 instead of failing. */
  lemma ZeroReference(chunk: seq<int>)
    requires |chunk| == RecordSize
    requires RawOf(chunk).fwdRe == 0 && RawOf(chunk).fwdIm == 0
    ensures ParseFifoData(chunk) == Some(FifoPoint(RawOf(chunk).freqIndex, Zero, Zero, Zero))
  {
    GuardIsNonZeroReference(RawOf(chunk));
  }

  /** With a non-zero reference, a reverse wave g * reference calibrates to exactly g. */
  lemma ReflectionRecovered(r: RawRecord, g0: Complex, g1: Complex)
    requires r.fwdRe != 0 || r.fwdIm != 0
    requires Rev0(r) == Mul(g0, Reference(r)) && Rev1(r) == Mul(g1, Reference(r))
    ensures Calibrate(r).s11 == g0 && Calibrate(r).s21 == g1
  {
    GuardIsNonZeroReference(r);
    DivUnique(Rev0(r), Reference(r), g0);
    DivUnique(Rev1(r), Reference(r), g1);
  }

  /** A reverse wave equal to the reference (total reflection) gives S11 = 1. */
  lemma UnityReflection(r: RawRecord)
    requires r.fwdRe != 0 || r.fwdIm != 0
    requires r.rev0Re == r.fwdRe && r.rev0Im == r.fwdIm
    ensures Calibrate(r).s11 == One
  {
    GuardIsNonZeroReference(r);
    assert Mul(One, Reference(r)) == Rev0(r);
    DivUnique(Rev0(r), Reference(r), One);
  }

  // ---------------------------------------------------------------- record stream

  /** The records of a byte stream: one per complete 32-byte chunk, a partial tail dropped. */
  function DecodeStream(data: seq<int>): seq<FifoPoint>
  {
    seq(|data| / RecordSize, k requires 0 <= k < |data| / RecordSize =>
      DecodeRecord(data[RecordSize * k .. RecordSize * k + RecordSize]))
  }

  lemma StreamCount(data: seq<int>)
    ensures |DecodeStream(data)| == |data| / RecordSize
    ensures |data| - RecordSize < RecordSize * |DecodeStream(data)| <= |data|
  {
  }

  /** Decoding a stream that starts with a whole record decodes that record first. */
  lemma StreamCons(chunk: seq<int>, rest: seq<int>)
    requires |chunk| == RecordSize
    ensures DecodeStream(chunk + rest) == [DecodeRecord(chunk)] + DecodeStream(rest)
  {
    var s := chunk + rest;
    var lhs := DecodeStream(s);
    var rhs := [DecodeRecord(chunk)] + DecodeStream(rest);
    assert |s| / RecordSize == 1 + |rest| / RecordSize;
    assert s[0..RecordSize] == chunk;
    forall k | 1 <= k < |lhs|
      ensures lhs[k] == rhs[k]
    {
      var j := k - 1;
      assert s[RecordSize * k .. RecordSize * k + RecordSize]
          == rest[RecordSize * j .. RecordSize * j + RecordSize];
    }
  }

  function EncodeRecords(rs: seq<RawRecord>): (bs: seq<int>)
    requires forall k :: 0 <= k < |rs| ==> RawInRange(rs[k])
    ensures |bs| == RecordSize * |rs|
  {
    if rs == [] then [] else EncodeRaw(rs[0]) + EncodeRecords(rs[1..])
  }

  /**
   * Records sent back to back, followed by fewer than 32 stray bytes, decode to
   * the calibrated records in arrival order and nothing else.
   */
  lemma {:induction false} StreamRoundTrip(rs: seq<RawRecord>, tail: seq<int>)
    requires forall k :: 0 <= k < |rs| ==> RawInRange(rs[k])
    requires |tail| < RecordSize
    ensures DecodeStream(EncodeRecords(rs) + tail)
         == seq(|rs|, k requires 0 <= k < |rs| => Calibrate(rs[k]))
  {
    if rs == [] {
      assert EncodeRecords(rs) + tail == tail;
    } else {
      var rest := EncodeRecords(rs[1..]) + tail;
      assert EncodeRecords(rs) + tail == EncodeRaw(rs[0]) + rest;
      StreamCons(EncodeRaw(rs[0]), rest);
      RawRoundTrip(rs[0]);
      StreamRoundTrip(rs[1..], tail);
    }
  }

  /** The decoding loop of `capture_data_smart`, over the bytes gathered from the FIFO. */
  method ChunkFifoRecords(data: seq<int>) returns (points: seq<FifoPoint>)
    ensures points == DecodeStream(data)
  {
    points := [];
    var i := 0;
    ghost var k := 0;
    ghost var all := DecodeStream(data);
    while i < |data|
      invariant 0 <= k <= |all| && points == all[..k]
      invariant i == RecordSize * k || (k == |all| && i >= |data|)
    {
      var chunk := data[i .. Min(i + RecordSize, |data|)];
      if |chunk| == RecordSize {
        assert k < |all| && all[k] == DecodeRecord(chunk);
        var pointData := ParseFifoData(chunk);
        if pointData.Some? {
          points := points + [pointData.value];
        }
        assert all[..k + 1] == all[..k] + [all[k]];
        k := k + 1;
      } else {
        assert |all| == k;
      }
      i := i + RecordSize;
    }
    assert k == |all|;
  }

  // ---------------------------------------------------------------- capture polling

  /** What the READFIFO loop gathered, and how many READFIFO commands it sent. */
  datatype Poll = Poll(data: seq<int>, readCount: nat)

  /**
   * The `for attempt in range(5)` loop: each reply is appended when non-empty,
   * and the loop stops right after a non-empty reply brings the total to target.
   */
  function PollFifo(q: seq<seq<int>>, target: int, acc: seq<int>, left: nat): Poll
    decreases left
  {
    if left == 0 then Poll(acc, 0)
    else
      var block := NextReply(q);
      var acc' := acc + block;
      if block != [] && |acc'| >= target then Poll(acc', 1)
      else
        var p := PollFifo(Rest(q), target, acc', left - 1);
        Poll(p.data, p.readCount + 1)
  }

  /** The same loop seen from attempt i on, reading reply i of the whole script; counts are absolute. */
  function PollFrom(q: seq<seq<int>>, target: int, acc: seq<int>, i: nat): Poll
    decreases MaxAttempts - i
  {
    if i >= MaxAttempts then Poll(acc, i)
    else
      var acc' := acc + Nth(q, i);
      if Nth(q, i) != [] && |acc'| >= target then Poll(acc', i + 1)
      else PollFrom(q, target, acc', i + 1)
  }

  lemma {:induction false} PollFromFifo(q: seq<seq<int>>, target: int, acc: seq<int>, i: nat)
    requires i <= MaxAttempts
    ensures PollFrom(q, target, acc, i).data == PollFifo(Drop(q, i), target, acc, MaxAttempts - i).data
    ensures PollFrom(q, target, acc, i).readCount == PollFifo(Drop(q, i), target, acc, MaxAttempts - i).readCount + i
    decreases MaxAttempts - i
  {
    if i < MaxAttempts {
      DropStep(q, i);
      PollFromFifo(q, target, acc + Nth(q, i), i + 1);
    }
  }

  /** The first n replies, concatenated. */
  function Gathered(q: seq<seq<int>>, n: nat): seq<int>
  {
    if n == 0 then [] else NextReply(q) + Gathered(Rest(q), n - 1)
  }

  lemma {:induction false} GatheredStep(q: seq<seq<int>>, n: nat)
    ensures Gathered(q, n + 1) == Gathered(q, n) + Nth(q, n)
    decreases n
  {
    if n == 0 {
      assert Gathered(Rest(q), 0) == [];
      assert Gathered(q, 1) == NextReply(q) + [];
      NthRest(q, 0);
    } else {
      var h := NextReply(q);
      GatheredStep(Rest(q), n - 1);
      NthRest(q, n - 1);
      calc {
        Gathered(q, n + 1);
        h + Gathered(Rest(q), n);
        h + (Gathered(Rest(q), n - 1) + Nth(q, n));
        (h + Gathered(Rest(q), n - 1)) + Nth(q, n);
        Gathered(q, n) + Nth(q, n);
      }
    }
  }

  /** The data gathered is exactly the replies to the reads made, and at least one read is made. */
  lemma {:induction false} PollShape(q: seq<seq<int>>, target: int, acc: seq<int>, left: nat)
    requires left >= 1
    decreases left
    ensures var p := PollFifo(q, target, acc, left);
      1 <= p.readCount <= left && p.data == acc + Gathered(q, p.readCount)
  {
    var block := NextReply(q);
    if block != [] && |acc + block| >= target {
      assert Gathered(Rest(q), 0) == [];
    } else if left == 1 {
      assert PollFifo(Rest(q), target, acc + block, 0) == Poll(acc + block, 0);
      assert Gathered(Rest(q), 0) == [];
    } else {
      PollShape(Rest(q), target, acc + block, left - 1);
    }
  }

  /** The read numbered j (from 1) got a non-empty reply that brought the total to target. */
  predicate StopsAfter(q: seq<seq<int>>, target: int, acc: seq<int>, j: nat)
  {
    j >= 1 && Nth(q, j - 1) != [] && |acc + Gathered(q, j)| >= target
  }

  lemma StopsAfterRest(q: seq<seq<int>>, target: int, acc: seq<int>, j: nat)
    requires j >= 2
    ensures StopsAfter(q, target, acc, j) == StopsAfter(Rest(q), target, acc + NextReply(q), j - 1)
  {
    NthRest(q, j - 2);
    assert acc + Gathered(q, j) == (acc + NextReply(q)) + Gathered(Rest(q), j - 1);
  }

  lemma StopsAfterFirst(q: seq<seq<int>>, target: int, acc: seq<int>)
    ensures StopsAfter(q, target, acc, 1) == (NextReply(q) != [] && |acc + NextReply(q)| >= target)
  {
    NthRest(q, 0);
    assert Gathered(q, 1) == NextReply(q) + [];
  }

  /** A read before the last allowed one ends the loop only by meeting the stop rule. */
  lemma {:induction false} PollStopReason(q: seq<seq<int>>, target: int, acc: seq<int>, left: nat)
    requires left >= 1
    ensures var p := PollFifo(q, target, acc, left);
      p.readCount < left ==> StopsAfter(q, target, acc, p.readCount)
    decreases left
  {
    var block := NextReply(q);
    StopsAfterFirst(q, target, acc);
    if !(block != [] && |acc + block| >= target) && left > 1 {
      var p' := PollFifo(Rest(q), target, acc + block, left - 1);
      PollStopReason(Rest(q), target, acc + block, left - 1);
      PollShape(Rest(q), target, acc + block, left - 1);
      StopsAfterRest(q, target, acc, p'.readCount + 1);
    }
  }

  /** No read before the one that ended the loop met the stop rule. */
  lemma {:induction false} PollNoEarlierStop(q: seq<seq<int>>, target: int, acc: seq<int>, left: nat)
    ensures var p := PollFifo(q, target, acc, left);
      forall j :: 1 <= j < p.readCount ==> !StopsAfter(q, target, acc, j)
    decreases left
  {
    var block := NextReply(q);
    if left > 0 && !(block != [] && |acc + block| >= target) {
      var p := PollFifo(q, target, acc, left);
      PollNoEarlierStop(Rest(q), target, acc + block, left - 1);
      StopsAfterFirst(q, target, acc);
      forall j | 2 <= j < p.readCount
        ensures !StopsAfter(q, target, acc, j)
      {
        StopsAfterRest(q, target, acc, j);
      }
    }
  }

  /** A device that never answers uses up every attempt and yields nothing. */
  lemma {:induction false} PollSilentDevice(q: seq<seq<int>>, target: int, acc: seq<int>, left: nat)
    requires forall k :: 0 <= k < left ==> Nth(q, k) == []
    ensures PollFifo(q, target, acc, left) == Poll(acc, left)
    decreases left
  {
    if left > 0 {
      NthRest(q, 0);
      assert acc + NextReply(q) == acc;
      forall k | 0 <= k < left - 1
        ensures Nth(Rest(q), k) == []
      {
        NthRest(q, k);
      }
      PollSilentDevice(Rest(q), target, acc, left - 1);
    }
  }

  /** A first reply holding every expected record ends the loop after one read. */
  lemma PollFirstBlockSuffices(q: seq<seq<int>>, target: int, left: nat)
    requires left >= 1 && NextReply(q) != [] && |NextReply(q)| >= target
    ensures PollFifo(q, target, [], left) == Poll(NextReply(q), 1)
  {
    assert [] + NextReply(q) == NextReply(q);
  }

  /** Python's `np.linspace(1e6, 100e6, n)`, or `[]` when no point was captured. */
  function FrequencyAxis(n: nat): (fs: seq<real>)
    ensures |fs| == n
  {
    if n > 0 then Linspace(AxisStartHz, AxisStopHz, n) else []
  }

  /** The axis runs from 1 MHz up to 100 MHz, evenly, in non-decreasing order. */
  lemma FrequencyAxisShape(n: nat)
    ensures n == 1 ==> FrequencyAxis(n) == [AxisStartHz]
    ensures n >= 2 ==> FrequencyAxis(n)[0] == AxisStartHz && FrequencyAxis(n)[n - 1] == AxisStopHz
    ensures forall i, j :: 0 <= i <= j < n ==> FrequencyAxis(n)[i] <= FrequencyAxis(n)[j]
  {
    if n > 0 {
      LinspaceEnds(AxisStartHz, AxisStopHz, n);
      forall i, j | 0 <= i <= j < n
        ensures FrequencyAxis(n)[i] <= FrequencyAxis(n)[j]
      {
        LinspaceMonotone(AxisStartHz, AxisStopHz, n, i, j);
      }
    }
  }

  /** The points returned from gathered bytes: decoded in order, then cut to `[:expected]`. */
  function CapturedPoints(data: seq<int>, expected: int): seq<FifoPoint>
  {
    SliceTo(DecodeStream(data), expected)
  }

  /**
   * For expected >= 0 the capture returns min(complete records, expected) points,
   * the k-th being the k-th record of the stream.
   */
  lemma CapturedPointsShape(data: seq<int>, expected: int)
    requires expected >= 0
    ensures |CapturedPoints(data, expected)| == Min(|data| / RecordSize, expected)
    ensures forall k :: 0 <= k < |CapturedPoints(data, expected)| ==>
      CapturedPoints(data, expected)[k]
        == DecodeRecord(data[RecordSize * k .. RecordSize * k + RecordSize])
  {
    var all := DecodeStream(data);
    var r := SliceTo(all, expected);
    assert |all| == |data| / RecordSize;
    assert |r| == Min(expected, |all|);
    forall k | 0 <= k < |r|
      ensures r[k] == DecodeRecord(data[RecordSize * k .. RecordSize * k + RecordSize])
    {
      assert r[k] == all[k];
    }
  }

  /** Once the loop has gathered 32 * expected bytes, exactly `expected` points come back. */
  lemma EnoughDataGivesExpectedPoints(data: seq<int>, expected: int)
    requires expected >= 0 && |data| >= RecordSize * expected
    ensures |CapturedPoints(data, expected)| == expected
  {
    CapturedPointsShape(data, expected);
  }

  // ---------------------------------------------------------------- VSWR

  /** The VSWR plotted from |S11|, capped at 10 once |S11| reaches 0.99. */
  function Vswr(mag: real): real
  {
    if mag < 0.99 then (1.0 + mag) / (1.0 - mag) else 10.0
  }

  /** A factor of a non-negative product with a positive other factor is non-negative. */
  lemma SignOfFactor(u: real, p: real)
    requires p > 0.0 && u * p >= 0.0
    ensures u >= 0.0
  {
  }

  lemma ProductNonNegative(x: real, y: real)
    requires x >= 0.0 && y >= 0.0
    ensures x * y >= 0.0
  {
  }

  /** A VSWR is never below 1 for a magnitude of at least 0. */
  lemma VswrAtLeastOne(mag: real)
    requires mag >= 0.0
    ensures Vswr(mag) >= 1.0
  {
    if mag < 0.99 {
      var a := (1.0 + mag) / (1.0 - mag);
      assert a * (1.0 - mag) == 1.0 + mag;
      assert (a - 1.0) * (1.0 - mag) == 2.0 * mag;
      SignOfFactor(a - 1.0, 1.0 - mag);
    }
  }


  /** Below the cap threshold the VSWR grows with the magnitude. */
  lemma VswrIncreasing(m1: real, m2: real)
    requires 0.0 <= m1 <= m2 < 0.99
    ensures Vswr(m1) <= Vswr(m2)
  {
    var x, y := 1.0 - m1, 1.0 - m2;
    var a := (1.0 + m1) / x;
    var b := (1.0 + m2) / y;
    assert a * x == 1.0 + m1;
    assert b * y == 1.0 + m2;
    // (b - a) * x * y == (1 + m2) * x - (1 + m1) * y == 2 * (m2 - m1) >= 0
    assert (b - a) * (x * y) == (b * y) * x - (a * x) * y;
    assert (b - a) * (x * y) == 2.0 * (m2 - m1);
    assert x * y > 0.0;
    SignOfFactor(b - a, x * y);
  }

  /** The cap at 10 is not an upper bound: just below 0.99 the VSWR is far above 10. */
  lemma VswrNotBoundedByCap()
    ensures Vswr(0.95) == 39.0 && Vswr(0.99) == 10.0
  {
  }

  // ---------------------------------------------------------------- the driver

  /** The READFIFO frame for one block: `[0x18, 0x30, 0x00, 0x01]`. */
  function ReadBlockFrame(): seq<int>
  {
    ReadFifoFrame(RegFifo, ReadBlockSize)
  }

  function ReadFrames(n: nat): (fs: seq<seq<int>>)
    ensures |fs| == n && forall k :: 0 <= k < n ==> fs[k] == ReadBlockFrame()
  {
    seq(n, _ => ReadBlockFrame())
  }

  lemma ReadFramesStep(n: nat)
    ensures ReadFrames(n + 1) == ReadFrames(n) + [ReadBlockFrame()]
  {
  }

  lemma ReadBlockFrameBytes()
    ensures ReadBlockFrame() == [0x18, 0x30, 0x00, 0x01]
  {
  }

  class NanoVnaSaa2 {
    /** The serial port; its opening is the `opens` argument of Connect. */
    const link: SerialLink
    /** `self.serial is not None`. */
    var portOpen: bool
    var connected: bool

    constructor (link: SerialLink)
      ensures this.link == link && !portOpen && !connected
    {
      this.link := link;
      portOpen := false;
      connected := false;
    }

    /**
     * Opens the port (`opens` is false when `serial.Serial` raises) and sends
     * INDICATE; the device is recognised when it answers exactly "2".
     */
    method Connect(opens: bool) returns (ok: bool)
      modifies this, link
      ensures ok <==> opens && NextReply(old(link.replies)) == IndicateReply
      ensures portOpen == (old(portOpen) || opens)
      ensures connected == (old(connected) || ok)
      ensures opens ==> link.sent == old(link.sent) + [Encode(Indicate)]
                        && link.replies == Rest(old(link.replies))
      ensures !opens ==> link.sent == old(link.sent) && link.replies == old(link.replies)
    {
      if !opens {
        return false;
      }
      portOpen := true;
      var response := link.Send(Encode(Indicate));
      if response == IndicateReply {
        connected := true;
        return true;
      }
      return false;
    }

    /** Writes 0 to the FIFO register, which empties the device's sample buffer. */
    method ClearFifo()
      requires portOpen
      modifies link
      ensures link.sent == old(link.sent) + [ClearFifoFrame()]
      ensures link.replies == Rest(old(link.replies))
    {
      var _ := link.Send(ClearFifoFrame());
    }

    /**
     * Programs start, step, point count and values-per-frequency. A value that
     * does not fit its register raises OverflowError after the frames already sent.
     */
    method SetupSweep(startHz: real, stopHz: real, points: int) returns (failure: Option<SweepFailure>)
      requires portOpen
      modifies link
      ensures failure == PlanSweep(startHz, stopHz, points).failure
      ensures link.sent == old(link.sent) + PlanSweep(startHz, stopHz, points).frames
      ensures link.replies == Drop(old(link.replies), |PlanSweep(startHz, stopHz, points).frames|)
    {
      ghost var q0 := link.replies;
      ghost var s0 := link.sent;
      PlanSweepHalves(startHz, stopHz, points);
      ghost var range := PlanRange(startHz, stopHz, points);
      failure := ProgramRange(link, startHz, stopHz, points);
      if failure.Some? {
        return;
      }
      failure := SendCounts(points);
      SentTwice(s0, range.frames, PlanCounts(points).frames);
      DropAdd(q0, |range.frames|, |PlanCounts(points).frames|);
    }

    /**
     * The point count and values-per-frequency registers, each through
     * `to_bytes(2, 'little')` and two explicit sends.
     */
    method SendCounts(points: int) returns (failure: Option<SweepFailure>)
      modifies link
      ensures failure == PlanCounts(points).failure
      ensures link.sent == old(link.sent) + PlanCounts(points).frames
      ensures link.replies == Drop(old(link.replies), |PlanCounts(points).frames|)
    {
      ghost var q0 := link.replies;
      ghost var s0 := link.sent;
      var pointsBytes := SendLittleEndian(link, RegSweepPoints, points, 2);
      if pointsBytes.None? {
        return Some(PointsOverflow);
      }
      ValuesPerFrequencyBytes();
      var valuesBytes := SendLittleEndian(link, RegValuesPerFrequency, 1, 2);
      SentTwice(s0, RegisterWrites(RegSweepPoints, pointsBytes.value), RegisterWrites(RegValuesPerFrequency, [1, 0]));
      DropAdd(q0, 2, 2);
      failure := None;
    }

    /** The `for attempt in range(5)` READFIFO loop, as PollFifo describes it. */
    method ReadBlocks(target: int) returns (allData: seq<int>, readCount: nat)
      requires portOpen
      modifies link
      ensures Poll(allData, readCount) == PollFifo(old(link.replies), target, [], MaxAttempts)
      ensures link.sent == old(link.sent) + ReadFrames(readCount)
      ensures link.replies == Drop(old(link.replies), readCount)
    {
      ghost var q0 := link.replies;
      allData := [];
      var attempt := 0;
      while attempt < MaxAttempts
        invariant 0 <= attempt <= MaxAttempts
        invariant link.sent == old(link.sent) + ReadFrames(attempt)
        invariant link.replies == Drop(q0, attempt)
        invariant PollFrom(q0, target, allData, attempt) == PollFrom(q0, target, [], 0)
      {
        DropStep(q0, attempt);
        ReadFramesStep(attempt);
        var blockData := link.Send(ReadBlockFrame());
        if blockData != [] {
          allData := allData + blockData;
          if |allData| >= target {
            attempt := attempt + 1;
            break;
          }
        } else {
          assert allData + blockData == allData;
        }
        attempt := attempt + 1;
      }
      PollFromFifo(q0, target, [], 0);
      readCount := attempt;
    }

    /**
     * Clears the FIFO, reads blocks of 256 bytes until 32 * expectedPoints bytes
     * have arrived or 5 reads were made, decodes the complete records, keeps
     * `[:expectedPoints]` of them and pairs them with the assumed frequency axis.
     */
    method CaptureDataSmart(expectedPoints: int) returns (frequencies: seq<real>, points: seq<FifoPoint>)
      requires portOpen
      modifies link
      ensures var p := PollFifo(Rest(old(link.replies)), RecordSize * expectedPoints, [], MaxAttempts);
        link.sent == old(link.sent) + [ClearFifoFrame()] + ReadFrames(p.readCount)
        && link.replies == Drop(old(link.replies), 1 + p.readCount)
        && points == CapturedPoints(p.data, expectedPoints)
        && frequencies == FrequencyAxis(|points|)
    {
      ClearFifo();
      var allData, readCount := ReadBlocks(RecordSize * expectedPoints);
      DropAdd(old(link.replies), 1, readCount);
      points := ChunkFifoRecords(allData);
      points := SliceTo(points, expectedPoints);
      if |points| > 0 {
        frequencies := Linspace(AxisStartHz, AxisStopHz, |points|);
      } else {
        frequencies := [];
      }
    }
  }
}
