# NanoVNA V2 (S-A-A-2) driver and measurement helpers, modelled in Dafny

This project models the measurement scripts of a bachelor's-thesis toolkit for
RF measurements with a NanoVNA V2 ("S-A-A-2") vector network analyser.

**The binary serial driver.** It comes in two versions: `NanoVNA_SAA2` in
`scripts/nanovna.py` and `NanoVNA_Simple` in `scripts/nanovna_original.py`.
The model covers:
- the three frame types: INDICATE `0x0D`, WRITE `[0x20, addr, value]` and
  READFIFO `[0x18, addr, len_lo, len_hi]`;
- sweep programming: start and step as u64 values and the point count and
  values-per-frequency as u16 values, each written little-endian, one byte per
  WRITE frame;
- FIFO capture: clear the FIFO, then up to five reads or a single read;
- decoding of 32-byte records: six LE int32 values and one LE uint16, with S11
  and S21 divided by the forward reference and a guard for a zero reference.

The serial port is a `SerialLink` object. It keeps a log of the frames sent and
a scripted queue of replies: each send appends one frame and pops one reply,
which may be empty.

**Measurement assembly** (`VNAMeasurement` in `scripts/s2p_extraction.py`):
- column normalisation and the required-column check;
- the structural parsing of complex cells;
- the reciprocal and symmetric completion: S12 is S21 and S22 is S11;
- the dB view of one parameter;
- the two savers, with their empty-data guard, extension rule and 2x2
  S-matrix layout.

**Report formatting:**
- the SI-prefix picker `fmt_si` in `scripts/batch_fit.py` and its twin
  `_fmt_si` in `src/tfg_v0/cli.py`;
- the batch loop that skips failing files;
- the ordering of the summary by RMSE and its colour bands;
- the glob and argv rules;
- the missing-file exit of the single-file command.

Modules follow the source files:
- `NanoVna` (`nanovna.dfy`), `NanoVnaSimple` (`nanovna_original.dfy`),
  `S2pExtraction`, `BatchFit` and `Cli`;
- `Saa2Protocol`, the frames and the sweep plan both drivers share;
- the shared building blocks: `Bytes` (little-endian codec), `ComplexArith`,
  `Transport` (the serial link), `Axis` (`np.linspace`), `Text` (`strip`,
  `lower`, `split`), `SiPrefix`, and `Wrappers`/`Floats`/`Slices` (Option,
  Python floats with NaN, Python slicing).

Modelling decisions:
- Byte values are `int`s in 0..255.
- Python floats are `real`s. Where NaN matters (the report code), they are
  `Float = NaN | Num(real)`.
- `int(x)` truncates toward zero (`TruncToInt`).
- A `to_bytes` that raises is a failure outcome. The frames sent before the
  raise stay in the log.
- `abs(reference) > 1e-6` is `re² + im² > 1e-12`. For integer components this
  is exactly "the reference is not zero" (`ComplexArith.GuardOnIntegers`).
- pandas, scikit-rf and the number parsers are parameters: `float()` and
  `complex()` on a string, `np.abs` and `np.log10`, the per-file fit, and
  whether a write succeeds.

For the sweep 1 MHz .. 100 MHz, 11 points the code writes the start bytes
`40 42 0F 00 00 00 00 00` (`Saa2Protocol.WorkedSweepExample`).

## Model

| member | source | states |
|---|---|---|
| Floats.Abs | TFG_v0/scripts/batch_fit.py:70 | `abs(x)` is non-negative and is either x or -x |
| Slices.SliceTo | TFG_v0/scripts/nanovna.py:142 | Python's `s[:n]`: the result is a prefix of s of length min(n, len) for n >= 0 and max(0, len + n) for negative n |
| Bytes.LeBytes | TFG_v0/scripts/nanovna.py:75 | `v.to_bytes(n, 'little')` yields n values, each a byte |
| Bytes.LeValueRange | TFG_v0/scripts/nanovna.py:75 | n little-endian bytes hold a value in [0, 256^n) |
| Bytes.LeRoundTrip | TFG_v0/scripts/nanovna.py:75-98 | reassembling the bytes of any v < 256^n gives v back |
| Bytes.LeBytesOfValue | TFG_v0/scripts/nanovna.py:75 | the converse round trip: encoding the value of n bytes gives the same bytes |
| Bytes.ToBytes | TFG_v0/scripts/nanovna.py:75-87 | `to_bytes` succeeds iff 0 <= v < 256^n, and then yields n bytes whose LE value is v |
| Bytes.Int32ToLe | TFG_v0/scripts/nanovna.py:162-167 | the four-byte two's-complement encoding of an int32 is four bytes |
| Bytes.Int32Range | TFG_v0/scripts/nanovna.py:162-167 | `struct.unpack('<i')` of any four bytes lies in [-2^31, 2^31) |
| Bytes.Int32RoundTrip | TFG_v0/scripts/nanovna.py:162-167 | unpacking the encoding of an int32 gives it back |
| Bytes.Uint16Range | TFG_v0/scripts/nanovna.py:168 | `struct.unpack('<H')` of two bytes lies in [0, 2^16) |
| ComplexArith.Div | TFG_v0/scripts/nanovna.py:177-178 | the quotient by a non-zero divisor times the divisor is the dividend |
| ComplexArith.DivUnique | TFG_v0/scripts/nanovna.py:177-178 | the quotient is the only value with that property |
| ComplexArith.GuardOnIntegers | TFG_v0/scripts/nanovna.py:176 | for integer components, `abs(z) > 1e-6` holds iff z is not zero |
| Transport.SerialLink.constructor | TFG_v0/scripts/nanovna.py:24-31 | a freshly opened port has sent nothing and holds the scripted replies |
| Transport.SerialLink.Send | TFG_v0/scripts/nanovna.py:47-56 | `_send_command`: the frame is appended to the log, and the next reply is returned and consumed (empty when none is waiting) |
| Transport.Drop | TFG_v0/scripts/nanovna.py:47-56 | after n sends, n replies (or all of them) are consumed |
| Axis.Linspace | TFG_v0/scripts/nanovna.py:148 | `np.linspace(a, b, n)` has n values |
| Axis.LinspaceEnds | TFG_v0/scripts/nanovna_original.py:130 | one value is [a]; two or more start at a and end at b |
| Axis.LinspaceMonotone | TFG_v0/scripts/nanovna_original.py:130 | for a <= b the values are non-decreasing |
| Axis.LinspaceBounds | TFG_v0/scripts/nanovna_original.py:130 | for a <= b every value lies in [a, b] |
| Saa2Protocol.Encode | TFG_v0/scripts/nanovna.py:34-117 | the bytes of INDICATE (`0x0d`), WRITE (`0x20, addr, value`) and READFIFO (`0x18, addr, len & 0xFF, len >> 8`) as the driver writes them; DecodeEncode and EncodeDecode make Decode its inverse |
| Saa2Protocol.Decode | TFG_v0/scripts/nanovna.py:34-117 | reads a frame back as one of the three commands, None for anything else; DecodeEncode and EncodeDecode state the round trip both ways |
| Saa2Protocol.DecodeEncode | TFG_v0/scripts/nanovna.py:34-117 | each of the three frame shapes (INDICATE at 34, WRITE at 77, READFIFO at 117) decodes back to its command |
| Saa2Protocol.EncodeDecode | TFG_v0/scripts/nanovna.py:34-117 | any byte frame that decodes is well formed and re-encodes to itself |
| Saa2Protocol.SendRegisterWrites | TFG_v0/scripts/nanovna.py:76-78 | the `for i in range(n)` send loop appends `[0x20, base + i, b_i]` for each byte in order and consumes one reply per frame |
| Saa2Protocol.SendLittleEndian | TFG_v0/scripts/nanovna.py:75-78 | `value.to_bytes(n, 'little')` then one WRITE per byte; when the value does not fit nothing is sent and the result is the OverflowError |
| Saa2Protocol.ProgramRange | TFG_v0/scripts/nanovna.py:70-84 | sends exactly the start and step register frames of the plan's first half and raises exactly its failure |
| Saa2Protocol.PlanSweepHalves | TFG_v0/scripts/nanovna.py:66-98 | the sweep programming is start/step followed by points/values-per-frequency, a raise in the first half ending it |
| Saa2Protocol.TruncToInt | TFG_v0/scripts/nanovna.py:75 | `int(x)` truncates toward zero: for x >= 0 it is the floor, for x < 0 the ceiling |
| Saa2Protocol.RegisterWrites | TFG_v0/scripts/nanovna.py:76-84 | one WRITE frame per byte |
| Saa2Protocol.ValuesPerFrequencyBytes | TFG_v0/scripts/nanovna.py:94-96 | `(1).to_bytes(2, 'little')` is `[1, 0]` |
| Saa2Protocol.PlanSweep | TFG_v0/scripts/nanovna.py:66-98 | the frames `setup_sweep` sends and the OverflowError it raises, if any; SweepFrameLayout, SweepPayloads, SweepRoundTrip, SweepCompletes and SweepFailureFrames state its properties |
| Saa2Protocol.PlanRange | TFG_v0/scripts/nanovna.py:73-84 | the start and step groups of `setup_sweep`, stopping at the first OverflowError; PlanSweepHalves ties it to PlanSweep |
| Saa2Protocol.PlanCounts | TFG_v0/scripts/nanovna.py:86-98 | the points and values-per-frequency groups, or the points OverflowError before any frame; PlanSweepHalves ties it to PlanSweep |
| Saa2Protocol.Then | TFG_v0/scripts/nanovna.py:73-98 | straight-line code with raising steps: a raise ends the whole and keeps the frames already sent; PlanSweepHalves uses it |
| Saa2Protocol.SweepFrameLayout | TFG_v0/scripts/nanovna.py:75-98 | a completed `setup_sweep` sends exactly 20 three-byte WRITE frames at addresses 0x00..0x07, 0x10..0x17, 0x20..0x23 in that order |
| Saa2Protocol.SweepPayloads | TFG_v0/scripts/nanovna.py:75-98 | the frames carry the LE bytes of int(start), int(step), points and 1, in that order |
| Saa2Protocol.SweepRoundTrip | TFG_v0/scripts/nanovna.py:75-98 | reassembling the payload bytes of each register group gives back int(start), int(step), points and 1 |
| Saa2Protocol.SweepCompletes | TFG_v0/scripts/nanovna.py:75-87 | the sweep completes iff int(start) and int(step) fit in u64 and points in u16 |
| Saa2Protocol.SweepFailureFrames | TFG_v0/scripts/nanovna.py:75-87 | a start overflow raises before any frame is sent; a step overflow after exactly the 8 start frames; a points overflow after 16 frames |
| Saa2Protocol.NegativeStepRaises | TFG_v0/scripts/nanovna.py:75-81 | a negative truncated step raises after the 8 start frames, before any step frame |
| Saa2Protocol.StepHz | TFG_v0/scripts/nanovna.py:71 | `(stop - start) / (points - 1)` for points > 1, else 0; StepIsFloorDivision gives its truncation and NegativeStepRaises a negative step |
| Saa2Protocol.StepIsFloorDivision | TFG_v0/scripts/nanovna.py:71 | for integral start <= stop the truncated step is (stop - start) div (points - 1) when points > 1, else 0 |
| Saa2Protocol.ExampleBytes | TFG_v0/scripts/nanovna.py:75-81 | 1e6 encodes as `40 42 0F 00 00 00 00 00`, 9.9e6 as `E0 0F 97 00 00 00 00 00`, 11 as `0B 00` |
| Saa2Protocol.ExampleStep | TFG_v0/scripts/nanovna.py:71 | for (1e6, 100e6, 11) the truncated start is 1 000 000 and the truncated step 9 900 000 |
| Saa2Protocol.WorkedSweepExample | TFG_v0/scripts/nanovna.py:372 | the menu's sweep (1e6, 100e6, 11) completes and sends exactly those payloads, then `01 00` |
| NanoVna.EncodeRaw | TFG_v0/scripts/nanovna.py:162-168 | the record a device would send for given field values is 32 bytes |
| NanoVna.RawRoundTrip | TFG_v0/scripts/nanovna.py:162-168 | decoding an encoded record gives back all seven fields |
| NanoVna.RawOf | TFG_v0/scripts/nanovna.py:162-168 | the seven `struct.unpack` fields of a 32-byte record at their offsets; RawRange bounds them and RawRoundTrip inverts them with EncodeRaw |
| NanoVna.DecodeRecord | TFG_v0/scripts/nanovna.py:162-181 | unpacks a record and divides the reverse readings by the reference, or gives 0 when `abs(reference) <= 1e-6`; ZeroReference and ReflectionRecovered state both branches |
| NanoVna.RawRange | TFG_v0/scripts/nanovna.py:162-168 | offsets 0..20 decode as int32 values in [-2^31, 2^31), offset 24 as a uint16 |
| NanoVna.Calibrate | TFG_v0/scripts/nanovna.py:171-181 | with a reference above the guard, s11·ref = rev0 and s21·ref = rev1; otherwise both are 0; freq_index and reference are kept |
| NanoVna.ParseFifoData | TFG_v0/scripts/nanovna.py:158-159 | a record is decoded iff the chunk has exactly 32 bytes |
| NanoVna.GuardIsNonZeroReference | TFG_v0/scripts/nanovna.py:176 | the 1e-6 guard holds iff the forward reference is not 0 + 0i |
| NanoVna.ZeroReference | TFG_v0/scripts/nanovna.py:179-181 | a zero reference gives s11 = s21 = 0 |
| NanoVna.ReflectionRecovered | TFG_v0/scripts/nanovna.py:176-178 | with a non-zero reference, the decoded s11 and s21 are exactly the reflection factors of rev0 and rev1 |
| NanoVna.UnityReflection | TFG_v0/scripts/nanovna.py:176-178 | rev0 equal to a non-zero reference gives s11 = 1 + 0i |
| NanoVna.DecodeStream | TFG_v0/scripts/nanovna.py:134-139 | one decoded record per complete 32-byte chunk, in order, the partial tail dropped; StreamCount, StreamCons and StreamRoundTrip state its properties |
| NanoVna.StreamCount | TFG_v0/scripts/nanovna.py:134-136 | the stream yields len div 32 records; the dropped tail is shorter than a record |
| NanoVna.StreamCons | TFG_v0/scripts/nanovna.py:134-139 | a leading whole record is decoded first and the rest follows in order |
| NanoVna.EncodeRecords | TFG_v0/scripts/nanovna.py:134-139 | concatenated records take 32 bytes each |
| NanoVna.StreamRoundTrip | TFG_v0/scripts/nanovna.py:133-139 | records sent back to back, plus any partial tail, decode to exactly those records, calibrated, in arrival order |
| NanoVna.ChunkFifoRecords | TFG_v0/scripts/nanovna.py:133-139 | the chunking loop over `range(0, len, 32)` keeps only whole 32-byte chunks and decodes them in order |
| NanoVna.PollFifo | TFG_v0/scripts/nanovna.py:113-126 | the `for attempt in range(5)` loop over the scripted replies: non-empty replies appended, a stop right after the total reaches the target; PollShape, PollStopReason and PollNoEarlierStop state what it gathers |
| NanoVna.PollShape | TFG_v0/scripts/nanovna.py:110-126 | the capture loop makes between 1 and 5 reads, and its data is the in-order concatenation of the replies read |
| NanoVna.PollStopReason | TFG_v0/scripts/nanovna.py:124-126 | fewer than 5 reads happen only when the last reply was non-empty and brought the total to the target |
| NanoVna.PollNoEarlierStop | TFG_v0/scripts/nanovna.py:113-126 | no earlier read satisfied the stop condition |
| NanoVna.PollSilentDevice | TFG_v0/scripts/nanovna.py:120-128 | when every reply is empty, all 5 reads are made and no data is gathered |
| NanoVna.PollFirstBlockSuffices | TFG_v0/scripts/nanovna.py:120-126 | when the first reply already holds the target, one read is made |
| NanoVna.FrequencyAxis | TFG_v0/scripts/nanovna.py:145-150 | there is one frequency per record, and the list is empty when there are no records |
| NanoVna.FrequencyAxisShape | TFG_v0/scripts/nanovna.py:145-150 | the axis runs from the hard-coded 1 MHz to 100 MHz, non-decreasing, whatever sweep was programmed |
| NanoVna.CapturedPoints | TFG_v0/scripts/nanovna.py:133-142 | the decoded stream cut to `[:expected_points]`; CapturedPointsShape and EnoughDataGivesExpectedPoints state its length and contents |
| NanoVna.CapturedPointsShape | TFG_v0/scripts/nanovna.py:133-142 | `min(len div 32, expected)` records are returned, the k-th decoded from bytes 32k..32k+32, never padded |
| NanoVna.EnoughDataGivesExpectedPoints | TFG_v0/scripts/nanovna.py:125-142 | with at least 32·expected bytes exactly `expected` records are returned |
| NanoVna.Vswr | TFG_v0/scripts/nanovna.py:254 | `(1 + mag) / (1 - mag)` below 0.99, else the cap 10; VswrAtLeastOne, VswrIncreasing and VswrNotBoundedByCap state its properties |
| NanoVna.VswrAtLeastOne | TFG_v0/scripts/nanovna.py:254 | VSWR is at least 1 for every non-negative magnitude |
| NanoVna.VswrIncreasing | TFG_v0/scripts/nanovna.py:254 | below the 0.99 cut-off VSWR grows with the magnitude |
| NanoVna.VswrNotBoundedByCap | TFG_v0/scripts/nanovna.py:254 | the cap of 10 applies only from 0.99 on: at 0.95 VSWR is 39 |
| NanoVna.ReadFrames | TFG_v0/scripts/nanovna.py:113-118 | each attempt sends the same READFIFO frame |
| NanoVna.ReadBlockFrameBytes | TFG_v0/scripts/nanovna.py:111-117 | a READFIFO for 256 bytes is `[0x18, 0x30, 0x00, 0x01]` |
| NanoVna.NanoVnaSaa2.constructor | TFG_v0/scripts/nanovna.py:14-18 | a new driver has no open port and is not connected |
| NanoVna.NanoVnaSaa2.Connect | TFG_v0/scripts/nanovna.py:20-45 | sends only `[0x0D]`; returns True and sets `connected` iff the port opens and the reply is exactly `b'2'`; otherwise `connected` is unchanged; a port that fails to open sends nothing |
| NanoVna.NanoVnaSaa2.ClearFifo | TFG_v0/scripts/nanovna.py:58-64 | sends exactly `[0x20, 0x30, 0x00]` |
| NanoVna.NanoVnaSaa2.SetupSweep | TFG_v0/scripts/nanovna.py:66-98 | sends exactly the frames of the sweep plan and raises exactly its failure |
| NanoVna.NanoVnaSaa2.SendCounts | TFG_v0/scripts/nanovna.py:86-98 | the two explicit sends of the point count and of `(1).to_bytes(2)`, or the OverflowError of the point count before any of them |
| NanoVna.NanoVnaSaa2.ReadBlocks | TFG_v0/scripts/nanovna.py:110-130 | the attempt loop with its `break` gathers what the polling specification gives and sends one READFIFO per attempt made |
| NanoVna.NanoVnaSaa2.CaptureDataSmart | TFG_v0/scripts/nanovna.py:102-153 | sends the clear frame, then one READFIFO per read made; returns the first `expected` decoded records and a matching 1..100 MHz axis |
| NanoVnaSimple.ParseData | TFG_v0/scripts/nanovna_original.py:100-122 | S11 is produced iff the buffer holds the 16 bytes the four unpacks read; a shorter one is caught and gives None |
| NanoVnaSimple.ParseIgnoresTail | TFG_v0/scripts/nanovna_original.py:103-106 | only bytes 0..15 are read |
| NanoVnaSimple.ParseAgreesWithSaa2 | TFG_v0/scripts/nanovna_original.py:103-114 | the simple decoder's S11 is the S-A-A-2 decoder's S11 on every 32-byte record |
| NanoVnaSimple.ParseZeroReference | TFG_v0/scripts/nanovna_original.py:111-114 | a zero reference gives S11 = 0 |
| NanoVnaSimple.MeasurementStream | TFG_v0/scripts/nanovna_original.py:90-96 | S11 of each complete 32-byte chunk of the reply, in order; MeasurementsAgreeWithSaa2 ties it to the S-A-A-2 record stream and ChunkMeasurements to the loop |
| NanoVnaSimple.MeasurementsAgreeWithSaa2 | TFG_v0/scripts/nanovna_original.py:90-96 | the measurement stream is the S11 column of the S-A-A-2 record stream |
| NanoVnaSimple.ChunkMeasurements | TFG_v0/scripts/nanovna_original.py:90-96 | the chunking loop keeps only whole 32-byte chunks, decoded in order |
| NanoVnaSimple.CaptureReadFrameBytes | TFG_v0/scripts/nanovna_original.py:86 | the single read is `[0x18, 0x30, 0x00, 0x04]`, i.e. 1024 bytes |
| NanoVnaSimple.CheckRequest | TFG_v0/scripts/nanovna_original.py:229-236 | a request is accepted iff start < stop and 2 <= points <= 1001; start >= stop is reported first |
| NanoVnaSimple.AcceptedRequestProgramsSweep | TFG_v0/scripts/nanovna_original.py:229-245 | an accepted request with a non-negative start and stop·1e6 < 2^64 programs the whole sweep without raising |
| NanoVnaSimple.AcceptedRequestFits | TFG_v0/scripts/nanovna_original.py:229-241 | an accepted request in range has a u64 start and step and a u16 point count once converted to Hz |
| NanoVnaSimple.PlotAxis | TFG_v0/scripts/nanovna_original.py:130 | one axis value per measurement |
| NanoVnaSimple.PlotAxisEnds | TFG_v0/scripts/nanovna_original.py:130 | with two or more measurements the axis runs from start_hz to stop_hz |
| NanoVnaSimple.NanoVnaSimpleDriver.constructor | TFG_v0/scripts/nanovna_original.py:15-18 | a new driver has no open port |
| NanoVnaSimple.NanoVnaSimpleDriver.Connect | TFG_v0/scripts/nanovna_original.py:20-43 | sends only `[0x0D]` and succeeds iff the port opens and the reply is exactly `b'2'` |
| NanoVnaSimple.NanoVnaSimpleDriver.SetupSweep | TFG_v0/scripts/nanovna_original.py:55-75 | the same frames in the same address order as the S-A-A-2 driver, with the literal bytes 1, 0 at 0x22, 0x23 |
| NanoVnaSimple.NanoVnaSimpleDriver.SendCounts | TFG_v0/scripts/nanovna_original.py:68-73 | the point count bytes, then the literal 1 and 0 at 0x22 and 0x23, or the OverflowError before any send |
| NanoVnaSimple.NanoVnaSimpleDriver.CaptureData | TFG_v0/scripts/nanovna_original.py:77-98 | exactly two frames, the clear and one 1024-byte READFIFO; the result is the whole records of the single reply, in order, cut to `points` |
| NanoVnaSimple.NanoVnaSimpleDriver.ConfigureAndMeasure | TFG_v0/scripts/nanovna_original.py:225-250 | a rejected request sends nothing and consumes no reply; an accepted one programs the sweep in Hz, stops at a raise, and otherwise measures and builds the plot axis; the sent log and the replies left (one consumed per frame) are stated in both cases |
| NanoVnaSimple.NanoVnaSimpleDriver.SweepAndCapture | TFG_v0/scripts/nanovna_original.py:244-250 | `setup_sweep` then `capture_data`: the raise after the frames already sent, or the first `points` values of the capture reply with their plot axis; the sent log and the replies left, one consumed per frame sent |
| Text.StripLeft | TFG_v0/scripts/s2p_extraction.py:142 | `lstrip()` drops exactly the leading whitespace |
| Text.StripRight | TFG_v0/scripts/s2p_extraction.py:142 | `rstrip()` drops exactly the trailing whitespace |
| Text.StripNoSpaceEnds | TFG_v0/scripts/s2p_extraction.py:165 | a string with non-blank ends is its own strip |
| Text.Strip | TFG_v0/scripts/s2p_extraction.py:165 | `str.strip()`: StripLeft then StripRight; StripEnds, StripNoSpaceEnds and StripIdempotent state its properties |
| Text.StripEnds | TFG_v0/scripts/s2p_extraction.py:165 | a stripped string has no blank at either end |
| Text.StripIdempotent | TFG_v0/scripts/s2p_extraction.py:165 | stripping twice is stripping once |
| Text.Lower | TFG_v0/scripts/s2p_extraction.py:142 | `lower()` keeps the length |
| Text.LowerKeepsSpaces | TFG_v0/scripts/s2p_extraction.py:142 | lowering neither creates nor removes whitespace, and is idempotent |
| Text.EndsWithAppend | TFG_v0/scripts/s2p_extraction.py:240-241 | a name with the extension appended ends with it |
| Text.Split | TFG_v0/scripts/s2p_extraction.py:168 | `split(',')` gives one more part than there are commas |
| Text.JoinSplit | TFG_v0/scripts/s2p_extraction.py:168 | splitting loses nothing: joining the parts gives the string back |
| Text.SplitNoSeparator | TFG_v0/scripts/s2p_extraction.py:168 | a string without a comma is a single part |
| Text.SplitAtSeparator | TFG_v0/scripts/s2p_extraction.py:168 | the text before the first comma is the first part |
| Text.SplitPair | TFG_v0/scripts/s2p_extraction.py:168-169 | "a,b" with no other comma gives exactly the two parts a and b |
| Text.SplitLastPart | TFG_v0/scripts/batch_fit.py:141 | the last `/`-part of a path has no `/` and is a suffix of the path |
| S2pExtraction.NormalizeColumns | TFG_v0/scripts/s2p_extraction.py:142 | one normalised name per column |
| S2pExtraction.NormalizeColumn | TFG_v0/scripts/s2p_extraction.py:142 | `c.strip().lower()`; NormalizeIdempotent and NormalizeExample state its properties |
| S2pExtraction.NormalizeIdempotent | TFG_v0/scripts/s2p_extraction.py:142 | normalising a normalised column name changes nothing |
| S2pExtraction.NormalizeExample | TFG_v0/scripts/s2p_extraction.py:142 | " S11 " and "Freq" normalise to "s11" and "freq" |
| S2pExtraction.HasRequiredColumnsIff | TFG_v0/scripts/s2p_extraction.py:146-147 | the check passes iff s11, s21 and freq are all present |
| S2pExtraction.Normalized | TFG_v0/scripts/s2p_extraction.py:142 | normalisation renames the columns and keeps the rows |
| S2pExtraction.Unparen | TFG_v0/scripts/s2p_extraction.py:166-167 | removing the outer parentheses never lengthens the text |
| S2pExtraction.ParseComplexNonText | TFG_v0/scripts/s2p_extraction.py:159-162 | a complex cell is returned unchanged and a missing one gives 0, whatever the string parsers do |
| S2pExtraction.ParseComplex | TFG_v0/scripts/s2p_extraction.py:157-176 | `parse_complex` by cell kind: a complex passes, a missing cell gives 0, text is parsed; ParseComplexNonText, ParsePairText and ParseNonPairText state each branch |
| S2pExtraction.ParseComplexText | TFG_v0/scripts/s2p_extraction.py:164-176 | strip, drop the outer parentheses, split at commas: two parts go to `float` each, anything else to `complex`, a failure gives 0; ParsePairText and ParseNonPairText state both branches |
| S2pExtraction.ParsePairText | TFG_v0/scripts/s2p_extraction.py:164-176 | "(a,b)" gives complex(float(a), float(b)) when both parse, and 0 when either fails |
| S2pExtraction.ParenthesisedPair | TFG_v0/scripts/s2p_extraction.py:165-167 | strip and unparen of "(a,b)" leave "a,b" |
| S2pExtraction.ParseNonPairText | TFG_v0/scripts/s2p_extraction.py:168-176 | text that does not split in two is handed to `complex()`, and a failure gives 0 |
| S2pExtraction.ParseColumn | TFG_v0/scripts/s2p_extraction.py:179-180 | one parsed value per row |
| S2pExtraction.AssembleSParams | TFG_v0/scripts/s2p_extraction.py:194-200 | the stored parameters: S11, S21, S12 := S21 and S22 := S11; AssembleShape states their shape and the two equalities |
| S2pExtraction.AssembleShape | TFG_v0/scripts/s2p_extraction.py:194-200 | columns from the same rows give four parameters of one value per frequency, S12 = S21 and S22 = S11 |
| S2pExtraction.FlooredMagnitudePositive | TFG_v0/scripts/s2p_extraction.py:220 | the log argument is positive, and only an exactly-zero magnitude is replaced by 1e-10 |
| S2pExtraction.DbValues | TFG_v0/scripts/s2p_extraction.py:221 | one dB value per point |
| S2pExtraction.EnsureExtension | TFG_v0/scripts/s2p_extraction.py:240-241 | appends the extension when the name does not end with it (the same code at 269-270); EnsureExtensionProperties states its properties |
| S2pExtraction.EnsureExtensionProperties | TFG_v0/scripts/s2p_extraction.py:240-241 | the extension is appended iff missing; the result ends with it; applying twice is applying once |
| S2pExtraction.CsvHeaderShape | TFG_v0/scripts/s2p_extraction.py:272-284 | the CSV has the frequency column and then five columns for each of S11, S21, S12, S22 in that order |
| S2pExtraction.FillSlice | TFG_v0/scripts/s2p_extraction.py:245 | `s_matrix[:, r, c] = values` writes that slice and leaves every other entry |
| S2pExtraction.VnaMeasurement.constructor | TFG_v0/scripts/s2p_extraction.py:19-23 | nothing measured yet: no frequencies, no S-parameters |
| S2pExtraction.ProcessSucceeds | TFG_v0/scripts/s2p_extraction.py:136-187 | the conditions under which processing returns True: the table was read, has s11, s21 and freq after normalising, a first row and a non-text first frequency; ProcessMeasurementData succeeds iff it holds |
| S2pExtraction.VnaMeasurement.ProcessMeasurementData | TFG_v0/scripts/s2p_extraction.py:134-209 | succeeds iff the table was read, has the required columns, a first row and a numeric first frequency; on success stores the frequency column and S11/S21 parsed from the same rows with S12 = S21 and S22 = S11; on failure the stored state is unchanged |
| S2pExtraction.VnaMeasurement.GetParameterDb | TFG_v0/scripts/s2p_extraction.py:215-222 | None iff the parameter is absent or empty; otherwise one dB value per point |
| S2pExtraction.VnaMeasurement.BuildSMatrix | TFG_v0/scripts/s2p_extraction.py:244-248 | a fresh N×2×2 array with S11 at [i,0,0], S21 at [i,1,0], S12 at [i,0,1], S22 at [i,1,1] |
| S2pExtraction.VnaMeasurement.SaveS2pFile | TFG_v0/scripts/s2p_extraction.py:232-259 | with no data returns False and writes nothing; otherwise `.s2p` is ensured and the S-matrix laid out, and the result is that of the write |
| S2pExtraction.VnaMeasurement.SaveCsvFile | TFG_v0/scripts/s2p_extraction.py:261-294 | with no data returns False and writes nothing; otherwise `.csv` is ensured and the header is the frequency plus five columns per parameter |
| SiPrefix.Scan | TFG_v0/scripts/batch_fit.py:71-72 | the prefix loop as written, each entry replacing the choice when `absx >= s and s >= scale`; ScanIsLargestPrefix gives its closed form |
| SiPrefix.LargestPrefix | TFG_v0/scripts/batch_fit.py:69-72 | the choice the loop makes: G, M or k by the largest scale not above `abs(x)`, else none; LargestPrefixMaximal states that it is the largest |
| SiPrefix.ScanIsLargestPrefix | TFG_v0/scripts/batch_fit.py:69-72 | the prefix loop, started from scale 1, picks G, M or k by the largest scale not above `abs(x)`, else no prefix |
| SiPrefix.LargestPrefixMaximal | TFG_v0/scripts/batch_fit.py:69-72 | the pick is the largest table entry of scale >= 1 not above `abs(x)`, and no prefix iff `abs(x)` < 1000 |
| SiPrefix.NoSubUnitPrefix | TFG_v0/scripts/batch_fit.py:69-72 | p, n, µ and m are never chosen |
| SiPrefix.SiLabelOf | TFG_v0/scripts/batch_fit.py:67-73 | `fmt_si`: 0 and NaN print as "0 unit", otherwise x / scale with the picked symbol; SiLabelScales and ZeroAndNaNLabels state its properties |
| SiPrefix.SiLabelScales | TFG_v0/scripts/batch_fit.py:70-73 | the printed number times the scale is x; below 1000 x is printed as is; from 1000 to 10^12 the number lies in [1, 1000) |
| SiPrefix.ZeroAndNaNLabels | TFG_v0/scripts/batch_fit.py:68 | 0 and NaN print as "0 unit" |
| SiPrefix.IntendedPrefix | TFG_v0/src/tfg_v0/cli.py:74 | the picker the docstring describes, over p .. G; IntendedMantissaRange and IntendedAgreesFromOne state its properties |
| SiPrefix.IntendedMantissaRange | TFG_v0/src/tfg_v0/cli.py:74 | the picker the docstring describes prints every magnitude from 1e-12 to 10^12 in [1, 1000) |
| SiPrefix.IntendedAgreesFromOne | TFG_v0/src/tfg_v0/cli.py:74 | from 1 up that picker and the written one agree |
| SiPrefix.NanoFaradCounterexample | TFG_v0/scripts/batch_fit.py:69-73 | 1 nF is printed without a prefix, while the described picker prints it as 1 nF |
| BatchFit.FmtSi | TFG_v0/scripts/batch_fit.py:67-73 | the `sym`/`scale` loop computes the SI label |
| BatchFit.Band | TFG_v0/scripts/batch_fit.py:166 | green iff rmse <= ok; yellow iff ok < rmse <= warn; red otherwise, NaN included |
| BatchFit.BaseName | TFG_v0/scripts/batch_fit.py:141 | `Path.name` holds no `/` and ends the path |
| BatchFit.Fitted | TFG_v0/scripts/batch_fit.py:111-151 | at most one row per file |
| BatchFit.FittedSound | TFG_v0/scripts/batch_fit.py:111-151 | every row comes from a listed file whose processing gave exactly that fit |
| BatchFit.FittedComplete | TFG_v0/scripts/batch_fit.py:111-151 | a failing file is skipped without aborting: every file that succeeds has its row |
| BatchFit.KeyLe | TFG_v0/scripts/batch_fit.py:157 | the order of `sort_values("rmse_db")`: numbers ascending, NaN after everything; SortByRmse sorts by it |
| BatchFit.Insert | TFG_v0/scripts/batch_fit.py:157 | one insertion step of the sort: the result holds the old rows plus the new one |
| BatchFit.SortByRmse | TFG_v0/scripts/batch_fit.py:157 | the summary is the same rows (a permutation) ordered by non-decreasing `rmse_db`, NaN last |
| BatchFit.NaNRowsLast | TFG_v0/scripts/batch_fit.py:157 | after a NaN row only NaN rows follow |
| BatchFit.SummaryLines | TFG_v0/scripts/batch_fit.py:165-174 | one printed line per summary row |
| BatchFit.RunBatch | TFG_v0/scripts/batch_fit.py:76-178 | no files gives the "no .s2p" exit; progress advances once per file; no fitted row gives the "no results" exit; otherwise the sorted rows and their lines with FmtSi labels and colour bands |
| BatchFit.CollectRows | TFG_v0/scripts/batch_fit.py:111-151 | the per-file loop collects exactly the fitted rows in file order and advances the progress bar once per file |
| BatchFit.FormatLines | TFG_v0/scripts/batch_fit.py:165-174 | one printed line per sorted row, with the three FmtSi labels and the colour band of its RMSE |
| BatchFit.GlobPattern | TFG_v0/scripts/batch_fit.py:88 | the pattern always matches `*.s2p` and is recursive (`**/`) iff `recursive` |
| BatchFit.Positional | TFG_v0/scripts/batch_fit.py:184-186 | `argv[i]` is used only if it exists and does not start with `-`; otherwise the default applies |
| BatchFit.PositionalNeverOption | TFG_v0/scripts/batch_fit.py:184-186 | an option word is never taken as a path |
| BatchFit.ParseArgs | TFG_v0/scripts/batch_fit.py:184-188 | none of the three paths is ever an option word (each is an argv word without a leading `-` or a default); recursive iff `--recursive` or `-r` occurs; plots iff `--no-plots` does not |
| BatchFit.ArgsExamples | TFG_v0/scripts/batch_fit.py:184-188 | positionals keep their places: `-r meas` leaves the data directory at its default and takes `meas` as the config path |
| Cli.FmtSi | TFG_v0/src/tfg_v0/cli.py:73-95 | the `best` loop computes the same SI label as `fmt_si` |
| Cli.RunMain | TFG_v0/src/tfg_v0/cli.py:24-117 | a missing `.s2p` exits with code 1 after loading the config and before creating the output directory; otherwise all steps run and R, L, C are printed with `_fmt_si` |
| Cli.SummaryHasNoSubUnitPrefix | TFG_v0/src/tfg_v0/cli.py:74-91 | whatever the value, the printed prefix is "", k, M or G, although the docstring lists p, n, µ and m |

## Left out

- Serial hardware and timing: opening the port (a parameter of `Connect`), baud rate, `reset_input_buffer`, `in_waiting` and every `time.sleep`. Exceptions raised by pyserial after the port is open are not modelled.
- Floating-point rounding: reals are exact.
- `NanoVna.Calibrate`, `NanoVnaSimple.ParseData`: the `abs`, `np.angle`, `log10` and `degrees` fields of the decoded dicts are not computed, because they are floating-point numerics. `raw_reference` is kept as the reference itself.
- `Saa2Protocol.TruncToInt`: the float-rounding corner cases of `int(step_hz)` are not modelled.
- `freq_index` is decoded and kept. Nothing uses it, as in the code.
- Plotting: the Smith chart, the magnitude and phase plots and the demo data are left out. Only the VSWR expression and the frequency axes are modelled.
- The interactive menus and the `get_*_input` helpers are left out. The simple driver's validation and its measure step are modelled in `ConfigureAndMeasure`.
- pandas, scikit-rf and file I/O: reading the CSV, `write_touchstone`, `to_csv`, and deleting the temporary file. The read table and the success of each write are parameters.
- `S2pExtraction.VnaMeasurement.SaveCsvFile`: the model fixes the column header but not the column values. Those are magnitude and phase floats.
- `S2pExtraction.VnaMeasurement.GetParameterDb`: `np.abs` and `np.log10` are parameters.
- pynanovna (connect, calibration, `set_sweep`, `sweep`, `stream_to_csv`) and the `measure_dut` wait loop are left out. `get_parameter_magnitude_phase` and `plot_measurement` are left out too, because they are floating-point and plotting only.
- `Text.Lower` only folds ASCII upper case; `str.lower()` also folds other scripts.
- Duplicate column names after normalisation are not modelled. The first match is used.
- `.3g` and `.3f` number formatting and console colours are left out. The model stops at the number, the prefix and the unit of each cell.
- Infinity and text spellings of NaN are not modelled.
- `BatchFit.SortByRmse`: rows with equal `rmse_db` keep input order in the model. pandas' default sort is not stable, so the tie order is not promised.
- The glob itself and the order of the file list (`sorted(...)`) are not modelled. The file list is an input.
- `load_config` errors, the per-file CSV and plot outputs, the summary CSV and `mkdir` are left out.
- The fit (`fit_equivalent`) and the RMSE computations are a parameter of `RunBatch`. A `None` result stands for any exception in the per-file block.
- `Cli.RunMain`: the file system is reduced to whether the path exists. A network or fit that raises after the check is not modelled. The rows for centre frequency, window, topology and RMSE in the summary table are not modelled.

## Findings

| source | as written | input that shows it | evidently intended | confidence | as-written member | corrected member |
|---|---|---|---|---|---|---|
| TFG_v0/scripts/batch_fit.py:69-73 (and TFG_v0/src/tfg_v0/cli.py:74-92) | the scale starts at 1.0 and an entry is taken only if its scale is at least the current one, so p, n, µ and m can never be chosen | x = 1e-9 (a 1 nF capacitance) prints as "1e-09 F" | the largest prefix of p .. G not above `abs(x)`, as the docstring "p, n, µ, m, k, M, G" says, so 1e-9 prints as "1 nF" | not executed | SiPrefix.NanoFaradCounterexample | SiPrefix.IntendedMantissaRange |

The batch and command models print with the picker as written (`SiPrefix.SiLabelOf`), since they model what the programs output. The intended picker is `SiPrefix.IntendedPrefix`. It agrees with the written one from 1 up (`SiPrefix.IntendedAgreesFromOne`).
