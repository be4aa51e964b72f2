/**
 * Byte strings as sequences of integers in 0..255, with the little-endian
 * conversions the driver uses: `int.to_bytes(n, 'little')` on the way out and
 * `struct.unpack('<i' | '<H', ...)` on the way in.
 */
module Bytes {
  import opened Wrappers

  predicate IsByte(b: int) { 0 <= b < 256 }

  predicate IsBytes(bs: seq<int>) {
    forall i :: 0 <= i < |bs| ==> IsByte(bs[i])
  }

  function Pow256(n: nat): (p: nat)
    ensures p >= 1
  {
    if n == 0 then 1 else 256 * Pow256(n - 1)
  }

  const TwoTo16: int := 0x1_0000
  const TwoTo31: int := 0x8000_0000
  const TwoTo32: int := 0x1_0000_0000
  const TwoTo64: int := 0x1_0000_0000_0000_0000

  lemma Pow256Values()
    ensures Pow256(2) == TwoTo16 && Pow256(4) == TwoTo32 && Pow256(8) == TwoTo64
  {
  }

  /** The n low-order bytes of v, least significant first. */
  function LeBytes(v: nat, n: nat): (bs: seq<int>)
    ensures |bs| == n && IsBytes(bs)
  {
    if n == 0 then [] else [v % 256] + LeBytes(v / 256, n - 1)
  }

  /** The bytes of 0 are all zero. */
  lemma {:induction false} LeBytesZero(n: nat)
    ensures LeBytes(0, n) == seq(n, _ => 0)
  {
    if n > 0 {
      LeBytesZero(n - 1);
    }
  }

  /** The unsigned value of a little-endian byte string. */
  function LeValue(bs: seq<int>): int
  {
    if bs == [] then 0 else bs[0] + 256 * LeValue(bs[1..])
  }

  lemma {:induction false} LeValueRange(bs: seq<int>)
    requires IsBytes(bs)
    ensures 0 <= LeValue(bs) < Pow256(|bs|)
  {
    if bs != [] {
      LeValueRange(bs[1..]);
    }
  }

  /** Decoding the little-endian bytes of a value that fits gives the value back. */
  lemma {:induction false} LeRoundTrip(v: nat, n: nat)
    requires v < Pow256(n)
    ensures LeValue(LeBytes(v, n)) == v
  {
    if n > 0 {
      assert v / 256 < Pow256(n - 1);
      LeRoundTrip(v / 256, n - 1);
      assert LeBytes(v, n)[1..] == LeBytes(v / 256, n - 1);
    }
  }

  /** Encoding the value of a byte string gives the byte string back. */
  lemma {:induction false} LeBytesOfValue(bs: seq<int>)
    requires IsBytes(bs)
    ensures LeValue(bs) >= 0 && LeBytes(LeValue(bs), |bs|) == bs
  {
    LeValueRange(bs);
    if bs != [] {
      LeBytesOfValue(bs[1..]);
      var v := LeValue(bs);
      assert v % 256 == bs[0] && v / 256 == LeValue(bs[1..]);
    }
  }

  /** Python's `v.to_bytes(n, 'little')`: None stands for the OverflowError it raises. */
  function ToBytes(v: int, n: nat): (r: Option<seq<int>>)
    ensures r.Some? <==> 0 <= v < Pow256(n)
    ensures r.Some? ==> |r.value| == n && IsBytes(r.value) && LeValue(r.value) == v
  {
    if 0 <= v < Pow256(n) then LeRoundTrip(v, n); Some(LeBytes(v, n)) else None
  }

  /** `struct.unpack('<i', bs)`: a signed 32-bit little-endian integer. */
  function Int32Le(bs: seq<int>): int
    requires |bs| == 4
  {
    var u := LeValue(bs);
    if u >= TwoTo31 then u - TwoTo32 else u
  }

  /** `struct.unpack('<H', bs)`: an unsigned 16-bit little-endian integer. */
  function Uint16Le(bs: seq<int>): int
    requires |bs| == 2
  {
    LeValue(bs)
  }

  /** `struct.pack('<i', v)`: the two's-complement bytes of a signed 32-bit integer. */
  function Int32ToLe(v: int): (bs: seq<int>)
    requires -TwoTo31 <= v < TwoTo31
    ensures |bs| == 4 && IsBytes(bs)
  {
    LeBytes(if v < 0 then v + TwoTo32 else v, 4)
  }

  lemma Int32Range(bs: seq<int>)
    requires |bs| == 4 && IsBytes(bs)
    ensures -TwoTo31 <= Int32Le(bs) < TwoTo31
  {
    LeValueRange(bs);
    Pow256Values();
  }

  lemma Int32RoundTrip(v: int)
    requires -TwoTo31 <= v < TwoTo31
    ensures Int32Le(Int32ToLe(v)) == v
  {
    Pow256Values();
    LeRoundTrip(if v < 0 then v + TwoTo32 else v, 4);
  }

  lemma Uint16Range(bs: seq<int>)
    requires |bs| == 2 && IsBytes(bs)
    ensures 0 <= Uint16Le(bs) < TwoTo16
  {
    LeValueRange(bs);
    Pow256Values();
  }
}
