/**
 * The SI-prefix picker shared by `fmt_si` (batch report) and `_fmt_si` (CLI
 * summary): the prefix table, the loop's step, its closed form, and the label
 * the formatter prints (the `.3g` rendering itself is left to the caller).
 */
module SiPrefix {
  import opened Floats

  datatype Prefix = Prefix(scale: real, symbol: string)

  /** The starting choice of both loops: no symbol, scale 1. */
  const NoPrefix: Prefix := Prefix(1.0, "")

  const Pico: Prefix := Prefix(0.000000000001, "p")
  const Nano: Prefix := Prefix(0.000000001, "n")
  const Micro: Prefix := Prefix(0.000001, "\U{B5}")
  const Milli: Prefix := Prefix(0.001, "m")
  const Kilo: Prefix := Prefix(1000.0, "k")
  const Mega: Prefix := Prefix(1000000.0, "M")
  const Giga: Prefix := Prefix(1000000000.0, "G")

  /** The table, in the order the loops walk it. */
  const Table: seq<Prefix> := [Pico, Nano, Micro, Milli, Kilo, Mega, Giga]

  /** One loop step: an entry replaces the current choice when |x| >= its scale >= the current scale. */
  function Consider(cur: Prefix, p: Prefix, a: real): Prefix
  {
    if a >= p.scale && p.scale >= cur.scale then p else cur
  }

  /** The loop run over the entries from the given choice on. */
  function Scan(entries: seq<Prefix>, a: real, cur: Prefix): Prefix
  {
    if entries == [] then cur else Scan(entries[1..], a, Consider(cur, entries[0], a))
  }

  /** What the loop picks for |x| = a: the largest of k, M, G not above a, else no prefix. */
  function LargestPrefix(a: real): Prefix
  {
    if a >= Giga.scale then Giga
    else if a >= Mega.scale then Mega
    else if a >= Kilo.scale then Kilo
    else NoPrefix
  }

  /** The loop computes the closed form. */
  lemma ScanIsLargestPrefix(a: real)
    ensures Scan(Table, a, NoPrefix) == LargestPrefix(a)
  {
    var t := Table;
    // The four sub-unit entries are all below the starting scale 1 and are never taken.
    assert Scan(t, a, NoPrefix) == Scan(t[1..], a, NoPrefix);
    assert Scan(t[1..], a, NoPrefix) == Scan(t[2..], a, NoPrefix);
    assert Scan(t[2..], a, NoPrefix) == Scan(t[3..], a, NoPrefix);
    assert Scan(t[3..], a, NoPrefix) == Scan(t[4..], a, NoPrefix);
    var c4 := Consider(NoPrefix, Kilo, a);
    assert Scan(t[4..], a, NoPrefix) == Scan(t[5..], a, c4);
    var c5 := Consider(c4, Mega, a);
    assert Scan(t[5..], a, c4) == Scan(t[6..], a, c5);
    var c6 := Consider(c5, Giga, a);
    assert Scan(t[6..], a, c5) == Scan(t[7..], a, c6);
    assert t[7..] == [];
  }

  /**
   * The pick is the largest table entry of scale at least 1 that |x| reaches,
   * or no prefix when there is none.
   */
  lemma LargestPrefixMaximal(a: real)
    ensures LargestPrefix(a) == NoPrefix || (LargestPrefix(a) in Table && LargestPrefix(a).scale <= a)
    ensures LargestPrefix(a).scale >= 1.0
    ensures forall q :: q in Table && 1.0 <= q.scale <= a ==> q.scale <= LargestPrefix(a).scale
    ensures LargestPrefix(a) == NoPrefix <==> a < Kilo.scale
  {
  }

  /** p, n, µ and m are never chosen, whatever the magnitude. */
  lemma NoSubUnitPrefix(a: real)
    ensures LargestPrefix(a) != Pico && LargestPrefix(a) != Nano
    ensures LargestPrefix(a) != Micro && LargestPrefix(a) != Milli
    ensures LargestPrefix(a).symbol !in {"p", "n", "\U{B5}", "m"}
  {
  }

  /**
   * The printed value: the number, the prefix symbol and the unit. `fmt_si`
   * prints `number` with `.3g`, then a space, then `prefix + unit`.
   */
  datatype SiLabel = SiLabel(number: real, prefix: string, unit: string)

  /** `fmt_si(x, unit)`: 0 and NaN print as "0 unit"; otherwise x / scale with the picked symbol. */
  function SiLabelOf(x: Float, unit: string): SiLabel
  {
    match x
    case NaN => SiLabel(0.0, "", unit)
    case Num(v) =>
      if v == 0.0 then SiLabel(0.0, "", unit)
      else
        var p := LargestPrefix(Abs(v));
        if p.symbol != "" then SiLabel(v / p.scale, p.symbol, unit) else SiLabel(v, "", unit)
  }

  /**
   * The printed number times the prefix scale is x again, and from 1000 up to
   * 10^12 it lies in [1, 1000) in magnitude; below 1000 x is printed as is.
   */
  lemma SiLabelScales(v: real, unit: string)
    requires v != 0.0
    ensures SiLabelOf(Num(v), unit).number * LargestPrefix(Abs(v)).scale == v
    ensures Abs(v) < Kilo.scale ==> SiLabelOf(Num(v), unit) == SiLabel(v, "", unit)
    ensures Kilo.scale <= Abs(v) < 1000000000000.0 ==>
      1.0 <= Abs(SiLabelOf(Num(v), unit).number) < 1000.0
  {
    var p := LargestPrefix(Abs(v));
    var n := SiLabelOf(Num(v), unit).number;
    if p.symbol != "" {
      assert n == v / p.scale;
      assert Abs(n) == Abs(v) / p.scale;
    }
  }

  lemma ZeroAndNaNLabels(unit: string)
    ensures SiLabelOf(Num(0.0), unit) == SiLabel(0.0, "", unit)
    ensures SiLabelOf(NaN, unit) == SiLabel(0.0, "", unit)
  {
  }

  // ---------------------------------------------------------------- intended picker

  /**
   * The picker the docstring describes: the largest of p .. G (with the plain
   * unit between m and k) that does not exceed |x|.
   */
  function IntendedPrefix(a: real): Prefix
  {
    if a >= Giga.scale then Giga
    else if a >= Mega.scale then Mega
    else if a >= Kilo.scale then Kilo
    else if a >= 1.0 then NoPrefix
    else if a >= Milli.scale then Milli
    else if a >= Micro.scale then Micro
    else if a >= Nano.scale then Nano
    else if a >= Pico.scale then Pico
    else NoPrefix
  }

  /** With the intended picker every magnitude from 1 pico up to 10^12 prints in [1, 1000). */
  lemma IntendedMantissaRange(a: real)
    requires Pico.scale <= a < 1000000000000.0
    ensures 1.0 <= a / IntendedPrefix(a).scale < 1000.0
  {
  }

  /** From 1 up the intended picker and the written one agree. */
  lemma IntendedAgreesFromOne(a: real)
    requires a >= 1.0
    ensures IntendedPrefix(a) == LargestPrefix(a)
  {
  }

  /** 1 nF is printed as "1e-09 F": no prefix is taken, unlike the intended "1 nF". */
  lemma NanoFaradCounterexample()
    ensures SiLabelOf(Num(0.000000001), "F") == SiLabel(0.000000001, "", "F")
    ensures IntendedPrefix(0.000000001) == Nano
    ensures 0.000000001 / IntendedPrefix(0.000000001).scale == 1.0
  {
  }
}
