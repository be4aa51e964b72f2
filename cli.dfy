/**
 * The single-file command: load the configuration, stop with exit code 1 when
 * the Touchstone file is missing, otherwise create the output directory, fit,
 * save, plot and print a summary whose R, L and C use `_fmt_si`.
 */
module Cli {
  import opened Floats
  import opened SiPrefix

  /** `_fmt_si`: the loop over the prefix table keeping the best `(symbol, scale)` pair. */
  method FmtSi(x: Float, unit: string) returns (formatted: SiLabel)
    ensures formatted == SiLabelOf(x, unit)
  {
    if x.NaN? || x.value == 0.0 {
      return SiLabel(0.0, "", unit);
    }
    var absx := Abs(x.value);
    var best := NoPrefix;
    for i := 0 to |Table|
      invariant Scan(Table[i..], absx, best) == Scan(Table, absx, NoPrefix)
    {
      assert Table[i..][1..] == Table[i + 1..];
      if absx >= Table[i].scale && Table[i].scale >= best.scale {
        best := Table[i];
      }
    }
    assert Table[|Table|..] == [];
    ScanIsLargestPrefix(absx);
    if best.symbol == "" {
      formatted := SiLabel(x.value, "", unit);
    } else {
      formatted := SiLabel(x.value / best.scale, best.symbol, unit);
    }
  }

  /** The observable steps of `main`, in the order it takes them. */
  datatype Step = LoadConfig | CreateOutDir | LoadNetwork | FitModel | WriteCsv | Plot | PrintSummary

  /** The fitted element values, as the command reads them back from the fit's table. */
  datatype FitValues = FitValues(r: Float, l: Float, c: Float)

  /** The end of a run: its exit code, the steps taken and the R, L, C summary cells. */
  datatype Run = Run(exitCode: int, steps: seq<Step>, components: seq<SiLabel>)

  const FullRun: seq<Step> := [LoadConfig, CreateOutDir, LoadNetwork, FitModel, WriteCsv, Plot, PrintSummary]

  /**
   * `main` with the file system reduced to whether the `.s2p` path exists and
   * the fit to its result. The configuration is loaded before the check, the
   * output directory only after it.
   */
  method RunMain(s2pExists: bool, fit: FitValues) returns (run: Run)
    ensures !s2pExists ==> run == Run(1, [LoadConfig], [])
    ensures s2pExists ==> run.exitCode == 0 && run.steps == FullRun
    ensures s2pExists ==>
      run.components == [SiLabelOf(fit.r, "\U{3A9}"), SiLabelOf(fit.l, "H"), SiLabelOf(fit.c, "F")]
    ensures CreateOutDir in run.steps <==> s2pExists
    ensures |run.steps| > 0 && run.steps[0] == LoadConfig
  {
    var steps := [LoadConfig];
    if !s2pExists {
      return Run(1, steps, []);
    }
    steps := steps + [CreateOutDir, LoadNetwork, FitModel, WriteCsv, Plot];
    var r := FmtSi(fit.r, "\U{3A9}");
    var l := FmtSi(fit.l, "H");
    var c := FmtSi(fit.c, "F");
    steps := steps + [PrintSummary];
    run := Run(0, steps, [r, l, c]);
  }

  /** Whatever the fit, the summary never shows p, n, µ or m, which the docstring promises. */
  lemma SummaryHasNoSubUnitPrefix()
    ensures forall x: Float, u: string :: SiLabelOf(x, u).prefix in {"", "k", "M", "G"}
  {
    forall x: Float, u: string
      ensures SiLabelOf(x, u).prefix in {"", "k", "M", "G"}
    {
      if x.Num? && x.value != 0.0 {
        NoSubUnitPrefix(Abs(x.value));
      }
    }
  }
}
