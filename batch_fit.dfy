/**
 * The batch fitter: every `.s2p` file is processed (the fit itself is a
 * parameter that may fail), failing files are skipped, the collected rows are
 * sorted by RMSE in dB and printed with SI-prefixed values and a colour band.
 */
module BatchFit {
  import opened Wrappers
  import opened Floats
  import opened Text
  import opened SiPrefix

  const OhmUnit: string := "\U{3A9}"
  const HenryUnit: string := "H"
  const FaradUnit: string := "F"

  // ---------------------------------------------------------------- fmt_si

  /** `fmt_si`: the loop over the prefix table updating `sym` and `scale`. */
  method FmtSi(x: Float, unit: string) returns (formatted: SiLabel)
    ensures formatted == SiLabelOf(x, unit)
  {
    if x.NaN? || x.value == 0.0 {
      return SiLabel(0.0, "", unit);
    }
    var absx := Abs(x.value);
    var sym := "";
    var scale := 1.0;
    for i := 0 to |Table|
      invariant Scan(Table[i..], absx, Prefix(scale, sym)) == Scan(Table, absx, NoPrefix)
    {
      assert Table[i..][1..] == Table[i + 1..];
      if absx >= Table[i].scale && Table[i].scale >= scale {
        sym, scale := Table[i].symbol, Table[i].scale;
      }
    }
    assert Table[|Table|..] == [];
    ScanIsLargestPrefix(absx);
    if sym != "" {
      formatted := SiLabel(x.value / scale, sym, unit);
    } else {
      formatted := SiLabel(x.value, "", unit);
    }
  }

  // ---------------------------------------------------------------- colour band

  datatype Colour = Green | Yellow | Red

  /** The colour of an RMSE cell; every comparison with NaN is false, so NaN is red. */
  function Band(rmse: Float, okDb: real, warnDb: real): (colour: Colour)
    ensures colour == Green <==> rmse.Num? && rmse.value <= okDb
    ensures colour == Yellow <==> rmse.Num? && okDb < rmse.value <= warnDb
    ensures colour == Red <==> rmse.NaN? || (rmse.value > okDb && rmse.value > warnDb)
  {
    if rmse.Num? && rmse.value <= okDb then Green
    else if rmse.Num? && rmse.value <= warnDb then Yellow
    else Red
  }

  // ---------------------------------------------------------------- rows

  /** What a successful fit of one file yields; the fit itself is not modelled. */
  datatype FitResult = FitResult(r: Float, l: Float, c: Float, rmseDb: Float, rmsePhaseDeg: Float)

  /** One summary row: the file name and its fit. */
  datatype Row = Row(file: string, fit: FitResult)

  /** `Path.name`: the last `/`-separated component of a path. */
  function BaseName(path: string): (name: string)
    ensures Count(name, '/') == 0 && EndsWith(path, name)
  {
    SplitLastPart(path, '/');
    var parts := Split(path, '/');
    parts[|parts| - 1]
  }

  /** The row a file contributes: none when its processing raises. */
  function RowsOf(path: string, process: string -> Option<FitResult>): seq<Row>
  {
    match process(path)
    case Some(fit) => [Row(BaseName(path), fit)]
    case None => []
  }

  /** The rows the loop collects, one per file whose processing succeeds, in file order. */
  function Fitted(files: seq<string>, process: string -> Option<FitResult>): (rows: seq<Row>)
    ensures |rows| <= |files|
  {
    if files == [] then []
    else Fitted(files[..|files| - 1], process) + RowsOf(files[|files| - 1], process)
  }

  /** Every collected row comes from a listed file whose processing gave exactly that fit. */
  lemma {:induction false} FittedSound(files: seq<string>, process: string -> Option<FitResult>)
    ensures forall row :: row in Fitted(files, process) ==>
      exists f :: f in files && process(f) == Some(row.fit) && row.file == BaseName(f)
    decreases |files|
  {
    if files != [] {
      var init := files[..|files| - 1];
      FittedSound(init, process);
      forall row | row in Fitted(files, process)
        ensures exists f :: f in files && process(f) == Some(row.fit) && row.file == BaseName(f)
      {
        if row in Fitted(init, process) {
          var f :| f in init && process(f) == Some(row.fit) && row.file == BaseName(f);
          assert f in files;
        } else {
          assert row in RowsOf(files[|files| - 1], process);
          assert files[|files| - 1] in files;
        }
      }
    }
  }

  /** A failing file does not stop the batch: every file that succeeds has its row. */
  lemma {:induction false} FittedComplete(files: seq<string>, process: string -> Option<FitResult>)
    ensures forall f :: f in files && process(f).Some? ==>
      Row(BaseName(f), process(f).value) in Fitted(files, process)
    decreases |files|
  {
    if files != [] {
      var init := files[..|files| - 1];
      FittedComplete(init, process);
      forall f | f in files && process(f).Some?
        ensures Row(BaseName(f), process(f).value) in Fitted(files, process)
      {
        if f != files[|files| - 1] {
          var k :| 0 <= k < |files| && files[k] == f;
          assert init[k] == f;
        }
      }
    }
  }

  // ---------------------------------------------------------------- sort by rmse_db

  /** The order of `sort_values("rmse_db")`: numbers ascending, NaN last. */
  predicate KeyLe(a: Float, b: Float)
  {
    b.NaN? || (a.Num? && a.value <= b.value)
  }

  predicate SortedByRmse(rows: seq<Row>)
  {
    forall i, j :: 0 <= i < j < |rows| ==> KeyLe(rows[i].fit.rmseDb, rows[j].fit.rmseDb)
  }

  function Insert(row: Row, rows: seq<Row>): (r: seq<Row>)
    ensures multiset(r) == multiset(rows) + multiset{row}
  {
    if rows == [] then [row]
    else if KeyLe(row.fit.rmseDb, rows[0].fit.rmseDb) then [row] + rows
    else
      assert rows == [rows[0]] + rows[1..];
      [rows[0]] + Insert(row, rows[1..])
  }

  /** Every row of the insertion result is the inserted row or one of the old rows. */
  lemma {:induction false} InsertMembers(row: Row, rows: seq<Row>)
    ensures forall x :: x in Insert(row, rows) ==> x == row || x in rows
    decreases |rows|
  {
    if rows != [] && !KeyLe(row.fit.rmseDb, rows[0].fit.rmseDb) {
      InsertMembers(row, rows[1..]);
    }
  }

  /** A sorted sequence stays sorted under a new head that is at most each of its rows. */
  lemma SortedCons(x: Row, rows: seq<Row>)
    requires SortedByRmse(rows)
    requires forall k :: 0 <= k < |rows| ==> KeyLe(x.fit.rmseDb, rows[k].fit.rmseDb)
    ensures SortedByRmse([x] + rows)
  {
    var r := [x] + rows;
    forall i, j | 0 <= i < j < |r|
      ensures KeyLe(r[i].fit.rmseDb, r[j].fit.rmseDb)
    {
      assert r[j] == rows[j - 1];
      if i > 0 {
        assert r[i] == rows[i - 1];
      }
    }
  }

  lemma {:induction false} InsertSorted(row: Row, rows: seq<Row>)
    requires SortedByRmse(rows)
    ensures SortedByRmse(Insert(row, rows))
    decreases |rows|
  {
    if rows == [] {
      assert Insert(row, rows) == [row];
    } else if KeyLe(row.fit.rmseDb, rows[0].fit.rmseDb) {
      SortedCons(row, rows);
    } else {
      var tail := Insert(row, rows[1..]);
      InsertSorted(row, rows[1..]);
      InsertMembers(row, rows[1..]);
      forall k | 0 <= k < |tail|
        ensures KeyLe(rows[0].fit.rmseDb, tail[k].fit.rmseDb)
      {
        assert tail[k] in tail;
        if tail[k] != row {
          var m :| 0 <= m < |rows[1..]| && rows[1..][m] == tail[k];
          assert rows[m + 1] == tail[k];
        }
      }
      SortedCons(rows[0], tail);
    }
  }

  /** `sort_values("rmse_db")`: the same rows, ordered by non-decreasing RMSE with NaN last. */
  function SortByRmse(rows: seq<Row>): (r: seq<Row>)
    ensures SortedByRmse(r)
    ensures multiset(r) == multiset(rows)
  {
    if rows == [] then []
    else
      var rest := SortByRmse(rows[1..]);
      InsertSorted(rows[0], rest);
      assert rows == [rows[0]] + rows[1..];
      Insert(rows[0], rest)
  }

  /** In the sorted summary no number comes after a NaN. */
  lemma NaNRowsLast(rows: seq<Row>, i: int, j: int)
    requires SortedByRmse(rows)
    requires 0 <= i < j < |rows| && rows[i].fit.rmseDb.NaN?
    ensures rows[j].fit.rmseDb.NaN?
  {
  }

  // ---------------------------------------------------------------- batch run

  /** One row of the printed table: file, R, L, C, coloured RMSE and phase RMSE. */
  datatype SummaryLine = SummaryLine(
    file: string, r: SiLabel, l: SiLabel, c: SiLabel,
    colour: Colour, rmseDb: Float, rmsePhaseDeg: Float)

  function LineOf(row: Row, okDb: real, warnDb: real): SummaryLine
  {
    SummaryLine(row.file,
      SiLabelOf(row.fit.r, OhmUnit), SiLabelOf(row.fit.l, HenryUnit), SiLabelOf(row.fit.c, FaradUnit),
      Band(row.fit.rmseDb, okDb, warnDb), row.fit.rmseDb, row.fit.rmsePhaseDeg)
  }

  function SummaryLines(rows: seq<Row>, okDb: real, warnDb: real): (lines: seq<SummaryLine>)
    ensures |lines| == |rows|
  {
    seq(|rows|, i requires 0 <= i < |rows| => LineOf(rows[i], okDb, warnDb))
  }

  /**
   * How a batch ends: no input files, no file fitted, or the sorted rows with
   * their printed lines. `progress` is the number of progress-bar advances.
   */
  datatype Report =
    | NoFiles
    | NoResults(progress: nat)
    | Summary(rows: seq<Row>, lines: seq<SummaryLine>, progress: nat)

  /**
   * The `for s2p_path in tqdm(files)` loop: every file advances the progress bar
   * once, and a file whose processing raises adds no row.
   */
  method CollectRows(files: seq<string>, process: string -> Option<FitResult>)
    returns (rows: seq<Row>, progress: nat)
    ensures rows == Fitted(files, process)
    ensures progress == |files|
  {
    rows := [];
    progress := 0;
    for i := 0 to |files|
      invariant rows == Fitted(files[..i], process)
      invariant progress == i
    {
      assert files[..i + 1][..i] == files[..i];
      match process(files[i]) {
        case Some(fit) =>
          rows := rows + [Row(BaseName(files[i]), fit)];
        case None =>
      }
      progress := progress + 1;
    }
    assert files[..|files|] == files;
  }

  /** The `for _, row in df.iterrows()` printing loop: one line per sorted row. */
  method FormatLines(sorted: seq<Row>, okDb: real, warnDb: real) returns (lines: seq<SummaryLine>)
    ensures lines == SummaryLines(sorted, okDb, warnDb)
  {
    lines := [];
    for k := 0 to |sorted|
      invariant |lines| == k
      invariant forall j :: 0 <= j < k ==> lines[j] == LineOf(sorted[j], okDb, warnDb)
    {
      var row := sorted[k];
      var r := FmtSi(row.fit.r, OhmUnit);
      var l := FmtSi(row.fit.l, HenryUnit);
      var c := FmtSi(row.fit.c, FaradUnit);
      lines := lines + [SummaryLine(row.file, r, l, c, Band(row.fit.rmseDb, okDb, warnDb),
                                    row.fit.rmseDb, row.fit.rmsePhaseDeg)];
    }
  }

  /** `batch_fit` over the listed files, with the per-file work given as `process`. */
  method RunBatch(files: seq<string>, process: string -> Option<FitResult>, okDb: real, warnDb: real)
    returns (report: Report)
    ensures report.NoFiles? <==> files == []
    ensures files != [] ==> report.progress == |files|
    ensures report.NoResults? <==> files != [] && Fitted(files, process) == []
    ensures report.Summary? ==>
      report.rows == SortByRmse(Fitted(files, process)) &&
      report.lines == SummaryLines(report.rows, okDb, warnDb)
  {
    if files == [] {
      return NoFiles;
    }
    var rows, progress := CollectRows(files, process);
    if rows == [] {
      return NoResults(progress);
    }
    var sorted := SortByRmse(rows);
    var lines := FormatLines(sorted, okDb, warnDb);
    report := Summary(sorted, lines, progress);
  }

  // ---------------------------------------------------------------- file selection and argv

  /** The glob pattern: recursive exactly when it starts with `**` + "/", always `*.s2p` files. */
  function GlobPattern(recursive: bool): (pattern: string)
    ensures EndsWith(pattern, "*.s2p")
    ensures StartsWith(pattern, "**/") <==> recursive
  {
    if recursive then "**/*.s2p"
    else
      assert "*.s2p"[..3][1] != "**/"[1];
      "*.s2p"
  }

  const DefaultDataDir: string := "data/raw"
  const DefaultConfig: string := "config/base.yaml"
  const DefaultOutDir: string := "reports"

  /** `argv[i]` when present and not an option (no leading `-`), else the default. */
  function Positional(argv: seq<string>, i: nat, default: string): (arg: string)
    ensures arg == default || (i < |argv| && arg == argv[i])
    ensures i < |argv| && !StartsWith(argv[i], "-") ==> arg == argv[i]
    ensures i >= |argv| || StartsWith(argv[i], "-") ==> arg == default
  {
    if i < |argv| && !StartsWith(argv[i], "-") then argv[i] else default
  }

  /** An option word is never taken for a path unless the default itself is one. */
  lemma PositionalNeverOption(argv: seq<string>, i: nat, default: string)
    requires !StartsWith(default, "-")
    ensures !StartsWith(Positional(argv, i, default), "-")
  {
  }

  datatype BatchArgs = BatchArgs(dataDir: string, cfgPath: string, outDir: string, recursive: bool, plots: bool)

  /** The command line: three optional positionals at fixed places, two flags anywhere. */
  function ParseArgs(argv: seq<string>): (args: BatchArgs)
    ensures args.recursive <==> ("--recursive" in argv || "-r" in argv)
    ensures !args.plots <==> "--no-plots" in argv
    ensures !StartsWith(args.dataDir, "-") && !StartsWith(args.cfgPath, "-") && !StartsWith(args.outDir, "-")
  {
    assert DefaultDataDir[..1][0] != '-' && DefaultConfig[..1][0] != '-' && DefaultOutDir[..1][0] != '-';
    PositionalNeverOption(argv, 1, DefaultDataDir);
    PositionalNeverOption(argv, 2, DefaultConfig);
    PositionalNeverOption(argv, 3, DefaultOutDir);
    BatchArgs(
      Positional(argv, 1, DefaultDataDir),
      Positional(argv, 2, DefaultConfig),
      Positional(argv, 3, DefaultOutDir),
      "--recursive" in argv || "-r" in argv,
      !("--no-plots" in argv))
  }

  /** Positionals keep their places: a flag in place 1 does not move the next word to the data directory. */
  lemma ArgsExamples()
    ensures ParseArgs(["batch_fit.py", "meas", "--no-plots"])
      == BatchArgs("meas", DefaultConfig, DefaultOutDir, false, false)
    ensures ParseArgs(["batch_fit.py", "-r", "meas"])
      == BatchArgs(DefaultDataDir, "meas", DefaultOutDir, true, true)
  {
    assert "meas"[..1][0] != '-';
    assert StartsWith("--no-plots", "-");
    assert StartsWith("-r", "-");
  }
}
