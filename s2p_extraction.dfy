/**
 * The data-assembly parts of `VNAMeasurement`: turning the exported CSV table
 * into S-parameters (column normalisation, complex parsing, the reciprocal and
 * symmetric completion), the dB view of one parameter, and the two savers with
 * their empty-data guard, extension rule and 2x2 S-matrix layout.
 */
module S2pExtraction {
  import opened Wrappers
  import opened ComplexArith
  import opened Text

  // ---------------------------------------------------------------- the CSV table

  /** A cell as pandas hands it over: a complex, a number, NaN/None, or a string. */
  datatype Cell = ComplexCell(c: Complex) | NumberCell(x: real) | MissingCell | TextCell(s: string)

  datatype Table = Table(columns: seq<string>, rows: seq<seq<Cell>>)

  /** A data frame: every row has one cell per column. */
  type Frame = t: Table | forall r :: 0 <= r < |t.rows| ==> |t.rows[r]| == |t.columns|
    witness Table([], [])

  /** `c.strip().lower()`. */
  function NormalizeColumn(c: string): string
  {
    Lower(Strip(c))
  }

  function NormalizeColumns(cols: seq<string>): (r: seq<string>)
    ensures |r| == |cols|
  {
    seq(|cols|, i requires 0 <= i < |cols| => NormalizeColumn(cols[i]))
  }

  /** Normalising a normalised name changes nothing. */
  lemma NormalizeIdempotent(c: string)
    ensures NormalizeColumn(NormalizeColumn(c)) == NormalizeColumn(c)
  {
    var s := Strip(c);
    StripEnds(c);
    LowerKeepsSpaces(s);
    StripNoSpaceEnds(Lower(s));
  }

  lemma StripPadded()
    ensures Strip(" S11 ") == "S11"
  {
    assert " S11 " == [' '] + "S11" + [' '];
    StripPadding("S11");
  }

  lemma LowerS11()
    ensures Lower("S11") == "s11"
  {
    var lowered := Lower("S11");
    assert lowered[0] == 's' && lowered[1] == '1' && lowered[2] == '1';
  }

  lemma LowerFreq()
    ensures Lower("Freq") == "freq"
  {
    var lowered := Lower("Freq");
    assert lowered[0] == 'f' && lowered[1] == 'r' && lowered[2] == 'e' && lowered[3] == 'q';
  }

  /** Surrounding blanks and upper case do not hide a required column. */
  lemma NormalizeExample()
    ensures NormalizeColumn(" S11 ") == "s11"
    ensures NormalizeColumn("Freq") == "freq"
  {
    StripPadded();
    LowerS11();
    StripNoSpaceEnds("Freq");
    LowerFreq();
  }

  const RequiredColumns: seq<string> := ["s11", "s21", "freq"]

  predicate HasRequiredColumns(cols: seq<string>)
  {
    forall name :: name in RequiredColumns ==> name in cols
  }

  lemma HasRequiredColumnsIff(cols: seq<string>)
    ensures HasRequiredColumns(cols) <==> "s11" in cols && "s21" in cols && "freq" in cols
  {
    assert RequiredColumns[0] == "s11" && RequiredColumns[1] == "s21" && RequiredColumns[2] == "freq";
  }

  /** The position of the first column with this name. */
  function IndexOf(cols: seq<string>, name: string): (i: nat)
    requires name in cols
    ensures i < |cols| && cols[i] == name && name !in cols[..i]
  {
    if cols[0] == name then 0 else 1 + IndexOf(cols[1..], name)
  }

  /** `df[name]`, the cells of one column in row order. */
  function Column(t: Frame, name: string): (cells: seq<Cell>)
    requires name in t.columns
    ensures |cells| == |t.rows|
  {
    var i := IndexOf(t.columns, name);
    seq(|t.rows|, r requires 0 <= r < |t.rows| => t.rows[r][i])
  }

  /** The frame with `df.columns = [c.strip().lower() for c in df.columns]` applied. */
  function Normalized(t: Frame): (n: Frame)
    ensures n.rows == t.rows && n.columns == NormalizeColumns(t.columns)
  {
    Table(NormalizeColumns(t.columns), t.rows)
  }

  // ---------------------------------------------------------------- parse_complex

  /** The two text conversions `parse_complex` calls: `float(s)` and `complex(s)`; None when they raise. */
  datatype NumberSyntax = NumberSyntax(float: string -> Option<real>, complex: string -> Option<Complex>)

  /** One pair of outer parentheses removed, as `val[1:-1]` does. */
  function Unparen(s: string): (r: string)
    ensures |r| <= |s|
  {
    if StartsWith(s, "(") && EndsWith(s, ")") then
      assert s[..1][0] == '(' && s[|s| - 1..][0] == ')';
      s[1..|s| - 1]
    else s
  }

  function ParseComplexText(s: string, syn: NumberSyntax): Complex
  {
    var t := Unparen(Strip(s));
    var parts := Split(t, ',');
    if |parts| == 2 then
      match (syn.float(Strip(parts[0])), syn.float(Strip(parts[1])))
      case (Some(re), Some(im)) => Complex(re, im)
      case _ => Zero
    else
      match syn.complex(t)
      case Some(c) => c
      case None => Zero
  }

  /** `parse_complex`: complex values pass, NaN/None give 0, text is parsed, any failure gives 0. */
  function ParseComplex(v: Cell, syn: NumberSyntax): Complex
  {
    match v
    case ComplexCell(c) => c
    case MissingCell => Zero
    case NumberCell(x) => Complex(x, 0.0)
    case TextCell(s) => ParseComplexText(s, syn)
  }

  /** A complex value is returned unchanged and a missing one becomes 0, whatever the syntax. */
  lemma ParseComplexNonText(v: Cell, syn: NumberSyntax, syn': NumberSyntax)
    requires !v.TextCell?
    ensures ParseComplex(v, syn) == ParseComplex(v, syn')
    ensures v.ComplexCell? ==> ParseComplex(v, syn) == v.c
    ensures v.MissingCell? ==> ParseComplex(v, syn) == Zero
  {
  }

  /**
   * "(a,b)" with comma-free a and b is read as two floats, blanks around each
   * ignored; if either does not parse the value is 0.
   */
  lemma ParsePairText(a: string, b: string, syn: NumberSyntax)
    requires Count(a, ',') == 0 && Count(b, ',') == 0
    ensures var v := ParseComplex(TextCell("(" + a + "," + b + ")"), syn);
      match (syn.float(Strip(a)), syn.float(Strip(b)))
      case (Some(re), Some(im)) => v == Complex(re, im)
      case _ => v == Zero
  {
    ParenthesisedPair(a, b);
    SplitPair(a, ',', b);
  }

  lemma ParenthesisedPair(a: string, b: string)
    ensures Unparen(Strip("(" + a + "," + b + ")")) == a + [','] + b
  {
    var inner := a + [','] + b;
    var s := "(" + a + "," + b + ")";
    assert s == ['('] + inner + [')'];
    assert s[0] == '(' && s[|s| - 1] == ')';
    assert StartsWith(s, "(") by { assert s[..1] == "("; }
    assert EndsWith(s, ")") by { assert s[|s| - 1..] == ")"; }
    assert Unparen(s) == inner by { assert s[1..|s| - 1] == inner; }
    StripNoSpaceEnds(s);
  }

  /** Text without exactly one comma (after the parentheses come off) goes to `complex(val)`. */
  lemma ParseNonPairText(s: string, syn: NumberSyntax)
    requires Count(Unparen(Strip(s)), ',') != 1
    ensures ParseComplex(TextCell(s), syn)
         == match syn.complex(Unparen(Strip(s))) case Some(c) => c case None => Zero
  {
    var t := Unparen(Strip(s));
    assert |Split(t, ',')| != 2;
  }

  function ParseColumn(cells: seq<Cell>, syn: NumberSyntax): (vs: seq<Complex>)
    ensures |vs| == |cells|
  {
    seq(|cells|, i requires 0 <= i < |cells| => ParseComplex(cells[i], syn))
  }

  // ---------------------------------------------------------------- S-parameters

  /** S11 and S21 as measured, S12 := S21 (reciprocity) and S22 := S11 (symmetry). */
  function AssembleSParams(s11: seq<Complex>, s21: seq<Complex>): map<string, seq<Complex>>
  {
    map["S11" := s11, "S21" := s21, "S12" := s21, "S22" := s11]
  }

  const SParamNames: seq<string> := ["S11", "S21", "S12", "S22"]

  /** Either nothing was measured yet, or all four parameters exist with one value per frequency. */
  predicate WellShaped(frequencies: Option<seq<Cell>>, sp: map<string, seq<Complex>>)
  {
    sp == map[]
    || (sp.Keys == {"S11", "S21", "S12", "S22"} && frequencies.Some?
        && |sp["S11"]| == |frequencies.value| && |sp["S21"]| == |frequencies.value|
        && |sp["S12"]| == |frequencies.value| && |sp["S22"]| == |frequencies.value|)
  }

  /** Assembling from two equally long columns gives a well-shaped, reciprocal, symmetric set. */
  lemma AssembleShape(freqs: seq<Cell>, s11: seq<Complex>, s21: seq<Complex>)
    requires |s11| == |freqs| && |s21| == |freqs|
    ensures var sp := AssembleSParams(s11, s21);
      WellShaped(Some(freqs), sp) && sp["S12"] == sp["S21"] && sp["S22"] == sp["S11"]
  {
  }

  /**
   * The processing of a freshly read frame succeeds: the required columns (see
   * HasRequiredColumnsIff), a first row, a numeric frequency.
   */
  predicate ProcessSucceeds(read: Option<Frame>)
  {
    read.Some?
    && "s11" in Normalized(read.value).columns
    && "s21" in Normalized(read.value).columns
    && "freq" in Normalized(read.value).columns
    && |read.value.rows| > 0
    && !Column(Normalized(read.value), "freq")[0].TextCell?
  }

  // ---------------------------------------------------------------- dB view

  const FloorMagnitude: real := 0.0000000001

  /** `np.where(magnitude == 0, 1e-10, magnitude)` for one value. */
  function FlooredMagnitude(c: Complex, magnitude: Complex -> real): real
  {
    if magnitude(c) == 0.0 then FloorMagnitude else magnitude(c)
  }

  /** A non-negative magnitude becomes a positive log argument; only an exact 0 is changed. */
  lemma FlooredMagnitudePositive(c: Complex, magnitude: Complex -> real)
    requires magnitude(c) >= 0.0
    ensures FlooredMagnitude(c, magnitude) > 0.0
    ensures FlooredMagnitude(c, magnitude) != magnitude(c) <==> magnitude(c) == 0.0
  {
  }

  function DbValues(vs: seq<Complex>, magnitude: Complex -> real, log10: real -> real): (db: seq<real>)
    ensures |db| == |vs|
  {
    seq(|vs|, i requires 0 <= i < |vs| => 20.0 * log10(FlooredMagnitude(vs[i], magnitude)))
  }

  // ---------------------------------------------------------------- saving

  /** `if not filename.endswith(ext): filename += ext`. */
  function EnsureExtension(name: string, ext: string): string
  {
    if EndsWith(name, ext) then name else name + ext
  }

  /** The name always ends with the extension, it is appended only when missing, and once is enough. */
  lemma EnsureExtensionProperties(name: string, ext: string)
    requires |ext| > 0
    ensures EndsWith(EnsureExtension(name, ext), ext)
    ensures EnsureExtension(name, ext) == name <==> EndsWith(name, ext)
    ensures EnsureExtension(name, ext) == name + ext <==> !EndsWith(name, ext)
    ensures EnsureExtension(EnsureExtension(name, ext), ext) == EnsureExtension(name, ext)
  {
    EndsWithAppend(name, ext);
    assert |name + ext| != |name|;
  }

  /** The five CSV columns written for one parameter. */
  function ParamColumns(p: string): seq<string>
  {
    [p + "_Magnitude", p + "_Phase_deg", p + "_dB", p + "_Real", p + "_Imag"]
  }

  /** The CSV header: the frequency, then five columns per parameter in the order S11, S21, S12, S22. */
  function CsvHeader(): seq<string>
  {
    ["Frequency_Hz"] + ParamColumns("S11") + ParamColumns("S21") + ParamColumns("S12") + ParamColumns("S22")
  }

  lemma CsvHeaderShape()
    ensures |CsvHeader()| == 21 && CsvHeader()[0] == "Frequency_Hz"
    ensures forall k :: 0 <= k < 4 ==>
      CsvHeader()[1 + 5 * k .. 6 + 5 * k] == ParamColumns(SParamNames[k])
  {
  }

  /** The 2x2 blocks handed to the Touchstone writer, one per frequency. */
  predicate SMatrixLayout(m: array3<Complex>, sp: map<string, seq<Complex>>)
    reads m
  {
    "S11" in sp && "S21" in sp && "S12" in sp && "S22" in sp
    && m.Length0 == |sp["S11"]| && m.Length1 == 2 && m.Length2 == 2
    && |sp["S21"]| == m.Length0 && |sp["S12"]| == m.Length0 && |sp["S22"]| == m.Length0
    && forall i :: 0 <= i < m.Length0 ==>
         m[i, 0, 0] == sp["S11"][i] && m[i, 1, 0] == sp["S21"][i]
         && m[i, 0, 1] == sp["S12"][i] && m[i, 1, 1] == sp["S22"][i]
  }

  /** `s_matrix[:, r, c] = values`: one slice written, every other entry kept. */
  method FillSlice(m: array3<Complex>, r: nat, c: nat, values: seq<Complex>)
    requires m.Length0 == |values| && r < m.Length1 && c < m.Length2
    modifies m
    ensures forall i, r', c' :: 0 <= i < m.Length0 && 0 <= r' < m.Length1 && 0 <= c' < m.Length2 ==>
      m[i, r', c'] == if r' == r && c' == c then values[i] else old(m[i, r', c'])
  {
    forall i | 0 <= i < m.Length0 {
      m[i, r, c] := values[i];
    }
  }

  class VnaMeasurement {
    /** `self.frequencies`: the frequency column as read, None until a measurement is processed. */
    var frequencies: Option<seq<Cell>>
    /** `self.s_params`. */
    var sParams: map<string, seq<Complex>>

    predicate Valid()
      reads this
    {
      WellShaped(frequencies, sParams)
    }

    constructor ()
      ensures frequencies == None && sParams == map[] && Valid()
    {
      frequencies := None;
      sParams := map[];
    }

    /**
     * `_process_measurement_data` on the frame `pd.read_csv` produced (None when it
     * raised). Fails without touching the state when a required column is missing,
     * the table has no row (`s11[0]` raises) or the first frequency is text
     * (`freqs[0]/1e6` raises).
     */
    method ProcessMeasurementData(read: Option<Frame>, syn: NumberSyntax) returns (ok: bool)
      modifies this
      ensures ok <==> ProcessSucceeds(read)
      ensures ok ==>
        var t := Normalized(read.value);
        frequencies == Some(Column(t, "freq"))
        && sParams == AssembleSParams(ParseColumn(Column(t, "s11"), syn), ParseColumn(Column(t, "s21"), syn))
      ensures ok ==> Valid() && sParams["S12"] == sParams["S21"] && sParams["S22"] == sParams["S11"]
      ensures !ok ==> frequencies == old(frequencies) && sParams == old(sParams)
    {
      if read.None? {
        return false;
      }
      var df := Normalized(read.value);
      HasRequiredColumnsIff(df.columns);
      if !HasRequiredColumns(df.columns) {
        return false;
      }
      var s11 := ParseColumn(Column(df, "s11"), syn);
      var s21 := ParseColumn(Column(df, "s21"), syn);
      var freqs := Column(df, "freq");
      if |s11| == 0 || freqs[0].TextCell? {
        return false;
      }
      AssembleShape(freqs, s11, s21);
      frequencies := Some(freqs);
      sParams := AssembleSParams(s11, s21);
      ok := true;
    }

    /** The guard of both savers: `not self.s_params or len(self.s_params['S11']) == 0`. */
    predicate NoData()
      reads this
    {
      sParams == map[] || ("S11" in sParams && |sParams["S11"]| == 0)
    }

    /** `get_parameter_dB`: None for an absent or empty parameter, else 20 log10 of the floored magnitudes. */
    function GetParameterDb(parameter: string, magnitude: Complex -> real, log10: real -> real): (db: Option<seq<real>>)
      reads this
      ensures db.Some? <==> parameter in sParams && |sParams[parameter]| > 0
      ensures db.Some? ==> |db.value| == |sParams[parameter]|
    {
      if parameter in sParams && |sParams[parameter]| > 0
      then Some(DbValues(sParams[parameter], magnitude, log10))
      else None
    }

    /** The 2x2 S-matrix per frequency, filled slice by slice. */
    method BuildSMatrix() returns (m: array3<Complex>)
      requires Valid() && !NoData()
      ensures fresh(m) && SMatrixLayout(m, sParams)
    {
      var n := |frequencies.value|;
      m := new Complex[n, 2, 2]((i, r, c) => Zero);
      FillSlice(m, 0, 0, sParams["S11"]);
      FillSlice(m, 1, 0, sParams["S21"]);
      FillSlice(m, 0, 1, sParams["S12"]);
      FillSlice(m, 1, 1, sParams["S22"]);
    }

    /**
     * `save_s2p_file`: refuses when there is no data; otherwise the name gets its
     * `.s2p` and the S-matrix goes to the writer, whose success is `writeOk`.
     */
    method SaveS2pFile(filename: string, writeOk: bool) returns (ok: bool, path: string, sMatrix: array3?<Complex>)
      requires Valid()
      ensures NoData() ==> !ok && path == filename && sMatrix == null
      ensures !NoData() ==>
        ok == writeOk && path == EnsureExtension(filename, ".s2p")
        && sMatrix != null && fresh(sMatrix) && SMatrixLayout(sMatrix, sParams)
    {
      if NoData() {
        return false, filename, null;
      }
      path := EnsureExtension(filename, ".s2p");
      sMatrix := BuildSMatrix();
      ok := writeOk;
    }

    /**
     * `save_csv_file`: the same guard, the `.csv` extension, and a table with the
     * frequency column and five columns per parameter.
     */
    method SaveCsvFile(filename: string, writeOk: bool) returns (ok: bool, path: string, header: seq<string>)
      requires Valid()
      ensures NoData() ==> !ok && path == filename && header == []
      ensures !NoData() ==> ok == writeOk && path == EnsureExtension(filename, ".csv") && header == CsvHeader()
    {
      if NoData() {
        return false, filename, [];
      }
      path := EnsureExtension(filename, ".csv");
      header := ["Frequency_Hz"];
      var k := 0;
      while k < 4
        invariant 0 <= k <= 4
        invariant header == CsvHeader()[..1 + 5 * k]
      {
        var param := SParamNames[k];
        header := header + ParamColumns(param);
        k := k + 1;
      }
      ok := writeOk;
    }
  }
}
