/** `W2CADMeasurement.write_rfa_datablock`: one W2CAD measurement transcoded
    into an RFA300 (OmniPro-Accept ASCII) measurement block. The block is a
    header of tagged lines whose values come from four translation tables,
    a date permutation, a field-size split, the SSD/SPD substitution for
    electrons and a comma decimal separator, followed by one `=` line per
    sample with the X and Y axes swapped, closed by `:EOM`. */
module RfaDatablock {
  import opened Wrappers
  import opened PyStr
  import opened W2CadMeasurement

  /** The two float conversions the writer performs, as the caller's
      formatting routines: `f"{float(s):.1f}"` and `f"{float(s)*10:.0f}"`,
      each None where `float(s)` raises. */
  datatype FloatFormat = FloatFormat(
    oneDecimal: string -> Option<string>,
    tenfoldNoDecimal: string -> Option<string>)

  /** How transcoding fails: a code outside its table (KeyError), a value of
      the wrong shape (ValueError), an electron record with neither SSD nor
      SPD (AttributeError), a record without samples (IndexError). */
  datatype TranscodeError =
    | UnsupportedCode(field: string, value: string)
    | Malformed(field: string, value: string)
    | MissingSpd
    | NoSamples

  // ---------------------------------------------------------------------
  // Translation tables
  // ---------------------------------------------------------------------

  /** `scan_type_mapping`: W2CAD data type to RFA300 scan type. */
  const ScanTypeTable: map<string, string> := map[
    "OPD" := "DPT",
    "OPP" := "PRO",
    "WDD" := "DPT",
    "WDD_SSD80" := "DPT",
    "WDD_SSD120" := "DPT",
    "WDP" := "PRO",
    "WLP" := "PRO",
    "DPR" := "DIA",
    "BLD" := "DPT",
    "MeasuredDepthDosesForApplicator" := "DPT",
    "MeasuredDepthDosesForOpenBeam" := "DPT",
    "MeasuredProfileForOpenBeam" := "PRO"
  ]

  /** `detector_type_mapping`: ionisation chamber and semiconductor only. */
  const DetectorTable: map<string, string> := map["CHA" := "ION", "DIO" := "SEM"]

  /** `beam_type_mapping`: photons and electrons pass through. */
  const BeamTable: map<string, string> := map["PHO" := "PHO", "ELE" := "ELE"]

  /** `measurement_type_mapping`: W2CAD data type to RFA300 measurement type. */
  const MeasurementTypeTable: map<string, string> := map[
    "OPD" := "1",
    "OPP" := "2",
    "WDD" := "5",
    "WDD_SSD80" := "5",
    "WDD_SSD120" := "5",
    "WDP" := "6",
    "WLP" := "6",
    "BLD" := "1",
    "DPR" := "2",
    "MeasuredProfileForOpenBeam" := "2",
    "MeasuredDepthDosesForApplicator" := "1",
    "MeasuredDepthDosesForOpenBeam" := "1"
  ]

  /** The scan-type and measurement-type tables cover the same twelve data
      types, so the measurement-type lookup never fails once the scan-type
      lookup has succeeded. */
  lemma TablesShareDomain()
    ensures ScanTypeTable.Keys == MeasurementTypeTable.Keys
  {
  }

  /** Every scan type is DPT, PRO or DIA; every measurement type is 1, 2, 5
      or 6; depth-dose scans are exactly the data types of measurement type
      1 (open) or 5 (wedged). */
  lemma TableRanges()
    ensures forall k <- ScanTypeTable :: ScanTypeTable[k] in {"DPT", "PRO", "DIA"}
    ensures forall k <- MeasurementTypeTable :: MeasurementTypeTable[k] in {"1", "2", "5", "6"}
    ensures forall k <- ScanTypeTable ::
      (ScanTypeTable[k] == "DPT") == (MeasurementTypeTable[k] in {"1", "5"})
  {
  }

  /** The detector table knows CHA and DIO only; the beam table is the
      identity on PHO and ELE. */
  lemma DetectorAndBeamTables()
    ensures DetectorTable.Keys == {"CHA", "DIO"}
    ensures DetectorTable["CHA"] == "ION" && DetectorTable["DIO"] == "SEM"
    ensures BeamTable.Keys == {"PHO", "ELE"}
    ensures forall k <- BeamTable :: BeamTable[k] == k
  {
  }

  /** `table[key]` */
  function Lookup(table: map<string, string>, key: string, field: string): (r: Result<string, TranscodeError>)
    ensures r.Success? <==> key in table
    ensures r.Success? ==> r.value == table[key]
    ensures r.Failure? ==> r.error == UnsupportedCode(field, key)
  {
    if key in table then Success(table[key]) else Failure(UnsupportedCode(field, key))
  }

  /** `f"{float(s):.1f}"` */
  function OneDecimal(fmt: FloatFormat, s: string, field: string): Result<string, TranscodeError> {
    match fmt.oneDecimal(s)
    case Some(v) => Success(v)
    case None => Failure(Malformed(field, s))
  }

  // ---------------------------------------------------------------------
  // Field derivations
  // ---------------------------------------------------------------------

  /** `day, month, year = date.split("-")` then `f"{month}-{day}-{year}"`:
      defined exactly when the date has three '-' pieces, and the result's
      pieces are the input's with the first two exchanged. */
  function ReformatDate(date: string): (r: Option<string>)
    ensures r.Some? <==> |SplitOn(date, '-')| == 3
    ensures r.Some? ==>
      var p := SplitOn(date, '-');
      SplitOn(r.value, '-') == [p[1], p[0], p[2]]
  {
    var p := SplitOn(date, '-');
    if |p| != 3 then None
    else
      var swapped := [p[1], p[0], p[2]];
      SplitOnJoin(swapped, '-');
      JoinThree(p[1], p[0], p[2], '-');
      Some(p[1] + "-" + p[0] + "-" + p[2])
  }

  /** Exchanging day and month twice restores the date. */
  lemma {:induction false} ReformatDateInvolutive(date: string)
    requires ReformatDate(date).Some?
    ensures ReformatDate(ReformatDate(date).value) == Some(date)
  {
    var p := SplitOn(date, '-');
    JoinSplitOn(date, '-');
    JoinThree(p[0], p[1], p[2], '-');
    assert [p[0], p[1], p[2]] == p;
  }

  lemma JoinThree(a: string, b: string, c: string, sep: char)
    ensures Join([a, b, c], sep) == a + [sep] + b + [sep] + c
  {
    assert [a, b, c][1..] == [b, c];
    assert [b, c][1..] == [c];
    assert Join([b, c], sep) == b + [sep] + c;
    assert Join([a, b, c], sep) == a + [sep] + (b + [sep] + c);
  }

  /** `x, y = field_size.split("*")` then `f"{x}\t{y}"`: defined exactly when
      the field size holds one '*', and then it is the field size with that
      '*' turned into a tab. */
  function ReformatFieldSize(fieldSize: string): (r: Option<string>)
    ensures r.Some? <==> |SplitOn(fieldSize, '*')| == 2
    ensures r.Some? ==> r.value == ReplaceChar(fieldSize, '*', '\t')
  {
    var p := SplitOn(fieldSize, '*');
    if |p| != 2 then None
    else
      JoinSplitOnIsReplace(fieldSize, '*', '\t');
      Some(p[0] + "\t" + p[1])
  }

  /** The RFA300 SSD and beam reference distance: the W2CAD SSD as it stands
      when there is one, otherwise (electrons) ten times the SPD with no
      decimals. */
  function ReferenceDistance(m: Measurement, fmt: FloatFormat): (r: Result<string, TranscodeError>)
    ensures m.ssd != "" ==> r == Success(m.ssd)
    ensures m.ssd == "" && m.spd == None ==> r == Failure(MissingSpd)
    ensures m.ssd == "" && m.spd.Some? ==>
      (r.Success? <==> fmt.tenfoldNoDecimal(m.spd.value).Some?)
      && (r.Success? ==> r.value == fmt.tenfoldNoDecimal(m.spd.value).value)
  {
    if m.ssd != "" then Success(m.ssd)
    else match m.spd
      case None => Failure(MissingSpd)
      case Some(spd) =>
        match fmt.tenfoldNoDecimal(spd)
        case Some(v) => Success(v)
        case None => Failure(Malformed("SPD", spd))
  }

  /** `%PRD`: the depth to one decimal with a decimal comma: each '.' of
      the formatted depth becomes ',' and every other character stays. */
  function ProfileDepth(m: Measurement, fmt: FloatFormat): (r: Result<string, TranscodeError>)
    ensures r.Success? <==> fmt.oneDecimal(m.depth).Some?
    ensures r.Success? ==>
      var d := fmt.oneDecimal(m.depth).value;
      '.' !in r.value && |r.value| == |d|
      && (forall i :: 0 <= i < |d| && d[i] != '.' ==> r.value[i] == d[i])
      && (forall i :: 0 <= i < |d| && d[i] == '.' ==> r.value[i] == ',')
  {
    var d :- OneDecimal(fmt, m.depth, "depth");
    Success(ReplaceChar(d, '.', ','))
  }

  // ---------------------------------------------------------------------
  // Samples
  // ---------------------------------------------------------------------

  /** A point in RFA300 axis order. */
  datatype Point = Point(x: string, y: string, z: string)

  /** One `=` line's values: X, Y, Z and dose, each to one decimal. */
  datatype SampleRow = SampleRow(x: string, y: string, z: string, dose: string)

  /** W2CAD stores the two lateral axes in the opposite order to RFA300:
      exchanging the first two values converts between them. */
  function SwapAxes(t: seq<string>): (r: seq<string>)
    requires |t| >= 2
    ensures |r| == |t| && r[0] == t[1] && r[1] == t[0] && r[2..] == t[2..]
  {
    [t[1], t[0]] + t[2..]
  }

  lemma SwapAxesInvolutive(t: seq<string>)
    requires |t| >= 2
    ensures SwapAxes(SwapAxes(t)) == t
  {
  }

  /** `y, x, z, dose = entry.split(" ")` followed by the three coordinate
      conversions, in the order x, y, z; the dose is never converted. */
  function Endpoint(entry: string, fmt: FloatFormat): (r: Result<Point, TranscodeError>)
    ensures r.Success? <==>
      var t := SplitOn(entry, ' ');
      |t| == 4 && var s := SwapAxes(t);
      fmt.oneDecimal(s[0]).Some? && fmt.oneDecimal(s[1]).Some? && fmt.oneDecimal(s[2]).Some?
    ensures r.Success? ==>
      var s := SwapAxes(SplitOn(entry, ' '));
      r.value == Point(fmt.oneDecimal(s[0]).value, fmt.oneDecimal(s[1]).value, fmt.oneDecimal(s[2]).value)
  {
    var t := SplitOn(entry, ' ');
    if |t| != 4 then Failure(Malformed("data_line", entry))
    else
      var x :- OneDecimal(fmt, t[1], "x");
      var y :- OneDecimal(fmt, t[0], "y");
      var z :- OneDecimal(fmt, t[2], "z");
      Success(Point(x, y, z))
  }

  /** One iteration of the sample loop: the entry's four space-separated
      values with the first two exchanged, each to one decimal. */
  function DataRow(entry: string, fmt: FloatFormat): (r: Result<SampleRow, TranscodeError>)
    ensures r.Success? <==>
      var t := SplitOn(entry, ' ');
      |t| == 4 && forall v <- t :: fmt.oneDecimal(v).Some?
    ensures r.Success? ==>
      var s := SwapAxes(SplitOn(entry, ' '));
      r.value == SampleRow(fmt.oneDecimal(s[0]).value, fmt.oneDecimal(s[1]).value,
                           fmt.oneDecimal(s[2]).value, fmt.oneDecimal(s[3]).value)
  {
    var t := SplitOn(entry, ' ');
    if |t| != 4 then Failure(Malformed("data_line", entry))
    else
      var x :- OneDecimal(fmt, t[1], "x");
      var y :- OneDecimal(fmt, t[0], "y");
      var z :- OneDecimal(fmt, t[2], "z");
      var dose :- OneDecimal(fmt, t[3], "dose");
      Success(SampleRow(x, y, z, dose))
  }

  /** A sample that makes a row makes an endpoint, and the endpoint is that
      row's coordinates. */
  lemma RowGivesEndpoint(entry: string, fmt: FloatFormat)
    requires DataRow(entry, fmt).Success?
    ensures var row := DataRow(entry, fmt).value;
      Endpoint(entry, fmt) == Success(Point(row.x, row.y, row.z))
  {
    var t := SplitOn(entry, ' ');
    assert t[0] in t && t[1] in t && t[2] in t;
  }

  /** The rows of all entries, in order; the first entry that fails decides
      the error. */
  function DataRows(entries: seq<string>, fmt: FloatFormat): Result<seq<SampleRow>, TranscodeError> {
    MapAll(entries, entry => DataRow(entry, fmt))
  }

  // ---------------------------------------------------------------------
  // The block
  // ---------------------------------------------------------------------

  /** The values the header block substitutes. */
  datatype RfaHeader = RfaHeader(
    scanType: string,
    detector: string,
    date: string,
    fieldSize: string,
    beamType: string,
    energy: string,
    ssd: string,
    brd: string,
    wedge: string,
    measurementType: string,
    profileDepth: string,
    points: string,
    start: Point,
    end: Point)

  /** Everything `write_rfa_datablock` computes before its sample loop, in
      the order it computes it; the first failing step decides the error. */
  function DeriveHeader(m: Measurement, fmt: FloatFormat): Result<RfaHeader, TranscodeError>
  {
    TablesShareDomain();
    var scanType :- Lookup(ScanTypeTable, m.dataType, "data_type");
    var detector :- Lookup(DetectorTable, m.detectorType, "detector_type");
    var date :- match ReformatDate(m.date)
                case Some(d) => Success(d)
                case None => Failure(Malformed("date", m.date));
    var fieldSize :- match ReformatFieldSize(m.fieldSize)
                     case Some(f) => Success(f)
                     case None => Failure(Malformed("field_size", m.fieldSize));
    var beamType :- Lookup(BeamTable, m.beamType, "beam_type");
    var energy :- OneDecimal(fmt, m.energy, "energy");
    var ssd :- ReferenceDistance(m, fmt);
    var brd := ReferenceDistance(m, fmt).value;
    var measurementType := MeasurementTypeTable[m.dataType];
    var profileDepth :- ProfileDepth(m, fmt);
    var start :- if |m.dataLine| == 0 then Failure(NoSamples) else Endpoint(m.dataLine[0], fmt);
    var end :- Endpoint(m.dataLine[|m.dataLine| - 1], fmt);
    Success(RfaHeader(scanType, detector, date, fieldSize, beamType, energy, ssd, brd,
                      m.wedgeName, measurementType, profileDepth, m.points, start, end))
  }

  /** The header values: an unknown data type or detector fails naming the
      field; otherwise each value is its table's entry, the date with day and
      month exchanged, the field size with a tab for its '*', one SSD used
      for both %SSD and %BRD, a profile depth with a decimal comma, and start
      and end points taken from the first and last samples. */
  lemma HeaderDerivation(m: Measurement, fmt: FloatFormat)
    ensures m.dataType !in ScanTypeTable ==> DeriveHeader(m, fmt) == Failure(UnsupportedCode("data_type", m.dataType))
    ensures m.dataType in ScanTypeTable && m.detectorType !in DetectorTable ==>
      DeriveHeader(m, fmt) == Failure(UnsupportedCode("detector_type", m.detectorType))
    ensures DeriveHeader(m, fmt).Success? ==>
      var h := DeriveHeader(m, fmt).value;
      && m.dataType in ScanTypeTable && h.scanType == ScanTypeTable[m.dataType]
      && h.measurementType == MeasurementTypeTable[m.dataType]
      && m.detectorType in DetectorTable && h.detector == DetectorTable[m.detectorType]
      && m.beamType in BeamTable && h.beamType == m.beamType
      && ReformatDate(m.date) == Some(h.date)
      && h.fieldSize == ReplaceChar(m.fieldSize, '*', '\t')
      && ReferenceDistance(m, fmt) == Success(h.ssd) && h.brd == h.ssd
      && ProfileDepth(m, fmt) == Success(h.profileDepth) && '.' !in h.profileDepth
      && fmt.oneDecimal(m.energy) == Some(h.energy)
      && h.wedge == m.wedgeName && h.points == m.points
      && |m.dataLine| > 0
      && Endpoint(m.dataLine[0], fmt) == Success(h.start)
      && Endpoint(m.dataLine[|m.dataLine| - 1], fmt) == Success(h.end)
  {
  }

  /** The lines of the dedented header template, values substituted. */
  function HeaderLines(number: nat, h: RfaHeader): seq<string> {
    [ "#",
      "# RFA300 ASCII Measurement Dump ( BDS format )",
      "#",
      "# Measurement number \t" + NatToString(number),
      "#",
      "%VNR 1.0",
      "%MOD \tRAT",
      "%TYP \tSCN",
      "%SCN \t" + h.scanType,
      "%FLD \t" + h.detector,
      "%DAT \t" + h.date,
      "%TIM \t12:00:00",
      "%FSZ \t" + h.fieldSize,
      "%BMT \t" + h.beamType + "\t   " + h.energy,
      "%SSD \t" + h.ssd,
      "%BUP \t0",
      "%BRD \t" + h.brd,
      "%FSH \t1",
      "%ASC \t0",
      "%WEG \t" + h.wedge,
      "%GPO \t0",
      "%CPO \t0",
      "%MEA \t" + h.measurementType,
      "%PRD \t" + h.profileDepth,
      "%PTS \t" + h.points,
      "%STS \t    " + h.start.x + "\t  " + h.start.y + "\t   " + h.start.z
        + " # Start Scan values in mm ( X , Y , Z )",
      "%EDS \t    " + h.end.x + "\t   " + h.end.y + "\t   " + h.end.z
        + " # End Scan values in mm ( X , Y , Z )" ]
  }

  /** `scan_header_block` */
  function ScanHeaderBlock(number: nat, h: RfaHeader): string {
    Join(HeaderLines(number, h), '\n')
  }

  /** `scan_data_block` before its first sample line. */
  const DataBlockHead: string := "#\n#\t  X      Y      Z     Dose\n#\n"

  /** The line that closes a measurement block. */
  const EndOfMeasurement: string := ":EOM # End of Measurement\n"

  /** `f"=\t{x}\t{y}\t{z}\t{dose}\n"` */
  function RowText(row: SampleRow): (s: string)
    ensures |s| > 0 && s[0] == '=' && s[|s| - 1] == '\n'
  {
    "=\t" + row.x + "\t" + row.y + "\t" + row.z + "\t" + row.dose + "\n"
  }

  /** The `=` lines of `rows`, one after another. */
  function RowsText(rows: seq<SampleRow>): string {
    if rows == [] then "" else RowsText(rows[..|rows| - 1]) + RowText(rows[|rows| - 1])
  }

  /** `scan_data_block` once the sample loop has run: the column legend,
      the `=` lines, the `:EOM` line. */
  function ScanDataBlock(entries: seq<string>, fmt: FloatFormat): Result<string, TranscodeError> {
    var rows :- DataRows(entries, fmt);
    Success(DataBlockHead + RowsText(rows) + EndOfMeasurement)
  }

  /** The whole block `write_rfa_datablock` returns. */
  function RfaDatablock(m: Measurement, fmt: FloatFormat): Result<string, TranscodeError> {
    var h :- DeriveHeader(m, fmt);
    var data :- ScanDataBlock(m.dataLine, fmt);
    Success(ScanHeaderBlock(m.number, h) + "\n" + data)
  }

  /** A successful block is the header block, then one `=` line per
      sample in sample order, each the sample with X and Y swapped, then
      `:EOM`. */
  lemma DatablockShape(m: Measurement, fmt: FloatFormat)
    requires RfaDatablock(m, fmt).Success?
    ensures DeriveHeader(m, fmt).Success? && DataRows(m.dataLine, fmt).Success?
    ensures
      var rows := DataRows(m.dataLine, fmt).value;
      && |rows| == |m.dataLine|
      && (forall i :: 0 <= i < |rows| ==> DataRow(m.dataLine[i], fmt) == Success(rows[i]))
      && RfaDatablock(m, fmt).value
         == ScanHeaderBlock(m.number, DeriveHeader(m, fmt).value) + "\n"
            + (DataBlockHead + RowsText(rows) + EndOfMeasurement)
  {
    var rows := DataRows(m.dataLine, fmt).value;
    var data := DataBlockHead + RowsText(rows) + EndOfMeasurement;
    assert ScanDataBlock(m.dataLine, fmt) == Success(data);
    MapAllOneToOne(m.dataLine, entry => DataRow(entry, fmt));
  }

  /** The `%STS` and `%EDS` points of a successful block are the coordinates
      of its first and last `=` lines. */
  lemma EndpointsMatchRows(m: Measurement, fmt: FloatFormat)
    requires RfaDatablock(m, fmt).Success?
    ensures DeriveHeader(m, fmt).Success? && DataRows(m.dataLine, fmt).Success?
    ensures
      var h := DeriveHeader(m, fmt).value;
      var rows := DataRows(m.dataLine, fmt).value;
      && |rows| == |m.dataLine| > 0
      && h.start == Point(rows[0].x, rows[0].y, rows[0].z)
      && h.end == Point(rows[|rows| - 1].x, rows[|rows| - 1].y, rows[|rows| - 1].z)
  {
    var rows := DataRows(m.dataLine, fmt).value;
    HeaderDerivation(m, fmt);
    MapAllOneToOne(m.dataLine, entry => DataRow(entry, fmt));
    RowGivesEndpoint(m.dataLine[0], fmt);
    RowGivesEndpoint(m.dataLine[|rows| - 1], fmt);
  }

  /** A diamond detector (or any code outside the detector table) on a
      record whose data type is known makes the block fail, naming the
      detector type; no block text is produced. */
  lemma UnsupportedDetectorFails(m: Measurement, fmt: FloatFormat)
    requires m.dataType in ScanTypeTable && m.detectorType !in DetectorTable
    ensures RfaDatablock(m, fmt) == Failure(UnsupportedCode("detector_type", m.detectorType))
  {
    HeaderDerivation(m, fmt);
  }

  /** Appending one more `=` line to text that ends in the lines of `rows`
      gives text that ends in the lines of `rows + [row]`. */
  lemma AppendRowText(head: string, rows: seq<SampleRow>, row: SampleRow)
    ensures head + RowsText(rows) + RowText(row) == head + RowsText(rows + [row])
  {
    assert (rows + [row])[..|rows|] == rows;
  }

  /** The sample loop of `write_rfa_datablock`: one `=` line appended per
      entry of `data_line`, then `:EOM`. */
  method WriteScanDataBlock(entries: seq<string>, fmt: FloatFormat) returns (r: Result<string, TranscodeError>)
    ensures r == ScanDataBlock(entries, fmt)
  {
    var scanDataBlock := DataBlockHead;
    ghost var rows: seq<SampleRow> := [];
    for i := 0 to |entries|
      invariant DataRows(entries[..i], fmt) == Success(rows)
      invariant scanDataBlock == DataBlockHead + RowsText(rows)
    {
      var row := DataRow(entries[i], fmt);
      MapAllStep(entries, i, rows, entry => DataRow(entry, fmt));
      if row.Failure? {
        MapAllFailFrom(entries, i + 1, entry => DataRow(entry, fmt));
        return Failure(row.error);
      }
      AppendRowText(DataBlockHead, rows, row.value);
      scanDataBlock := scanDataBlock + RowText(row.value);
      rows := rows + [row.value];
    }
    assert entries[..|entries|] == entries;
    scanDataBlock := scanDataBlock + EndOfMeasurement;
    r := Success(scanDataBlock);
  }

  /** `write_rfa_datablock`: the header values, the header block, then the
      sample block. */
  method WriteRfaDatablock(m: Measurement, fmt: FloatFormat) returns (r: Result<string, TranscodeError>)
    ensures r == RfaDatablock(m, fmt)
  {
    var header := DeriveHeader(m, fmt);
    if header.Failure? {
      return Failure(header.error);
    }
    var scanHeaderBlock := ScanHeaderBlock(m.number, header.value);
    var scanDataBlock := WriteScanDataBlock(m.dataLine, fmt);
    if scanDataBlock.Failure? {
      return Failure(scanDataBlock.error);
    }
    r := Success(scanHeaderBlock + "\n" + scanDataBlock.value);
  }
}
