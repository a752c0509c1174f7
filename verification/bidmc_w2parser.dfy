/** The earlier draft of the reader (`bidmc_py/W2Parser.py`): the same
    line loop as the converter's `read_w2`, over a measurement record with
    eleven header fields and no energy, wedge or SPD, and a `write_to_rfa`
    that does nothing.

    It differs from the converter's reader in what needs a bound
    `measurement`: the key table belongs to the parser, so the tagged-line
    test itself never raises, and only a tagged line of two words, a sample
    line or a `$ENOM` line raises before the first `$STOM`; any other line,
    including the end of the file, is harmless there. A tagged line's words
    are counted before the missing measurement is noticed, and the missing
    measurement before the key is looked up.

    As in the converter, the list holds the measurement objects themselves;
    the model keeps every object created and the numbers of those appended
    (see `W2ParserTb`). */
module BidmcW2Parser {
  import opened Wrappers
  import opened PyStr
  import opened W2Lines

  /** The header attributes of the draft's record. */
  datatype Field =
    | Version | Date | DetectorType | BeamType | FieldSize | DataType
    | Axis | Points | Step | Ssd | Depth

  /** The draft's `W2CADMeasurement`: a number, eleven header strings and
      the sample texts. */
  datatype Measurement = Measurement(
    number: nat,
    version: string,
    date: string,
    detectorType: string,
    beamType: string,
    fieldSize: string,
    dataType: string,
    axis: string,
    points: string,
    step: string,
    ssd: string,
    depth: string,
    dataLine: seq<string>)

  /** `W2CADMeasurement(measurement_count)`: every header field "" and no
      samples. */
  function NewMeasurement(number: nat): (m: Measurement)
    ensures m.number == number && m.dataLine == []
    ensures forall f :: GetField(m, f) == ""
  {
    Measurement(number, "", "", "", "", "", "", "", "", "", "", "", [])
  }

  /** The parser's `w2cad_measurement_dictionary`. */
  const Dictionary: map<string, Field> := map[
    "%VERSION" := Version,
    "%DATE" := Date,
    "%DETY" := DetectorType,
    "%BMTY" := BeamType,
    "%FLSZ" := FieldSize,
    "%TYPE" := DataType,
    "%AXIS" := Axis,
    "%PNTS" := Points,
    "%STEP" := Step,
    "%SSD" := Ssd,
    "%DPTH" := Depth
  ]

  /** `getattr(m, name)` */
  function GetField(m: Measurement, f: Field): string {
    match f
    case Version => m.version
    case Date => m.date
    case DetectorType => m.detectorType
    case BeamType => m.beamType
    case FieldSize => m.fieldSize
    case DataType => m.dataType
    case Axis => m.axis
    case Points => m.points
    case Step => m.step
    case Ssd => m.ssd
    case Depth => m.depth
  }

  /** `setattr(m, name, value)`: the named field becomes `value`; every other
      field, the number and the samples are as they were. */
  function SetField(m: Measurement, f: Field, value: string): (m': Measurement)
    ensures GetField(m', f) == value
    ensures forall g :: g != f ==> GetField(m', g) == GetField(m, g)
    ensures m'.number == m.number && m'.dataLine == m.dataLine
  {
    match f
    case Version => m.(version := value)
    case Date => m.(date := value)
    case DetectorType => m.(detectorType := value)
    case BeamType => m.(beamType := value)
    case FieldSize => m.(fieldSize := value)
    case DataType => m.(dataType := value)
    case Axis => m.(axis := value)
    case Points => m.(points := value)
    case Step => m.(step := value)
    case Ssd => m.(ssd := value)
    case Depth => m.(depth := value)
  }

  /** Every key is a '%' tag of at least three characters; none starts
      "%W" or "%SP". */
  lemma DictionaryKeysAreTags()
    ensures forall k <- Dictionary :: |k| >= 3 && k[0] == '%' && k[1] != 'W' && (k[1] == 'S' ==> k[2] != 'P')
  {
  }

  /** Why the draft's `read_w2` raises. */
  datatype ReadFailure =
    | NotAscFile               // the path does not end in ".ASC" (ValueError)
    | BadScanCount             // the `$NUMS` count is not an integer (ValueError)
    | UnboundMeasurement       // a tagged, sample or `$ENOM` line before the first `$STOM` (UnboundLocalError)
    | TaggedLineShape          // a tagged line that is not exactly two words (ValueError)
    | UnknownKey(key: string)  // a tagged line whose first word is not a key (KeyError)

  datatype Status = Reading | Finished | Failed(failure: ReadFailure)

  /** The reader after some lines: `self.num_scans`, every object created so
      far (object k carries the number k + 1), the numbers of the objects
      appended, in order, and whether the loop goes on. */
  datatype Reader = Reader(
    numScans: Option<int>,
    objects: seq<Measurement>,
    sealed: seq<nat>,
    status: Status)

  predicate Numbered(objects: seq<Measurement>, sealed: seq<nat>) {
    && (forall k :: 0 <= k < |objects| ==> objects[k].number == k + 1)
    && (forall k :: 0 <= k < |sealed| ==> 1 <= sealed[k] <= |objects|)
  }

  predicate Valid(r: Reader) {
    Numbered(r.objects, r.sealed)
  }

  /** The loop's test for a tagged line. */
  predicate HasKeyPrefix(line: string) {
    exists key <- Dictionary :: key <= line
  }

  /** One pass of the draft's loop on the line `line`. */
  function Advance(r: Reader, line: string): (r': Reader)
    requires r.status == Reading && Valid(r)
    ensures Valid(r')
    ensures r'.status == Finished ==> line == ""
  {
    var count := |r.objects|;
    if IsNums(line) then
      var n := NumsValue(line);
      if n.None? then r.(status := Failed(BadScanCount)) else r.(numScans := n)
    else if IsStom(line) then
      r.(objects := r.objects + [NewMeasurement(count + 1)])
    else if HasKeyPrefix(line) then
      var tokens := SplitWs(line);
      if |tokens| != 2 then r.(status := Failed(TaggedLineShape))
      else if count == 0 then r.(status := Failed(UnboundMeasurement))
      else if tokens[0] !in Dictionary then r.(status := Failed(UnknownKey(tokens[0])))
      else
        var current := r.objects[count - 1];
        r.(objects := r.objects[count - 1 := SetField(current, Dictionary[tokens[0]], tokens[1])])
    else if IsSample(line) then
      if count == 0 then r.(status := Failed(UnboundMeasurement))
      else
        var current := r.objects[count - 1];
        r.(objects := r.objects[count - 1 := current.(dataLine := current.dataLine + [SampleText(line)])])
    else if IsEnom(line) then
      if count == 0 then r.(status := Failed(UnboundMeasurement))
      else r.(sealed := r.sealed + [count])
    else if line == "" then
      r.(status := Finished)
    else
      r
  }

  /** The reader after the first `n` passes over the file `lines`. */
  function Run(numScans0: Option<int>, lines: seq<string>, n: nat): (r: Reader)
    ensures Valid(r)
  {
    if n == 0 then Reader(numScans0, [], [], Reading)
    else
      var prev := Run(numScans0, lines, n - 1);
      if prev.status != Reading then prev else Advance(prev, ReadLine(lines, n - 1))
  }

  /** The appended objects in their final state. */
  function Materialize(objects: seq<Measurement>, sealed: seq<nat>): (ms: seq<Measurement>)
    requires Numbered(objects, sealed)
    ensures |ms| == |sealed|
    ensures forall k :: 0 <= k < |ms| ==> ms[k].number == sealed[k]
  {
    seq(|sealed|, k requires 0 <= k < |sealed| => objects[sealed[k] - 1])
  }

  datatype ReadOutcome = ReadOutcome(
    numScans: Option<int>,
    appended: seq<Measurement>,
    failure: Option<ReadFailure>)

  /** The draft's `read_w2` on the file `path` whose readline results are
      `lines`. */
  function ReadW2Spec(path: string, lines: seq<string>, numScans0: Option<int>): ReadOutcome {
    if !EndsWith(path, ".ASC") then ReadOutcome(numScans0, [], Some(NotAscFile))
    else
      var r := Run(numScans0, lines, |lines| + 1);
      ReadOutcome(r.numScans, Materialize(r.objects, r.sealed), if r.status.Failed? then Some(r.status.failure) else None)
  }

  /** One pass of the draft's loop body. */
  method ReadPass(numScans: Option<int>, objects: seq<Measurement>, sealed: seq<nat>, line: string)
    returns (numScans': Option<int>, objects': seq<Measurement>, sealed': seq<nat>, status: Status)
    requires Numbered(objects, sealed)
    ensures Reader(numScans', objects', sealed', status) == Advance(Reader(numScans, objects, sealed, Reading), line)
  {
    numScans', objects', sealed', status := numScans, objects, sealed, Reading;
    var measurementCount := |objects|;
    if IsNums(line) {
      var n := NumsValue(line);
      if n.None? {
        status := Failed(BadScanCount);
      } else {
        numScans' := n;
      }
      return;
    }
    if IsStom(line) {
      measurementCount := measurementCount + 1;
      objects' := objects + [NewMeasurement(measurementCount)];
      return;
    }
    if HasKeyPrefix(line) {
      var tokens := SplitWs(line);
      if |tokens| != 2 {
        status := Failed(TaggedLineShape);
        return;
      }
      var key, value := tokens[0], tokens[1];
      if measurementCount == 0 {
        status := Failed(UnboundMeasurement);
        return;
      }
      if key !in Dictionary {
        status := Failed(UnknownKey(key));
        return;
      }
      objects' := objects[measurementCount - 1 := SetField(objects[measurementCount - 1], Dictionary[key], value)];
      return;
    }
    if IsSample(line) {
      if measurementCount == 0 {
        status := Failed(UnboundMeasurement);
        return;
      }
      var current := objects[measurementCount - 1];
      objects' := objects[measurementCount - 1 := current.(dataLine := current.dataLine + [SampleText(line)])];
      return;
    }
    if IsEnom(line) {
      if measurementCount == 0 {
        status := Failed(UnboundMeasurement);
        return;
      }
      sealed' := sealed + [measurementCount];
      return;
    }
    if line == "" {
      status := Finished;
    }
  }

  /** The line past the end of the file ends the draft's loop normally,
      whether or not a measurement was ever opened. */
  lemma EndOfFileFinishes(r: Reader)
    requires r.status == Reading && Valid(r)
    ensures Advance(r, "") == r.(status := Finished)
  {
    MarkersDisjoint("");
    assert !HasKeyPrefix("") by {
      DictionaryKeysAreTags();
    }
  }

  /** One pass of `Run`: a stopped loop stays as it is, a running one
      advances over the next line. */
  lemma RunStep(numScans0: Option<int>, lines: seq<string>, n: nat, line: string)
    requires n > 0 && line == ReadLine(lines, n - 1)
    ensures var prev := Run(numScans0, lines, n - 1);
      && (prev.status != Reading ==> Run(numScans0, lines, n) == prev)
      && (prev.status == Reading ==> Run(numScans0, lines, n) == Advance(prev, line))
  {
  }

  class W2Parser {
    const filePath: string
    var numScans: Option<int>
    var measurementList: seq<Measurement>

    /** `W2Parser(file_path)`: no scan count, no measurements. */
    constructor (filePath: string)
      ensures this.filePath == filePath && numScans == None && measurementList == []
    {
      this.filePath := filePath;
      numScans := None;
      measurementList := [];
    }

    /** The draft's `read_w2`: measurements it appends are added to whatever
        the list already held; `failure` is the exception it raises. */
    method ReadW2(lines: seq<string>) returns (failure: Option<ReadFailure>)
      modifies this
      ensures var o := ReadW2Spec(filePath, lines, old(numScans));
        && numScans == o.numScans
        && measurementList == old(measurementList) + o.appended
        && failure == o.failure
    {
      if !EndsWith(filePath, ".ASC") {
        return Some(NotAscFile);
      }
      ghost var numScans0 := numScans;
      var objects: seq<Measurement> := [];
      var sealed: seq<nat> := [];
      var status := Reading;
      var i := 0;
      while status == Reading
        invariant i <= |lines| + 1
        invariant Run(numScans0, lines, i) == Reader(numScans, objects, sealed, status)
        invariant measurementList == old(measurementList)
        invariant status == Reading ==> i <= |lines|
        decreases |lines| + 1 - i
      {
        var line := ReadLine(lines, i);
        RunStep(numScans0, lines, i + 1, line);
        numScans, objects, sealed, status := ReadPass(numScans, objects, sealed, line);
        i := i + 1;
        if i == |lines| + 1 {
          EndOfFileFinishes(Run(numScans0, lines, i - 1));
        }
      }
      RunStable(numScans0, lines, i, |lines| + 1);
      failure := if status.Failed? then Some(status.failure) else None;
      measurementList := measurementList + Materialize(objects, sealed);
    }

    /** `write_to_rfa` does nothing. */
    method WriteToRfa()
      ensures numScans == old(numScans) && measurementList == old(measurementList)
    {
    }
  }

  // ---------------------------------------------------------------------
  // Properties of the draft's reader
  // ---------------------------------------------------------------------

  /** Once the loop has stopped, further lines change nothing. */
  lemma {:induction false} RunStable(numScans0: Option<int>, lines: seq<string>, n: nat, m: nat)
    requires n <= m
    ensures Run(numScans0, lines, n).status != Reading ==> Run(numScans0, lines, m) == Run(numScans0, lines, n)
    decreases m - n
  {
    if n < m {
      RunStable(numScans0, lines, n, m - 1);
    }
  }

  /** A tagged line starts with '%', so it is none of the markers. */
  lemma TaggedLineIsPlain(line: string)
    ensures HasKeyPrefix(line) ==> !IsNums(line) && !IsStom(line) && !IsSample(line) && !IsEnom(line)
  {
    if HasKeyPrefix(line) {
      var key :| key in Dictionary && key <= line;
      DictionaryKeysAreTags();
      PrefixHead(key, line);
      MarkersDisjoint(line);
    }
  }

  /** The reader agrees with the line summaries of `ls`. */
  ghost predicate Summarizes(r: Reader, ls: seq<string>, numScans0: Option<int>) {
    && |r.objects| == StomCount(ls)
    && r.sealed == EnomIds(ls)
    && r.numScans == LastNums(ls, numScans0)
    && (forall k :: 0 <= k < |r.objects| ==> r.objects[k].dataLine == SamplesOf(ls, k + 1))
  }

  /** A `$NUMS` pass sets the scan count to the line's value and keeps the
      reader in step with the summaries. */
  lemma SummarizesNums(r: Reader, r': Reader, ls: seq<string>, line: string, numScans0: Option<int>)
    requires r.status == Reading && Valid(r) && Summarizes(r, ls, numScans0)
    requires IsNums(line) && r' == Advance(r, line) && r'.status == Reading
    ensures r' == r.(numScans := NumsValue(line)) && r'.numScans.Some?
    ensures Summarizes(r', ls + [line], numScans0)
  {
    InitOfSnoc(ls, line);
    MarkersDisjoint(line);
  }

  /** A `$STOM` pass creates the next measurement and keeps the reader in
      step with the summaries. */
  lemma SummarizesStom(r: Reader, r': Reader, ls: seq<string>, line: string, numScans0: Option<int>)
    requires r.status == Reading && Valid(r) && Summarizes(r, ls, numScans0)
    requires IsStom(line) && r' == Advance(r, line)
    ensures r' == r.(objects := r.objects + [NewMeasurement(|r.objects| + 1)])
    ensures Summarizes(r', ls + [line], numScans0)
  {
    MarkersDisjoint(line);
    InitOfSnoc(ls, line);
    SamplesOfLater(ls, |r.objects| + 1);
  }

  lemma SummarizesPlain(r: Reader, r': Reader, ls: seq<string>, line: string, numScans0: Option<int>)
    requires Summarizes(r, ls, numScans0)
    requires !IsNums(line) && !IsStom(line) && !IsSample(line) && !IsEnom(line)
    requires r'.numScans == r.numScans && r'.sealed == r.sealed && |r'.objects| == |r.objects|
    requires forall k :: 0 <= k < |r.objects| ==> r'.objects[k].dataLine == r.objects[k].dataLine
    ensures Summarizes(r', ls + [line], numScans0)
  {
    InitOfSnoc(ls, line);
  }

  /** A tagged line that does not raise keeps the reader in step with the
      summaries. */
  lemma SummarizesTagged(r: Reader, r': Reader, ls: seq<string>, line: string, numScans0: Option<int>)
    requires r.status == Reading && Valid(r) && Summarizes(r, ls, numScans0)
    requires HasKeyPrefix(line) && r' == Advance(r, line) && r'.status == Reading
    ensures Summarizes(r', ls + [line], numScans0)
  {
    TaggedLineIsPlain(line);
    MarkersDisjoint(line);
    SummarizesPlain(r, r', ls, line, numScans0);
  }

  /** A sample pass appends the sample to the open measurement and keeps
      the reader in step with the summaries. */
  lemma SummarizesSample(r: Reader, r': Reader, ls: seq<string>, line: string, numScans0: Option<int>)
    requires r.status == Reading && Valid(r) && Summarizes(r, ls, numScans0)
    requires IsSample(line) && r' == Advance(r, line) && r'.status == Reading
    ensures var count := |r.objects|;
      && count > 0
      && r' == r.(objects := r.objects[count - 1 := r.objects[count - 1].(dataLine := r.objects[count - 1].dataLine + [SampleText(line)])])
    ensures Summarizes(r', ls + [line], numScans0)
  {
    TaggedLineIsPlain(line);
    MarkersDisjoint(line);
    InitOfSnoc(ls, line);
  }

  /** An `$ENOM` pass appends the open measurement and keeps the reader in
      step with the summaries. */
  lemma SummarizesEnom(r: Reader, r': Reader, ls: seq<string>, line: string, numScans0: Option<int>)
    requires r.status == Reading && Valid(r) && Summarizes(r, ls, numScans0)
    requires IsEnom(line) && r' == Advance(r, line) && r'.status == Reading
    ensures |r.objects| > 0 && r' == r.(sealed := r.sealed + [|r.objects|])
    ensures Summarizes(r', ls + [line], numScans0)
  {
    TaggedLineIsPlain(line);
    MarkersDisjoint(line);
    InitOfSnoc(ls, line);
  }

  /** A line that does not stop the loop keeps the reader in step with the
      summaries. */
  lemma AdvanceSummarizes(r: Reader, r': Reader, ls: seq<string>, ls': seq<string>, line: string,
                          numScans0: Option<int>)
    requires r.status == Reading && Valid(r) && Summarizes(r, ls, numScans0)
    requires r' == Advance(r, line) && r'.status == Reading
    requires ls' == ls + [line]
    ensures Summarizes(r', ls', numScans0)
  {
    if IsNums(line) {
      SummarizesNums(r, r', ls, line, numScans0);
    } else if IsStom(line) {
      SummarizesStom(r, r', ls, line, numScans0);
    } else if HasKeyPrefix(line) {
      SummarizesTagged(r, r', ls, line, numScans0);
    } else if IsSample(line) {
      SummarizesSample(r, r', ls, line, numScans0);
    } else if IsEnom(line) {
      SummarizesEnom(r, r', ls, line, numScans0);
    } else {
      MarkersDisjoint(line);
      SummarizesPlain(r, r', ls, line, numScans0);
    }
  }

  /** The reader after `n` lines that did not stop it agrees with the
      summaries of those lines. */
  lemma {:induction false} RunSummary(numScans0: Option<int>, lines: seq<string>, n: nat)
    requires n <= |lines|
    requires Run(numScans0, lines, n).status == Reading
    ensures Summarizes(Run(numScans0, lines, n), lines[..n], numScans0)
  {
    if n > 0 {
      PrefixSnoc(lines, n);
      RunStep(numScans0, lines, n, lines[n - 1]);
      var prev := Run(numScans0, lines, n - 1);
      RunSummary(numScans0, lines, n - 1);
      AdvanceSummarizes(prev, Run(numScans0, lines, n), lines[..n - 1], lines[..n], lines[n - 1], numScans0);
    } else {
      assert lines[..n] == [];
    }
  }

  lemma {:induction false} NotFinishedBeforeEof(numScans0: Option<int>, lines: seq<string>, n: nat)
    requires n <= FirstEof(lines)
    ensures Run(numScans0, lines, n).status != Finished
  {
    if n > 0 {
      NotFinishedBeforeEof(numScans0, lines, n - 1);
    }
  }

  /** A read that raises nothing stops at the line past the last non-empty
      one, and that line changes nothing else. */
  lemma ReadW2ReachesEof(path: string, lines: seq<string>, numScans0: Option<int>)
    requires ReadW2Spec(path, lines, numScans0).failure == None
    ensures EndsWith(path, ".ASC")
    ensures var r := Run(numScans0, lines, FirstEof(lines));
      r.status == Reading && Run(numScans0, lines, |lines| + 1) == r.(status := Finished)
  {
    RunReachesEof(numScans0, lines);
  }

  /** A loop that does not raise is still running when it reads the first
      empty line, and finishes on it. */
  lemma RunReachesEof(numScans0: Option<int>, lines: seq<string>)
    requires !Run(numScans0, lines, |lines| + 1).status.Failed?
    ensures var r := Run(numScans0, lines, FirstEof(lines));
      r.status == Reading && Run(numScans0, lines, |lines| + 1) == r.(status := Finished)
  {
    var eof := FirstEof(lines);
    var r := Run(numScans0, lines, eof);
    NotFinishedBeforeEof(numScans0, lines, eof);
    RunStable(numScans0, lines, eof, |lines| + 1);
    assert r.status == Reading;
    RunStep(numScans0, lines, eof + 1, "");
    EndOfFileFinishes(r);
    RunStable(numScans0, lines, eof + 1, |lines| + 1);
  }

  /** A read that raises nothing appended, for each `$ENOM` line before the
      first empty line, in order, the measurement opened by the `$STOM`
      before it, with exactly the samples read while it was open; the scan
      count is that of the last `$NUMS` line. */
  lemma ReadW2Outcome(path: string, lines: seq<string>, numScans0: Option<int>)
    requires ReadW2Spec(path, lines, numScans0).failure == None
    ensures EndsWith(path, ".ASC")
    ensures var ls := lines[..FirstEof(lines)];
      var o := ReadW2Spec(path, lines, numScans0);
      && o.numScans == LastNums(ls, numScans0)
      && |o.appended| == |EnomIds(ls)|
      && forall k :: 0 <= k < |o.appended| ==>
           && o.appended[k].number == EnomIds(ls)[k]
           && o.appended[k].dataLine == SamplesOf(ls, EnomIds(ls)[k])
  {
    ReadW2ReachesEof(path, lines, numScans0);
    RunSummary(numScans0, lines, FirstEof(lines));
  }

  /** When `$STOM` and `$ENOM` alternate, a read that raises nothing appends
      the measurements numbered 1, 2, 3, ... in order; one still open at the
      end of the file is not appended. */
  lemma ReadW2Numbering(path: string, lines: seq<string>, numScans0: Option<int>, open: bool)
    requires ReadW2Spec(path, lines, numScans0).failure == None
    requires Nesting(lines[..FirstEof(lines)]) == Some(open)
    ensures var o := ReadW2Spec(path, lines, numScans0);
      var stoms := StomCount(lines[..FirstEof(lines)]);
      && |o.appended| == (if open then stoms - 1 else stoms)
      && (forall k :: 0 <= k < |o.appended| ==> o.appended[k].number == k + 1)
  {
    ReadW2Outcome(path, lines, numScans0);
    NestedEnomIds(lines[..FirstEof(lines)], open);
  }

  /** Before the first `$STOM`, exactly the sample lines, the `$ENOM` lines
      and the tagged lines of two words raise for want of a measurement;
      every other line that does not stop the loop is read harmlessly. */
  lemma BeforeFirstMeasurement(r: Reader, line: string)
    requires r.status == Reading && Valid(r) && |r.objects| == 0
    ensures Advance(r, line).status == Failed(UnboundMeasurement) <==>
      && !IsNums(line) && !IsStom(line)
      && (IsSample(line) || IsEnom(line) || (HasKeyPrefix(line) && |SplitWs(line)| == 2))
  {
    MarkersDisjoint(line);
    TaggedLineIsPlain(line);
  }

  /** The draft has no key for the SPD and the two wedge tags: such a line
      is read and changes nothing. */
  lemma UnknownTagsIgnored(r: Reader, line: string)
    requires r.status == Reading && Valid(r)
    requires "%SPD" <= line || "%WDGL" <= line || "%WDGD" <= line
    ensures Advance(r, line) == r
  {
    NoKeyForSpdOrWedge(line);
    assert line[0] == '%';
    MarkersDisjoint(line);
    UnmatchedLineIgnored(r, line);
  }

  /** A sample line appends its text, without the surrounding '<', '>' and
      line break, to the samples of the open measurement and changes
      nothing else. */
  lemma SampleLine(r: Reader, line: string)
    requires r.status == Reading && Valid(r) && |r.objects| > 0
    requires IsSample(line)
    ensures var r' := Advance(r, line);
      var open := |r.objects| - 1;
      && r'.status == Reading && r'.numScans == r.numScans && r'.sealed == r.sealed
      && |r'.objects| == |r.objects|
      && r'.objects[open] == r.objects[open].(dataLine := r.objects[open].dataLine + [SampleText(line)])
      && (forall k :: 0 <= k < open ==> r'.objects[k] == r.objects[k])
      && SampleText(line) == Strip(line, {'<', '>', '\n'})
  {
    MarkersDisjoint(line);
    TaggedLineIsPlain(line);
  }

  /** With a measurement open, an `$ENOM` line appends that measurement to
      the list and changes nothing else. */
  lemma EnomLine(r: Reader, line: string)
    requires r.status == Reading && Valid(r) && |r.objects| > 0
    requires IsEnom(line)
    ensures Advance(r, line) == r.(sealed := r.sealed + [|r.objects|])
  {
    MarkersDisjoint(line);
    TaggedLineIsPlain(line);
  }

  /** A non-empty line that is neither a marker nor tagged is read and
      changes nothing, whether or not a measurement is open. */
  lemma UnmatchedLineIgnored(r: Reader, line: string)
    requires r.status == Reading && Valid(r)
    requires line != "" && !HasKeyPrefix(line)
    requires !IsNums(line) && !IsStom(line) && !IsSample(line) && !IsEnom(line)
    ensures Advance(r, line) == r
  {
  }

  /** A path that does not end in ".ASC" is refused before anything is read
      or changed. */
  lemma NotAscRejected(path: string, lines: seq<string>, numScans0: Option<int>)
    requires !EndsWith(path, ".ASC")
    ensures ReadW2Spec(path, lines, numScans0) == ReadOutcome(numScans0, [], Some(NotAscFile))
  {
  }

  /** A tagged line of two words whose key is in the draft's table sets
      that field of the open measurement and changes nothing else; one that
      is not two words raises. */
  lemma TaggedLine(r: Reader, line: string)
    requires r.status == Reading && Valid(r) && |r.objects| > 0
    requires HasKeyPrefix(line)
    ensures var r' := Advance(r, line);
      var tokens := SplitWs(line);
      var open := |r.objects| - 1;
      if |tokens| != 2 then r'.status == Failed(TaggedLineShape)
      else if tokens[0] !in Dictionary then r'.status == Failed(UnknownKey(tokens[0]))
      else
        && r'.status == Reading && r'.numScans == r.numScans && r'.sealed == r.sealed
        && |r'.objects| == |r.objects|
        && GetField(r'.objects[open], Dictionary[tokens[0]]) == tokens[1]
        && (forall f :: f != Dictionary[tokens[0]] ==> GetField(r'.objects[open], f) == GetField(r.objects[open], f))
        && r'.objects[open].dataLine == r.objects[open].dataLine
        && (forall k :: 0 <= k < open ==> r'.objects[k] == r.objects[k])
  {
    TaggedLineIsPlain(line);
    var tokens := SplitWs(line);
    var open := |r.objects| - 1;
    if |tokens| == 2 && tokens[0] in Dictionary {
      var m := SetField(r.objects[open], Dictionary[tokens[0]], tokens[1]);
      assert Advance(r, line) == r.(objects := r.objects[open := m]);
    }
  }

  lemma NoKeyForSpdOrWedge(line: string)
    requires "%SPD" <= line || "%WDGL" <= line || "%WDGD" <= line
    ensures !HasKeyPrefix(line)
  {
    assert |line| >= 4;
    assert line[1] == 'W' || (line[1] == 'S' && line[2] == 'P');
    DictionaryKeysAreTags();
  }
}
