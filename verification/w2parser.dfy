/** `W2Parser` of the converter: `read_w2` turns the lines of a W2CAD file
    into a list of measurements and a scan count, and the `write_rfa_*`
    methods turn that list into the text of an RFA300 file.

    The reader is specified by `Advance`, the effect of one line, folded over
    the lines by `Run`; the method `W2Parser.ReadW2` is proved to compute
    that fold, and the lemmas below relate the fold to the line summaries
    of `W2Lines`.

    Python's aliasing is modelled explicitly. `read_w2` keeps the name
    `measurement` bound to the last object a `$STOM` line created, appends
    that object (not a copy) on `$ENOM`, and keeps mutating it through the
    same name after it has been appended. The model therefore keeps every
    object created during the read in `objects` (object k carries the
    number k + 1) and records in `sealed` which object each `$ENOM` line
    appended; the list the caller sees is `sealed` looked up in `objects`
    when the read ends, so later changes to an appended object show in the
    list, and an object appended twice shows twice. */
module W2ParserTb {
  import opened Wrappers
  import opened PyStr
  import opened W2Lines
  import opened W2CadMeasurement
  import opened RfaDatablock

  /** Why `read_w2` raises. */
  datatype ReadFailure =
    | NotAscFile               // the path does not end in ".ASC" (ValueError)
    | NoEnergyInPath           // neither energy pattern matches the path (AttributeError)
    | BadScanCount             // the `$NUMS` count is not an integer (ValueError)
    | UnboundMeasurement       // a line other than `$NUMS`/`$STOM` before the first `$STOM` (UnboundLocalError)
    | TaggedLineShape          // a tagged line that is not exactly two words (ValueError)
    | UnknownKey(key: string)  // a tagged line whose first word is not a key (KeyError)

  datatype Status = Reading | Finished | Failed(failure: ReadFailure)

  /** The reader after some lines: `self.num_scans`, every measurement object
      created so far, the numbers of the objects appended to the list in
      the order they were appended, and whether the loop goes on. The
      count of objects is `measurement_count`. */
  datatype Reader = Reader(
    numScans: Option<int>,
    objects: seq<Measurement>,
    sealed: seq<nat>,
    status: Status)

  /** Object k is the one the (k+1)-th `$STOM` created, and only created
      objects are ever appended. */
  predicate Valid(r: Reader) {
    Numbered(r.objects, r.sealed)
  }

  predicate Numbered(objects: seq<Measurement>, sealed: seq<nat>) {
    && (forall k :: 0 <= k < |objects| ==> objects[k].number == k + 1)
    && (forall k :: 0 <= k < |sealed| ==> 1 <= sealed[k] <= |objects|)
  }

  /** The loop's test for a tagged line: the line starts with a key of
      `w2cad_measurement_dictionary`. */
  predicate HasKeyPrefix(line: string) {
    exists key <- Dictionary :: key <= line
  }

  /** One pass of the `while True` loop of `read_w2` on the line `line`, the
      tests in the order the loop makes them. Every line that reaches the
      tagged-line test needs a bound `measurement`, because the generator
      in `any(...)` evaluates `measurement.w2cad_measurement_dictionary`
      before it compares anything; so before the first `$STOM` even the
      end of the file raises. */
  function Advance(r: Reader, line: string, energy: string): (r': Reader)
    requires r.status == Reading && Valid(r)
    ensures Valid(r')
    ensures r'.status == Finished ==> line == ""
  {
    var count := |r.objects|;
    if IsNums(line) then
      var n := NumsValue(line);
      if n.None? then r.(status := Failed(BadScanCount)) else r.(numScans := n)
    else if IsStom(line) then
      r.(objects := r.objects + [NewMeasurement(count + 1, energy)])
    else if count == 0 then
      r.(status := Failed(UnboundMeasurement))
    else if HasKeyPrefix(line) then
      var tokens := SplitWs(line);
      if |tokens| != 2 then r.(status := Failed(TaggedLineShape))
      else if tokens[0] !in Dictionary then r.(status := Failed(UnknownKey(tokens[0])))
      else
        var current := r.objects[count - 1];
        r.(objects := r.objects[count - 1 := SetField(current, Dictionary[tokens[0]], tokens[1])])
    else if IsSample(line) then
      var current := r.objects[count - 1];
      r.(objects := r.objects[count - 1 := current.(dataLine := current.dataLine + [SampleText(line)])])
    else if IsEnom(line) then
      r.(sealed := r.sealed + [count])
    else if line == "" then
      r.(status := Finished)
    else
      r
  }

  /** The reader after the first `n` passes of the loop over the file
      `lines`; the loop stops at the first pass that ends it. */
  function Run(numScans0: Option<int>, lines: seq<string>, energy: string, n: nat): (r: Reader)
    ensures Valid(r)
  {
    if n == 0 then Reader(numScans0, [], [], Reading)
    else
      var prev := Run(numScans0, lines, energy, n - 1);
      if prev.status != Reading then prev else Advance(prev, ReadLine(lines, n - 1), energy)
  }

  /** The measurement list the caller sees: the appended objects in their
      final state. */
  function Materialize(objects: seq<Measurement>, sealed: seq<nat>): (ms: seq<Measurement>)
    requires Numbered(objects, sealed)
    ensures |ms| == |sealed|
    ensures forall k :: 0 <= k < |ms| ==> ms[k].number == sealed[k]
  {
    seq(|sealed|, k requires 0 <= k < |sealed| => objects[sealed[k] - 1])
  }

  /** What `read_w2` leaves behind: the scan count, the measurements it
      appended (in order), and the exception it raised, if any. */
  datatype ReadOutcome = ReadOutcome(
    numScans: Option<int>,
    appended: seq<Measurement>,
    failure: Option<ReadFailure>)

  /** `read_w2` on the file `path` whose readline results are `lines`.
      `energy` is the digits the energy patterns find in the path, None
      when neither matches. The loop reads at most |lines| + 1 lines: the
      last of them is past the end of the file. */
  function ReadW2Spec(path: string, energy: Option<string>, lines: seq<string>, numScans0: Option<int>): ReadOutcome {
    if !EndsWith(path, ".ASC") then ReadOutcome(numScans0, [], Some(NotAscFile))
    else if energy.None? then ReadOutcome(numScans0, [], Some(NoEnergyInPath))
    else
      var r := Run(numScans0, lines, energy.value, |lines| + 1);
      ReadOutcome(r.numScans, Materialize(r.objects, r.sealed), if r.status.Failed? then Some(r.status.failure) else None)
  }

  /** One pass of the loop body of `read_w2` on the reader state
      (`self.num_scans`, the objects created, the objects appended) and the
      line just read; `status` says whether the loop goes on, stops at the
      end of the file or stops on an exception. */
  method ReadPass(numScans: Option<int>, objects: seq<Measurement>, sealed: seq<nat>, line: string, energy: string)
    returns (numScans': Option<int>, objects': seq<Measurement>, sealed': seq<nat>, status: Status)
    requires Numbered(objects, sealed)
    ensures Reader(numScans', objects', sealed', status) == Advance(Reader(numScans, objects, sealed, Reading), line, energy)
  {
    numScans', objects', sealed', status := numScans, objects, sealed, Reading;
    var measurementCount := |objects|;
    if IsNums(line) {
      var n := NumsValue(line);
      if n.None? {
        status := Failed(BadScanCount);
      } else {
        numScans' := n;
      }
      return;
    }
    if IsStom(line) {
      measurementCount := measurementCount + 1;
      objects' := objects + [NewMeasurement(measurementCount, energy)];
      return;
    }
    if measurementCount == 0 {
      status := Failed(UnboundMeasurement);
      return;
    }
    if HasKeyPrefix(line) {
      var tokens := SplitWs(line);
      if |tokens| != 2 {
        status := Failed(TaggedLineShape);
        return;
      }
      var key, value := tokens[0], tokens[1];
      if key !in Dictionary {
        status := Failed(UnknownKey(key));
        return;
      }
      objects' := objects[measurementCount - 1 := SetField(objects[measurementCount - 1], Dictionary[key], value)];
      return;
    }
    if IsSample(line) {
      var current := objects[measurementCount - 1];
      objects' := objects[measurementCount - 1 := current.(dataLine := current.dataLine + [SampleText(line)])];
      return;
    }
    if IsEnom(line) {
      sealed' := sealed + [measurementCount];
      return;
    }
    if line == "" {
      status := Finished;
    }
  }

  /** The line past the end of the file stops the loop: it finishes with
      nothing else changed when a measurement is bound, and raises for
      want of one otherwise. */
  lemma EndOfFile(r: Reader, energy: string)
    requires r.status == Reading && Valid(r)
    ensures Advance(r, "", energy) ==
      if |r.objects| == 0 then r.(status := Failed(UnboundMeasurement)) else r.(status := Finished)
  {
    MarkersDisjoint("");
    assert !HasKeyPrefix("") by {
      DictionaryKeysAreTags();
    }
  }

  /** One pass of `Run`: a stopped loop stays as it is, a running one
      advances over the next line. */
  lemma RunStep(numScans0: Option<int>, lines: seq<string>, energy: string, n: nat, line: string)
    requires n > 0 && line == ReadLine(lines, n - 1)
    ensures var prev := Run(numScans0, lines, energy, n - 1);
      && (prev.status != Reading ==> Run(numScans0, lines, energy, n) == prev)
      && (prev.status == Reading ==> Run(numScans0, lines, energy, n) == Advance(prev, line, energy))
  {
  }

  // ---------------------------------------------------------------------
  // The RFA300 file
  // ---------------------------------------------------------------------

  /** `str(self.num_scans)`, which is "None" while no `$NUMS` line was read. */
  function ScanCountText(numScans: Option<int>): string {
    match numScans
    case None => "None"
    case Some(n) => IntToString(n)
  }

  /** `write_rfa_header`: the `:MSR` line with the scan count, then `:SYS`. */
  function RfaFileHeader(numScans: Option<int>): string {
    ":MSR" + " \t" + ScanCountText(numScans) + "\t" + MsrComment + "\n" + SysLine
  }

  const MsrComment: string := " # No. of measurement in file"
  const SysLine: string := ":SYS BDS 0   # Beam Data Scanner System"

  /** `write_rfa_footer` */
  const RfaFooter: string := ":EOF # End of File"

  /** The blocks of all measurements, in list order. */
  function Blocks(ms: seq<Measurement>, fmt: FloatFormat): Result<seq<string>, TranscodeError> {
    MapAll(ms, m => RfaDatablock.RfaDatablock(m, fmt))
  }

  /** `write_rfa_measurements`: the blocks one after another, or the first
      failure. */
  function RfaMeasurements(ms: seq<Measurement>, fmt: FloatFormat): Result<string, TranscodeError> {
    var blocks :- Blocks(ms, fmt);
    Success(Concat(blocks))
  }

  /** `write_rfa_file`'s text: header, blocks, footer, joined by newlines. */
  function RfaFile(numScans: Option<int>, ms: seq<Measurement>, fmt: FloatFormat): Result<string, TranscodeError> {
    var body :- RfaMeasurements(ms, fmt);
    Success(RfaFileHeader(numScans) + "\n" + body + "\n" + RfaFooter)
  }

  // ---------------------------------------------------------------------
  // The object
  // ---------------------------------------------------------------------

  class W2Parser {
    const filePath: string
    var numScans: Option<int>
    var measurementList: seq<Measurement>

    /** `W2Parser(file_path)`: no scan count, no measurements. */
    constructor (filePath: string)
      ensures this.filePath == filePath && numScans == None && measurementList == []
    {
      this.filePath := filePath;
      numScans := None;
      measurementList := [];
    }

    /** `read_w2`. The measurements it appends are added to whatever the
        list already held; `failure` is the exception it raises. */
    method ReadW2(energy: Option<string>, lines: seq<string>) returns (failure: Option<ReadFailure>)
      modifies this
      ensures var o := ReadW2Spec(filePath, energy, lines, old(numScans));
        && numScans == o.numScans
        && measurementList == old(measurementList) + o.appended
        && failure == o.failure
    {
      if !EndsWith(filePath, ".ASC") {
        return Some(NotAscFile);
      }
      if energy.None? {
        return Some(NoEnergyInPath);
      }
      var e := energy.value;
      ghost var numScans0 := numScans;
      var objects: seq<Measurement> := [];
      var sealed: seq<nat> := [];
      var status := Reading;
      var i := 0;
      while status == Reading
        invariant i <= |lines| + 1
        invariant Run(numScans0, lines, e, i) == Reader(numScans, objects, sealed, status)
        invariant measurementList == old(measurementList)
        invariant status == Reading ==> i <= |lines|
        decreases |lines| + 1 - i
      {
        var line := ReadLine(lines, i);
        RunStep(numScans0, lines, e, i + 1, line);
        numScans, objects, sealed, status := ReadPass(numScans, objects, sealed, line, e);
        i := i + 1;
        if i == |lines| + 1 {
          EndOfFile(Run(numScans0, lines, e, i - 1), e);
        }
      }
      RunStable(numScans0, lines, e, i, |lines| + 1);
      failure := if status.Failed? then Some(status.failure) else None;
      measurementList := measurementList + Materialize(objects, sealed);
    }

    /** `write_rfa_header` */
    method WriteRfaHeader() returns (header: string)
      ensures header == RfaFileHeader(numScans)
    {
      header := ":MSR" + " \t" + ScanCountText(numScans) + "\t" + MsrComment + "\n" + SysLine;
    }

    /** `write_rfa_measurements`: one block per measurement, appended in
        list order. */
    method WriteRfaMeasurements(fmt: FloatFormat) returns (r: Result<string, TranscodeError>)
      ensures r == RfaMeasurements(measurementList, fmt)
    {
      var rfaMeasurements := "";
      ghost var blocks: seq<string> := [];
      for i := 0 to |measurementList|
        invariant Blocks(measurementList[..i], fmt) == Success(blocks)
        invariant rfaMeasurements == Concat(blocks)
      {
        var block := WriteRfaDatablock(measurementList[i], fmt);
        MapAllStep(measurementList, i, blocks, m => RfaDatablock.RfaDatablock(m, fmt));
        if block.Failure? {
          MapAllFailFrom(measurementList, i + 1, m => RfaDatablock.RfaDatablock(m, fmt));
          return Failure(block.error);
        }
        ConcatSnoc(blocks, block.value);
        rfaMeasurements := rfaMeasurements + block.value;
        blocks := blocks + [block.value];
      }
      assert measurementList[..|measurementList|] == measurementList;
      r := Success(rfaMeasurements);
    }

    /** `write_rfa_footer` */
    method WriteRfaFooter() returns (footer: string)
      ensures footer == RfaFooter
    {
      footer := ":EOF # End of File";
    }

    /** `write_rfa_file` without the final write to `output_path`: the text
        it writes and returns. */
    method WriteRfaFile(fmt: FloatFormat) returns (r: Result<string, TranscodeError>)
      ensures r == RfaFile(numScans, measurementList, fmt)
    {
      var rfaHeader := WriteRfaHeader();
      var rfaMeasurements := WriteRfaMeasurements(fmt);
      if rfaMeasurements.Failure? {
        return Failure(rfaMeasurements.error);
      }
      var rfaFooter := WriteRfaFooter();
      r := Success(rfaHeader + "\n" + rfaMeasurements.value + "\n" + rfaFooter);
    }
  }

  // ---------------------------------------------------------------------
  // Properties of the reader
  // ---------------------------------------------------------------------

  /** Once the loop has stopped, further lines change nothing. */
  lemma {:induction false} RunStable(numScans0: Option<int>, lines: seq<string>, energy: string, n: nat, m: nat)
    requires n <= m
    ensures Run(numScans0, lines, energy, n).status != Reading ==>
      Run(numScans0, lines, energy, m) == Run(numScans0, lines, energy, n)
    decreases m - n
  {
    if n < m {
      RunStable(numScans0, lines, energy, n, m - 1);
    }
  }

  /** What the reader holds after reading the lines `ls` without stopping,
      in terms of the line summaries: one object per `$STOM`, one appended
      entry per `$ENOM` naming the object open at that point, the last
      `$NUMS` value, and for each object exactly the samples read while it
      was the open one. Before the first `$STOM` only `$NUMS` lines can have
      been read. */
  ghost predicate Summarizes(r: Reader, ls: seq<string>, numScans0: Option<int>, energy: string) {
    && |r.objects| == StomCount(ls)
    && r.sealed == EnomIds(ls)
    && r.numScans == LastNums(ls, numScans0)
    && (forall k :: 0 <= k < |r.objects| ==>
          r.objects[k].energy == energy && r.objects[k].dataLine == SamplesOf(ls, k + 1))
    && (StomCount(ls) == 0 ==> forall j :: 0 <= j < |ls| ==> IsNums(ls[j]))
  }

  /** A line that is none of the markers leaves the summaries as they were. */
  lemma PlainLineSummaries(ls: seq<string>, line: string)
    requires !IsNums(line) && !IsStom(line) && !IsSample(line) && !IsEnom(line)
    ensures StomCount(ls + [line]) == StomCount(ls)
    ensures EnomIds(ls + [line]) == EnomIds(ls)
    ensures forall n0 :: LastNums(ls + [line], n0) == LastNums(ls, n0)
    ensures forall id :: SamplesOf(ls + [line], id) == SamplesOf(ls, id)
  {
    InitOfSnoc(ls, line);
  }

  /** A `$NUMS` pass sets the scan count to the line's value and keeps the
      reader in step with the summaries. */
  lemma SummarizesNums(r: Reader, r': Reader, ls: seq<string>, line: string, numScans0: Option<int>, energy: string)
    requires r.status == Reading && Valid(r) && Summarizes(r, ls, numScans0, energy)
    requires IsNums(line) && r' == Advance(r, line, energy) && r'.status == Reading
    ensures r' == r.(numScans := NumsValue(line)) && r'.numScans.Some?
    ensures Summarizes(r', ls + [line], numScans0, energy)
  {
    InitOfSnoc(ls, line);
    MarkersDisjoint(line);
  }

  /** A `$STOM` pass creates the next measurement with the file's energy
      and keeps the reader in step with the summaries. */
  lemma SummarizesStom(r: Reader, r': Reader, ls: seq<string>, line: string, numScans0: Option<int>, energy: string)
    requires r.status == Reading && Valid(r) && Summarizes(r, ls, numScans0, energy)
    requires IsStom(line) && r' == Advance(r, line, energy)
    ensures r' == r.(objects := r.objects + [NewMeasurement(|r.objects| + 1, energy)])
    ensures Summarizes(r', ls + [line], numScans0, energy)
  {
    MarkersDisjoint(line);
    InitOfSnoc(ls, line);
    SamplesOfLater(ls, |r.objects| + 1);
  }

  lemma SummarizesPlain(r: Reader, r': Reader, ls: seq<string>, line: string, numScans0: Option<int>, energy: string)
    requires Summarizes(r, ls, numScans0, energy) && |r.objects| > 0
    requires !IsNums(line) && !IsStom(line) && !IsSample(line) && !IsEnom(line)
    requires r'.numScans == r.numScans && r'.sealed == r.sealed && |r'.objects| == |r.objects|
    requires forall k :: 0 <= k < |r.objects| ==>
      r'.objects[k].energy == r.objects[k].energy && r'.objects[k].dataLine == r.objects[k].dataLine
    ensures Summarizes(r', ls + [line], numScans0, energy)
  {
    PlainLineSummaries(ls, line);
  }

  /** A tagged line that does not raise keeps the reader in step with the
      summaries. */
  lemma SummarizesTagged(r: Reader, r': Reader, ls: seq<string>, line: string, numScans0: Option<int>, energy: string)
    requires r.status == Reading && Valid(r) && Summarizes(r, ls, numScans0, energy)
    requires HasKeyPrefix(line) && r' == Advance(r, line, energy) && r'.status == Reading
    ensures Summarizes(r', ls + [line], numScans0, energy)
  {
    TaggedLineIsPlain(line);
    MarkersDisjoint(line);
    SummarizesPlain(r, r', ls, line, numScans0, energy);
  }

  /** A sample pass appends the sample to the open measurement and keeps
      the reader in step with the summaries. */
  lemma SummarizesSample(r: Reader, r': Reader, ls: seq<string>, line: string, numScans0: Option<int>, energy: string)
    requires r.status == Reading && Valid(r) && Summarizes(r, ls, numScans0, energy)
    requires IsSample(line) && r' == Advance(r, line, energy) && r'.status == Reading
    ensures var count := |r.objects|;
      && count > 0
      && r' == r.(objects := r.objects[count - 1 := r.objects[count - 1].(dataLine := r.objects[count - 1].dataLine + [SampleText(line)])])
    ensures Summarizes(r', ls + [line], numScans0, energy)
  {
    TaggedLineIsPlain(line);
    MarkersDisjoint(line);
    InitOfSnoc(ls, line);
  }

  /** An `$ENOM` pass appends the open measurement and keeps the reader in
      step with the summaries. */
  lemma SummarizesEnom(r: Reader, r': Reader, ls: seq<string>, line: string, numScans0: Option<int>, energy: string)
    requires r.status == Reading && Valid(r) && Summarizes(r, ls, numScans0, energy)
    requires IsEnom(line) && r' == Advance(r, line, energy) && r'.status == Reading
    ensures |r.objects| > 0 && r' == r.(sealed := r.sealed + [|r.objects|])
    ensures Summarizes(r', ls + [line], numScans0, energy)
  {
    TaggedLineIsPlain(line);
    MarkersDisjoint(line);
    InitOfSnoc(ls, line);
  }

  /** A tagged line starts with '%', so it is none of the markers. */
  lemma TaggedLineIsPlain(line: string)
    ensures HasKeyPrefix(line) ==> !IsNums(line) && !IsStom(line) && !IsSample(line) && !IsEnom(line)
  {
    if HasKeyPrefix(line) {
      var key :| key in Dictionary && key <= line;
      DictionaryKeysAreTags();
      PrefixHead(key, line);
      MarkersDisjoint(line);
    }
  }

  /** A line that does not stop the loop keeps the reader in step with the
      summaries. */
  lemma AdvanceSummarizes(r: Reader, r': Reader, ls: seq<string>, ls': seq<string>, line: string,
                          numScans0: Option<int>, energy: string)
    requires r.status == Reading && Valid(r) && Summarizes(r, ls, numScans0, energy)
    requires r' == Advance(r, line, energy) && r'.status == Reading
    requires ls' == ls + [line]
    ensures Summarizes(r', ls', numScans0, energy)
  {
    if IsNums(line) {
      SummarizesNums(r, r', ls, line, numScans0, energy);
    } else if IsStom(line) {
      SummarizesStom(r, r', ls, line, numScans0, energy);
    } else if HasKeyPrefix(line) {
      SummarizesTagged(r, r', ls, line, numScans0, energy);
    } else if IsSample(line) {
      SummarizesSample(r, r', ls, line, numScans0, energy);
    } else if IsEnom(line) {
      SummarizesEnom(r, r', ls, line, numScans0, energy);
    } else {
      MarkersDisjoint(line);
      SummarizesPlain(r, r', ls, line, numScans0, energy);
    }
  }

  /** The reader after `n` lines that did not stop it agrees with the
      summaries of those lines. */
  lemma {:induction false} RunSummary(numScans0: Option<int>, lines: seq<string>, energy: string, n: nat)
    requires n <= |lines|
    requires Run(numScans0, lines, energy, n).status == Reading
    ensures Summarizes(Run(numScans0, lines, energy, n), lines[..n], numScans0, energy)
  {
    if n > 0 {
      PrefixSnoc(lines, n);
      RunStep(numScans0, lines, energy, n, lines[n - 1]);
      var prev := Run(numScans0, lines, energy, n - 1);
      RunSummary(numScans0, lines, energy, n - 1);
      AdvanceSummarizes(prev, Run(numScans0, lines, energy, n), lines[..n - 1], lines[..n], lines[n - 1], numScans0, energy);
    }
  }

  /** Only the line past the last non-empty one can end the loop normally. */
  lemma {:induction false} NotFinishedBeforeEof(numScans0: Option<int>, lines: seq<string>, energy: string, n: nat)
    requires n <= FirstEof(lines)
    ensures Run(numScans0, lines, energy, n).status != Finished
  {
    if n > 0 {
      NotFinishedBeforeEof(numScans0, lines, energy, n - 1);
    }
  }

  /** A read that raises nothing stops at the line past the last non-empty
      one, with a measurement bound, and that line changes nothing else. */
  lemma ReadW2ReachesEof(path: string, energy: Option<string>, lines: seq<string>, numScans0: Option<int>)
    requires ReadW2Spec(path, energy, lines, numScans0).failure == None
    ensures EndsWith(path, ".ASC") && energy.Some?
    ensures var r := Run(numScans0, lines, energy.value, FirstEof(lines));
      && r.status == Reading && |r.objects| > 0
      && Run(numScans0, lines, energy.value, |lines| + 1) == r.(status := Finished)
  {
    RunReachesEof(numScans0, lines, energy.value);
  }

  /** A loop that does not raise is still running when it reads the first
      empty line, has a measurement bound then, and finishes on it. */
  lemma RunReachesEof(numScans0: Option<int>, lines: seq<string>, energy: string)
    requires !Run(numScans0, lines, energy, |lines| + 1).status.Failed?
    ensures var r := Run(numScans0, lines, energy, FirstEof(lines));
      && r.status == Reading && |r.objects| > 0
      && Run(numScans0, lines, energy, |lines| + 1) == r.(status := Finished)
  {
    var eof := FirstEof(lines);
    var r := Run(numScans0, lines, energy, eof);
    NotFinishedBeforeEof(numScans0, lines, energy, eof);
    RunStable(numScans0, lines, energy, eof, |lines| + 1);
    assert r.status == Reading;
    RunStep(numScans0, lines, energy, eof + 1, "");
    EndOfFile(r, energy);
    RunStable(numScans0, lines, energy, eof + 1, |lines| + 1);
  }

  /** A read that raises nothing has read every line up to the first empty
      one, met a `$STOM` there, and appended, for each `$ENOM` line in
      order, the measurement opened by the `$STOM` before it, carrying the
      file's energy and exactly the samples read while it was open; the
      scan count is that of the last `$NUMS` line. */
  lemma ReadW2Outcome(path: string, energy: Option<string>, lines: seq<string>, numScans0: Option<int>)
    requires ReadW2Spec(path, energy, lines, numScans0).failure == None
    ensures EndsWith(path, ".ASC") && energy.Some?
    ensures var ls := lines[..FirstEof(lines)];
      var o := ReadW2Spec(path, energy, lines, numScans0);
      && (exists j :: 0 <= j < |ls| && IsStom(ls[j]))
      && o.numScans == LastNums(ls, numScans0)
      && |o.appended| == |EnomIds(ls)|
      && forall k :: 0 <= k < |o.appended| ==>
           && o.appended[k].number == EnomIds(ls)[k]
           && o.appended[k].energy == energy.value
           && o.appended[k].dataLine == SamplesOf(ls, EnomIds(ls)[k])
  {
    var e := energy.value;
    var eof := FirstEof(lines);
    ReadW2ReachesEof(path, energy, lines, numScans0);
    RunSummary(numScans0, lines, e, eof);
    StomCountWitness(lines[..eof]);
  }

  /** When `$STOM` and `$ENOM` alternate, a read that raises nothing appends
      the measurements numbered 1, 2, 3, ... in order; one still open at the
      end of the file is not appended. */
  lemma ReadW2Numbering(path: string, energy: Option<string>, lines: seq<string>, numScans0: Option<int>, open: bool)
    requires ReadW2Spec(path, energy, lines, numScans0).failure == None
    requires Nesting(lines[..FirstEof(lines)]) == Some(open)
    ensures var o := ReadW2Spec(path, energy, lines, numScans0);
      var stoms := StomCount(lines[..FirstEof(lines)]);
      && |o.appended| == (if open then stoms - 1 else stoms)
      && (forall k :: 0 <= k < |o.appended| ==> o.appended[k].number == k + 1)
  {
    ReadW2Outcome(path, energy, lines, numScans0);
    NestedEnomIds(lines[..FirstEof(lines)], open);
  }

  /** Before the first `$STOM` every line other than `$NUMS` and `$STOM`
      raises for want of a measurement, the end of the file included. */
  lemma BeforeFirstMeasurement(r: Reader, line: string, energy: string)
    requires r.status == Reading && Valid(r) && |r.objects| == 0
    ensures Advance(r, line, energy).status == Failed(UnboundMeasurement) <==> !IsNums(line) && !IsStom(line)
  {
  }

  /** A tagged line sets the named field of the open measurement to the
      line's second word and changes nothing else; a tagged line that is not
      two words, or whose first word is not a key (a line "%DATEX 1" starts
      with the key "%DATE"), raises. */
  lemma TaggedLine(r: Reader, line: string, energy: string)
    requires r.status == Reading && Valid(r) && |r.objects| > 0
    requires HasKeyPrefix(line)
    ensures var r' := Advance(r, line, energy);
      var tokens := SplitWs(line);
      var open := |r.objects| - 1;
      if |tokens| != 2 then r'.status == Failed(TaggedLineShape)
      else if tokens[0] !in Dictionary then r'.status == Failed(UnknownKey(tokens[0]))
      else
        && r'.status == Reading && r'.numScans == r.numScans && r'.sealed == r.sealed
        && |r'.objects| == |r.objects|
        && GetField(r'.objects[open], Dictionary[tokens[0]]) == Some(tokens[1])
        && (forall f :: f != Dictionary[tokens[0]] ==> GetField(r'.objects[open], f) == GetField(r.objects[open], f))
        && r'.objects[open].dataLine == r.objects[open].dataLine
        && (forall k :: 0 <= k < open ==> r'.objects[k] == r.objects[k])
  {
    TaggedLineIsPlain(line);
    var tokens := SplitWs(line);
    if |tokens| == 2 && tokens[0] in Dictionary {
      TaggedLineSets(r, line, energy, tokens[0], tokens[1]);
    }
  }

  /** The case of `TaggedLine` where the line is a key and a value: only
      the open measurement changes, and only in the key's field. */
  lemma TaggedLineSets(r: Reader, line: string, energy: string, key: string, value: string)
    requires r.status == Reading && Valid(r) && |r.objects| > 0
    requires HasKeyPrefix(line) && SplitWs(line) == [key, value] && key in Dictionary
    ensures var r' := Advance(r, line, energy);
      var open := |r.objects| - 1;
      && r'.status == Reading && r'.numScans == r.numScans && r'.sealed == r.sealed
      && |r'.objects| == |r.objects|
      && GetField(r'.objects[open], Dictionary[key]) == Some(value)
      && (forall f :: f != Dictionary[key] ==> GetField(r'.objects[open], f) == GetField(r.objects[open], f))
      && r'.objects[open].dataLine == r.objects[open].dataLine
      && (forall k :: 0 <= k < open ==> r'.objects[k] == r.objects[k])
  {
    TaggedLineIsPlain(line);
    var open := |r.objects| - 1;
    var m := SetField(r.objects[open], Dictionary[key], value);
    assert Advance(r, line, energy) == r.(objects := r.objects[open := m]);
  }

  /** A sample line appends its text, without the surrounding '<', '>' and
      line break, to the samples of the open measurement and changes
      nothing else. */
  lemma SampleLine(r: Reader, line: string, energy: string)
    requires r.status == Reading && Valid(r) && |r.objects| > 0
    requires IsSample(line)
    ensures var r' := Advance(r, line, energy);
      var open := |r.objects| - 1;
      && r'.status == Reading && r'.numScans == r.numScans && r'.sealed == r.sealed
      && |r'.objects| == |r.objects|
      && r'.objects[open] == r.objects[open].(dataLine := r.objects[open].dataLine + [SampleText(line)])
      && (forall k :: 0 <= k < open ==> r'.objects[k] == r.objects[k])
      && SampleText(line) == Strip(line, {'<', '>', '\n'})
  {
    MarkersDisjoint(line);
    TaggedLineIsPlain(line);
  }

  /** With a measurement open, an `$ENOM` line appends that measurement to
      the list and changes nothing else. */
  lemma EnomLine(r: Reader, line: string, energy: string)
    requires r.status == Reading && Valid(r) && |r.objects| > 0
    requires IsEnom(line)
    ensures Advance(r, line, energy) == r.(sealed := r.sealed + [|r.objects|])
  {
    MarkersDisjoint(line);
    TaggedLineIsPlain(line);
  }

  /** Once a measurement is open, a non-empty line that is neither a marker
      nor tagged is read and changes nothing. */
  lemma UnmatchedLineIgnored(r: Reader, line: string, energy: string)
    requires r.status == Reading && Valid(r) && |r.objects| > 0
    requires line != "" && !HasKeyPrefix(line)
    requires !IsNums(line) && !IsStom(line) && !IsSample(line) && !IsEnom(line)
    ensures Advance(r, line, energy) == r
  {
  }

  /** A path that does not end in ".ASC" is refused before anything is read
      or changed. */
  lemma NotAscRejected(path: string, energy: Option<string>, lines: seq<string>, numScans0: Option<int>)
    requires !EndsWith(path, ".ASC")
    ensures ReadW2Spec(path, energy, lines, numScans0) == ReadOutcome(numScans0, [], Some(NotAscFile))
  {
  }

  /** The `:MSR` line carries the scan count so that `int()` of its second
      word gives back what the `$NUMS` line held. */
  lemma MsrCountRoundTrip(n: int)
    ensures var tokens := SplitWs(RfaFileHeader(Some(n)));
      |tokens| >= 2 && tokens[0] == ":MSR" && ParseInt(tokens[1]) == Some(n)
  {
    var d := IntToString(n);
    var tail := "\t" + MsrComment + "\n" + SysLine;
    assert RfaFileHeader(Some(n)) == ":MSR" + " \t" + d + tail;
    assert forall c <- ":MSR" :: !IsSpace(c);
    assert forall c <- " \t" :: IsSpace(c);
    SplitWsSecondWord(":MSR", " \t", d, tail);
    ParseIntString(n);
  }

  /** The file is written exactly when every measurement transcodes; it is
      then the header, the blocks of the measurements in list order, and
      the footer. Otherwise the error is that of the first measurement that
      does not transcode. */
  lemma RfaFileShape(numScans: Option<int>, ms: seq<Measurement>, fmt: FloatFormat)
    ensures RfaFile(numScans, ms, fmt).Success? <==>
      forall i :: 0 <= i < |ms| ==> RfaDatablock.RfaDatablock(ms[i], fmt).Success?
    ensures RfaFile(numScans, ms, fmt).Success? ==>
      var blocks := Blocks(ms, fmt).value;
      && |blocks| == |ms|
      && (forall i :: 0 <= i < |ms| ==> RfaDatablock.RfaDatablock(ms[i], fmt) == Success(blocks[i]))
      && RfaFile(numScans, ms, fmt).value == RfaFileHeader(numScans) + "\n" + Concat(blocks) + "\n" + RfaFooter
    ensures RfaFile(numScans, ms, fmt).Failure? ==>
      exists i ::
        && 0 <= i < |ms|
        && RfaDatablock.RfaDatablock(ms[i], fmt) == Failure(RfaFile(numScans, ms, fmt).error)
        && (forall j :: 0 <= j < i ==> RfaDatablock.RfaDatablock(ms[j], fmt).Success?)
  {
    MapAllOneToOne(ms, m => RfaDatablock.RfaDatablock(m, fmt));
    if Blocks(ms, fmt).Failure? {
      MapAllFirstFailure(ms, m => RfaDatablock.RfaDatablock(m, fmt));
    }
  }

  /** The list holds the measurement object itself, not a copy: a tagged
      line read after `$ENOM` still changes the measurement already
      appended, and a second `$ENOM` appends the same measurement again. */
  lemma AppendedMeasurementIsShared(path: string, energy: string, stom: string, enom: string,
                                    tagged: string, key: string, value: string)
    requires EndsWith(path, ".ASC")
    requires IsStom(stom) && IsEnom(enom)
    requires key in Dictionary && key <= tagged && SplitWs(tagged) == [key, value]
    ensures var m := SetField(NewMeasurement(1, energy), Dictionary[key], value);
      ReadW2Spec(path, Some(energy), [stom, enom, tagged, enom], None) == ReadOutcome(None, [m, m], None)
  {
    var lines := [stom, enom, tagged, enom];
    var m := SetField(NewMeasurement(1, energy), Dictionary[key], value);
    SharedRunOpen(lines, energy);
    SharedRunClose(lines, energy, key, value);
    assert Materialize([m], [1, 1]) == [m, m];
  }

  /** The first two passes of `AppendedMeasurementIsShared`: measurement 1
      is created and appended. */
  lemma SharedRunOpen(lines: seq<string>, energy: string)
    requires |lines| == 4 && IsStom(lines[0]) && IsEnom(lines[1])
    ensures Run(None, lines, energy, 2) == Reader(None, [NewMeasurement(1, energy)], [1], Reading)
  {
    MarkersDisjoint(lines[0]);
    MarkersDisjoint(lines[1]);
    TaggedLineIsPlain(lines[1]);
    assert Run(None, lines, energy, 1) == Reader(None, [NewMeasurement(1, energy)], [], Reading);
  }

  /** The last three passes of `AppendedMeasurementIsShared`: the tagged line
      changes the appended measurement, the second `$ENOM` appends it again
      and the end of the file stops the loop. */
  lemma SharedRunClose(lines: seq<string>, energy: string, key: string, value: string)
    requires |lines| == 4 && IsEnom(lines[3])
    requires key in Dictionary && key <= lines[2] && SplitWs(lines[2]) == [key, value]
    requires Run(None, lines, energy, 2) == Reader(None, [NewMeasurement(1, energy)], [1], Reading)
    ensures var m := SetField(NewMeasurement(1, energy), Dictionary[key], value);
      Run(None, lines, energy, 5) == Reader(None, [m], [1, 1], Finished)
  {
    var m := SetField(NewMeasurement(1, energy), Dictionary[key], value);
    assert HasKeyPrefix(lines[2]);
    TaggedLineIsPlain(lines[2]);
    assert Run(None, lines, energy, 3) == Reader(None, [m], [1], Reading);
    MarkersDisjoint(lines[3]);
    TaggedLineIsPlain(lines[3]);
    assert Run(None, lines, energy, 4) == Reader(None, [m], [1, 1], Reading);
    MarkersDisjoint("");
    assert !HasKeyPrefix("") by {
      DictionaryKeysAreTags();
    }
  }
}
