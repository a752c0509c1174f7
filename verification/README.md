# W2CAD to RFA300 converter: a Dafny model

The converter reads a W2CAD ASCII beam-data file (Varian Eclipse scan export),
one measurement block per `$STOM` … `$ENOM` pair. It writes an RFA300 ASCII
measurement dump (the OmniPro-Accept "BDS" format). The model covers the
converter's `W2Parser.py` and the earlier draft of the reader in
`bidmc_py/W2Parser.py`.

| module | file | models |
|---|---|---|
| `Wrappers` | `wrappers.dfy` | Option, Result (an exception as a value), `MapAll` (a loop that stops at the first element that raises), `Concat` |
| `PyStr` | `pystr.dfy` | the Python string built-ins the code relies on: `startswith`, `endswith`, `split()`, `split(c)`, `replace`, `strip(chars)`, `int()`, `str()` of an int |
| `W2Lines` | `w2lines.dfy` | the four line markers, `readline` past the end of the file, and summaries of a sequence of lines (number of `$STOM`s, which measurement each `$ENOM` closes, the samples of a measurement, the last `$NUMS` value, whether blocks alternate) |
| `W2CadMeasurement` | `w2cad_measurement.dfy` | the converter's `W2CADMeasurement` record and its key table |
| `RfaDatablock` | `rfa_datablock.dfy` | `write_rfa_datablock`: the four translation tables, date / field-size / distance / depth reformatting, the axis swap, the header block and the sample block |
| `W2ParserTb` | `w2parser.dfy` | the converter's `W2Parser`: `read_w2` and the `write_rfa_*` methods |
| `BidmcW2Parser` | `bidmc_w2parser.dfy` | the draft: its record, its key table, its `read_w2` and the empty `write_to_rfa` |

## How the model is built

- **The file is a parameter.** A file is the sequence of results that
  successive `readline` calls return, each line with its `\n`. Past the
  end, `readline` returns `""`. The reading loop stops at the first `""`,
  wherever it comes.
- **The energy is a parameter.** It is `Option<string>`: the digits the two
  energy patterns find in the path, or `None` when neither matches.
- **Float formatting is a parameter.** `FloatFormat` holds the caller's
  `f"{float(s):.1f}"` and `f"{float(s)*10:.0f}"`. Each returns `None` where
  `float(s)` raises.
- **Exceptions are values.** Every exception the code can raise is a
  `Failure`/`Failed` value that names its cause.
- **`read_w2` is one loop pass folded over the lines.**
  - `Advance` is one pass, making the tests in the code's order.
  - `Run` folds `Advance` over the lines.
  - `ReadW2Spec` adds the two checks made before the loop.
  - The class method `W2Parser.ReadW2` runs the `while` loop and is proved
    to compute `ReadW2Spec`.
  - The lemmas relate `Run` to the line summaries of `W2Lines`.
- **Aliasing is explicit.** The list stores the measurement object itself,
  not a copy, so the reader state keeps every object created and the
  numbers of the objects appended. The caller's list is computed from these
  when the read ends. As a result, a tagged line after `$ENOM` still changes
  the appended measurement, and a repeated `$ENOM` appends the same
  measurement twice (`W2ParserTb.AppendedMeasurementIsShared`).
- **The writer's loops are methods.** `W2Parser.WriteRfaMeasurements` and
  `RfaDatablock.WriteScanDataBlock` are loops proved against the functions
  `RfaMeasurements` and `ScanDataBlock`.

## Behaviour of the code that a description of the format might not lead one to expect

- **An unclosed block is dropped.** If the file ends while a measurement is
  open, the reader ends normally without that measurement. No error is
  raised (`ReadW2Numbering`, the `open` case).
- **The scan count is not checked.** The count from `$NUMS` is never
  compared with the number of measurements read.
- **Numbering can be broken.** The appended measurements are guaranteed
  to be numbered 1, 2, … in order when `$STOM` and `$ENOM` alternate
  (`ReadW2Numbering`). Otherwise a measurement can be missing or repeated
  (`AppendedMeasurementIsShared` shows one appended twice).
- **The converter's reader needs a measurement for almost every line.**
  - Any line other than `$NUMS` or `$STOM` raises before the first
    `$STOM`, because the tagged-line test reads the key table through the
    unbound `measurement`.
  - This includes the end of the file, so a file without a `$STOM` never
    reads successfully.
  - The draft keeps its table on the parser, so before the first `$STOM`
    only a sample line, an `$ENOM` line or a two-word tagged line raises
    for want of a measurement. A tagged line of another word count still
    raises ValueError there, and so does a `$NUMS` line whose last word is
    not an integer.
- **A near-miss tag raises.** A line that starts with a key but whose first
  word is not a key raises KeyError (for example `%DATEX 1`). The test is a
  prefix test; the lookup is by the exact word.
- **The `.ASC` check is case-sensitive.** A path ending in `.asc` is
  refused.
- **Samples are not validated at read time.** A record with no samples
  fails only when it is written (IndexError, `NoSamples`).

## Model

| member | source | states |
|---|---|---|
| `Wrappers.MapAllOneToOne` | TB_Representative_data_W2CAD_to_RFA/W2Parser.py:293-297 | mapping a raising step over a list succeeds iff every element succeeds, and then yields one result per element in list order |
| `Wrappers.MapAllFailFrom` | TB_Representative_data_W2CAD_to_RFA/W2Parser.py:214-221 | once a prefix of the list raises, the whole loop raises the same error (nothing after it is processed) |
| `Wrappers.MapAllStep` | TB_Representative_data_W2CAD_to_RFA/W2Parser.py:214-221 | one more element either adds its result after the earlier ones or makes the loop raise its error |
| `Wrappers.ConcatSnoc` | TB_Representative_data_W2CAD_to_RFA/W2Parser.py:293-297 | appending one more block to the text adds it at the end |
| `Wrappers.MapAllFirstFailure` | TB_Representative_data_W2CAD_to_RFA/W2Parser.py:293-297 | a failed loop reports the error of the first element that raises, all elements before it succeed |
| `PyStr.PrefixHead` | TB_Representative_data_W2CAD_to_RFA/W2Parser.py:252-275 | a string that starts with a non-empty prefix starts with the prefix's first character |
| `PyStr.Word` | TB_Representative_data_W2CAD_to_RFA/W2Parser.py:266 | the leading word is a prefix without whitespace, followed by whitespace or the end |
| `PyStr.SplitWs` | TB_Representative_data_W2CAD_to_RFA/W2Parser.py:253 | `split()` yields only non-empty words without whitespace |
| `PyStr.WordBeforeSpace` | TB_Representative_data_W2CAD_to_RFA/W2Parser.py:266 | a whitespace-free word followed by whitespace or nothing is the leading word |
| `PyStr.SplitWsSpaces` | TB_Representative_data_W2CAD_to_RFA/W2Parser.py:253 | leading whitespace adds no word to `split()` |
| `PyStr.SplitWsSecondWord` | TB_Representative_data_W2CAD_to_RFA/W2Parser.py:287 | two words separated by whitespace and followed by whitespace are the first two words of `split()` |
| `PyStr.SplitWsWord` | TB_Representative_data_W2CAD_to_RFA/W2Parser.py:266 | `split()` of a word followed by whitespace is that word, then the words of the rest |
| `PyStr.SplitOn` | TB_Representative_data_W2CAD_to_RFA/W2Parser.py:90 | `split(c)` yields at least one part, none containing `c` |
| `PyStr.JoinSplitOn` | TB_Representative_data_W2CAD_to_RFA/W2Parser.py:90-91 | joining the parts of `split(c)` with `c` gives the string back |
| `PyStr.SplitOnNoSeparator` | TB_Representative_data_W2CAD_to_RFA/W2Parser.py:97 | a string without `c` splits into itself alone |
| `PyStr.SplitOnCons` | TB_Representative_data_W2CAD_to_RFA/W2Parser.py:97 | splitting `p + c + rest` gives `p`, then the parts of `rest` |
| `PyStr.SplitOnJoin` | TB_Representative_data_W2CAD_to_RFA/W2Parser.py:90-91 | splitting parts joined by `c` (none containing `c`) gives the parts back |
| `PyStr.ReplaceChar` | TB_Representative_data_W2CAD_to_RFA/W2Parser.py:149 | `replace(a, b)` on single characters changes exactly the `a`s into `b`s, keeping the length |
| `PyStr.JoinSplitOnIsReplace` | TB_Representative_data_W2CAD_to_RFA/W2Parser.py:97-98 | splitting on `a` and joining with `b` is replacing `a` with `b` |
| `PyStr.StripLeft` | TB_Representative_data_W2CAD_to_RFA/W2Parser.py:271 | the result is a suffix of the input that does not start with a stripped character, and every character removed is a stripped one |
| `PyStr.StripRight` | TB_Representative_data_W2CAD_to_RFA/W2Parser.py:271 | the result is a prefix of the input that does not end with a stripped character, and every character removed is a stripped one |
| `PyStr.Strip` | TB_Representative_data_W2CAD_to_RFA/W2Parser.py:271 | `strip(chars)` is a slice of the input that neither starts nor ends with a stripped character, and everything before and after the slice is stripped characters |
| `PyStr.DigitChar` | TB_Representative_data_W2CAD_to_RFA/W2Parser.py:287 | the digit character of a value below ten has that value |
| `PyStr.NatToString` | TB_Representative_data_W2CAD_to_RFA/W2Parser.py:287 | the decimal text of a natural is non-empty and all digits |
| `PyStr.IntToString` | TB_Representative_data_W2CAD_to_RFA/W2Parser.py:287 | the decimal text of an integer is non-empty and has no whitespace |
| `PyStr.NatToStringValue` | TB_Representative_data_W2CAD_to_RFA/W2Parser.py:287 | the digits of a natural's decimal text have that natural's value |
| `PyStr.ParseInt` | TB_Representative_data_W2CAD_to_RFA/W2Parser.py:253 | `int(token)` in base 10: optional sign, ASCII digits with single underscores between digits, None where Python raises ValueError; `ParseIntString` proves `int(str(i)) == i` and `DigitStringGroups` that every digit run is accepted |
| `PyStr.DigitStringGroups` | TB_Representative_data_W2CAD_to_RFA/W2Parser.py:253 | a non-empty run of digits is accepted by `int()` |
| `PyStr.ParseIntString` | TB_Representative_data_W2CAD_to_RFA/W2Parser.py:253 | `int(str(i)) == i` for every integer |
| `W2Lines.SampleText` | TB_Representative_data_W2CAD_to_RFA/W2Parser.py:271 | the sample text kept by `line.strip("<>\n")`; `PyStr.Strip` states that only a leading and a trailing run of those characters is removed |
| `W2Lines.NumsValue` | TB_Representative_data_W2CAD_to_RFA/W2Parser.py:253 | the value of the last word of a `$NUMS` line, None where `int()` raises or there is no word; `SummarizesNums` shows the scan count becomes it |
| `W2Lines.FirstEof` | TB_Representative_data_W2CAD_to_RFA/W2Parser.py:249-250 | the first line `readline` returns as `""`: within the file or just past it, every earlier line non-empty |
| `W2Lines.MarkersDisjoint` | TB_Representative_data_W2CAD_to_RFA/W2Parser.py:252-281 | a line matches at most one of `$NUMS`, `$STOM`, `<`, `$ENOM`, and the empty line matches none |
| `W2Lines.StomCountWitness` | TB_Representative_data_W2CAD_to_RFA/W2Parser.py:257-258 | a positive measurement count means a `$STOM` line was read |
| `W2Lines.SamplesOfLater` | TB_Representative_data_W2CAD_to_RFA/W2Parser.py:270-271 | a measurement not yet opened has no samples |
| `W2Lines.NestedEnomIds` | TB_Representative_data_W2CAD_to_RFA/W2Parser.py:257-277 | when `$STOM` and `$ENOM` alternate, the `$ENOM`s close measurements 1, 2, … in order, one fewer if a block is left open |
| `W2CadMeasurement.NewMeasurement` | TB_Representative_data_W2CAD_to_RFA/W2Parser.py:12-35 | a new record has the given number and energy, no samples, no SPD, wedge and depth "0" and every other field "" |
| `W2CadMeasurement.SetField` | TB_Representative_data_W2CAD_to_RFA/W2Parser.py:267 | `setattr` sets the named field to the value and leaves every other field, the number, the energy and the samples unchanged |
| `W2CadMeasurement.DictionaryKeysAreTags` | TB_Representative_data_W2CAD_to_RFA/W2Parser.py:38-53 | every key of the table is a `%` tag longer than one character |
| `RfaDatablock.TablesShareDomain` | TB_Representative_data_W2CAD_to_RFA/W2Parser.py:68-145 | the scan-type and measurement-type tables cover the same twelve data types |
| `RfaDatablock.TableRanges` | TB_Representative_data_W2CAD_to_RFA/W2Parser.py:68-145 | scan types are DPT/PRO/DIA and measurement types 1/2/5/6; a data type has scan type DPT exactly when its measurement type is 1 or 5 |
| `RfaDatablock.DetectorAndBeamTables` | TB_Representative_data_W2CAD_to_RFA/W2Parser.py:86-102 | only CHA→ION and DIO→SEM are supported detectors; PHO and ELE pass through |
| `RfaDatablock.Lookup` | TB_Representative_data_W2CAD_to_RFA/W2Parser.py:82-87 | a table lookup succeeds iff the code is in the table, and otherwise fails naming the field and the code |
| `RfaDatablock.ReformatDate` | TB_Representative_data_W2CAD_to_RFA/W2Parser.py:90-91 | the date is reformatted iff it has exactly three `-`-separated parts, and the result has day and month exchanged |
| `RfaDatablock.ReformatDateInvolutive` | TB_Representative_data_W2CAD_to_RFA/W2Parser.py:90-91 | reformatting a reformatted date gives the original date back |
| `RfaDatablock.ReformatFieldSize` | TB_Representative_data_W2CAD_to_RFA/W2Parser.py:97-98 | the field size is reformatted iff it has exactly one `*`, and the result is the input with a tab for the `*` |
| `RfaDatablock.ReferenceDistance` | TB_Representative_data_W2CAD_to_RFA/W2Parser.py:105-117 | the SSD as it stands when non-empty; otherwise ten times the SPD with no decimals, or a failure when there is no SPD attribute |
| `RfaDatablock.ProfileDepth` | TB_Representative_data_W2CAD_to_RFA/W2Parser.py:148-149 | the depth to one decimal with its `.` turned into `,`, every other character kept |
| `RfaDatablock.SwapAxes` | TB_Representative_data_W2CAD_to_RFA/W2Parser.py:157-159 | the first two values exchanged, the rest unchanged |
| `RfaDatablock.SwapAxesInvolutive` | TB_Representative_data_W2CAD_to_RFA/W2Parser.py:157-167 | swapping the axes twice gives the sample back |
| `RfaDatablock.Endpoint` | TB_Representative_data_W2CAD_to_RFA/W2Parser.py:155-170 | a start or end point exists iff the sample has four space-separated values whose three coordinates convert; it is those coordinates with X and Y swapped |
| `RfaDatablock.DataRow` | TB_Representative_data_W2CAD_to_RFA/W2Parser.py:214-221 | a row exists iff the sample has four values that all convert; it is the sample with X and Y swapped, each value to one decimal |
| `RfaDatablock.RowGivesEndpoint` | TB_Representative_data_W2CAD_to_RFA/W2Parser.py:155-221 | a sample that makes a row makes an endpoint equal to that row's coordinates |
| `RfaDatablock.DeriveHeader` | TB_Representative_data_W2CAD_to_RFA/W2Parser.py:82-170 | the header values of a measurement, or the first lookup or conversion error; `HeaderDerivation` states the failure order and each value |
| `RfaDatablock.HeaderDerivation` | TB_Representative_data_W2CAD_to_RFA/W2Parser.py:61-170 | an unknown data type or detector fails naming that field; on success every header value is the table entry or reformatting of its source field, with %BRD equal to %SSD and start/end taken from the first and last samples |
| `RfaDatablock.HeaderLines` | TB_Representative_data_W2CAD_to_RFA/W2Parser.py:172-202 | the header block's lines in order; `DatablockShape` and `EndpointsMatchRows` state what the block holds |
| `RfaDatablock.ScanHeaderBlock` | TB_Representative_data_W2CAD_to_RFA/W2Parser.py:172-202 | the header lines joined by line breaks; the block's shape is stated by `DatablockShape` |
| `RfaDatablock.ScanDataBlock` | TB_Representative_data_W2CAD_to_RFA/W2Parser.py:204-223 | the sample block: head, one `=` row per sample, `:EOM`, or the first sample's error; `WriteScanDataBlock` is proved to compute it |
| `RfaDatablock.RfaDatablock` | TB_Representative_data_W2CAD_to_RFA/W2Parser.py:61-225 | the whole block; `DatablockShape`, `EndpointsMatchRows` and `UnsupportedDetectorFails` state its properties |
| `RfaDatablock.RowText` | TB_Representative_data_W2CAD_to_RFA/W2Parser.py:221 | each sample line starts with `=` and ends with a line break |
| `RfaDatablock.AppendRowText` | TB_Representative_data_W2CAD_to_RFA/W2Parser.py:221 | adding one row's text to the block so far gives the text of the rows with that row appended |
| `RfaDatablock.DatablockShape` | TB_Representative_data_W2CAD_to_RFA/W2Parser.py:172-225 | a block is the header block, then one row per sample in sample order, then `:EOM` |
| `RfaDatablock.EndpointsMatchRows` | TB_Representative_data_W2CAD_to_RFA/W2Parser.py:155-221 | `%STS` and `%EDS` are the coordinates of the block's first and last `=` rows, and the block has at least one row |
| `RfaDatablock.UnsupportedDetectorFails` | TB_Representative_data_W2CAD_to_RFA/W2Parser.py:84-87 | a diamond or other unknown detector on a known data type makes the whole block fail, naming the detector type |
| `RfaDatablock.WriteScanDataBlock` | TB_Representative_data_W2CAD_to_RFA/W2Parser.py:204-223 | the sample loop computes the sample block, or fails at the first sample that does not convert |
| `RfaDatablock.WriteRfaDatablock` | TB_Representative_data_W2CAD_to_RFA/W2Parser.py:61-225 | `write_rfa_datablock` computes the block `DatablockShape` describes |
| `W2ParserTb.Advance` | TB_Representative_data_W2CAD_to_RFA/W2Parser.py:249-281 | one loop pass keeps the objects numbered 1, 2, … and appends only created objects; it finishes only on the empty line |
| `W2ParserTb.Run` | TB_Representative_data_W2CAD_to_RFA/W2Parser.py:248-281 | after any number of passes the reader state is well-numbered |
| `W2ParserTb.Materialize` | TB_Representative_data_W2CAD_to_RFA/W2Parser.py:276 | the list has one entry per `$ENOM`, the k-th being the object that `$ENOM` appended |
| `W2ParserTb.ReadPass` | TB_Representative_data_W2CAD_to_RFA/W2Parser.py:250-281 | the loop body computes one pass `Advance` |
| `W2ParserTb.EndOfFile` | TB_Representative_data_W2CAD_to_RFA/W2Parser.py:263-281 | the empty line stops the loop: with a measurement bound it finishes and nothing else changes, otherwise it raises for want of a measurement |
| `W2ParserTb.RunStep` | TB_Representative_data_W2CAD_to_RFA/W2Parser.py:249-281 | each pass reads the next line and applies `Advance` to it, unless the loop has already stopped |
| `W2ParserTb.RunReachesEof` | TB_Representative_data_W2CAD_to_RFA/W2Parser.py:263-281 | a loop that does not raise is still reading with a measurement bound when it reaches the first empty line, and then just finishes |
| `W2ParserTb.ReadW2Spec` | TB_Representative_data_W2CAD_to_RFA/W2Parser.py:234-281 | the outcome of `read_w2`: the `.ASC` and energy checks, then the loop run to the end of the file; `ReadW2ReachesEof`, `ReadW2Outcome` and `ReadW2Numbering` state its properties |
| `W2ParserTb.RfaFileHeader` | TB_Representative_data_W2CAD_to_RFA/W2Parser.py:283-291 | the `:MSR` and `:SYS` lines; `MsrCountRoundTrip` shows the scan count reads back |
| `W2ParserTb.RfaMeasurements` | TB_Representative_data_W2CAD_to_RFA/W2Parser.py:293-297 | the blocks of the list concatenated in order, or the first error; `RfaFileShape` states it |
| `W2ParserTb.RfaFile` | TB_Representative_data_W2CAD_to_RFA/W2Parser.py:307-312 | header, blocks and footer joined by line breaks, or the first block's error; `RfaFileShape` states it |
| `W2ParserTb.W2Parser.constructor` | TB_Representative_data_W2CAD_to_RFA/W2Parser.py:228-232 | a parser starts with no scan count and an empty list |
| `W2ParserTb.W2Parser.ReadW2` | TB_Representative_data_W2CAD_to_RFA/W2Parser.py:234-281 | the method sets the scan count, extends the list and raises exactly as `ReadW2Spec` says |
| `W2ParserTb.W2Parser.WriteRfaHeader` | TB_Representative_data_W2CAD_to_RFA/W2Parser.py:283-291 | the header is the `:MSR` line with the scan count (or `None`) and the `:SYS` line |
| `W2ParserTb.W2Parser.WriteRfaMeasurements` | TB_Representative_data_W2CAD_to_RFA/W2Parser.py:293-297 | the loop computes the blocks of the list concatenated in list order, or the first block's error |
| `W2ParserTb.W2Parser.WriteRfaFooter` | TB_Representative_data_W2CAD_to_RFA/W2Parser.py:299-305 | the footer is `:EOF # End of File` |
| `W2ParserTb.W2Parser.WriteRfaFile` | TB_Representative_data_W2CAD_to_RFA/W2Parser.py:307-312 | the file text is header, measurements and footer joined by line breaks |
| `W2ParserTb.RunStable` | TB_Representative_data_W2CAD_to_RFA/W2Parser.py:249-281 | once the loop has stopped, further lines change nothing |
| `W2ParserTb.PlainLineSummaries` | TB_Representative_data_W2CAD_to_RFA/W2Parser.py:262-268 | a line that is not a marker changes no line summary |
| `W2ParserTb.SummarizesNums` | TB_Representative_data_W2CAD_to_RFA/W2Parser.py:252-254 | a `$NUMS` line sets the scan count to its last word's value and keeps the summary invariant |
| `W2ParserTb.SummarizesStom` | TB_Representative_data_W2CAD_to_RFA/W2Parser.py:257-260 | a `$STOM` line creates measurement count+1 with the energy, changes nothing else and keeps the summary invariant |
| `W2ParserTb.SummarizesPlain` | TB_Representative_data_W2CAD_to_RFA/W2Parser.py:263-268 | a tagged or ignored line keeps the summary invariant |
| `W2ParserTb.SummarizesTagged` | TB_Representative_data_W2CAD_to_RFA/W2Parser.py:263-268 | a tagged line that does not raise keeps the summary invariant |
| `W2ParserTb.SummarizesSample` | TB_Representative_data_W2CAD_to_RFA/W2Parser.py:270-272 | a sample pass appends the stripped sample to the open measurement, changes nothing else and keeps the summary invariant |
| `W2ParserTb.SummarizesEnom` | TB_Representative_data_W2CAD_to_RFA/W2Parser.py:275-277 | an `$ENOM` pass that does not raise had a measurement open, appends it, changes nothing else and keeps the summary invariant |
| `W2ParserTb.TaggedLineIsPlain` | TB_Representative_data_W2CAD_to_RFA/W2Parser.py:263-265 | a tagged line is never a marker or sample line |
| `W2ParserTb.AdvanceSummarizes` | TB_Representative_data_W2CAD_to_RFA/W2Parser.py:249-277 | every pass that does not stop the loop keeps the reader equal to the summaries of the lines read |
| `W2ParserTb.RunSummary` | TB_Representative_data_W2CAD_to_RFA/W2Parser.py:248-277 | while reading, the state is the summaries of the lines read: one object per `$STOM`, appended ids per `$ENOM`, the last `$NUMS`, samples per measurement |
| `W2ParserTb.NotFinishedBeforeEof` | TB_Representative_data_W2CAD_to_RFA/W2Parser.py:280-281 | the loop never finishes before the first empty line |
| `W2ParserTb.ReadW2ReachesEof` | TB_Representative_data_W2CAD_to_RFA/W2Parser.py:234-281 | a successful read had a `.ASC` path and an energy, read every line up to the first empty one with a measurement open, and finished there |
| `W2ParserTb.ReadW2Outcome` | TB_Representative_data_W2CAD_to_RFA/W2Parser.py:234-281 | a successful read saw a `$STOM`; its scan count is the last `$NUMS` value; each appended measurement is the one its `$ENOM` closed, with the file's energy and exactly that block's samples |
| `W2ParserTb.ReadW2Numbering` | TB_Representative_data_W2CAD_to_RFA/W2Parser.py:238-277 | when blocks alternate, the list is numbered 1..N, with N the number of `$STOM`s, one fewer when the last block is unclosed (that block is dropped) |
| `W2ParserTb.BeforeFirstMeasurement` | TB_Representative_data_W2CAD_to_RFA/W2Parser.py:252-281 | before the first `$STOM`, a line raises for want of a measurement iff it is neither `$NUMS` nor `$STOM` |
| `W2ParserTb.TaggedLineSets` | TB_Representative_data_W2CAD_to_RFA/W2Parser.py:263-267 | a two-word line whose first word is a key sets exactly that field of the open measurement |
| `W2ParserTb.TaggedLine` | TB_Representative_data_W2CAD_to_RFA/W2Parser.py:263-268 | a tagged line raises unless it has exactly two words and its first word is a key; then it sets exactly that field of the open measurement |
| `W2ParserTb.SampleLine` | TB_Representative_data_W2CAD_to_RFA/W2Parser.py:270-272 | a sample line appends its stripped text to the open measurement's samples and changes nothing else |
| `W2ParserTb.EnomLine` | TB_Representative_data_W2CAD_to_RFA/W2Parser.py:275-277 | with a measurement open, an `$ENOM` line appends it to the list, does not raise and changes nothing else |
| `W2ParserTb.UnmatchedLineIgnored` | TB_Representative_data_W2CAD_to_RFA/W2Parser.py:249-281 | with a measurement open, a non-empty line matching no test changes nothing |
| `W2ParserTb.NotAscRejected` | TB_Representative_data_W2CAD_to_RFA/W2Parser.py:235-236 | a path not ending in `.ASC` is refused and nothing changes |
| `W2ParserTb.MsrCountRoundTrip` | TB_Representative_data_W2CAD_to_RFA/W2Parser.py:285-290 | the `:MSR` line's second word reads back as the scan count |
| `W2ParserTb.RfaFileShape` | TB_Representative_data_W2CAD_to_RFA/W2Parser.py:307-312 | the file is written iff every measurement transcodes; it is then header, the blocks in list order and footer; otherwise the first failing measurement's error |
| `W2ParserTb.AppendedMeasurementIsShared` | TB_Representative_data_W2CAD_to_RFA/W2Parser.py:257-277 | `$STOM`, `$ENOM`, a tagged line, `$ENOM` gives a list holding the updated measurement twice |
| `W2ParserTb.SharedRunOpen` | TB_Representative_data_W2CAD_to_RFA/W2Parser.py:257-277 | `$STOM` then `$ENOM` creates measurement 1 and appends it |
| `W2ParserTb.SharedRunClose` | TB_Representative_data_W2CAD_to_RFA/W2Parser.py:263-281 | a tagged line then `$ENOM` updates the appended measurement and appends it again; the end of the file finishes |
| `BidmcW2Parser.NewMeasurement` | bidmc_py/W2Parser.py:7-21 | a new record has the given number, no samples and every header field "" |
| `BidmcW2Parser.SetField` | bidmc_py/W2Parser.py:64 | `setattr` sets the named field and leaves every other field, the number and the samples unchanged |
| `BidmcW2Parser.DictionaryKeysAreTags` | bidmc_py/W2Parser.py:27-38 | every key is a `%` tag; none starts `%W` or `%SP` |
| `BidmcW2Parser.Advance` | bidmc_py/W2Parser.py:48-78 | one pass keeps the objects numbered and appends only created objects; it finishes only on the empty line |
| `BidmcW2Parser.Run` | bidmc_py/W2Parser.py:47-78 | after any number of passes the reader state is well-numbered |
| `BidmcW2Parser.Materialize` | bidmc_py/W2Parser.py:73 | the list has one entry per `$ENOM`, the k-th being the object it appended |
| `BidmcW2Parser.ReadPass` | bidmc_py/W2Parser.py:49-78 | the loop body computes one pass `Advance` |
| `BidmcW2Parser.EndOfFileFinishes` | bidmc_py/W2Parser.py:77-78 | the empty line finishes the loop with nothing else changed, even before the first `$STOM` |
| `BidmcW2Parser.ReadW2Spec` | bidmc_py/W2Parser.py:41-78 | the outcome of the draft's `read_w2`: the `.ASC` check, then the loop run to the end of the file; `ReadW2ReachesEof`, `ReadW2Outcome` and `ReadW2Numbering` state its properties |
| `BidmcW2Parser.W2Parser.constructor` | bidmc_py/W2Parser.py:23-39 | a parser starts with no scan count and an empty list |
| `BidmcW2Parser.W2Parser.ReadW2` | bidmc_py/W2Parser.py:41-78 | the method sets the scan count, extends the list and raises exactly as `ReadW2Spec` says |
| `BidmcW2Parser.W2Parser.WriteToRfa` | bidmc_py/W2Parser.py:81-82 | writing changes neither the scan count nor the list |
| `BidmcW2Parser.RunStable` | bidmc_py/W2Parser.py:48-78 | once the loop has stopped, further lines change nothing |
| `BidmcW2Parser.TaggedLineIsPlain` | bidmc_py/W2Parser.py:62 | a tagged line is never a marker or sample line |
| `BidmcW2Parser.SummarizesNums` | bidmc_py/W2Parser.py:51-53 | a `$NUMS` line sets the scan count and keeps the summary invariant |
| `BidmcW2Parser.SummarizesStom` | bidmc_py/W2Parser.py:56-59 | a `$STOM` line creates measurement count+1, changes nothing else and keeps the summary invariant |
| `BidmcW2Parser.SummarizesPlain` | bidmc_py/W2Parser.py:62-65 | a tagged or ignored line keeps the summary invariant |
| `BidmcW2Parser.SummarizesTagged` | bidmc_py/W2Parser.py:62-65 | a tagged line that does not raise keeps the summary invariant |
| `BidmcW2Parser.SummarizesSample` | bidmc_py/W2Parser.py:67-69 | a sample pass that does not raise appends the stripped sample to the open measurement, changes nothing else and keeps the summary invariant |
| `BidmcW2Parser.SummarizesEnom` | bidmc_py/W2Parser.py:72-74 | an `$ENOM` pass that does not raise had a measurement open, appends it, changes nothing else and keeps the summary invariant |
| `BidmcW2Parser.AdvanceSummarizes` | bidmc_py/W2Parser.py:48-74 | every pass that does not stop the loop keeps the reader equal to the summaries of the lines read |
| `BidmcW2Parser.RunSummary` | bidmc_py/W2Parser.py:47-74 | while reading, the state is the summaries of the lines read |
| `BidmcW2Parser.RunStep` | bidmc_py/W2Parser.py:48-78 | each pass reads the next line and applies `Advance` to it, unless the loop has already stopped |
| `BidmcW2Parser.RunReachesEof` | bidmc_py/W2Parser.py:77-78 | a loop that does not raise is still reading at the first empty line, and then just finishes |
| `BidmcW2Parser.NotFinishedBeforeEof` | bidmc_py/W2Parser.py:77-78 | the loop never finishes before the first empty line |
| `BidmcW2Parser.ReadW2ReachesEof` | bidmc_py/W2Parser.py:41-78 | a successful read had a `.ASC` path and finished at the first empty line |
| `BidmcW2Parser.ReadW2Outcome` | bidmc_py/W2Parser.py:41-78 | a successful read's scan count is the last `$NUMS` value and each appended measurement is the one its `$ENOM` closed, with that block's samples |
| `BidmcW2Parser.ReadW2Numbering` | bidmc_py/W2Parser.py:46-74 | when blocks alternate, the list is numbered 1..N, an unclosed last block dropped |
| `BidmcW2Parser.BeforeFirstMeasurement` | bidmc_py/W2Parser.py:51-74 | before the first `$STOM`, a line raises for want of a measurement iff it is a sample line, an `$ENOM` or a two-word tagged line |
| `BidmcW2Parser.UnknownTagsIgnored` | bidmc_py/W2Parser.py:27-38 | `%SPD`, `%WDGL` and `%WDGD` lines are not tags of the draft and change nothing |
| `BidmcW2Parser.NoKeyForSpdOrWedge` | bidmc_py/W2Parser.py:27-38 | no key of the draft's table is a prefix of an SPD or wedge line |
| `BidmcW2Parser.SampleLine` | bidmc_py/W2Parser.py:67-69 | with a measurement open, a sample line appends its stripped text to that measurement's samples, does not raise and changes nothing else |
| `BidmcW2Parser.EnomLine` | bidmc_py/W2Parser.py:72-74 | with a measurement open, an `$ENOM` line appends it to the list, does not raise and changes nothing else |
| `BidmcW2Parser.UnmatchedLineIgnored` | bidmc_py/W2Parser.py:48-78 | a non-empty line matching no test changes nothing |
| `BidmcW2Parser.NotAscRejected` | bidmc_py/W2Parser.py:43-44 | a path not ending in `.ASC` is refused and nothing changes |
| `BidmcW2Parser.TaggedLine` | bidmc_py/W2Parser.py:62-65 | a tagged line raises unless it has two words and a known key; then it sets exactly that field of the open measurement |

## Left out

- File I/O (`open`, `readline`, `write`) is not modelled. The file is the
  sequence of `readline` results, and the written text is the method's
  result.
- The output path argument of `write_rfa_file` is not modelled.
- `process_files`, directory traversal and the `__main__` blocks are not
  modelled.
- `print` calls are not modelled, including the draft's key-table print
  (bidmc_py/W2Parser.py:42).
- The energy regular expressions are not modelled. Their result is the
  parameter `energy`.
- `float()` parsing and the `:.1f` / `:.0f` rounding are not modelled. They
  are the `FloatFormat` parameters.
- The exact whitespace `textwrap.dedent` and `strip` leave in the templates
  is not modelled.
  - The RFA header block is modelled as its lines joined by line breaks.
  - This assumes no substituted value contains a line break or leading
    whitespace.
- `W2CADMeasurement.__repr__` is not modelled. It only formats text for
  display.
- Object identity is modelled by measurement number. Objects are numbered
  by creation within one read, so the two agree.
- `PyStr.ParseInt` accepts an optional sign and ASCII digits with single
  `_` separators. It is only applied to words that `split()` produced, so
  they carry no surrounding whitespace. Python's `int()` also accepts
  other Unicode digits; these are not modelled.
- `W2ParserTb.W2Parser.WriteRfaFile`: the file write is left out. The
  method returns the text `write_rfa_file` writes and returns.
