/** The line-level vocabulary of a W2CAD file, shared by both drafts of the
    reader, and summaries of a sequence of lines that do not depend on how
    a reader is written: how many `$STOM` lines it holds, which measurement
    each `$ENOM` line closes, which sample lines belong to which measurement,
    and whether `$STOM`/`$ENOM` alternate. The readers are proved against
    these summaries. */
module W2Lines {
  import opened Wrappers
  import opened PyStr

  /** `line.startswith("$NUMS")`: the scan-count directive. */
  predicate IsNums(line: string) { "$NUMS" <= line }

  /** `line.startswith("$STOM")`: start of a measurement. */
  predicate IsStom(line: string) { "$STOM" <= line }

  /** `line.startswith("<")`: a sample line. */
  predicate IsSample(line: string) { "<" <= line }

  /** `line.startswith("$ENOM")`: end of a measurement. */
  predicate IsEnom(line: string) { "$ENOM" <= line }

  /** The characters `line.strip("<>\n")` removes from a sample line. */
  const SampleDelimiters: set<char> := {'<', '>', '\n'}

  /** The text a sample line contributes to `data_line`. */
  function SampleText(line: string): string {
    Strip(line, SampleDelimiters)
  }

  /** `int(line.split()[-1])`, None where Python raises. */
  function NumsValue(line: string): Option<int> {
    var tokens := SplitWs(line);
    if |tokens| == 0 then None else ParseInt(tokens[|tokens| - 1])
  }

  /** The i-th result of `fp.readline()`: the i-th line, or "" once the file
      is exhausted. */
  function ReadLine(lines: seq<string>, i: nat): string {
    if i < |lines| then lines[i] else ""
  }

  /** The index of the first line `readline` returns as "", the point
      where the reading loop meets what it takes for the end of the file. */
  function FirstEof(lines: seq<string>): (e: nat)
    ensures e <= |lines| && ReadLine(lines, e) == ""
    ensures forall i :: 0 <= i < e ==> lines[i] != ""
  {
    if lines == [] || lines[0] == "" then 0
    else
      var e := 1 + FirstEof(lines[1..]);
      assert forall i :: 1 <= i < e ==> lines[i] == lines[1..][i - 1];
      e
  }

  /** The four markers are told apart by their first two characters, so a
      line is at most one of them. */
  lemma MarkersDisjoint(line: string)
    ensures IsNums(line) ==> !IsStom(line) && !IsSample(line) && !IsEnom(line)
    ensures IsStom(line) ==> !IsSample(line) && !IsEnom(line)
    ensures IsSample(line) ==> !IsEnom(line)
    ensures (IsNums(line) || IsStom(line) || IsEnom(line)) ==> line[0] == '$'
    ensures IsSample(line) ==> line[0] == '<'
    ensures line == "" ==> !IsNums(line) && !IsStom(line) && !IsSample(line) && !IsEnom(line)
  {
    if IsNums(line) { assert line[..5] == "$NUMS"; }
    if IsStom(line) { assert line[..5] == "$STOM"; }
    if IsEnom(line) { assert line[..5] == "$ENOM"; }
    if IsSample(line) { assert line[..1] == "<"; }
  }

  function Last(ls: seq<string>): string
    requires |ls| > 0
  {
    ls[|ls| - 1]
  }

  function Init(ls: seq<string>): seq<string>
    requires |ls| > 0
  {
    ls[..|ls| - 1]
  }

  /** The number of `$STOM` lines in `ls`: the number the measurement that
      is open after `ls` carries. */
  function StomCount(ls: seq<string>): nat {
    if ls == [] then 0
    else StomCount(Init(ls)) + (if IsStom(Last(ls)) then 1 else 0)
  }

  /** For each `$ENOM` line of `ls`, in order, the number of `$STOM` lines
      before it: the measurement it closes. */
  function EnomIds(ls: seq<string>): seq<nat> {
    if ls == [] then []
    else EnomIds(Init(ls)) + (if IsEnom(Last(ls)) then [StomCount(Init(ls))] else [])
  }

  /** The texts of the sample lines of `ls` that follow the `id`-th `$STOM`
      and precede the next one, in order. */
  function SamplesOf(ls: seq<string>, id: nat): seq<string> {
    if ls == [] then []
    else
      SamplesOf(Init(ls), id)
      + (if IsSample(Last(ls)) && StomCount(Init(ls)) == id then [SampleText(Last(ls))] else [])
  }

  /** The value of the last `$NUMS` line of `ls`, or `before` when there is
      none. */
  function LastNums(ls: seq<string>, before: Option<int>): Option<int> {
    if ls == [] then before
    else if IsNums(Last(ls)) then NumsValue(Last(ls))
    else LastNums(Init(ls), before)
  }

  /** Some(open) when the `$STOM` and `$ENOM` lines of `ls` alternate,
      starting with a `$STOM`; `open` says whether a `$STOM` is last. */
  function Nesting(ls: seq<string>): Option<bool> {
    if ls == [] then Some(false)
    else
      match Nesting(Init(ls))
      case None => None
      case Some(open) =>
        if IsStom(Last(ls)) then (if open then None else Some(true))
        else if IsEnom(Last(ls)) then (if open then Some(false) else None)
        else Some(open)
  }

  /** [lo, lo + 1, ..., hi - 1] */
  function Range(lo: nat, hi: nat): (r: seq<nat>)
    ensures |r| == if lo <= hi then hi - lo else 0
    ensures forall k :: 0 <= k < |r| ==> r[k] == lo + k
    decreases hi
  {
    if hi <= lo then [] else Range(lo, hi - 1) + [hi - 1]
  }

  /** A sequence `ls` and that sequence extended by one line agree on what
      the summaries say about `ls`. */
  lemma InitOfSnoc(ls: seq<string>, line: string)
    ensures Init(ls + [line]) == ls && Last(ls + [line]) == line
  {
  }

  /** The first `n` lines are the first `n - 1` and then line `n - 1`. */
  lemma PrefixSnoc(lines: seq<string>, n: nat)
    requires 0 < n <= |lines|
    ensures lines[..n] == lines[..n - 1] + [lines[n - 1]]
  {
  }

  /** A positive `$STOM` count is witnessed by a `$STOM` line. */
  lemma {:induction false} StomCountWitness(ls: seq<string>)
    requires StomCount(ls) > 0
    ensures exists j :: 0 <= j < |ls| && IsStom(ls[j])
  {
    if !IsStom(Last(ls)) {
      StomCountWitness(Init(ls));
      var j :| 0 <= j < |Init(ls)| && IsStom(Init(ls)[j]);
      assert ls[j] == Init(ls)[j];
    }
  }

  /** Before its `$STOM` line a measurement owns no samples. */
  lemma {:induction false} SamplesOfLater(ls: seq<string>, id: nat)
    requires id > StomCount(ls)
    ensures SamplesOf(ls, id) == []
  {
    if ls != [] {
      SamplesOfLater(Init(ls), id);
    }
  }

  /** When `$STOM` and `$ENOM` alternate, the `$ENOM` lines close the
      measurements 1, 2, 3, ... in that order; a measurement still open at
      the end is the only one not closed. */
  lemma {:induction false} NestedEnomIds(ls: seq<string>, open: bool)
    requires Nesting(ls) == Some(open)
    ensures open ==> StomCount(ls) >= 1
    ensures EnomIds(ls) == Range(1, if open then StomCount(ls) else StomCount(ls) + 1)
  {
    if ls != [] {
      var line := Last(ls);
      MarkersDisjoint(line);
      var before :| Nesting(Init(ls)) == Some(before);
      NestedEnomIds(Init(ls), before);
    }
  }
}
