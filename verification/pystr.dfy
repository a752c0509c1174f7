/** The handful of Python `str` builtins the converter relies on, with the
    behaviour CPython gives them: `str.split()` with no separator,
    `str.split(sep)` with a one-character separator and its inverse
    `sep.join`, `str.strip(chars)`, `str.startswith`/`str.endswith`,
    `str.replace` on single characters, `int(token)` and `str(int)`. */
module PyStr {
  import opened Wrappers

  // ---------------------------------------------------------------------
  // Prefixes and suffixes
  // ---------------------------------------------------------------------

  /** `s.endswith(suffix)` */
  predicate EndsWith(s: string, suffix: string) {
    |suffix| <= |s| && s[|s| - |suffix|..] == suffix
  }

  /** The first character of a string that starts with a non-empty prefix
      is the prefix's first character. */
  lemma PrefixHead(p: string, s: string)
    requires |p| > 0 && p <= s
    ensures |s| > 0 && s[0] == p[0]
  {
    assert s[..|p|] == p;
  }

  // ---------------------------------------------------------------------
  // str.split() with no separator
  // ---------------------------------------------------------------------

  /** The characters for which CPython's `str.isspace()` holds: those of
      bidirectional class WS, B or S, and the space separators (Zs). */
  predicate IsSpace(c: char) {
    || c == ' ' || ('\t' <= c <= '\r') || ('\U{1c}' <= c <= '\U{1f}')
    || c == '\U{85}' || c == '\U{a0}' || c == '\U{1680}'
    || ('\U{2000}' <= c <= '\U{200a}') || c == '\U{2028}' || c == '\U{2029}'
    || c == '\U{202f}' || c == '\U{205f}' || c == '\U{3000}'
  }

  /** The longest prefix of `s` that holds no whitespace. */
  function Word(s: string): (w: string)
    ensures w <= s
    ensures forall c <- w :: !IsSpace(c)
    ensures |w| < |s| ==> IsSpace(s[|w|])
  {
    if s == [] || IsSpace(s[0]) then [] else [s[0]] + Word(s[1..])
  }

  /** `s.split()`: the maximal runs of non-whitespace characters, in order. */
  function SplitWs(s: string): (tokens: seq<string>)
    ensures forall t <- tokens :: t != [] && forall c <- t :: !IsSpace(c)
    decreases |s|
  {
    if s == [] then []
    else if IsSpace(s[0]) then SplitWs(s[1..])
    else
      var w := Word(s);
      [w] + SplitWs(s[|w|..])
  }

  /** A run of non-whitespace characters ended by whitespace (or by the end
      of the string) is the word at the front. */
  lemma {:induction false} WordBeforeSpace(w: string, rest: string)
    requires forall c <- w :: !IsSpace(c)
    requires rest == [] || IsSpace(rest[0])
    ensures Word(w + rest) == w
  {
    if w != [] {
      assert w[0] in w;
      assert (w + rest)[1..] == w[1..] + rest;
      WordBeforeSpace(w[1..], rest);
    } else {
      assert w + rest == rest;
    }
  }

  /** `(w + rest).split()` is `w` followed by `rest.split()` when `rest`
      starts with whitespace. */
  lemma SplitWsWord(w: string, rest: string)
    requires w != [] && forall c <- w :: !IsSpace(c)
    requires rest != [] && IsSpace(rest[0])
    ensures SplitWs(w + rest) == [w] + SplitWs(rest)
  {
    assert w[0] in w;
    WordBeforeSpace(w, rest);
    assert (w + rest)[|w|..] == rest;
  }

  /** Leading whitespace makes no word of its own. */
  lemma {:induction false} SplitWsSpaces(gap: string, s: string)
    requires forall c <- gap :: IsSpace(c)
    ensures SplitWs(gap + s) == SplitWs(s)
  {
    if gap != [] {
      assert gap[0] in gap;
      assert (gap + s)[1..] == gap[1..] + s;
      SplitWsSpaces(gap[1..], s);
    } else {
      assert gap + s == s;
    }
  }

  /** Two words separated by whitespace are the first two words of the
      text, whatever follows the second after whitespace. */
  lemma SplitWsSecondWord(w1: string, gap: string, w2: string, tail: string)
    requires w1 != [] && forall c <- w1 :: !IsSpace(c)
    requires w2 != [] && forall c <- w2 :: !IsSpace(c)
    requires gap != [] && forall c <- gap :: IsSpace(c)
    requires tail != [] && IsSpace(tail[0])
    ensures var tokens := SplitWs(w1 + gap + w2 + tail);
      |tokens| >= 2 && tokens[0] == w1 && tokens[1] == w2
  {
    var afterW1 := gap + (w2 + tail);
    assert w1 + gap + w2 + tail == w1 + afterW1;
    assert gap[0] in gap;
    SplitWsWord(w1, afterW1);
    SplitWsSpaces(gap, w2 + tail);
    SplitWsWord(w2, tail);
  }

  // ---------------------------------------------------------------------
  // str.split(sep) with a one-character separator, and sep.join
  // ---------------------------------------------------------------------

  /** `c.join(parts)` */
  function Join(parts: seq<string>, c: char): (s: string)
  {
    if |parts| == 0 then ""
    else if |parts| == 1 then parts[0]
    else parts[0] + [c] + Join(parts[1..], c)
  }

  /** `s.split(c)`: the pieces between occurrences of `c`; never empty, and
      an empty piece stands wherever two separators touch or a separator
      starts or ends the string. */
  function SplitOn(s: string, c: char): (parts: seq<string>)
    ensures |parts| >= 1
    ensures forall p <- parts :: c !in p
  {
    if s == [] then [""]
    else
      var rest := SplitOn(s[1..], c);
      if s[0] == c then [""] + rest
      else [[s[0]] + rest[0]] + rest[1..]
  }

  /** Joining the pieces of a split with the separator restores the string. */
  lemma {:induction false} JoinSplitOn(s: string, c: char)
    ensures Join(SplitOn(s, c), c) == s
  {
    if s != [] {
      var rest := SplitOn(s[1..], c);
      JoinSplitOn(s[1..], c);
      if s[0] == c {
        assert SplitOn(s, c) == [""] + rest;
        assert ([""] + rest)[1..] == rest;
      } else {
        var parts := SplitOn(s, c);
        assert parts == [[s[0]] + rest[0]] + rest[1..];
        if |rest| == 1 {
          assert parts == [[s[0]] + rest[0]];
        } else {
          assert parts[1..] == rest[1..];
          assert Join(rest, c) == rest[0] + [c] + Join(rest[1..], c);
        }
      }
    }
  }

  /** Splitting a string that holds no separator yields the string itself. */
  lemma {:induction false} SplitOnNoSeparator(p: string, c: char)
    requires c !in p
    ensures SplitOn(p, c) == [p]
  {
    if p != [] {
      SplitOnNoSeparator(p[1..], c);
      assert [p[0]] + p[1..] == p;
    }
  }

  /** A separator-free piece followed by a separator splits off as one piece. */
  lemma {:induction false} SplitOnCons(p: string, c: char, rest: string)
    requires c !in p
    ensures SplitOn(p + [c] + rest, c) == [p] + SplitOn(rest, c)
  {
    if p == [] {
      assert p + [c] + rest == [c] + rest;
      assert ([c] + rest)[1..] == rest;
    } else {
      SplitOnCons(p[1..], c, rest);
      var s := p + [c] + rest;
      assert p[0] in p;
      assert s[0] == p[0] != c;
      assert s[1..] == p[1..] + [c] + rest;
      assert [p[0]] + p[1..] == p;
    }
  }

  /** Splitting a join of separator-free pieces gives the pieces back. */
  lemma {:induction false} SplitOnJoin(parts: seq<string>, c: char)
    requires |parts| >= 1
    requires forall p <- parts :: c !in p
    ensures SplitOn(Join(parts, c), c) == parts
  {
    if |parts| == 1 {
      SplitOnNoSeparator(parts[0], c);
    } else {
      SplitOnJoin(parts[1..], c);
      SplitOnCons(parts[0], c, Join(parts[1..], c));
      assert [parts[0]] + parts[1..] == parts;
    }
  }

  // ---------------------------------------------------------------------
  // str.replace on one character, str.strip(chars)
  // ---------------------------------------------------------------------

  /** `s.replace(a, b)` for one-character `a` and `b`. */
  function ReplaceChar(s: string, a: char, b: char): (r: string)
    ensures |r| == |s|
    ensures forall i :: 0 <= i < |s| ==> r[i] == (if s[i] == a then b else s[i])
  {
    if s == [] then [] else [if s[0] == a then b else s[0]] + ReplaceChar(s[1..], a, b)
  }

  /** Splitting on `a` and joining with `b` is replacing `a` by `b`. */
  lemma {:induction false} JoinSplitOnIsReplace(s: string, a: char, b: char)
    ensures Join(SplitOn(s, a), b) == ReplaceChar(s, a, b)
  {
    if s != [] {
      var rest := SplitOn(s[1..], a);
      JoinSplitOnIsReplace(s[1..], a, b);
      var parts := SplitOn(s, a);
      if s[0] == a {
        assert parts == [""] + rest;
        assert parts[1..] == rest;
      } else if |rest| == 1 {
        assert parts == [[s[0]] + rest[0]];
      } else {
        assert parts[1..] == rest[1..];
        assert Join(rest, b) == rest[0] + [b] + Join(rest[1..], b);
      }
    }
  }

  /** `s.lstrip(chars)`: the suffix left after removing the leading run of
      characters drawn from `chars`. */
  function StripLeft(s: string, chars: set<char>): (r: string)
    ensures r != [] ==> r[0] !in chars
    ensures |r| <= |s| && r == s[|s| - |r|..]
    ensures forall k :: 0 <= k < |s| - |r| ==> s[k] in chars
  {
    if s != [] && s[0] in chars then StripLeft(s[1..], chars) else s
  }

  /** `s.rstrip(chars)`: the prefix left after removing the trailing run of
      characters drawn from `chars`. */
  function StripRight(s: string, chars: set<char>): (r: string)
    ensures r != [] ==> r[|r| - 1] !in chars
    ensures r <= s
    ensures forall k :: |r| <= k < |s| ==> s[k] in chars
  {
    if s != [] && s[|s| - 1] in chars then StripRight(s[..|s| - 1], chars) else s
  }

  /** `s.strip(chars)`: `s` without its leading and trailing run of
      characters drawn from `chars`. */
  function Strip(s: string, chars: set<char>): (r: string)
    ensures r != [] ==> r[0] !in chars && r[|r| - 1] !in chars
    ensures exists i, j ::
      && 0 <= i <= j <= |s| && r == s[i..j]
      && (forall k :: 0 <= k < i ==> s[k] in chars)
      && (forall k :: j <= k < |s| ==> s[k] in chars)
  {
    var left := StripLeft(s, chars);
    var r := StripRight(left, chars);
    StripSlice(s, left, r, chars);
    r
  }

  /** A prefix of a suffix of `s`, where the suffix drops a run of
      characters from `chars` and the prefix drops another: a slice of `s`
      with such a run removed at each end. */
  lemma StripSlice(s: string, left: string, r: string, chars: set<char>)
    requires |left| <= |s| && left == s[|s| - |left|..]
    requires forall k :: 0 <= k < |s| - |left| ==> s[k] in chars
    requires r <= left && forall k :: |r| <= k < |left| ==> left[k] in chars
    ensures exists i, j ::
      && 0 <= i <= j <= |s| && r == s[i..j]
      && (forall k :: 0 <= k < i ==> s[k] in chars)
      && (forall k :: j <= k < |s| ==> s[k] in chars)
  {
    var i := |s| - |left|;
    var j := i + |r|;
    assert r == s[i..j];
    assert forall k :: j <= k < |s| ==> s[k] == left[k - i];
  }

  // ---------------------------------------------------------------------
  // int(token) and str(n)
  // ---------------------------------------------------------------------

  predicate IsDigit(c: char) { '0' <= c <= '9' }

  /** The digit strings `int()` accepts in base 10: ASCII digits, with
      single underscores allowed between two digits. */
  predicate DigitGroups(s: string) {
    && |s| > 0 && IsDigit(s[0])
    && (forall i :: 0 <= i < |s| ==> IsDigit(s[i]) || s[i] == '_')
    && (forall i :: 0 <= i < |s| && s[i] == '_' ==> i + 1 < |s| && IsDigit(s[i + 1]))
  }

  /** The number a digit string denotes, underscores ignored. */
  function DigitsValue(s: string): nat {
    if s == [] then 0
    else if IsDigit(s[|s| - 1]) then DigitsValue(s[..|s| - 1]) * 10 + (s[|s| - 1] as int - '0' as int)
    else DigitsValue(s[..|s| - 1])
  }

  /** `int(token)` for a token without surrounding whitespace: an optional
      sign followed by a digit string; None where Python raises ValueError. */
  function ParseInt(s: string): Option<int>
  {
    if |s| > 0 && (s[0] == '-' || s[0] == '+') then
      if DigitGroups(s[1..]) then
        var magnitude: int := DigitsValue(s[1..]);
        Some(if s[0] == '-' then -magnitude else magnitude)
      else None
    else if DigitGroups(s) then Some(DigitsValue(s))
    else None
  }

  function DigitChar(d: nat): (c: char)
    requires d < 10
    ensures IsDigit(c) && c as int - '0' as int == d
  {
    ['0', '1', '2', '3', '4', '5', '6', '7', '8', '9'][d]
  }

  /** `str(n)` for a non-negative integer. */
  function NatToString(n: nat): (s: string)
    ensures |s| > 0 && forall c <- s :: IsDigit(c)
  {
    if n < 10 then [DigitChar(n)] else NatToString(n / 10) + [DigitChar(n % 10)]
  }

  /** `str(i)` for any integer. */
  function IntToString(i: int): (s: string)
    ensures |s| > 0 && forall c <- s :: !IsSpace(c)
  {
    if i < 0 then "-" + NatToString(-i) else NatToString(i)
  }

  lemma {:induction false} NatToStringValue(n: nat)
    ensures DigitsValue(NatToString(n)) == n
  {
    if n >= 10 {
      NatToStringValue(n / 10);
      var s := NatToString(n);
      assert s[..|s| - 1] == NatToString(n / 10);
    }
  }

  lemma DigitStringGroups(s: string)
    requires |s| > 0 && forall c <- s :: IsDigit(c)
    ensures DigitGroups(s)
  {
    assert forall i :: 0 <= i < |s| ==> s[i] in s;
  }

  /** `int(str(i)) == i`: the integer a `$NUMS` line carries survives being
      written into the `:MSR` line and read back. */
  lemma ParseIntString(i: int)
    ensures ParseInt(IntToString(i)) == Some(i)
  {
    var n: nat := if i < 0 then -i else i;
    var digits := NatToString(n);
    NatToStringValue(n);
    DigitStringGroups(digits);
    if i < 0 {
      assert IntToString(i) == "-" + digits;
      assert ("-" + digits)[1..] == digits;
    } else {
      assert IntToString(i) == digits;
      assert IsDigit(digits[0]);
    }
  }
}
