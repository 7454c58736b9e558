/**
 * The handful of Python `str` operations the core relies on, over `seq<char>`:
 * `isspace`, `strip`, `lower`, `startswith`/`endswith`, `in` (substring),
 * `split(sep)`, `split()`, `sep.join(...)` and `str(n)`.
 */
module Strings {
  import opened Wrappers

  /** Python's `str.isspace()` for one character (CPython's whitespace table). */
  predicate IsSpace(c: char) {
    c == ' ' || ('\t' <= c <= '\r') || ('\U{1c}' <= c <= '\U{1f}')
    || c == '\U{85}' || c == '\U{a0}' || c == '\U{1680}'
    || ('\U{2000}' <= c <= '\U{200a}') || c == '\U{2028}' || c == '\U{2029}'
    || c == '\U{202f}' || c == '\U{205f}' || c == '\U{3000}'
  }

  /** True when every character is whitespace (so `s.strip()` is empty). */
  predicate IsBlank(s: string) {
    forall k :: 0 <= k < |s| ==> IsSpace(s[k])
  }

  /** `s.lstrip()`: drops the leading whitespace. */
  function TrimLeft(s: string): (r: string)
    ensures |r| <= |s| && r == s[|s| - |r|..]
    ensures IsBlank(s[..|s| - |r|])
    ensures r == [] || !IsSpace(r[0])
  {
    if s == [] || !IsSpace(s[0]) then s else TrimLeft(s[1..])
  }

  /** `s.rstrip()`: drops the trailing whitespace. */
  function TrimRight(s: string): (r: string)
    ensures |r| <= |s| && r == s[..|r|]
    ensures IsBlank(s[|r|..])
    ensures r == [] || !IsSpace(r[|r| - 1])
    ensures s != [] && !IsSpace(s[0]) ==> r != []
  {
    if s == [] || !IsSpace(s[|s| - 1]) then s else TrimRight(s[..|s| - 1])
  }

  /** No whitespace at either end. */
  predicate Trimmed(s: string) {
    s == [] || (!IsSpace(s[0]) && !IsSpace(s[|s| - 1]))
  }

  /** `s.strip()`: drops whitespace at both ends. */
  function Strip(s: string): (r: string)
    ensures |r| <= |s|
    ensures Trimmed(r)
  {
    TrimRight(TrimLeft(s))
  }

  /**
   * `s.strip()` is the slice of `s` left once all-whitespace ends are cut off; with
   * `Trimmed` this pins it down, since the cuts must stop at the first and the last
   * non-whitespace character.
   */
  lemma StripIsSlice(s: string)
    ensures exists i, j :: 0 <= i <= j <= |s| && Strip(s) == s[i..j] && IsBlank(s[..i]) && IsBlank(s[j..])
  {
    var left := TrimLeft(s);
    var i := |s| - |left|;
    var r := TrimRight(left);
    var j := i + |r|;
    assert r == s[i..j] && s[j..] == left[|r|..];
    assert 0 <= i <= j <= |s| && Strip(s) == s[i..j] && IsBlank(s[..i]) && IsBlank(s[j..]);
  }

  /** A text with no whitespace at either end is its own `strip()`. */
  lemma StripTrimmed(s: string)
    requires Trimmed(s)
    ensures Strip(s) == s
  {
    if s != [] {
      assert TrimLeft(s) == s;
      assert TrimRight(s) == s;
    }
  }

  /** `s.lower()` restricted to ASCII: `A`..`Z` become `a`..`z`, everything else is kept. */
  function LowerChar(c: char): char {
    if 'A' <= c <= 'Z' then (c as int + 32) as char else c
  }

  function Lower(s: string): (r: string)
    ensures |r| == |s|
    ensures forall k :: 0 <= k < |r| ==> !('A' <= r[k] <= 'Z')
    ensures forall k :: 0 <= k < |s| && !('A' <= s[k] <= 'Z') ==> r[k] == s[k]
  {
    seq(|s|, k requires 0 <= k < |s| => LowerChar(s[k]))
  }

  /** Lower-casing twice is lower-casing once. */
  lemma LowerIdempotent(s: string)
    ensures Lower(Lower(s)) == Lower(s)
  {
    var r := Lower(s);
    assert forall k :: 0 <= k < |r| ==> Lower(r)[k] == r[k];
  }

  /** `p` occurs in `s` starting at index `i`. */
  predicate OccursAt(s: string, p: string, i: int) {
    0 <= i && i + |p| <= |s| && s[i..i + |p|] == p
  }

  /** Python's `p in s` for strings. */
  predicate Contains(s: string, p: string) {
    exists i :: 0 <= i <= |s| - |p| && OccursAt(s, p, i)
  }

  predicate StartsWith(s: string, p: string) {
    |p| <= |s| && s[..|p|] == p
  }

  predicate EndsWith(s: string, p: string) {
    |p| <= |s| && s[|s| - |p|..] == p
  }

  /** `s.find(p)`: the first index at which `p` occurs in `s`, if any. */
  function IndexOf(s: string, p: string): (r: Option<nat>)
    ensures r.Some? ==> OccursAt(s, p, r.value)
    ensures r.Some? ==> forall k :: 0 <= k < r.value ==> !OccursAt(s, p, k)
    ensures r.None? <==> !Contains(s, p)
  {
    if |p| > |s| then None
    else if s[..|p|] == p then
      assert OccursAt(s, p, 0);
      Some(0)
    else
      var r := IndexOf(s[1..], p);
      ShiftOccurs(s, p);
      match r
      case None => None
      case Some(k) => Some(k + 1)
  }

  /** An occurrence at `i + 1` in `s` is an occurrence at `i` in `s[1..]`, and back. */
  lemma ShiftOccurs(s: string, p: string)
    requires s != []
    ensures forall i :: 1 <= i && OccursAt(s, p, i) ==> OccursAt(s[1..], p, i - 1)
    ensures forall j :: 0 <= j && OccursAt(s[1..], p, j) ==> OccursAt(s, p, j + 1)
  {
    forall j | 0 <= j
      ensures OccursAt(s[1..], p, j) <==> OccursAt(s, p, j + 1)
    {
      if j + 1 + |p| <= |s| {
        var a, b := s[j + 1..j + 1 + |p|], s[1..][j..j + |p|];
        assert |a| == |b|;
        forall k | 0 <= k < |a| ensures a[k] == b[k] { }
        assert a == b;
      }
    }
  }

  /** `s.split(sep)` for a non-empty separator: the pieces between non-overlapping occurrences, left to right. */
  function Split(s: string, sep: string): (parts: seq<string>)
    requires |sep| > 0
    ensures |parts| >= 1
    decreases |s|
  {
    match IndexOf(s, sep)
    case None => [s]
    case Some(i) => [s[..i]] + Split(s[i + |sep|..], sep)
  }

  /** `sep.join(parts)`. */
  function Join(sep: string, parts: seq<string>): string {
    if parts == [] then ""
    else if |parts| == 1 then parts[0]
    else parts[0] + sep + Join(sep, parts[1..])
  }

  /** Splitting and joining again gives back the original text. */
  lemma {:induction false} JoinSplit(s: string, sep: string)
    requires |sep| > 0
    ensures Join(sep, Split(s, sep)) == s
    decreases |s|
  {
    match IndexOf(s, sep)
    case None =>
    case Some(i) =>
      var rest := s[i + |sep|..];
      var parts := Split(rest, sep);
      JoinSplit(rest, sep);
      assert Split(s, sep) == [s[..i]] + parts;
      assert ([s[..i]] + parts)[1..] == parts;
      assert Join(sep, [s[..i]] + parts) == s[..i] + sep + Join(sep, parts);
      assert s == s[..i] + sep + rest;
  }

  /** No piece of a split contains the separator. */
  lemma {:induction false} SplitPiecesFree(s: string, sep: string)
    requires |sep| > 0
    ensures forall k :: 0 <= k < |Split(s, sep)| ==> !Contains(Split(s, sep)[k], sep)
    decreases |s|
  {
    match IndexOf(s, sep)
    case None =>
    case Some(i) =>
      var rest := s[i + |sep|..];
      SplitPiecesFree(rest, sep);
      var head := s[..i];
      forall j | 0 <= j <= |head| - |sep|
        ensures !OccursAt(head, sep, j)
      {
        assert s[j..j + |sep|] == head[j..j + |sep|];
        assert !OccursAt(s, sep, j);
      }
  }

  /** Length of the longest prefix of `s` without whitespace. */
  function RunLength(s: string): (n: nat)
    ensures n <= |s|
    ensures forall k :: 0 <= k < n ==> !IsSpace(s[k])
    ensures n == |s| || IsSpace(s[n])
  {
    if s == [] || IsSpace(s[0]) then 0 else 1 + RunLength(s[1..])
  }

  /** `s.split()`: the maximal runs of non-whitespace characters, in order. */
  function Words(s: string): (ws: seq<string>)
    decreases |s|
  {
    var t := TrimLeft(s);
    if t == [] then []
    else
      var n := RunLength(t);
      [t[..n]] + Words(t[n..])
  }

  /** A word of `s.split()`: a non-empty run without whitespace. */
  predicate IsWord(w: string) {
    w != [] && forall k :: 0 <= k < |w| ==> !IsSpace(w[k])
  }

  /** `s.lstrip()` is empty exactly when `s` is all whitespace. */
  lemma TrimLeftEmptyIffBlank(s: string)
    ensures TrimLeft(s) == [] <==> IsBlank(s)
  {
    var t := TrimLeft(s);
    if t == [] {
      assert s[..|s| - |t|] == s;
    } else {
      assert s[|s| - |t|] == t[0];
    }
  }

  /** `s.strip()` is empty exactly when `s` is all whitespace. */
  lemma StripEmptyIffBlank(s: string)
    ensures Strip(s) == [] <==> IsBlank(s)
  {
    TrimLeftEmptyIffBlank(s);
  }

  /** `s.split()` is empty exactly when `s` is all whitespace. */
  lemma WordsEmptyIffBlank(s: string)
    ensures Words(s) == [] <==> IsBlank(s)
  {
    TrimLeftEmptyIffBlank(s);
  }

  /** Each piece of `s.split()` is a word. */
  lemma {:induction false} WordsAreWords(s: string)
    ensures forall k :: 0 <= k < |Words(s)| ==> IsWord(Words(s)[k])
    decreases |s|
  {
    var t := TrimLeft(s);
    if t != [] {
      var n := RunLength(t);
      var word := t[..n];
      assert n > 0;
      forall k | 0 <= k < n ensures !IsSpace(word[k]) {
        assert word[k] == t[k];
      }
      WordsAreWords(t[n..]);
      var rest := Words(t[n..]);
      assert Words(s) == [word] + rest;
      forall k | 0 <= k < |Words(s)| ensures IsWord(Words(s)[k]) {
        if k > 0 {
          assert Words(s)[k] == rest[k - 1];
        }
      }
    }
  }

  /** `s.split()` starts a word at `k`: non-whitespace at the start or right after whitespace. */
  predicate StartsWord(s: string, k: int) {
    0 <= k < |s| && !IsSpace(s[k]) && (k == 0 || IsSpace(s[k - 1]))
  }

  /** The word starts in `lo..hi`. */
  function WordStartsIn(s: string, lo: int, hi: int): set<int> {
    set k | lo <= k < hi && StartsWord(s, k)
  }

  /** The positions at which `s.split()` starts a word. */
  function WordStarts(s: string): set<int> {
    WordStartsIn(s, 0, |s|)
  }

  /** Cut at a whitespace character (or the end), the word starts after the cut are those of the rest. */
  lemma {:induction false} WordStartsAfter(s: string, m: nat, n: nat)
    requires m + n <= |s|
    requires m == |s| || IsSpace(s[m])
    ensures |WordStartsIn(s, m, m + n)| == |WordStartsIn(s[m..], 0, n)|
    decreases n
  {
    var rest := s[m..];
    if n == 0 {
      assert WordStartsIn(s, m, m) == {} && WordStartsIn(rest, 0, 0) == {};
    } else {
      WordStartsAfter(s, m, n - 1);
      var k := m + n - 1;
      assert StartsWord(s, k) <==> StartsWord(rest, n - 1) by {
        assert s[k] == rest[n - 1];
        if n > 1 { assert s[k - 1] == rest[n - 2]; }
      }
      TopWordStart(s, m, k);
      TopWordStart(rest, 0, n - 1);
    }
  }

  /** The word starts from a whitespace character on are as many as those of the text from there. */
  lemma WordStartsOfRest(s: string, m: nat)
    requires m <= |s| && (m == |s| || IsSpace(s[m]))
    ensures |WordStartsIn(s, m, |s|)| == |WordStarts(s[m..])|
  {
    WordStartsAfter(s, m, |s| - m);
  }

  /** Growing a range by one position adds that position exactly when a word starts there. */
  lemma TopWordStart(s: string, lo: int, k: int)
    requires lo <= k
    ensures |WordStartsIn(s, lo, k + 1)| == |WordStartsIn(s, lo, k)| + if StartsWord(s, k) then 1 else 0
  {
    if StartsWord(s, k) {
      assert WordStartsIn(s, lo, k + 1) == WordStartsIn(s, lo, k) + {k};
    } else {
      assert WordStartsIn(s, lo, k + 1) == WordStartsIn(s, lo, k);
    }
  }

  /** Leading whitespace then a run without whitespace: the only word start up to the run's end is the run's first character. */
  lemma LeadingWordStart(s: string, off: nat, n: nat)
    requires 0 < n && off + n <= |s|
    requires forall k :: 0 <= k < off ==> IsSpace(s[k])
    requires forall k :: off <= k < off + n ==> !IsSpace(s[k])
    ensures WordStartsIn(s, 0, off + n) == {off}
  {
    forall k | 0 <= k < off + n
      ensures StartsWord(s, k) <==> k == off
    {
      if k > off {
        assert !IsSpace(s[k - 1]);
      }
    }
  }

  /** `len(s.split())` is the number of word starts. */
  lemma {:induction false} WordsCount(s: string)
    ensures |Words(s)| == |WordStarts(s)|
    decreases |s|
  {
    if TrimLeft(s) == [] {
      NoWordStarts(s);
    } else {
      var m := WordsAndStartsStep(s);
      WordsCount(s[m..]);
    }
  }

  /** The first word accounts for one word and one word start; the rest starts at `m`. */
  lemma WordsAndStartsStep(s: string) returns (m: nat)
    requires TrimLeft(s) != []
    ensures 0 < m <= |s|
    ensures |Words(s)| == 1 + |Words(s[m..])|
    ensures |WordStarts(s)| == 1 + |WordStarts(s[m..])|
  {
    m := WordsStep(s);
    StartsAfterFirstWord(s, m);
  }

  /** The first word holds exactly one word start; the others are those of the text after it. */
  lemma StartsAfterFirstWord(s: string, m: nat)
    requires TrimLeft(s) != [] && m == |s| - |TrimLeft(s)| + RunLength(TrimLeft(s))
    ensures |WordStarts(s)| == 1 + |WordStarts(s[m..])|
  {
    var t := TrimLeft(s);
    var off := |s| - |t|;
    LeadingSpace(s, off);
    FirstRun(s, t, off);
    WordStartsStep(s, off, m);
  }

  /** A text whose `lstrip()` is empty has no words and no word starts. */
  lemma NoWordStarts(s: string)
    requires TrimLeft(s) == []
    ensures Words(s) == [] && WordStarts(s) == {}
  {
    TrimLeftEmptyIffBlank(s);
    assert WordStarts(s) == {};
  }

  /** One word start for the first word, then those of the text after it. */
  lemma WordStartsStep(s: string, off: nat, m: nat)
    requires off < m <= |s| && (m == |s| || IsSpace(s[m]))
    requires forall k :: 0 <= k < off ==> IsSpace(s[k])
    requires forall k :: off <= k < m ==> !IsSpace(s[k])
    ensures |WordStarts(s)| == 1 + |WordStarts(s[m..])|
  {
    WordStartsOfRest(s, m);
    LeadingWordStart(s, off, m - off);
    assert WordStarts(s) == WordStartsIn(s, m, |s|) + {off};
  }

  /** Dropping the first word of a text with something in it leaves one word fewer. */
  lemma WordsStep(s: string) returns (m: nat)
    requires TrimLeft(s) != []
    ensures m == |s| - |TrimLeft(s)| + RunLength(TrimLeft(s))
    ensures |Words(s)| == 1 + |Words(s[m..])|
  {
    var t := TrimLeft(s);
    var n := RunLength(t);
    m := |s| - |t| + n;
    assert t[n..] == s[m..];
  }

  lemma LeadingSpace(s: string, off: nat)
    requires off <= |s| && IsBlank(s[..off])
    ensures forall k :: 0 <= k < off ==> IsSpace(s[k])
  {
    forall k | 0 <= k < off ensures IsSpace(s[k]) {
      assert s[..off][k] == s[k];
    }
  }

  lemma FirstRun(s: string, t: string, off: nat)
    requires off + |t| == |s| && t == s[off..]
    ensures forall k :: off <= k < off + RunLength(t) ==> !IsSpace(s[k])
    ensures off + RunLength(t) == |s| || IsSpace(s[off + RunLength(t)])
  {
    forall k | off <= k < off + RunLength(t) ensures !IsSpace(s[k]) {
      assert s[k] == t[k - off];
    }
    if off + RunLength(t) < |s| {
      assert s[off + RunLength(t)] == t[RunLength(t)];
    }
  }

  /** Every piece of splitting an all-whitespace text is all whitespace. */
  lemma {:induction false} SplitBlank(s: string, sep: string)
    requires |sep| > 0 && IsBlank(s)
    ensures forall k :: 0 <= k < |Split(s, sep)| ==> IsBlank(Split(s, sep)[k])
    decreases |s|
  {
    match IndexOf(s, sep)
    case None =>
    case Some(i) =>
      var rest := s[i + |sep|..];
      BlankSlice(s, 0, i);
      BlankSlice(s, i + |sep|, |s|);
      SplitBlank(rest, sep);
      var parts := Split(s, sep);
      assert parts == [s[..i]] + Split(rest, sep);
      forall k | 0 <= k < |parts| ensures IsBlank(parts[k]) {
        if k > 0 {
          assert parts[k] == Split(rest, sep)[k - 1];
        }
      }
  }

  /** Every slice of an all-whitespace text is all whitespace. */
  lemma BlankSlice(s: string, i: nat, j: nat)
    requires i <= j <= |s| && IsBlank(s)
    ensures IsBlank(s[i..j])
  {
    forall k | 0 <= k < j - i ensures IsSpace(s[i..j][k]) {
      assert s[i..j][k] == s[i + k];
    }
  }

  /** A text without the separator is split into itself alone. */
  lemma SplitWithout(s: string, sep: string)
    requires |sep| > 0 && !Contains(s, sep)
    ensures Split(s, sep) == [s]
  {
  }

  /** `str(n)` for a natural number: its decimal digits, most significant first, without leading zeros. */
  function DecimalString(n: nat): (r: string)
    ensures |r| >= 1
    ensures forall k :: 0 <= k < |r| ==> '0' <= r[k] <= '9'
    ensures r[0] == '0' ==> n == 0
    decreases n
  {
    var digit := ('0' as int + n % 10) as char;
    if n < 10 then [digit] else DecimalString(n / 10) + [digit]
  }

  /** The value of one decimal digit (0 for any other character). */
  function DigitValue(c: char): nat {
    if '0' <= c <= '9' then c as int - '0' as int else 0
  }

  /** `int(r)` for a string of decimal digits, most significant first. */
  function DigitsValue(r: string): nat {
    if r == [] then 0 else 10 * DigitsValue(r[..|r| - 1]) + DigitValue(r[|r| - 1])
  }

  /** Reading the digits of `str(n)` back gives `n`. */
  lemma {:induction false} DecimalStringValue(n: nat)
    ensures DigitsValue(DecimalString(n)) == n
    decreases n
  {
    var r := DecimalString(n);
    if n < 10 {
      assert r[..|r| - 1] == [];
    } else {
      DecimalStringValue(n / 10);
      assert r[..|r| - 1] == DecimalString(n / 10);
    }
  }
}
