/**
 * Two of the default tools: `text_analyzer`, which counts characters, words, sentences
 * and paragraphs and picks the longest and the shortest word, and `password_generator`,
 * which draws a password from letters, digits and optionally symbols.
 */
module DefaultTools {
  import opened Strings

  // ---------------------------------------------------------------------------------------
  // text_analyzer

  /** `text.replace(' ', '')`: only the plain space is removed, other whitespace stays. */
  function WithoutSpaces(s: string): string {
    if s == [] then [] else (if s[0] == ' ' then [] else [s[0]]) + WithoutSpaces(s[1..])
  }

  /** Removing spaces never lengthens a text. */
  lemma {:induction false} WithoutSpacesShorter(s: string)
    ensures |WithoutSpaces(s)| <= |s|
  {
    if s != [] {
      WithoutSpacesShorter(s[1..]);
    }
  }

  /** Removing spaces keeps every other character, as often as it occurs, and drops each ' '. */
  lemma {:induction false} WithoutSpacesContents(s: string)
    ensures multiset(WithoutSpaces(s)) == multiset(s)[' ' := 0]
    ensures |WithoutSpaces(s)| == |s| - multiset(s)[' ']
  {
    if s != [] {
      WithoutSpacesContents(s[1..]);
      assert s == [s[0]] + s[1..];
      assert multiset(s) == multiset([s[0]]) + multiset(s[1..]);
    }
  }

  /** `[p for p in pieces if p.strip()]`. */
  function NonBlank(pieces: seq<string>): seq<string> {
    if pieces == [] then []
    else (if Strip(pieces[0]) != [] then [pieces[0]] else []) + NonBlank(pieces[1..])
  }

  /** The filter keeps exactly the pieces that are not all whitespace, and no more pieces than there were. */
  lemma {:induction false} NonBlankMembers(pieces: seq<string>)
    ensures |NonBlank(pieces)| <= |pieces|
    ensures forall p :: p in NonBlank(pieces) <==> p in pieces && !IsBlank(p)
  {
    if pieces != [] {
      NonBlankMembers(pieces[1..]);
      StripEmptyIffBlank(pieces[0]);
      assert forall p :: p in pieces <==> p == pieces[0] || p in pieces[1..];
    }
  }

  /** The indexes in `lo..hi` of the pieces that hold something other than whitespace. */
  function NonBlankIn(pieces: seq<string>, lo: int, hi: int): set<int> {
    set k | lo <= k < hi && 0 <= k < |pieces| && !IsBlank(pieces[k])
  }

  /** The indexes of the pieces that hold something other than whitespace. */
  function NonBlankIndexes(pieces: seq<string>): set<int> {
    NonBlankIn(pieces, 0, |pieces|)
  }

  /** Growing a range by one index adds that index exactly when its piece is not blank. */
  lemma NonBlankTop(pieces: seq<string>, lo: int, k: int)
    requires lo <= k < |pieces| && 0 <= k
    ensures |NonBlankIn(pieces, lo, k + 1)| == |NonBlankIn(pieces, lo, k)| + if IsBlank(pieces[k]) then 0 else 1
  {
    if IsBlank(pieces[k]) {
      assert NonBlankIn(pieces, lo, k + 1) == NonBlankIn(pieces, lo, k);
    } else {
      assert NonBlankIn(pieces, lo, k + 1) == NonBlankIn(pieces, lo, k) + {k};
    }
  }

  /** The non-blank indexes after the first piece are as many as those of the remaining pieces. */
  lemma {:induction false} NonBlankShift(pieces: seq<string>, n: nat)
    requires n < |pieces|
    ensures |NonBlankIn(pieces, 1, n + 1)| == |NonBlankIn(pieces[1..], 0, n)|
    decreases n
  {
    if n == 0 {
      assert NonBlankIn(pieces, 1, 1) == {} && NonBlankIn(pieces[1..], 0, 0) == {};
    } else {
      NonBlankShift(pieces, n - 1);
      assert pieces[1..][n - 1] == pieces[n];
      NonBlankTop(pieces, 1, n);
      NonBlankTop(pieces[1..], 0, n - 1);
    }
  }

  /** `len([p for p in pieces if p.strip()])` is the number of pieces that are not all whitespace. */
  lemma {:induction false} NonBlankCount(pieces: seq<string>)
    ensures |NonBlank(pieces)| == |NonBlankIndexes(pieces)|
  {
    if pieces != [] {
      NonBlankCount(pieces[1..]);
      NonBlankHead(pieces);
      NonBlankIndexesTail(pieces);
    }
  }

  /** The first index counts exactly when its piece is not blank; the others are those of the remaining pieces. */
  lemma NonBlankIndexesTail(pieces: seq<string>)
    requires pieces != []
    ensures |NonBlankIndexes(pieces)| == |NonBlankIndexes(pieces[1..])| + if IsBlank(pieces[0]) then 0 else 1
  {
    NonBlankFirstIndex(pieces);
    NonBlankShift(pieces, |pieces| - 1);
  }

  /** The filter keeps the first piece exactly when it is not blank. */
  lemma NonBlankHead(pieces: seq<string>)
    requires pieces != []
    ensures |NonBlank(pieces)| == |NonBlank(pieces[1..])| + if IsBlank(pieces[0]) then 0 else 1
  {
    StripEmptyIffBlank(pieces[0]);
  }

  /** Index 0 is a non-blank index exactly when the first piece is not blank. */
  lemma NonBlankFirstIndex(pieces: seq<string>)
    requires pieces != []
    ensures |NonBlankIndexes(pieces)| == |NonBlankIn(pieces, 1, |pieces|)| + if IsBlank(pieces[0]) then 0 else 1
  {
    if IsBlank(pieces[0]) {
      assert NonBlankIndexes(pieces) == NonBlankIn(pieces, 1, |pieces|);
    } else {
      assert NonBlankIndexes(pieces) == NonBlankIn(pieces, 1, |pieces|) + {0};
    }
  }

  /** Index of `max(words, key=len)`: a later word replaces the best so far only when strictly longer. */
  function LongestIndex(words: seq<string>): (i: nat)
    requires words != []
    ensures i < |words|
  {
    if |words| == 1 then 0
    else
      var best := LongestIndex(words[..|words| - 1]);
      if |words[|words| - 1]| > |words[best]| then |words| - 1 else best
  }

  /** Index of `min(words, key=len)`: a later word replaces the best so far only when strictly shorter. */
  function ShortestIndex(words: seq<string>): (i: nat)
    requires words != []
    ensures i < |words|
  {
    if |words| == 1 then 0
    else
      var best := ShortestIndex(words[..|words| - 1]);
      if |words[|words| - 1]| < |words[best]| then |words| - 1 else best
  }

  /** `max` with `key=len` picks the first word of the greatest length. */
  lemma {:induction false} LongestIsFirstLongest(words: seq<string>)
    requires words != []
    ensures var i := LongestIndex(words);
      && (forall j :: 0 <= j < |words| ==> |words[j]| <= |words[i]|)
      && (forall j :: 0 <= j < i ==> |words[j]| < |words[i]|)
  {
    if |words| > 1 {
      var init := words[..|words| - 1];
      LongestIsFirstLongest(init);
      assert forall j :: 0 <= j < |init| ==> init[j] == words[j];
    }
  }

  /** `min` with `key=len` picks the first word of the least length. */
  lemma {:induction false} ShortestIsFirstShortest(words: seq<string>)
    requires words != []
    ensures var i := ShortestIndex(words);
      && (forall j :: 0 <= j < |words| ==> |words[i]| <= |words[j]|)
      && (forall j :: 0 <= j < i ==> |words[i]| < |words[j]|)
  {
    if |words| > 1 {
      var init := words[..|words| - 1];
      ShortestIsFirstShortest(init);
      assert forall j :: 0 <= j < |init| ==> init[j] == words[j];
    }
  }

  /** The integer and string fields of the analysis dictionary. */
  datatype Analysis = Analysis(
    characterCount: nat, characterCountNoSpaces: nat, wordCount: nat,
    sentenceCount: nat, paragraphCount: nat, longestWord: string, shortestWord: string)

  const SentenceMark := "."
  const ParagraphBreak := "\n\n"

  /** The statistics `text_analyzer` reports for a text. */
  function Analyze(text: string): (r: Analysis)
    ensures r.characterCountNoSpaces <= r.characterCount
  {
    WithoutSpacesShorter(text);
    var words := Words(text);
    Analysis(
      |text|,
      |WithoutSpaces(text)|,
      |words|,
      |NonBlank(Split(text, SentenceMark))|,
      |NonBlank(Split(text, ParagraphBreak))|,
      LongestWord(words),
      ShortestWord(words))
  }

  /** The character counts: all characters, and all but the ' ' characters. */
  lemma AnalyzeCharacters(text: string)
    ensures Analyze(text).characterCount == |text|
    ensures Analyze(text).characterCountNoSpaces == |text| - multiset(text)[' ']
  {
    WithoutSpacesContents(text);
  }

  /** An all-whitespace text has no words, and its longest and shortest words are both "". */
  lemma AnalyzeBlankWords(text: string)
    ensures Analyze(text).wordCount == 0 <==> IsBlank(text)
    ensures IsBlank(text) ==> Analyze(text).longestWord == "" && Analyze(text).shortestWord == ""
  {
    WordsEmptyIffBlank(text);
  }

  /** The first word of greatest length. */
  function LongestWord(words: seq<string>): string {
    if words == [] then "" else words[LongestIndex(words)]
  }

  /** The first word of least length. */
  function ShortestWord(words: seq<string>): string {
    if words == [] then "" else words[ShortestIndex(words)]
  }

  /** `max(words, key=len)` is one of the words, the first of greatest length. */
  lemma LongestWordIsFirstLongest(words: seq<string>)
    requires words != []
    ensures exists i :: (
      && 0 <= i < |words| && words[i] == LongestWord(words)
      && (forall j :: 0 <= j < |words| ==> |words[j]| <= |LongestWord(words)|)
      && (forall j :: 0 <= j < i ==> |words[j]| < |LongestWord(words)|))
  {
    LongestIsFirstLongest(words);
    var i := LongestIndex(words);
    assert words[i] == LongestWord(words);
  }

  /** `min(words, key=len)` is one of the words, the first of least length. */
  lemma ShortestWordIsFirstShortest(words: seq<string>)
    requires words != []
    ensures exists i :: (
      && 0 <= i < |words| && words[i] == ShortestWord(words)
      && (forall j :: 0 <= j < |words| ==> |ShortestWord(words)| <= |words[j]|)
      && (forall j :: 0 <= j < i ==> |ShortestWord(words)| < |words[j]|))
  {
    ShortestIsFirstShortest(words);
    var i := ShortestIndex(words);
    assert words[i] == ShortestWord(words);
  }

  /** For a text with something in it the longest and the shortest word are words of it. */
  lemma AnalyzePicksWords(text: string)
    requires !IsBlank(text)
    ensures Analyze(text).longestWord == LongestWord(Words(text)) && IsWord(Analyze(text).longestWord)
    ensures Analyze(text).shortestWord == ShortestWord(Words(text)) && IsWord(Analyze(text).shortestWord)
  {
    WordsEmptyIffBlank(text);
    WordsAreWords(text);
  }

  /** Filtering pieces that are all whitespace leaves nothing. */
  lemma {:induction false} EmptyWhenAllBlank(pieces: seq<string>)
    requires forall k :: 0 <= k < |pieces| ==> IsBlank(pieces[k])
    ensures NonBlank(pieces) == []
  {
    if pieces != [] {
      StripEmptyIffBlank(pieces[0]);
      EmptyWhenAllBlank(pieces[1..]);
    }
  }

  /**
   * The pieces between separators that hold something other than whitespace: at most one
   * per piece, none in an all-whitespace text, and one in a text with something in it and
   * no separator.
   */
  lemma CountedPieces(text: string, sep: string)
    requires |sep| > 0
    ensures |NonBlank(Split(text, sep))| <= |Split(text, sep)|
    ensures IsBlank(text) ==> NonBlank(Split(text, sep)) == []
    ensures !IsBlank(text) && !Contains(text, sep) ==> NonBlank(Split(text, sep)) == [text]
  {
    NonBlankMembers(Split(text, sep));
    if IsBlank(text) {
      SplitBlank(text, sep);
      EmptyWhenAllBlank(Split(text, sep));
    } else if !Contains(text, sep) {
      SplitWithout(text, sep);
      StripEmptyIffBlank(text);
      assert [text][1..] == [];
    }
  }

  /** `word_count` is the number of positions that start a word. */
  lemma AnalyzeWords(text: string)
    ensures Analyze(text).wordCount == |WordStarts(text)|
  {
    WordsCount(text);
  }

  /** `sentence_count` counts the non-blank pieces between periods. */
  lemma AnalyzeSentences(text: string)
    ensures Analyze(text).sentenceCount == |NonBlankIndexes(Split(text, SentenceMark))|
    ensures Analyze(text).sentenceCount <= |Split(text, SentenceMark)|
    ensures IsBlank(text) ==> Analyze(text).sentenceCount == 0
    ensures !IsBlank(text) && !Contains(text, SentenceMark) ==> Analyze(text).sentenceCount == 1
  {
    CountedPieces(text, SentenceMark);
    NonBlankCount(Split(text, SentenceMark));
  }

  /** `paragraph_count` counts the non-blank pieces between blank-line breaks. */
  lemma AnalyzeParagraphs(text: string)
    ensures Analyze(text).paragraphCount == |NonBlankIndexes(Split(text, ParagraphBreak))|
    ensures Analyze(text).paragraphCount <= |Split(text, ParagraphBreak)|
    ensures IsBlank(text) ==> Analyze(text).paragraphCount == 0
    ensures !IsBlank(text) && !Contains(text, ParagraphBreak) ==> Analyze(text).paragraphCount == 1
  {
    CountedPieces(text, ParagraphBreak);
    NonBlankCount(Split(text, ParagraphBreak));
  }

  // ---------------------------------------------------------------------------------------
  // password_generator

  /** The characters with codes `lo` up to, not including, `hi`, in order. */
  function CharRange(lo: nat, hi: nat): (r: string)
    requires hi <= 128
    ensures |r| == if lo <= hi then hi - lo else 0
    ensures forall k :: 0 <= k < |r| ==> r[k] == (lo + k) as char
    decreases hi - lo
  {
    if lo >= hi then [] else [lo as char] + CharRange(lo + 1, hi)
  }

  /** `string.ascii_letters`: the lower-case letters, then the upper-case ones. */
  const AsciiLetters := CharRange('a' as nat, 'z' as nat + 1) + CharRange('A' as nat, 'Z' as nat + 1)

  /** `string.digits`. */
  const Digits := CharRange('0' as nat, '9' as nat + 1)

  const Symbols := "!@#$%^&*()_+-=[]{}|;:,.<>?"

  const PasswordPrefix := "Generated password: "

  /** An ASCII letter or digit. */
  predicate IsAsciiAlnum(c: char) {
    'a' <= c <= 'z' || 'A' <= c <= 'Z' || '0' <= c <= '9'
  }

  /** The characters a password is drawn from. */
  function Alphabet(includeSymbols: bool): (chars: string)
    ensures |chars| >= 62
  {
    AsciiLetters + Digits + (if includeSymbols then Symbols else "")
  }

  /** The alphabet is the 62 letters and digits, followed by the symbols exactly when they are asked for. */
  lemma AlphabetContents(includeSymbols: bool)
    ensures |Alphabet(includeSymbols)| == 62 + (if includeSymbols then |Symbols| else 0)
    ensures forall k :: 0 <= k < 62 ==> IsAsciiAlnum(Alphabet(includeSymbols)[k])
    ensures includeSymbols ==> Alphabet(includeSymbols)[62..] == Symbols
  {
    var a := Alphabet(includeSymbols);
    assert a[..62] == AsciiLetters + Digits;
    forall k | 0 <= k < 62 ensures IsAsciiAlnum(a[k]) {
      assert a[k] == (AsciiLetters + Digits)[k];
    }
  }

  /**
   * `''.join(random.choice(characters) for _ in range(length))`, where the `k`-th draw is
   * the character at `pick(k)` (taken modulo the alphabet's size: every draw is possible).
   */
  function Password(length: int, includeSymbols: bool, pick: nat -> nat): string {
    var chars := Alphabet(includeSymbols);
    var n := if length <= 0 then 0 else length;
    seq(n, k requires 0 <= k < n => chars[pick(k) % |chars|])
  }

  /** `password_generator`'s answer. */
  function PasswordGenerator(length: int, includeSymbols: bool, pick: nat -> nat): (r: string)
    ensures |r| == |PasswordPrefix| + (if length <= 0 then 0 else length)
    ensures r[..|PasswordPrefix|] == PasswordPrefix
  {
    PasswordPrefix + Password(length, includeSymbols, pick)
  }

  /**
   * A password has exactly `length` characters (none when `length <= 0`), each drawn from
   * the alphabet: a letter or a digit, or one of the symbols when those are included.
   */
  lemma PasswordShape(length: int, includeSymbols: bool, pick: nat -> nat)
    ensures var p := Password(length, includeSymbols, pick);
      && |p| == (if length <= 0 then 0 else length)
      && (forall k :: 0 <= k < |p| ==> p[k] in Alphabet(includeSymbols))
      && (!includeSymbols ==> forall k :: 0 <= k < |p| ==> IsAsciiAlnum(p[k]))
      && (includeSymbols ==> forall k :: 0 <= k < |p| ==> IsAsciiAlnum(p[k]) || p[k] in Symbols)
  {
    var chars, p := Alphabet(includeSymbols), Password(length, includeSymbols, pick);
    AlphabetContents(includeSymbols);
    forall k | 0 <= k < |p|
      ensures p[k] in chars && (IsAsciiAlnum(p[k]) || (includeSymbols && p[k] in Symbols))
    {
      var i := pick(k) % |chars|;
      assert p[k] == chars[i];
      if i >= 62 {
        assert chars[i] == chars[62..][i - 62];
      }
    }
  }

  /** The index of the first occurrence of `c` in `s` (0 when there is none). */
  function Find(s: string, c: char): (i: nat)
    ensures c in s ==> i < |s| && s[i] == c
  {
    if s == [] || s[0] == c then 0 else 1 + Find(s[1..], c)
  }

  /** A draw already below the alphabet's size is taken as it is. */
  lemma SmallRemainder(i: nat, n: nat)
    requires i < n
    ensures i % n == i
  {
  }

  /** Every string of the right length over the alphabet is a password some draws produce. */
  lemma EveryPasswordPossible(length: int, includeSymbols: bool, w: string)
    requires |w| == (if length <= 0 then 0 else length)
    requires forall k :: 0 <= k < |w| ==> w[k] in Alphabet(includeSymbols)
    ensures exists pick: nat -> nat :: Password(length, includeSymbols, pick) == w
  {
    var chars := Alphabet(includeSymbols);
    var pick: nat -> nat := (k: nat) => if k < |w| then Find(chars, w[k]) else 0;
    var p := Password(length, includeSymbols, pick);
    forall k | 0 <= k < |w|
      ensures p[k] == w[k]
    {
      var i := Find(chars, w[k]);
      assert pick(k) == i && i < |chars|;
      SmallRemainder(i, |chars|);
      assert p[k] == chars[i];
    }
    assert p == w;
  }
}
