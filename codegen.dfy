/**
 * The validator for generated tool code and the clean-up applied to the text the
 * code generator returns (markdown fences, indentation, surrounding whitespace).
 * Python's `compile` is an oracle: a function from the source text to its outcome.
 */
module Codegen {
  import opened Wrappers
  import opened Strings

  /** What `compile(code, '<generated>', 'exec')` does with a text. */
  datatype Compilation =
    | Compiles
    | SyntaxError(detail: string)      // raises SyntaxError; `detail` is `str(e)`
    | CompileFailure(detail: string)   // raises any other exception (e.g. ValueError)

  /** The `(is_valid, message)` pair returned by the validator. */
  datatype Verdict = Verdict(valid: bool, message: string)

  /** The fixed denylist of the validator, in the order it is scanned. */
  const DangerousPatterns: seq<string> :=
    ["exec(", "eval(", "__import__", "os.system", "subprocess", "open(", "file(", "input("]

  const PassedMessage := "Code validation passed"

  function UnsafeMessage(pattern: string): string {
    "Code contains potentially unsafe pattern: " + pattern
  }

  /** Index of the first pattern, at position `from` or later in list order, that occurs in `text`. */
  function FirstUnsafeFrom(patterns: seq<string>, text: string, from: nat): (r: Option<nat>)
    requires from <= |patterns|
    ensures r.Some? ==> from <= r.value < |patterns| && Contains(text, patterns[r.value])
    ensures r.Some? ==> forall k :: from <= k < r.value ==> !Contains(text, patterns[k])
    ensures r.None? ==> forall k :: from <= k < |patterns| ==> !Contains(text, patterns[k])
    decreases |patterns| - from
  {
    if from == |patterns| then None
    else if Contains(text, patterns[from]) then Some(from)
    else FirstUnsafeFrom(patterns, text, from + 1)
  }

  /**
   * `validate_generated_code`: the compile oracle first; then the denylist is scanned
   * in list order against the lower-cased text and the first hit is reported.
   */
  function ValidateGeneratedCode(code: string, compile: string -> Compilation): (v: Verdict)
    ensures compile(code).SyntaxError? ==> v == Verdict(false, "Syntax error: " + compile(code).detail)
    ensures compile(code).CompileFailure? ==> v == Verdict(false, "Validation error: " + compile(code).detail)
    ensures compile(code).Compiles? ==>
      (v.valid <==> forall k :: 0 <= k < |DangerousPatterns| ==> !Contains(Lower(code), DangerousPatterns[k]))
    ensures v.valid ==> compile(code).Compiles? && v.message == PassedMessage
    ensures compile(code).Compiles? && !v.valid ==>
      exists k :: 0 <= k < |DangerousPatterns| && v.message == UnsafeMessage(DangerousPatterns[k])
        && Contains(Lower(code), DangerousPatterns[k])
        && forall j :: 0 <= j < k ==> !Contains(Lower(code), DangerousPatterns[j])
  {
    match compile(code)
    case SyntaxError(e) => Verdict(false, "Syntax error: " + e)
    case CompileFailure(e) => Verdict(false, "Validation error: " + e)
    case Compiles =>
      match FirstUnsafeFrom(DangerousPatterns, Lower(code), 0)
      case Some(k) => Verdict(false, UnsafeMessage(DangerousPatterns[k]))
      case None => Verdict(true, PassedMessage)
  }

  /** Lower-casing commutes with taking a slice. */
  lemma LowerSlice(s: string, i: nat, j: nat)
    requires i <= j <= |s|
    ensures Lower(s)[i..j] == Lower(s[i..j])
  {
    assert forall k :: 0 <= k < j - i ==> Lower(s)[i..j][k] == LowerChar(s[i + k]);
  }

  /**
   * Matching ignores case: any spelling `u` of a denylisted pattern (say `OS.SYSTEM(`)
   * anywhere in compilable code makes the validator reject it.
   */
  lemma RejectsAnyCase(code: string, compile: string -> Compilation, u: string, k: nat, i: nat)
    requires compile(code).Compiles?
    requires k < |DangerousPatterns| && Lower(u) == DangerousPatterns[k]
    requires OccursAt(code, u, i)
    ensures !ValidateGeneratedCode(code, compile).valid
  {
    LowerSlice(code, i, i + |u|);
    assert OccursAt(Lower(code), DangerousPatterns[k], i);
  }

  /**
   * The pattern reported is the first in list order, not the earliest in the text:
   * code mentioning both `subprocess` and `exec(` is reported for `exec(` wherever they stand.
   */
  lemma ReportsListOrder(code: string, compile: string -> Compilation)
    requires compile(code).Compiles?
    requires Contains(Lower(code), "subprocess") && Contains(Lower(code), "exec(")
    ensures ValidateGeneratedCode(code, compile) == Verdict(false, UnsafeMessage("exec("))
  {
    assert DangerousPatterns[0] == "exec(";
  }

  /**
   * Acceptance depends only on the compile outcome and the lower-cased text: nothing
   * else about the code, such as how many top-level definitions it has, is looked at.
   */
  lemma ValidationDependsOnlyOnText(c1: string, c2: string, compile: string -> Compilation)
    requires compile(c1) == compile(c2) && Lower(c1) == Lower(c2)
    ensures ValidateGeneratedCode(c1, compile) == ValidateGeneratedCode(c2, compile)
  {
  }

  // ----- textwrap.dedent -----

  predicate IsIndentChar(c: char) { c == ' ' || c == '\t' }

  /** A line made only of spaces and tabs (possibly empty). */
  predicate IsBlankLine(l: string) {
    forall k :: 0 <= k < |l| ==> IsIndentChar(l[k])
  }

  predicate IsPrefix(p: string, s: string) {
    |p| <= |s| && s[..|p|] == p
  }

  /** The leading run of spaces and tabs of a line. */
  function Indent(l: string): (r: string)
    ensures IsPrefix(r, l) && IsBlankLine(r)
    ensures |r| == |l| || !IsIndentChar(l[|r|])
  {
    if l == [] || !IsIndentChar(l[0]) then [] else [l[0]] + Indent(l[1..])
  }

  /** The longest common prefix of two strings. */
  function CommonPrefix(a: string, b: string): (r: string)
    ensures IsPrefix(r, a) && IsPrefix(r, b)
    ensures |r| == |a| || |r| == |b| || a[|r|] != b[|r|]
  {
    if a == [] || b == [] || a[0] != b[0] then [] else [a[0]] + CommonPrefix(a[1..], b[1..])
  }

  lemma {:induction false} CommonPrefixLongest(q: string, a: string, b: string)
    requires IsPrefix(q, a) && IsPrefix(q, b)
    ensures IsPrefix(q, CommonPrefix(a, b))
  {
    if q != [] {
      assert a[0] == q[0] == b[0];
      assert q[1..] == a[1..][..|q| - 1] == b[1..][..|q| - 1];
      CommonPrefixLongest(q[1..], a[1..], b[1..]);
    }
  }

  /** The margin dedent removes: the common indentation of the non-blank lines, if there is one. */
  function Margin(lines: seq<string>): (m: Option<string>)
    ensures m.None? <==> forall i :: 0 <= i < |lines| ==> IsBlankLine(lines[i])
    ensures m.Some? ==> forall i :: 0 <= i < |lines| && !IsBlankLine(lines[i]) ==> IsPrefix(m.value, Indent(lines[i]))
  {
    if lines == [] then None
    else
      var l := lines[|lines| - 1];
      var m := Margin(lines[..|lines| - 1]);
      if IsBlankLine(l) then m
      else match m
        case None => Some(Indent(l))
        case Some(x) => Some(CommonPrefix(x, Indent(l)))
  }

  /** The margin is the longest common indentation: every common prefix of the indents is a prefix of it. */
  lemma {:induction false} MarginIsLongest(lines: seq<string>, q: string)
    requires Margin(lines).Some?
    requires forall i :: 0 <= i < |lines| && !IsBlankLine(lines[i]) ==> IsPrefix(q, Indent(lines[i]))
    ensures IsPrefix(q, Margin(lines).value)
  {
    var init := lines[..|lines| - 1];
    var l := lines[|lines| - 1];
    if IsBlankLine(l) {
      MarginIsLongest(init, q);
    } else if Margin(init).Some? {
      MarginIsLongest(init, q);
      CommonPrefixLongest(q, Margin(init).value, Indent(l));
    }
  }

  /** What dedent does to one line: a blank line is emptied, any other line loses the margin. */
  function DedentLine(l: string, margin: string): string
    requires IsBlankLine(l) || IsPrefix(margin, l)
  {
    if IsBlankLine(l) then "" else l[|margin|..]
  }

  function DedentLines(lines: seq<string>): (out: seq<string>)
    ensures |out| == |lines|
  {
    var margin := Margin(lines).GetOr("");
    seq(|lines|, i requires 0 <= i < |lines| => DedentLine(lines[i], margin))
  }

  /** `textwrap.dedent` (as in CPython up to 3.13), line by line. */
  function Dedent(text: string): string {
    Join("\n", DedentLines(Split(text, "\n")))
  }

  /** A text whose first character is not whitespace has no margin: dedent only empties its blank lines. */
  lemma DedentFlushLeft(text: string)
    requires text != [] && !IsSpace(text[0])
    ensures Margin(Split(text, "\n")) == Some("")
  {
    var lines := Split(text, "\n");
    FirstLineStart(text);
    assert !IsBlankLine(lines[0]);
    assert Indent(lines[0]) == [];
    MarginIsLongest(lines, "");
  }

  /** The first line of a text starts with the text's first character. */
  lemma FirstLineStart(text: string)
    requires text != [] && text[0] != '\n'
    ensures Split(text, "\n")[0] != [] && Split(text, "\n")[0][0] == text[0]
  {
    match IndexOf(text, "\n")
    case None =>
    case Some(i) =>
  }

  // ----- the code generator's clean-up -----

  /**
   * The fence-removal steps of `generate_tool_code` / `generate_tool_code_with_context`:
   * strip, drop one leading "```python" (else "```") and one trailing "```", stripping
   * after each step.
   */
  function StripFences(raw: string): (code: string)
    ensures Trimmed(code)
  {
    DropClosingFence(DropOpeningFence(Strip(raw)))
  }

  /** One leading "```python" (9 characters), or else "```" (3), is dropped and the rest stripped. */
  function DropOpeningFence(code: string): (r: string)
    requires Trimmed(code)
    ensures Trimmed(r)
  {
    if StartsWith(code, "```python") then Strip(code[9..])
    else if StartsWith(code, "```") then Strip(code[3..])
    else code
  }

  /** One trailing "```" is dropped and the rest stripped. */
  function DropClosingFence(code: string): (r: string)
    requires Trimmed(code)
    ensures Trimmed(r)
  {
    if EndsWith(code, "```") then Strip(code[..|code| - 3]) else code
  }

  /** The whole clean-up: fences removed, then `textwrap.dedent(code).strip()`. */
  function CleanGeneratedCode(raw: string): (code: string)
    ensures Trimmed(code)
  {
    Strip(Dedent(StripFences(raw)))
  }

  /** Text with no whitespace at either end is left alone by `strip`. */
  lemma StripKeeps(s: string)
    requires Trimmed(s)
    ensures Strip(s) == s
  {
  }

  /** Leading whitespace in front of a text that starts with a non-space is dropped by `strip`. */
  lemma {:induction false} StripAfterBlank(ws: string, s: string)
    requires IsBlank(ws)
    requires s != [] && Trimmed(s)
    ensures Strip(ws + s) == s
  {
    if ws == [] {
      assert ws + s == s;
    } else {
      assert (ws + s)[1..] == ws[1..] + s;
      StripAfterBlank(ws[1..], s);
    }
  }

  /** Trailing whitespace after a text that ends with a non-space is dropped by `strip`. */
  lemma {:induction false} StripBeforeBlank(s: string, ws: string)
    requires IsBlank(ws)
    requires s != [] && Trimmed(s)
    ensures Strip(s + ws) == s
  {
    if ws == [] {
      assert s + ws == s;
    } else {
      assert (s + ws)[..|s + ws| - 1] == s + ws[..|ws| - 1];
      StripBeforeBlank(s, ws[..|ws| - 1]);
    }
  }

  /**
   * A fenced reply cleans up like the bare code: wrapping code that has no surrounding
   * whitespace and no fence of its own in "```python\n" ... "\n```" changes nothing.
   */
  lemma FencesAreTransparent(body: string)
    requires body != [] && Trimmed(body)
    requires !StartsWith(body, "```") && !EndsWith(body, "```")
    ensures CleanGeneratedCode("```python\n" + body + "\n```") == CleanGeneratedCode(body)
  {
    FencedBody(body);
    BareBody(body);
  }

  lemma FencedBody(body: string)
    requires body != [] && Trimmed(body)
    ensures StripFences("```python\n" + body + "\n```") == body
  {
    var fenced := "```python\n" + body + "\n```";
    assert Trimmed(fenced);
    StripKeeps(fenced);
    OpeningFenceDropped(body);
    ClosingFenceDropped(body);
  }

  lemma OpeningFenceDropped(body: string)
    requires body != [] && Trimmed(body)
    ensures DropOpeningFence("```python\n" + body + "\n```") == body + "\n```"
  {
    var closed := body + "\n```";
    var fenced := "```python\n" + body + "\n```";
    assert fenced == "```python" + ("\n" + closed);
    assert fenced[..9] == "```python" && fenced[9..] == "\n" + closed;
    StripAfterBlank("\n", closed);
  }

  lemma ClosingFenceDropped(body: string)
    requires body != [] && Trimmed(body)
    ensures DropClosingFence(body + "\n```") == body
  {
    var closed := body + "\n```";
    assert closed[|closed| - 3..] == "```" && closed[..|closed| - 3] == body + "\n";
    StripBeforeBlank(body, "\n");
  }

  lemma BareBody(body: string)
    requires Trimmed(body)
    requires !StartsWith(body, "```") && !EndsWith(body, "```")
    ensures StripFences(body) == body
  {
    StripKeeps(body);
    NoOpeningFence(body);
    NoClosingFence(body);
  }

  lemma NoOpeningFence(body: string)
    requires Trimmed(body) && !StartsWith(body, "```")
    ensures DropOpeningFence(body) == body
  {
    assert IsPrefix("```", "```python");
    if StartsWith(body, "```python") {
      StartsWithShorter(body, "```python", "```");
    }
  }

  lemma StartsWithShorter(s: string, p: string, q: string)
    requires StartsWith(s, p) && IsPrefix(q, p)
    ensures StartsWith(s, q)
  {
    assert s[..|q|] == s[..|p|][..|q|];
  }

  lemma NoClosingFence(body: string)
    requires Trimmed(body) && !EndsWith(body, "```")
    ensures DropClosingFence(body) == body
  {
  }
}
