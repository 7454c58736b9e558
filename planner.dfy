/**
 * The pure half of the planner: finding the generated function's name, describing the
 * registry to the language model, trimming the model's JSON answer, and turning an
 * analysis into an execution plan.
 */
module Planner {
  import opened Wrappers
  import opened Strings
  import opened Registry

  // ---------------------------------------------------------------------------
  // extract_function_name: re.search(r"^def\s+([a-zA-Z_][a-zA-Z0-9_]*)\s*\(", code, re.M)
  // ---------------------------------------------------------------------------

  predicate IsIdentStart(c: char) { 'a' <= c <= 'z' || 'A' <= c <= 'Z' || c == '_' }

  predicate IsIdentChar(c: char) { IsIdentStart(c) || '0' <= c <= '9' }

  /** `[a-zA-Z_][a-zA-Z0-9_]*` matches all of `name`. */
  predicate IsIdentifier(name: string) {
    name != [] && IsIdentStart(name[0]) && forall k :: 0 < k < |name| ==> IsIdentChar(name[k])
  }

  /** Every character of `s[i..j]` is whitespace (`\s`, which includes the newline). */
  predicate AllSpace(s: string, i: nat, j: nat)
    requires i <= j <= |s|
  {
    forall k :: i <= k < j ==> IsSpace(s[k])
  }

  /** Number of whitespace characters from `i` on. */
  function SpaceRun(s: string, i: nat): (n: nat)
    requires i <= |s|
    ensures i + n <= |s|
    decreases |s| - i
  {
    if i == |s| || !IsSpace(s[i]) then 0 else 1 + SpaceRun(s, i + 1)
  }

  /** `SpaceRun` counts a maximal run: all whitespace, and not followed by whitespace. */
  lemma {:induction false} SpaceRunMaximal(s: string, i: nat)
    requires i <= |s|
    ensures AllSpace(s, i, i + SpaceRun(s, i))
    ensures i + SpaceRun(s, i) == |s| || !IsSpace(s[i + SpaceRun(s, i)])
    decreases |s| - i
  {
    if i < |s| && IsSpace(s[i]) {
      SpaceRunMaximal(s, i + 1);
    }
  }

  /** Number of identifier characters from `i` on. */
  function IdentRun(s: string, i: nat): (n: nat)
    requires i <= |s|
    ensures i + n <= |s|
    decreases |s| - i
  {
    if i == |s| || !IsIdentChar(s[i]) then 0 else 1 + IdentRun(s, i + 1)
  }

  /** `IdentRun` counts a maximal run of identifier characters. */
  lemma {:induction false} IdentRunMaximal(s: string, i: nat)
    requires i <= |s|
    ensures forall k :: i <= k < i + IdentRun(s, i) ==> IsIdentChar(s[k])
    ensures i + IdentRun(s, i) == |s| || !IsIdentChar(s[i + IdentRun(s, i)])
    decreases |s| - i
  {
    if i < |s| && IsIdentChar(s[i]) {
      IdentRunMaximal(s, i + 1);
    }
  }

  /** With `re.M`, `^` matches at the start and right after every newline. */
  predicate LineStart(s: string, p: int) {
    0 <= p <= |s| && (p == 0 || s[p - 1] == '\n')
  }

  /**
   * The pattern read as a language: at `p` there is `def`, `w1 >= 1` whitespace characters,
   * the identifier `name`, `w2` whitespace characters and `(`.
   */
  ghost predicate PatternAt(s: string, p: nat, w1: nat, name: string, w2: nat) {
    var b := p + 3 + w1;
    var c := b + |name|;
    && c + w2 < |s|
    && s[p] == 'd' && s[p + 1] == 'e' && s[p + 2] == 'f'
    && w1 >= 1 && AllSpace(s, p + 3, b)
    && IsIdentifier(name) && s[b..c] == name
    && AllSpace(s, c, c + w2)
    && s[c + w2] == '('
  }

  /**
   * The regex attempted at `p`. Each quantifier is greedy and none can give anything back:
   * the character after a shorter whitespace or identifier run could never continue the match.
   */
  function MatchAt(s: string, p: nat): Option<string>
    requires p <= |s|
  {
    if p + 3 <= |s| && s[p] == 'd' && s[p + 1] == 'e' && s[p + 2] == 'f' then NameAfter(s, p + 3) else None
  }

  /** `\s+`, the identifier, then `\s*\(`, from position `a`. */
  function NameAfter(s: string, a: nat): Option<string>
    requires a <= |s|
  {
    var b := a + SpaceRun(s, a);
    if b == a || b == |s| || !IsIdentStart(s[b]) then None else ParenAfter(s, b, b + IdentRun(s, b))
  }

  /** `\s*\(` after the identifier `s[b..c]`. */
  function ParenAfter(s: string, b: nat, c: nat): Option<string>
    requires b <= c <= |s|
  {
    var w2 := SpaceRun(s, c);
    if c + w2 < |s| && s[c + w2] == '(' then Some(s[b..c]) else None
  }

  /** What the scan finds at `p` is a match of the pattern. */
  lemma {:induction false} MatchAtSound(s: string, p: nat)
    requires p <= |s| && MatchAt(s, p).Some?
    ensures PatternAt(s, p, SpaceRun(s, p + 3), MatchAt(s, p).value, SpaceRun(s, p + 3 + SpaceRun(s, p + 3) + |MatchAt(s, p).value|))
  {
    var b := p + 3 + SpaceRun(s, p + 3);
    var c := b + IdentRun(s, b);
    SpaceRunMaximal(s, p + 3);
    IdentRunMaximal(s, b);
    SpaceRunMaximal(s, c);
    assert NameAfter(s, p + 3) == ParenAfter(s, b, c);
    var name := s[b..c];
    assert MatchAt(s, p) == Some(name);
    IdentifierRun(s, b, c);
    assert PatternAt(s, p, SpaceRun(s, p + 3), name, SpaceRun(s, c));
  }

  /** A run of identifier characters that begins with an identifier start is an identifier. */
  lemma IdentifierRun(s: string, b: nat, c: nat)
    requires b < c <= |s| && IsIdentStart(s[b])
    requires forall k :: b <= k < c ==> IsIdentChar(s[k])
    ensures IsIdentifier(s[b..c])
  {
    var name := s[b..c];
    assert name[0] == s[b];
    forall k | 0 < k < |name| ensures IsIdentChar(name[k]) {
      assert name[k] == s[b + k];
    }
  }

  /** Every match of the pattern at `p` is found by the scan, with the same identifier. */
  lemma {:induction false} MatchAtComplete(s: string, p: nat, w1: nat, name: string, w2: nat)
    requires PatternAt(s, p, w1, name, w2)
    ensures MatchAt(s, p) == Some(name)
  {
    var b := p + 3 + w1;
    var c := b + |name|;
    assert s[b] == s[b..c][0] == name[0];
    forall k | b <= k < c ensures IsIdentChar(s[k]) {
      assert s[k] == s[b..c][k - b];
    }
    NameAfterComplete(s, p + 3, w1, c, w2);
  }

  lemma {:induction false} NameAfterComplete(s: string, a: nat, w1: nat, c: nat, w2: nat)
    requires a + w1 < c && c + w2 < |s| && w1 >= 1 && AllSpace(s, a, a + w1)
    requires IsIdentStart(s[a + w1]) && forall k :: a + w1 <= k < c ==> IsIdentChar(s[k])
    requires AllSpace(s, c, c + w2) && s[c + w2] == '('
    ensures NameAfter(s, a) == Some(s[a + w1..c])
  {
    RunIsExact(s, a, w1);
    IdentRunIsExact(s, a + w1, c - a - w1, w2);
    ParenAfterComplete(s, a + w1, c, w2);
  }

  lemma {:induction false} ParenAfterComplete(s: string, b: nat, c: nat, w2: nat)
    requires b <= c && c + w2 < |s| && AllSpace(s, c, c + w2) && s[c + w2] == '('
    ensures ParenAfter(s, b, c) == Some(s[b..c])
  {
    RunIsExact(s, c, w2);
  }

  /** A whitespace run followed by a non-whitespace character is what `SpaceRun` counts. */
  lemma {:induction false} RunIsExact(s: string, i: nat, w: nat)
    requires i + w < |s| && AllSpace(s, i, i + w) && !IsSpace(s[i + w])
    ensures SpaceRun(s, i) == w
    decreases w
  {
    if w > 0 {
      RunIsExact(s, i + 1, w - 1);
    }
  }

  /** An identifier followed by whitespace and `(` is exactly what `IdentRun` counts. */
  lemma {:induction false} IdentRunIsExact(s: string, b: nat, n: nat, w2: nat)
    requires b + n + w2 < |s|
    requires forall k :: b <= k < b + n ==> IsIdentChar(s[k])
    requires AllSpace(s, b + n, b + n + w2) && s[b + n + w2] == '('
    ensures IdentRun(s, b) == n
    decreases n
  {
    if n > 0 {
      IdentRunIsExact(s, b + 1, n - 1, w2);
    } else {
      assert !IsIdentChar(s[b]) by {
        if w2 > 0 { assert IsSpace(s[b]); } else { assert s[b] == '('; }
      }
    }
  }

  /** A line start where the pattern matches. */
  predicate MatchesAt(s: string, p: nat)
    requires p <= |s|
  {
    LineStart(s, p) && MatchAt(s, p).Some?
  }

  /** The first `q` in `from..upto` for which `P(q)` holds: the left-to-right search of `re.search`. */
  function FirstWhere(P: nat -> bool, from: nat, upto: nat): (r: Option<nat>)
    ensures r.Some? ==> from <= r.value <= upto && P(r.value)
    ensures r.Some? ==> forall q :: from <= q < r.value ==> !P(q)
    ensures r.None? ==> forall q :: from <= q <= upto ==> !P(q)
    decreases upto + 1 - from
  {
    if from > upto then None
    else if P(from) then Some(from)
    else FirstWhere(P, from + 1, upto)
  }

  /** The pattern matches at a line start `p` of `s` (false past the end). */
  predicate Hit(s: string, p: nat) {
    p <= |s| && MatchesAt(s, p)
  }

  const NoFunctionNameMessage := "Could not find function name in code"

  /**
   * `extract_function_name`: the identifier of the first line that starts with the
   * definition pattern; `ValueError` when no line does.
   */
  function ExtractFunctionName(code: string): (r: Result<string>)
    ensures r.Ok? ==> IsIdentifier(r.value)
    ensures r.Ok? <==> exists p :: 0 <= p <= |code| && MatchesAt(code, p)
    ensures r.Ok? ==> exists p :: (0 <= p <= |code| && MatchesAt(code, p) && MatchAt(code, p) == Some(r.value)
      && forall q :: 0 <= q < p ==> !MatchesAt(code, q))
    ensures r.Err? ==> r.error == NoFunctionNameMessage
  {
    var hit := (p: nat) => Hit(code, p);
    assert forall q: nat :: hit(q) == Hit(code, q);
    match FirstWhere(hit, 0, |code|)
    case None =>
      assert forall p :: 0 <= p <= |code| ==> !MatchesAt(code, p) by {
        forall p | 0 <= p <= |code| ensures !MatchesAt(code, p) {
          assert !hit(p);
        }
      }
      Err(NoFunctionNameMessage)
    case Some(p) =>
      MatchAtSound(code, p);
      assert forall q :: 0 <= q < p ==> !MatchesAt(code, q) by {
        forall q | 0 <= q < p ensures !MatchesAt(code, q) {
          assert !hit(q);
        }
      }
      assert MatchesAt(code, p) by { assert hit(p); }
      Ok(MatchAt(code, p).value)
  }

  /**
   * The first line start where the pattern matches names the function: any identifier
   * (upper-case letters included), after any whitespace (newlines included, so `def` and
   * the name may sit on different lines).
   */
  lemma {:induction false} FirstDefinitionFound(code: string, p: nat, w1: nat, name: string, w2: nat)
    requires LineStart(code, p) && PatternAt(code, p, w1, name, w2)
    requires forall q :: 0 <= q < p ==> !MatchesAt(code, q)
    ensures ExtractFunctionName(code) == Ok(name)
  {
    MatchAtComplete(code, p, w1, name, w2);
    assert MatchesAt(code, p);
  }

  /** When every line starts with whitespace, no definition is found: `def` must open a line. */
  lemma {:induction false} IndentedDefinitions(code: string)
    requires forall p :: 0 <= p < |code| && LineStart(code, p) ==> IsSpace(code[p])
    ensures ExtractFunctionName(code).Err?
  {
    forall p | 0 <= p <= |code| ensures !MatchesAt(code, p) {
      if p < |code| && LineStart(code, p) {
        assert IsSpace(code[p]);
      }
    }
  }

  /** `f` applied to every element, the results concatenated in order. */
  function ConcatMap<T, U>(f: T -> seq<U>, xs: seq<T>): seq<U> {
    if xs == [] then [] else ConcatMap(f, xs[..|xs| - 1]) + f(xs[|xs| - 1])
  }

  lemma {:induction false} ConcatMapAppend<T, U>(f: T -> seq<U>, a: seq<T>, b: seq<T>)
    ensures ConcatMap(f, a + b) == ConcatMap(f, a) + ConcatMap(f, b)
  {
    if b == [] {
      assert a + b == a;
    } else {
      ConcatMapAppend(f, a, b[..|b| - 1]);
      assert (a + b)[..|a + b| - 1] == a + b[..|b| - 1];
      assert (a + b)[|a + b| - 1] == b[|b| - 1];
    }
  }

  // ---------------------------------------------------------------------------
  // get_available_tools_description
  // ---------------------------------------------------------------------------

  const NoToolsMessage := "No tools are " + "currently available in the registry."
  const ToolsHeader := "Available tools:\n"

  function EntryLine(entry: (string, string)): string {
    "- " + entry.0 + ": " + entry.1 + "\n"
  }

  /** One line per (name, description) entry, in order. */
  function Listing(entries: seq<(string, string)>): string {
    ConcatMap(EntryLine, entries)
  }

  /** The text for a list of entries: the fixed message when there are none, else the header and the lines. */
  function Describe(entries: seq<(string, string)>): (d: string)
    ensures entries == [] <==> d == NoToolsMessage
    ensures entries != [] ==> StartsWith(d, ToolsHeader)
  {
    if entries == [] then NoToolsMessage
    else
      var d := ToolsHeader + Listing(entries);
      assert d[..|ToolsHeader|] == ToolsHeader;
      assert d != NoToolsMessage by {
        assert d[0] == ToolsHeader[0];
        assert ToolsHeader[0] == 'A';
        assert NoToolsMessage[0] == 'N';
      }
      d
  }

  /** What `get_available_tools_description` returns for a registry: its snapshot entries described. */
  function ToolsDescription(t: Table): (d: string)
    requires WellFormed(t)
    ensures t.names == [] <==> d == NoToolsMessage
    ensures t.names != [] ==> StartsWith(d, ToolsHeader)
  {
    Describe(Snapshot(t))
  }

  /** Where the line of entry `i` starts in the description. */
  function EntryOffset(entries: seq<(string, string)>, i: nat): nat
    requires i <= |entries|
  {
    |ToolsHeader| + |Listing(entries[..i])|
  }

  /** Entry `i` is listed as `- name: description` on its own line. */
  lemma EntryListed(entries: seq<(string, string)>, i: nat)
    requires i < |entries|
    ensures OccursAt(Describe(entries), EntryLine(entries[i]), EntryOffset(entries, i))
  {
    var line, pre, post := EntryLine(entries[i]), Listing(entries[..i]), Listing(entries[i + 1..]);
    ListingAround(entries, i);
    DescribeEntries(entries);
    assert Describe(entries) == (ToolsHeader + pre) + line + post;
    OccursInMiddle(ToolsHeader + pre, line, post);
  }

  /** The line of an entry ends before the line of any later entry starts. */
  lemma EntriesInOrder(entries: seq<(string, string)>, i: nat, j: nat)
    requires i < j <= |entries|
    ensures EntryOffset(entries, i) + |EntryLine(entries[i])| <= EntryOffset(entries, j)
  {
    ListingAround(entries[..j], i);
    assert entries[..j][..i] == entries[..i];
  }

  /** A non-empty list of entries is the header followed by the listing. */
  lemma DescribeEntries(entries: seq<(string, string)>)
    requires entries != []
    ensures Describe(entries) == ToolsHeader + Listing(entries)
  {
  }

  lemma OccursInMiddle(x: string, y: string, z: string)
    ensures OccursAt(x + y + z, y, |x|)
  {
    assert (x + y + z)[|x|..|x| + |y|] == y;
  }

  /** The listing splits around entry `i`. */
  lemma ListingAround(entries: seq<(string, string)>, i: nat)
    requires i < |entries|
    ensures Listing(entries) == Listing(entries[..i]) + EntryLine(entries[i]) + Listing(entries[i + 1..])
  {
    ConcatMapAppend(EntryLine, entries[..i], [entries[i]]);
    ConcatMapSingle(EntryLine, entries[i]);
    ConcatMapAppend(EntryLine, entries[..i] + [entries[i]], entries[i + 1..]);
    assert entries[..i] + [entries[i]] + entries[i + 1..] == entries;
  }

  /** The same for a registry: entry `i` shows its name and its tool's description, in registry order. */
  lemma RegistryEntryListed(t: Table, i: nat, j: nat)
    requires WellFormed(t) && i < j <= |t.names|
    ensures OccursAt(ToolsDescription(t), EntryLine((t.names[i], t.tools[t.names[i]].description)), EntryOffset(Snapshot(t), i))
    ensures EntryOffset(Snapshot(t), i) + |EntryLine((t.names[i], t.tools[t.names[i]].description))| <= EntryOffset(Snapshot(t), j)
  {
    EntryListed(Snapshot(t), i);
    EntriesInOrder(Snapshot(t), i, j);
  }

  /** A loop that appends one line per entry, as `get_available_tools_description` does. */
  method GetAvailableToolsDescription(reg: ToolRegistry) returns (d: string)
    requires reg.Valid()
    ensures d == ToolsDescription(reg.Contents())
  {
    if |reg.names| == 0 {
      return NoToolsMessage;
    }
    ghost var entries := Snapshot(reg.Contents());
    d := ToolsHeader;
    for k := 0 to |reg.names|
      invariant d == ToolsHeader + Listing(entries[..k])
    {
      assert entries[..k + 1][..k] == entries[..k];
      var name := reg.names[k];
      d := d + EntryLine((name, reg.tools[name].description));
    }
    assert entries[..|reg.names|] == entries;
  }

  // ---------------------------------------------------------------------------
  // analyze_user_request: the JSON answer and its trimming
  // ---------------------------------------------------------------------------

  /** One entry of the analysis's `execution_plan` list: a string, a dict, or anything else. */
  datatype RawStep = TextStep(text: string) | DictStep(step: Step) | OtherStep

  /**
   * A plan step dict, by its "action"; each field the executor reads is `None` when the
   * dict lacks it.
   */
  datatype Step =
    | UseTool(tool: Option<string>, instruction: Option<string>, reasoning: string)
    | CreateNewTool(description: Option<string>, toolName: Option<string>, reasoning: string)
    | ComplexWorkflow(description: Option<string>, reasoning: string, approach: Option<string>)
    | RequestClarification(message: Option<string>, reasoning: string)
    | OtherAction(action: Option<string>)

  /** The keys of the analysis dict the planner reads (`None`: key absent). */
  datatype Analysis = Analysis(
    taskType: Option<string>,
    reasoning: Option<string>,
    suggestedApproach: Option<string>,
    existingToolsSufficient: bool,
    recommendedTools: seq<string>,
    executionPlan: seq<RawStep>,
    missingToolDescription: Option<string>,
    toolNameSuggestion: Option<string>)

  /** The analysis returned when the model call or the JSON parse raises. */
  function FallbackAnalysis(error: string): Analysis {
    Analysis(Some("clarification_needed"), Some("Failed to analyze request due to error: " + error),
             Some("manual_analysis"), false, [], [], None, None)
  }

  /** Python's `t[start:len(t) - back]` with its clamping: empty when the bounds cross. */
  function SliceBetween(t: string, start: nat, back: nat): (r: string)
    ensures |r| <= |t|
  {
    var end := if back <= |t| then |t| - back else 0;
    if start <= end then t[start..end] else ""
  }

  /** The fence trim on the stripped answer: "```json" then "```" at the front, and always three characters at the back. */
  function TrimJsonFence(t: string): string {
    if StartsWith(t, "```json") then Strip(SliceBetween(t, 7, 3))
    else if StartsWith(t, "```") then Strip(SliceBetween(t, 3, 3))
    else t
  }

  /** A fenced JSON answer gives back its body. */
  lemma {:induction false} JsonFenceRoundTrip(body: string)
    ensures TrimJsonFence("```json" + body + "```") == Strip(body)
  {
    var t := "```json" + body + "```";
    assert t[..7] == "```json";
    assert SliceBetween(t, 7, 3) == body;
  }

  /** Without a closing fence the last three characters of the body are cut off all the same. */
  lemma {:induction false} UnclosedJsonFence(body: string)
    ensures |body| >= 3 ==> TrimJsonFence("```json" + body) == Strip(body[..|body| - 3])
    ensures |body| < 3 ==> TrimJsonFence("```json" + body) == ""
  {
    var t := "```json" + body;
    assert t[..7] == "```json";
    if |body| >= 3 {
      assert SliceBetween(t, 7, 3) == body[..|body| - 3];
    } else {
      assert SliceBetween(t, 7, 3) == "";
    }
  }

  /** An answer without a fence is passed to the parser as it is. */
  lemma {:induction false} UnfencedAnswer(t: string)
    requires !StartsWith(t, "```")
    ensures TrimJsonFence(t) == t
  {
    JsonFenceIsFence(t);
  }

  /** A "```json" fence is in particular a "```" fence. */
  lemma JsonFenceIsFence(t: string)
    ensures StartsWith(t, "```json") ==> StartsWith(t, "```")
  {
    if StartsWith(t, "```json") {
      assert t[..3] == t[..7][..3];
    }
  }

  /**
   * `analyze_user_request`: the model (an oracle on the request and the tools description)
   * answers, the answer is stripped and fence-trimmed and parsed (an oracle); a raise in
   * either gives the fallback analysis.
   */
  function AnalyzeUserRequest(instruction: string, toolsInfo: string,
                              ask: (string, string) -> Result<string>,
                              parse: string -> Result<Analysis>): (a: Analysis)
    ensures ask(instruction, toolsInfo).Err? ==>
      && a.taskType == Some("clarification_needed") && !a.existingToolsSufficient
      && a.reasoning == Some("Failed to analyze request due to error: " + ask(instruction, toolsInfo).error)
  {
    match ask(instruction, toolsInfo)
    case Err(e) => FallbackAnalysis(e)
    case Ok(raw) => Interpret(parse(TrimJsonFence(Strip(raw))))
  }

  /** The outcome of `json.loads`: the decoded analysis, or the fallback carrying the error it raised. */
  function Interpret(parsed: Result<Analysis>): (a: Analysis)
    ensures parsed.Err? ==>
      && a.taskType == Some("clarification_needed") && !a.existingToolsSufficient
      && a.reasoning == Some("Failed to analyze request due to error: " + parsed.error)
  {
    match parsed
    case Ok(v) => v
    case Err(e) => FallbackAnalysis(e)
  }

  /** An answer that is a fenced JSON block is parsed as the block's stripped body. */
  lemma FencedAnswerParsed(instruction: string, toolsInfo: string, ask: (string, string) -> Result<string>,
                           parse: string -> Result<Analysis>, body: string)
    requires ask(instruction, toolsInfo) == Ok("```json" + body + "```")
    ensures var parsed := parse(Strip(body));
      AnalyzeUserRequest(instruction, toolsInfo, ask, parse) == if parsed.Ok? then parsed.value else FallbackAnalysis(parsed.error)
  {
    FencedText(body);
  }

  /** Stripping a fenced block keeps it whole, and trimming the fence leaves the stripped body. */
  lemma FencedText(body: string)
    ensures TrimJsonFence(Strip("```json" + body + "```")) == Strip(body)
  {
    FencedIsTrimmed(body);
    StripTrimmed("```json" + body + "```");
    JsonFenceRoundTrip(body);
  }

  /** A fenced block begins and ends with a backtick, so stripping keeps it whole. */
  lemma FencedIsTrimmed(body: string)
    ensures Trimmed("```json" + body + "```")
  {
    var answer := "```json" + body + "```";
    assert answer[0] == '`';
    assert answer[|answer| - 1] == '`';
  }

  /**
   * A raise of the model call or of the parse ends in the single step asking for
   * clarification, with the error in its reasoning.
   */
  lemma FailedAnalysisPlan(instruction: string, toolsInfo: string, ask: (string, string) -> Result<string>,
                           parse: string -> Result<Analysis>, t: Table)
    ensures ask(instruction, toolsInfo).Err? ==>
      ExecutionPlan(instruction, AnalyzeUserRequest(instruction, toolsInfo, ask, parse), t) ==
      [RequestClarification(Some("I need more information to understand your request: " + instruction),
                            "Failed to analyze request due to error: " + ask(instruction, toolsInfo).error)]
    ensures ask(instruction, toolsInfo).Ok? && parse(TrimJsonFence(Strip(ask(instruction, toolsInfo).value))).Err? ==>
      ExecutionPlan(instruction, AnalyzeUserRequest(instruction, toolsInfo, ask, parse), t) ==
      [RequestClarification(Some("I need more information to understand your request: " + instruction),
                            "Failed to analyze request due to error: "
                            + parse(TrimJsonFence(Strip(ask(instruction, toolsInfo).value))).error)]
  {
    match ask(instruction, toolsInfo)
    case Err(e) =>
      FallbackAsksForClarification(instruction, e, t);
    case Ok(raw) =>
      var parsed := parse(TrimJsonFence(Strip(raw)));
      if parsed.Err? {
        FallbackAsksForClarification(instruction, parsed.error, t);
      }
  }

  // ---------------------------------------------------------------------------
  // create_execution_plan
  // ---------------------------------------------------------------------------

  function RecommendedStep(name: string, instruction: string): Step {
    UseTool(Some(name), Some(instruction), "Using " + name + " to handle part of the request")
  }

  /** One `use_tool` step per recommended name that is in the registry, in the given order. */
  function RecommendedSteps(names: seq<string>, t: Table, instruction: string): (plan: seq<Step>)
    ensures |plan| <= |names|
    ensures forall k :: 0 <= k < |plan| ==>
      plan[k].UseTool? && plan[k].tool.Some? && plan[k].tool.value in t.tools && plan[k].tool.value in names
  {
    if names == [] then []
    else
      var last := names[|names| - 1];
      RecommendedSteps(names[..|names| - 1], t, instruction)
        + (if last in t.tools then [RecommendedStep(last, instruction)] else [])
  }

  /** The recommended plan of a concatenation is the concatenation of the plans: order is kept. */
  lemma {:induction false} RecommendedStepsAppend(a: seq<string>, b: seq<string>, t: Table, instruction: string)
    ensures RecommendedSteps(a + b, t, instruction) == RecommendedSteps(a, t, instruction) + RecommendedSteps(b, t, instruction)
  {
    if b == [] {
      assert a + b == a;
    } else {
      RecommendedStepsAppend(a, b[..|b| - 1], t, instruction);
      assert (a + b)[..|a + b| - 1] == a + b[..|b| - 1];
      assert (a + b)[|a + b| - 1] == b[|b| - 1];
    }
  }

  /** Names none of which is registered give no step. */
  lemma {:induction false} RecommendedNone(names: seq<string>, t: Table, instruction: string)
    requires forall name :: name in names ==> name !in t.tools
    ensures RecommendedSteps(names, t, instruction) == []
  {
    if names != [] {
      RecommendedNone(names[..|names| - 1], t, instruction);
      assert names[|names| - 1] in names;
    }
  }

  /** A single name gives its step when it is registered and nothing otherwise. */
  lemma {:induction false} RecommendedSingle(name: string, t: Table, instruction: string)
    ensures RecommendedSteps([name], t, instruction) == if name in t.tools then [RecommendedStep(name, instruction)] else []
  {
    assert [name][..0] == [];
  }

  /** The first registry name (in registry order) occurring in the step text, both lowered. */
  function MatchTool(text: string, names: seq<string>): (r: Option<string>)
    ensures r.Some? ==> r.value in names
  {
    if names == [] then None
    else if Contains(Lower(text), Lower(names[0])) then Some(names[0])
    else MatchTool(text, names[1..])
  }

  /**
   * The match is the first name that occurs in the text ignoring case, and there is none
   * exactly when no name occurs.
   */
  lemma {:induction false} MatchToolFirst(text: string, names: seq<string>)
    ensures MatchTool(text, names).Some? ==> exists i :: (0 <= i < |names| && names[i] == MatchTool(text, names).value
      && Contains(Lower(text), Lower(names[i]))
      && forall j :: 0 <= j < i ==> !Contains(Lower(text), Lower(names[j])))
    ensures MatchTool(text, names).None? <==> forall j :: 0 <= j < |names| ==> !Contains(Lower(text), Lower(names[j]))
  {
    if names != [] && !Contains(Lower(text), Lower(names[0])) {
      var rest := names[1..];
      MatchToolFirst(text, rest);
      assert forall j :: 1 <= j < |names| ==> names[j] == rest[j - 1];
      if MatchTool(text, rest).Some? {
        var i :| 0 <= i < |rest| && rest[i] == MatchTool(text, rest).value
          && Contains(Lower(text), Lower(rest[i]))
          && forall j :: 0 <= j < i ==> !Contains(Lower(text), Lower(rest[j]));
        assert names[i + 1] == rest[i];
      }
    } else if names != [] {
      assert names[0] == MatchTool(text, names).value;
    }
  }

  /** What one entry of `execution_plan` becomes. */
  function ConvertStep(raw: RawStep, t: Table, instruction: string): seq<Step> {
    match raw
    case TextStep(text) =>
      (match MatchTool(text, t.names)
       case Some(name) => [UseTool(Some(name), Some(instruction), text)]
       case None => [])
    case DictStep(step) => [step]
    case OtherStep => []
  }

  lemma ConcatMapSingle<T, U>(f: T -> seq<U>, x: T)
    ensures ConcatMap(f, [x]) == f(x)
  {
    assert [x][..0] == [];
  }

  /** The converted `execution_plan`, entry by entry in order. */
  function ConvertedSteps(raws: seq<RawStep>, t: Table, instruction: string): seq<Step> {
    ConcatMap((raw: RawStep) => ConvertStep(raw, t, instruction), raws)
  }

  /** Converting a concatenation converts each part: entries keep their order. */
  lemma ConvertedStepsAppend(a: seq<RawStep>, b: seq<RawStep>, t: Table, instruction: string)
    ensures ConvertedSteps(a + b, t, instruction) == ConvertedSteps(a, t, instruction) + ConvertedSteps(b, t, instruction)
  {
    ConcatMapAppend((raw: RawStep) => ConvertStep(raw, t, instruction), a, b);
  }

  /**
   * A single entry: a string gives at most one `use_tool` step, for the first registry
   * name it mentions; a dict is copied through; anything else is dropped.
   */
  lemma {:induction false} ConvertedSingle(raw: RawStep, t: Table, instruction: string)
    ensures raw.DictStep? ==> ConvertedSteps([raw], t, instruction) == [raw.step]
    ensures raw.OtherStep? ==> ConvertedSteps([raw], t, instruction) == []
    ensures raw.TextStep? ==> |ConvertedSteps([raw], t, instruction)| <= 1
    ensures raw.TextStep? && ConvertedSteps([raw], t, instruction) != [] ==>
      var s := ConvertedSteps([raw], t, instruction)[0];
      s.UseTool? && s.tool.Some? && s.tool == MatchTool(raw.text, t.names) && s.instruction == Some(instruction)
  {
    ConcatMapSingle((raw: RawStep) => ConvertStep(raw, t, instruction), raw);
  }

  /** `create_execution_plan`, dispatching on `task_type`. */
  function ExecutionPlan(instruction: string, a: Analysis, t: Table): (r: seq<Step>)
    ensures a.taskType != Some("use_existing_tools") ==> |r| == 1
  {
    if a.taskType == Some("use_existing_tools") then
      if a.executionPlan == [] && a.recommendedTools != [] then RecommendedSteps(a.recommendedTools, t, instruction)
      else ConvertedSteps(a.executionPlan, t, instruction)
    else if a.taskType == Some("need_new_tool") then
      [CreateNewTool(Some(a.missingToolDescription.GetOr(instruction)), Some(a.toolNameSuggestion.GetOr("")),
                     a.reasoning.GetOr("New tool needed"))]
    else if a.taskType == Some("complex_workflow") then
      [ComplexWorkflow(Some(instruction), a.reasoning.GetOr("Complex workflow detected"),
                       Some(a.suggestedApproach.GetOr("break_down_further")))]
    else
      [RequestClarification(Some("I need more information to understand your request: " + instruction),
                            a.reasoning.GetOr("Request unclear"))]
  }

  /** Every task type other than `use_existing_tools` yields exactly one step, of the matching action. */
  lemma {:induction false} SingleStepTaskTypes(instruction: string, a: Analysis, t: Table)
    requires a.taskType != Some("use_existing_tools")
    ensures |ExecutionPlan(instruction, a, t)| == 1
    ensures a.taskType == Some("need_new_tool") <==> ExecutionPlan(instruction, a, t)[0].CreateNewTool?
    ensures a.taskType == Some("complex_workflow") <==> ExecutionPlan(instruction, a, t)[0].ComplexWorkflow?
    ensures a.taskType != Some("need_new_tool") && a.taskType != Some("complex_workflow") <==>
      ExecutionPlan(instruction, a, t)[0].RequestClarification?
  {
  }

  /** A failed analysis asks for clarification and carries the error in its reasoning. */
  lemma {:induction false} FallbackAsksForClarification(instruction: string, error: string, t: Table)
    ensures ExecutionPlan(instruction, FallbackAnalysis(error), t) ==
      [RequestClarification(Some("I need more information to understand your request: " + instruction),
                            "Failed to analyze request due to error: " + error)]
  {
  }

  /** `use_existing_tools` with no plan entries and no registered recommendation gives the empty plan. */
  lemma EmptyExistingToolsPlan(instruction: string, a: Analysis, t: Table)
    requires a.taskType == Some("use_existing_tools") && a.executionPlan == []
    requires forall name :: name in a.recommendedTools ==> name !in t.tools
    ensures ExecutionPlan(instruction, a, t) == []
  {
    RecommendedNone(a.recommendedTools, t, instruction);
  }

  /** The inner loop of a string step: the first registry name it mentions, with `break`. */
  method FirstMatchingTool(text: string, names: seq<string>) returns (found: Option<string>)
    ensures found == MatchTool(text, names)
  {
    var lowered := Lower(text);
    var i := 0;
    while i < |names|
      invariant 0 <= i <= |names|
      invariant MatchTool(text, names) == MatchTool(text, names[i..])
    {
      assert names[i..][1..] == names[i + 1..];
      if Contains(lowered, Lower(names[i])) {
        return Some(names[i]);
      }
      i := i + 1;
    }
    assert names[i..] == [];
    found := None;
  }

  /** `create_execution_plan` with its two loops. */
  method CreateExecutionPlan(instruction: string, a: Analysis, reg: ToolRegistry) returns (plan: seq<Step>)
    ensures plan == ExecutionPlan(instruction, a, reg.Contents())
  {
    var t := Table(reg.names, reg.tools);
    if a.taskType == Some("use_existing_tools") {
      plan := [];
      if a.executionPlan == [] && a.recommendedTools != [] {
        var names := a.recommendedTools;
        for k := 0 to |names|
          invariant plan == RecommendedSteps(names[..k], t, instruction)
        {
          assert names[..k + 1][..k] == names[..k];
          if names[k] in reg.tools {
            plan := plan + [RecommendedStep(names[k], instruction)];
          }
        }
        assert names[..|names|] == names;
      } else {
        var raws := a.executionPlan;
        for k := 0 to |raws|
          invariant plan == ConvertedSteps(raws[..k], t, instruction)
        {
          assert raws[..k + 1][..k] == raws[..k];
          match raws[k]
          case TextStep(text) =>
            var found := FirstMatchingTool(text, reg.names);
            if found.Some? {
              plan := plan + [UseTool(Some(found.value), Some(instruction), text)];
            }
          case DictStep(step) =>
            plan := plan + [step];
          case OtherStep =>
        }
        assert raws[..|raws|] == raws;
      }
    } else {
      plan := ExecutionPlan(instruction, a, t);
    }
  }
}
