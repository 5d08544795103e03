/**
 * The agents: the analyzer that checks a program against the supported
 * grammar before walking its syntax tree, and the two agents that ask the
 * language model for tests and keep only the code of its reply.
 */
module Agents {
  import opened Wrappers
  import opened Models
  import PyText
  import CodeAnalysis

  const PythonFence: string := "```python"
  const Fence: string := "```"
  const TestDefinition: string := "def test_"

  /**
   * _extract_code: the text between the first "```python" and the next
   * fence, else between the first two fences, else the whole reply; stripped
   * in each case. Whatever the reply, no fence survives.
   */
  function ExtractCode(response: string): (code: string)
    ensures !PyText.Contains(code, Fence)
    ensures code == [] || (!PyText.IsSpace(code[0]) && !PyText.IsSpace(code[|code| - 1]))
  {
    if PyText.Contains(response, PythonFence) then
      PyText.SplitHasSecondPart(response, PythonFence);
      var part := PyText.Split(PyText.Split(response, PythonFence)[1], Fence)[0];
      PyText.FirstPartLacksSeparator(PyText.Split(response, PythonFence)[1], Fence);
      PyText.StripKeepsAbsence(part, Fence);
      PyText.Strip(part)
    else if PyText.Contains(response, Fence) then
      PyText.SplitHasSecondPart(response, Fence);
      var part := PyText.Split(PyText.Split(response, Fence)[1], Fence)[0];
      PyText.FirstPartLacksSeparator(PyText.Split(response, Fence)[1], Fence);
      PyText.StripKeepsAbsence(part, Fence);
      PyText.Strip(part)
    else
      PyText.StripKeepsAbsence(response, Fence);
      PyText.Strip(response)
  }

  /** A reply with no fence at all is taken whole, stripped. */
  lemma UnfencedReplyIsStripped(response: string)
    requires !PyText.Contains(response, Fence)
    ensures ExtractCode(response) == PyText.Strip(response)
  {
    NoFenceNoPythonFence(response);
  }

  lemma NoFenceNoPythonFence(s: string)
    requires !PyText.Contains(s, Fence)
    ensures !PyText.Contains(s, PythonFence)
  {
    if PyText.Contains(s, PythonFence) {
      var j :| 0 <= j <= |s| - |PythonFence| && PyText.OccursAt(s, PythonFence, j);
      assert s[j..j + 3] == PythonFence[..3];
      assert PyText.OccursAt(s, Fence, j);
    }
  }

  /** Extracting code from extracted code changes nothing. */
  lemma ExtractCodeIdempotent(response: string)
    ensures ExtractCode(ExtractCode(response)) == ExtractCode(response)
  {
    var code := ExtractCode(response);
    UnfencedReplyIsStripped(code);
    PyText.StripUnchanged(code);
  }

  /**
   * Text that holds no fence and does not end in a backquote: whatever
   * follows it, no fence starts inside it.
   */
  lemma NoFenceBeforeEnd(c: string, t: string, j: int)
    requires !PyText.Contains(c, Fence) && (c == [] || c[|c| - 1] != '`')
    ensures 0 <= j < |c| ==> !PyText.OccursAt(c + t, Fence, j)
  {
    if 0 <= j < |c| && j + 3 <= |c| {
      PyText.OccursInPrefix(c, t, Fence, j);
    } else if 0 <= j < |c| && j + 3 <= |c + t| {
      assert (c + t)[|c| - 1] == c[|c| - 1];
      assert (c + t)[j..j + 3][|c| - 1 - j] == c[|c| - 1];
    }
  }

  /** Such text followed by a fence is the first part of the split on fences, whatever comes after. */
  lemma FirstFenceAfter(c: string, t: string)
    requires !PyText.Contains(c, Fence) && (c == [] || c[|c| - 1] != '`')
    ensures PyText.Find(c + Fence + t, Fence, 0) == |c|
    ensures PyText.Split(c + Fence + t, Fence)[0] == c
    ensures PyText.Split(c + Fence + t, Fence)[1] == PyText.Split(t, Fence)[0]
  {
    var s := c + Fence + t;
    assert s == c + (Fence + t);
    forall j | 0 <= j < |c|
      ensures !PyText.OccursAt(s, Fence, j)
    {
      NoFenceBeforeEnd(c, Fence + t, j);
    }
    assert s[|c|..|c| + 3] == Fence;
    PyText.FindFirst(s, Fence, |c|);
    assert s[..|c|] == c;
    assert s[|c| + 3..] == t;
  }

  /** No fence starts one or two places after a fence followed by anything but a backquote. */
  lemma NoFenceJustAfter(c: string, post: string, i: int)
    ensures (post == [] || post[0] != '`') && (i == |c| + 1 || i == |c| + 2) ==>
      !PyText.OccursAt(c + Fence + post, Fence, i)
  {
    var s := c + Fence + post;
    if (post == [] || post[0] != '`') && (i == |c| + 1 || i == |c| + 2) && i + 3 <= |s| {
      assert s[|c| + 3] == post[0];
      assert s[i..i + 3][|c| + 3 - i] == s[|c| + 3];
    }
  }

  /** The split on fences of fence-free text is that text. */
  lemma NoFenceSplit(c: string)
    requires !PyText.Contains(c, Fence)
    ensures PyText.Split(c, Fence)[0] == c
  {
    PyText.FindSucceedsIffContains(c, Fence);
  }

  /**
   * A "```python" fence after text that holds none is the first one: no
   * occurrence starts inside the text, nor across its end, since the fence
   * starts with three backquotes and "python" has none.
   */
  lemma PythonFenceAfterProse(pre: string, rest: string)
    requires !PyText.Contains(pre, PythonFence)
    ensures PyText.Contains(pre + PythonFence + rest, PythonFence)
    ensures PyText.Split(pre + PythonFence + rest, PythonFence)[1] == PyText.Split(rest, PythonFence)[0]
  {
    var s := pre + PythonFence + rest;
    assert s == pre + (PythonFence + rest);
    assert s[|pre|..|pre| + |PythonFence|] == PythonFence;
    forall j | 0 <= j < |pre|
      ensures !PyText.OccursAt(s, PythonFence, j)
    {
      if j + |PythonFence| <= |pre| {
        PyText.OccursInPrefix(pre, PythonFence + rest, PythonFence, j);
      } else {
        var d := |pre| - j;
        if d <= 3 {
          assert s[j + 3] == PythonFence[3 - d];
          assert s[j..j + |PythonFence|][3] == s[j + 3];
        } else {
          assert s[j + d] == PythonFence[0];
          assert s[j..j + |PythonFence|][d] == s[j + d];
        }
      }
    }
    PyText.FindFirst(s, PythonFence, |pre|);
    assert s[|pre| + |PythonFence|..] == rest;
  }

  /** A "```python" starts with a fence. */
  lemma PythonFenceHoldsFence(s: string, i: int)
    ensures PyText.OccursAt(s, PythonFence, i) ==> PyText.OccursAt(s, Fence, i)
  {
    if PyText.OccursAt(s, PythonFence, i) {
      assert s[i..i + 3] == s[i..i + |PythonFence|][..3];
    }
  }

  /**
   * After code and its closing fence, when the next text does not start with
   * a backquote, a fence can start only at that fence or past it.
   */
  lemma FencePositionAfterCode(c: string, post: string, i: int)
    requires !PyText.Contains(c, Fence) && (c == [] || c[|c| - 1] != '`')
    requires post == [] || post[0] != '`'
    ensures PyText.OccursAt(c + Fence + post, Fence, i) ==> i == |c| || i >= |c| + 3
  {
    assert c + Fence + post == c + (Fence + post);
    NoFenceBeforeEnd(c, Fence + post, i);
    NoFenceJustAfter(c, post, i);
  }

  /**
   * Code followed by a fence and text that does not start with a backquote:
   * both splits of the extraction stop right after the code, even when the
   * text holds further fences.
   */
  lemma CodeBeforeFence(c: string, post: string)
    requires !PyText.Contains(c, Fence) && (c == [] || c[|c| - 1] != '`')
    requires post == [] || post[0] != '`'
    ensures PyText.Split(PyText.Split(c + Fence + post, PythonFence)[0], Fence)[0] == c
  {
    var rest := c + Fence + post;
    var i := PyText.Find(rest, PythonFence, 0);
    if i >= 0 {
      PythonFenceHoldsFence(rest, i);
      FencePositionAfterCode(c, post, i);
    }
    if i < 0 {
      assert PyText.Split(rest, PythonFence)[0] == rest;
      FirstFenceAfter(c, post);
    } else if i == |c| {
      assert PyText.Split(rest, PythonFence)[0] == c;
      NoFenceSplit(c);
    } else {
      var t := rest[|c| + 3..i];
      assert PyText.Split(rest, PythonFence)[0] == c + Fence + t;
      FirstFenceAfter(c, t);
    }
  }

  /**
   * The usual reply: some prose, a "```python" block and more text. The
   * agents keep exactly the block's code, stripped, provided the prose holds
   * no "```python", the code holds no fence and does not end in a backquote,
   * and the text after the block does not start with one.
   */
  lemma FencedBlockExtracted(pre: string, c: string, post: string)
    requires !PyText.Contains(pre, PythonFence)
    requires !PyText.Contains(c, Fence) && (c == [] || c[|c| - 1] != '`')
    requires post == [] || post[0] != '`'
    ensures ExtractCode(pre + PythonFence + c + Fence + post) == PyText.Strip(c)
  {
    var rest := c + Fence + post;
    assert pre + PythonFence + c + Fence + post == pre + PythonFence + rest;
    PythonFenceAfterProse(pre, rest);
    CodeBeforeFence(c, post);
  }

  /**
   * A reply with no "```python" but a bare fenced block: the agents keep the
   * code between the first two fences, stripped, whatever follows them.
   */
  lemma BareFencedBlockExtracted(pre: string, c: string, post: string)
    requires !PyText.Contains(pre + Fence + c + Fence + post, PythonFence)
    requires !PyText.Contains(pre, Fence) && (pre == [] || pre[|pre| - 1] != '`')
    requires !PyText.Contains(c, Fence) && (c == [] || c[|c| - 1] != '`')
    ensures ExtractCode(pre + Fence + c + Fence + post) == PyText.Strip(c)
  {
    var rest := c + Fence + post;
    assert pre + Fence + c + Fence + post == pre + Fence + rest;
    FirstFenceAfter(pre, rest);
    assert PyText.OccursAt(pre + Fence + rest, Fence, |pre|);
    FirstFenceAfter(c, post);
    NoFenceSplit(c);
  }

  /** Code as above followed by one backquote still holds no fence. */
  lemma NoFenceWithBackquote(c: string)
    requires !PyText.Contains(c, Fence) && (c == [] || c[|c| - 1] != '`')
    ensures !PyText.Contains(c + "`", Fence)
  {
    forall j | 0 <= j <= |c + "`"| - |Fence|
      ensures !PyText.OccursAt(c + "`", Fence, j)
    {
      NoFenceBeforeEnd(c, "`", j);
    }
  }

  /** In such code followed by a backquote and a "```python", no "```python" starts before that one. */
  lemma NoPythonFenceBeforeBackquote(c: string, j: int)
    requires !PyText.Contains(c, Fence) && (c == [] || c[|c| - 1] != '`')
    ensures 0 <= j <= |c| ==> !PyText.OccursAt(c + "`" + PythonFence, PythonFence, j)
  {
    var s := c + "`" + PythonFence;
    assert s == c + ("`" + PythonFence);
    if 0 <= j < |c| {
      PythonFenceHoldsFence(s, j);
      NoFenceBeforeEnd(c, "`" + PythonFence, j);
    } else if j == |c| {
      assert s[j + 3] == PythonFence[2];
      assert s[j..j + |PythonFence|][3] == s[j + 3];
    }
  }

  /** After such code, a backquote and a "```python", the first "```python" is that one. */
  lemma PythonFenceAfterBackquote(c: string)
    requires !PyText.Contains(c, Fence) && (c == [] || c[|c| - 1] != '`')
    ensures PyText.Split(c + "`" + PythonFence, PythonFence)[0] == c + "`"
  {
    var a := c + "`";
    var s := a + PythonFence;
    assert s[|a|..|a| + |PythonFence|] == PythonFence;
    forall j | 0 <= j < |a|
      ensures !PyText.OccursAt(s, PythonFence, j)
    {
      NoPythonFenceBeforeBackquote(c, j);
    }
    PyText.FindFirst(s, PythonFence, |a|);
    assert s[..|a|] == a;
  }

  /**
   * Text after the block that starts with a backquote can leak into the
   * code: the closing fence's last two backquotes and a following
   * "`python" read as a second "```python", which ends the block early, so
   * a backquote stays at the end of the code ("x`" for the code "x").
   */
  lemma BackquoteAfterBlockLeaks(c: string)
    requires !PyText.Contains(c, Fence) && (c == [] || c[|c| - 1] != '`')
    ensures ExtractCode(PythonFence + c + Fence + "`python") == PyText.Strip(c + "`")
  {
    var rest := c + "`" + PythonFence;
    assert Fence + "`python" == "`" + PythonFence;
    assert PythonFence + c + Fence + "`python" == [] + PythonFence + rest;
    PythonFenceAfterProse([], rest);
    PythonFenceAfterBackquote(c);
    NoFenceWithBackquote(c);
    NoFenceSplit(c + "`");
  }

  /** A test definition: a function whose name starts with "test_". */
  function TestDefs(s: CodeAnalysis.Stmt): seq<CodeAnalysis.Stmt>
  {
    if s.FunctionDef? && PyText.StartsWith(s.name, "test_") then [s] else []
  }

  /**
   * _count_tests: the number of test definitions anywhere in the parsed test
   * code, nested ones included; for text that does not parse, the number of
   * occurrences of "def test_".
   */
  method CountTests(testCode: string, parse: string -> CodeAnalysis.ParseOutcome) returns (count: nat)
    ensures parse(testCode).Parsed? ==>
      count == |CodeAnalysis.FlatMap(TestDefs, CodeAnalysis.Preorder(parse(testCode).body))|
    ensures parse(testCode).Unparsable? ==> count == PyText.Count(testCode, TestDefinition)
  {
    var tree := parse(testCode);
    if tree.Unparsable? {
      return PyText.Count(testCode, TestDefinition);
    }
    count := 0;
    var queue := tree.body;
    while queue != []
      invariant count + |CodeAnalysis.FlatMap(TestDefs, CodeAnalysis.Walk(queue))|
                == |CodeAnalysis.FlatMap(TestDefs, CodeAnalysis.Walk(tree.body))|
      decreases CodeAnalysis.SizeAll(queue)
    {
      var node := queue[0];
      CodeAnalysis.WalkStep(TestDefs, queue);
      queue := queue[1..] + CodeAnalysis.Children(node);
      if node.FunctionDef? && PyText.StartsWith(node.name, "test_") {
        count := count + 1;
      }
    }
    CodeAnalysis.WalkIsPermutationOfSourceOrder(TestDefs, tree.body);
    assert |multiset(CodeAnalysis.FlatMap(TestDefs, CodeAnalysis.Walk(tree.body)))|
        == |multiset(CodeAnalysis.FlatMap(TestDefs, CodeAnalysis.Preorder(tree.body)))|;
  }

  /**
   * What the grammar parser says about a program text: it conforms; an
   * unexpected token or end of input, with the terminals it expected; a
   * character no terminal matches, with the terminals it allowed (that
   * exception has no `expected`); or any other error.
   */
  datatype LarkOutcome =
    | Conforms
    | UnexpectedToken(line: int, column: int, expected: string)
    | UnexpectedCharacters(line: int, column: int, allowed: string)
    | LarkError(message: string)

  /** A loaded grammar: the supported Python subset, as a conformance check on text. */
  datatype GrammarParser = GrammarParser(parse: string -> LarkOutcome)

  /**
   * The exceptions analyze lets out: a SyntaxError for code outside the
   * grammar, and any other exception (a RuntimeError, or the AttributeError
   * of a rejected character) with its message.
   */
  datatype AnalysisError = GrammarViolation(message: string) | AnalysisFailure(message: string)

  const LarkUnavailable: string :=
    "[CodeAnalyzer] ERROR: Lark parser not available. Cannot validate code against defined grammar subset."

  /** The AttributeError raised while formatting the violation message of a rejected character. */
  const MissingExpected: string := "'UnexpectedCharacters' object has no attribute 'expected'"

  const LarkErrorPrefix: string := "[CodeAnalyzer] Lark parsing error: "
  const AstErrorPrefix: string :=
    "[CodeAnalyzer] AST analysis failed after successful Lark validation. This indicates an internal error: "

  /** The message of a grammar violation: where it happened and what was expected. */
  function ViolationMessage(line: int, column: int, expected: string): string
  {
    "Grammar validation FAILED! Code contains unsupported constructs.\n"
    + "Error at line " + PyText.IntToString(line) + ", column " + PyText.IntToString(column) + "\n"
    + "Expected: " + expected + "\n\n"
    + "Supported Python subset: functions, if/else, basic operators.\n"
    + "NOT supported: classes, for/while, elif, try/except, decorators, etc."
  }

  /** The grammar is loaded at most once per process and shared by every analyzer agent. */
  class ParserCache {
    var parser: Option<GrammarParser>

    constructor ()
      ensures parser == None
    {
      parser := None;
    }
  }

  class CodeAnalyzerAgent {
    var larkEnabled: bool
    var parser: Option<GrammarParser>

    predicate Valid()
      reads this
    {
      larkEnabled <==> parser.Some?
    }

    /**
     * An empty cache is filled with the grammar read from disk, `loaded`,
     * which is None when reading or compiling it failed; a filled cache is
     * reused. Since a failure leaves the cache empty, the next agent retries.
     */
    constructor (cache: ParserCache, loaded: Option<GrammarParser>)
      modifies cache
      ensures Valid()
      ensures old(cache.parser).Some? ==> cache.parser == old(cache.parser)
      ensures old(cache.parser).None? ==> cache.parser == loaded
      ensures parser == cache.parser
    {
      if cache.parser.None? {
        cache.parser := loaded;
        larkEnabled := loaded.Some?;
      } else {
        larkEnabled := true;
      }
      parser := cache.parser;
    }

    /** The outcome of analyze on a program text, stage by stage: grammar, then Python's parser, then the walk. */
    ghost function Verdict(code: string, parsePython: string -> CodeAnalysis.ParseOutcome): Result<BranchMap, AnalysisError>
      reads this
      requires Valid()
    {
      if !larkEnabled then Failure(AnalysisFailure(LarkUnavailable))
      else match parser.value.parse(PyText.Strip(code))
        case UnexpectedToken(line, column, expected) => Failure(GrammarViolation(ViolationMessage(line, column, expected)))
        case UnexpectedCharacters(_, _, _) => Failure(AnalysisFailure(MissingExpected))
        case LarkError(message) => Failure(AnalysisFailure(LarkErrorPrefix + message))
        case Conforms =>
          match parsePython(code)
          case Unparsable(message) => Failure(AnalysisFailure(AstErrorPrefix + message))
          case Parsed(body) =>
            var functions := CodeAnalysis.FlatMap(CodeAnalysis.FunctionRecords, CodeAnalysis.Walk(body));
            Success(BranchMap(functions, CodeAnalysis.SumBranches(functions)))
    }

    /**
     * What the verdict means: a branch map only for code the grammar accepts
     * and Python parses, listing every function definition of the program
     * once, with the file total the sum of the functions' totals; a grammar
     * violation exactly for code the grammar rejects at some position; and no
     * analysis at all without the grammar.
     */
    lemma VerdictMeaning(code: string, parsePython: string -> CodeAnalysis.ParseOutcome)
      requires Valid()
      ensures !larkEnabled ==> Verdict(code, parsePython) == Failure(AnalysisFailure(LarkUnavailable))
      ensures Verdict(code, parsePython).Success? <==>
        larkEnabled && parser.value.parse(PyText.Strip(code)).Conforms? && parsePython(code).Parsed?
      ensures (Verdict(code, parsePython).Failure? && Verdict(code, parsePython).error.GrammarViolation?) <==>
        larkEnabled && parser.value.parse(PyText.Strip(code)).UnexpectedToken?
      ensures larkEnabled && parser.value.parse(PyText.Strip(code)).UnexpectedCharacters? ==>
        Verdict(code, parsePython) == Failure(AnalysisFailure(MissingExpected))
      ensures Verdict(code, parsePython).Success? ==>
        var m := Verdict(code, parsePython).value;
        && m.totalBranchesInFile == CodeAnalysis.SumBranches(m.functions)
        && multiset(m.functions) == multiset(CodeAnalysis.FlatMap(CodeAnalysis.FunctionRecords, CodeAnalysis.Preorder(parsePython(code).body)))
    {
      if Verdict(code, parsePython).Success? {
        CodeAnalysis.EveryDefinitionAnalyzedOnce(parsePython(code).body);
      }
    }

    /**
     * analyze: refuses to run without the grammar, raises a grammar
     * violation for code outside the supported subset (but fails on the
     * message of a rejected character), and otherwise returns
     * the structural analysis, unless that too reports an error.
     */
    method Analyze(code: string, parsePython: string -> CodeAnalysis.ParseOutcome)
      returns (r: Result<BranchMap, AnalysisError>)
      requires Valid()
      ensures r == Verdict(code, parsePython)
    {
      if !larkEnabled {
        return Failure(AnalysisFailure(LarkUnavailable));
      }
      match parser.value.parse(PyText.Strip(code))
      case UnexpectedToken(line, column, expected) =>
        return Failure(GrammarViolation(ViolationMessage(line, column, expected)));
      case UnexpectedCharacters(_, _, _) =>
        return Failure(AnalysisFailure(MissingExpected));
      case LarkError(message) =>
        return Failure(AnalysisFailure(LarkErrorPrefix + message));
      case Conforms =>
      var analysis := CodeAnalysis.AnalyzeFile(parsePython(code));
      if analysis.error.Some? {
        return Failure(AnalysisFailure(AstErrorPrefix + analysis.error.value));
      }
      r := Success(BranchMap(analysis.functions, analysis.totalBranchesInFile));
    }
  }

  /**
   * The language model, as the script of what its next calls return: a
   * reply text, or the error the call raises. An exhausted script fails.
   */
  const NoReply: string := "no reply"

  /** The error of the next reply when it fails: the client's own, or NoReply when none is left. */
  function ReplyError(replies: seq<Result<string, string>>): string
  {
    if replies != [] && replies[0].Failure? then replies[0].error else NoReply
  }

  class LlmClient {
    var replies: seq<Result<string, string>>

    constructor (replies: seq<Result<string, string>>)
      ensures this.replies == replies
    {
      this.replies := replies;
    }

    method Generate() returns (r: Result<string, string>)
      modifies this
      ensures old(replies) == [] ==> r == Failure(NoReply) && replies == []
      ensures old(replies) != [] ==> r == old(replies)[0] && replies == old(replies)[1..]
    {
      if replies == [] {
        return Failure(NoReply);
      }
      r := replies[0];
      replies := replies[1..];
    }
  }

  /** The agents' common step: one call of the model, whose reply is reduced to its code; an error passes through. */
  method AskForCode(client: LlmClient) returns (r: Result<string, string>)
    modifies client
    ensures old(client.replies) == [] ==> r == Failure(NoReply) && client.replies == []
    ensures old(client.replies) != [] ==> client.replies == old(client.replies)[1..]
    ensures old(client.replies) != [] && old(client.replies)[0].Success? ==>
      r == Success(ExtractCode(old(client.replies)[0].value))
    ensures old(client.replies) != [] && old(client.replies)[0].Failure? ==> r == old(client.replies)[0]
  {
    var response := client.Generate();
    if response.Failure? {
      return response;
    }
    r := Success(ExtractCode(response.value));
  }

  /** UnitTestGeneratorAgent.generate_tests: the code of the model's reply to the generation prompt. */
  method GenerateTests(client: LlmClient) returns (tests: Result<string, string>)
    modifies client
    ensures client.replies == if old(client.replies) == [] then [] else old(client.replies)[1..]
    ensures tests.Success? <==> old(client.replies) != [] && old(client.replies)[0].Success?
    ensures tests.Success? ==> tests.value == ExtractCode(old(client.replies)[0].value)
    ensures tests.Failure? ==> tests.error == ReplyError(old(client.replies))
  {
    tests := AskForCode(client);
  }

  /** CoverageOptimizerAgent.optimize_coverage: the code of the model's reply to the optimization prompt. */
  method OptimizeCoverage(client: LlmClient) returns (additional: Result<string, string>)
    modifies client
    ensures client.replies == if old(client.replies) == [] then [] else old(client.replies)[1..]
    ensures additional.Success? <==> old(client.replies) != [] && old(client.replies)[0].Success?
    ensures additional.Success? ==> additional.value == ExtractCode(old(client.replies)[0].value)
    ensures additional.Failure? ==> additional.error == ReplyError(old(client.replies))
  {
    additional := AskForCode(client);
  }
}
