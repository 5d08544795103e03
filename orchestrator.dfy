/**
 * The workflow that drives one test-generation session: analyze, generate,
 * measure, then optimize and measure again until the target is reached, the
 * iteration cap is hit or the coverage stagnates. The nodes update the
 * session state in place.
 */
module Orchestration {
  import opened Wrappers
  import opened Models
  import PyText
  import Config
  import CodeAnalysis
  import Agents
  import Coverage
  import Paths

  // ----- construction -----

  const SupportedProvider: string := "google"
  const MissingKeyMessage: string := "Google API key not found. Set GOOGLE_API_KEY environment variable."

  /**
   * The provider and key checks of the constructor: only the Google provider
   * (the default when none is named); the key given, else the configured one,
   * and it must not be empty. The result is the key the client is built with.
   */
  function ResolveCredentials(provider: Option<string>, apiKey: Option<string>, configuredKey: string): (r: Result<string, string>)
    ensures r.Success? <==>
      (provider.None? || provider.value == SupportedProvider) && (if apiKey.Some? then apiKey.value else configuredKey) != ""
    ensures r.Success? ==> r.value == if apiKey.Some? then apiKey.value else configuredKey
    ensures provider.Some? && provider.value != SupportedProvider ==>
      r == Failure("Only 'google' provider is supported. Got: " + provider.value)
  {
    if provider.Some? && provider.value != SupportedProvider then
      Failure("Only 'google' provider is supported. Got: " + provider.value)
    else
      var key := if apiKey.Some? then apiKey.value else configuredKey;
      if key == "" then Failure(MissingKeyMessage) else Success(key)
  }

  /** A key passed in wins over the configured one; the configured one is used only when none is passed. */
  lemma ExplicitKeyWins(apiKey: string, configuredKey: string)
    ensures apiKey != "" ==> ResolveCredentials(None, Some(apiKey), configuredKey) == Success(apiKey)
    ensures ResolveCredentials(None, Some(""), configuredKey) == Failure(MissingKeyMessage)
    ensures configuredKey != "" ==> ResolveCredentials(None, None, configuredKey) == Success(configuredKey)
  {
  }

  // ----- the routing decision -----

  datatype Route = Optimize | End

  /** The route after a measurement, and the coverage history as the decision leaves it. */
  datatype Decision = Decision(route: Route, history: seq<real>)

  function Max3(a: real, b: real, c: real): real {
    if a >= b && a >= c then a else if b >= c then b else c
  }

  function Min3(a: real, b: real, c: real): real {
    if a <= b && a <= c then a else if b <= c then b else c
  }

  /** The last three coverage figures lie within less than one percentage point of each other. */
  predicate Stagnant(history: seq<real>) {
    var n := |history|;
    n >= 3 && Max3(history[n - 3], history[n - 2], history[n - 1]) - Min3(history[n - 3], history[n - 2], history[n - 1]) < 1.0
  }

  /**
   * _should_optimize: end on success or at the iteration cap; otherwise
   * record the branch coverage of the measurement, when there is one, and end
   * when the last three records have stagnated.
   */
  function Decide(success: bool, iteration: int, maxIterations: int, coverage: Option<CoverageResult>, history: seq<real>): Decision
  {
    if success || iteration >= maxIterations then Decision(End, history)
    else if coverage.Some? then
      var recorded := history + [coverage.value.branchCoverage];
      Decision(if Stagnant(recorded) then End else Optimize, recorded)
    else Decision(Optimize, history)
  }

  /** Stagnation as the spread of the last three figures is stagnation as every pair of them lying within one point. */
  lemma StagnantIffClose(history: seq<real>)
    ensures Stagnant(history) <==>
      |history| >= 3 &&
      forall i, j :: |history| - 3 <= i < |history| && |history| - 3 <= j < |history| ==> history[i] - history[j] < 1.0
  {
    var n := |history|;
    if n >= 3 {
      var a, b, c := history[n - 3], history[n - 2], history[n - 1];
      if forall i, j :: n - 3 <= i < n && n - 3 <= j < n ==> history[i] - history[j] < 1.0 {
        assert Max3(a, b, c) in {a, b, c} && Min3(a, b, c) in {a, b, c};
      } else {
        var i, j :| n - 3 <= i < n && n - 3 <= j < n && history[i] - history[j] >= 1.0;
        assert history[i] <= Max3(a, b, c) && history[j] >= Min3(a, b, c);
      }
    }
  }

  /**
   * The decision routes to another optimization exactly when the session has
   * not succeeded, is below its cap and has not stagnated, and it records at
   * most one more figure.
   */
  lemma OptimizeOnlyWhenBehind(success: bool, iteration: int, maxIterations: int, coverage: Option<CoverageResult>, history: seq<real>)
    ensures var d := Decide(success, iteration, maxIterations, coverage, history);
      d.route == Optimize <==>
        !success && iteration < maxIterations
        && !(coverage.Some? && Stagnant(history + [coverage.value.branchCoverage]))
    ensures var d := Decide(success, iteration, maxIterations, coverage, history);
      d.history == history || d.history == history + [coverage.value.branchCoverage]
  {
  }

  /**
   * A session whose coverage never moves (every run timing out, say) stops
   * on the third decision, after two optimization rounds, whatever the cap
   * above that.
   */
  lemma FlatCoverageStopsAfterTwoRounds(report: CoverageResult, maxIterations: int)
    requires maxIterations >= 3
    ensures var d0 := Decide(false, 0, maxIterations, Some(report), []);
      var d1 := Decide(false, 1, maxIterations, Some(report), d0.history);
      var d2 := Decide(false, 2, maxIterations, Some(report), d1.history);
      d0.route == Optimize && d1.route == Optimize && d2.route == End
  {
    var c := report.branchCoverage;
    assert Decide(false, 0, maxIterations, Some(report), []).history == [c];
    assert Decide(false, 1, maxIterations, Some(report), [c]).history == [c, c];
  }

  /**
   * Every round of a cycle but the last routed to another optimization: the
   * history after it, `start` followed by the figures so far, had not
   * stagnated, and with a positive target its figure was below the target.
   */
  predicate Continued(start: seq<real>, figures: seq<real>, target: real) {
    && (forall n :: 0 < n < |figures| ==> !Stagnant(start + figures[..n]))
    && (target > 0.0 ==> forall k :: 0 <= k < |figures| - 1 ==> figures[k] < target)
  }

  /** A round that routed to another optimization joins the rounds before the last. */
  lemma ContinuedExtend(start: seq<real>, figures: seq<real>, figure: real, target: real)
    requires figures != [] && Continued(start, figures, target)
    requires !Stagnant(start + figures) && (target > 0.0 ==> figures[|figures| - 1] < target)
    ensures Continued(start, figures + [figure], target)
  {
    var longer := figures + [figure];
    forall n | 0 < n < |longer|
      ensures !Stagnant(start + longer[..n])
    {
      assert longer[..n] == figures[..n];
      if n == |figures| {
        assert figures[..n] == figures;
      }
    }
  }

  // ----- the session -----

  /** The exceptions a node lets out of the workflow: a SyntaxError or a RuntimeError, with its message. */
  datatype NodeError = SyntaxErr(message: string) | RuntimeErr(message: string)

  /** What generate_tests returns for a finished session. */
  datatype RunResult = RunResult(
    success: bool,
    tests: string,
    branchCoverage: real,
    totalCoverage: real,
    testsCount: nat,
    iterations: nat,
    branchMap: BranchMap,
    coverageOutput: string)

  const NoneAttribute: string := "'NoneType' object has no attribute 'model_dump'"
  const TestSeparator: string := "\n\n"
  const InvalidTarget: string := "validation error for AgentState"

  /** The exception the analyze node raises for an analyzer error: a SyntaxError for a grammar violation, a RuntimeError otherwise. */
  function Raise(e: Agents.AnalysisError): (raised: NodeError)
    ensures e.GrammarViolation? <==> raised.SyntaxErr?
    ensures raised.message == (if e.GrammarViolation? then "Grammar validation failed: " else "Code analysis failed: ") + e.message
  {
    match e
    case GrammarViolation(m) => SyntaxErr("Grammar validation failed: " + m)
    case AnalysisFailure(m) => RuntimeErr("Code analysis failed: " + m)
  }

  /** The error is unset in Python's sense: None or the empty string. */
  predicate NoError(error: Option<string>) {
    error.None? || error.value == ""
  }

  class LangGraphOrchestrator {
    const client: Agents.LlmClient
    const analyzer: Agents.CodeAnalyzerAgent
    const coverageCalc: Coverage.CoverageCalculator
    const parsePython: string -> CodeAnalysis.ParseOutcome
    const maxIterations: IterationCap

    predicate Valid()
      reads this, analyzer
    {
      analyzer.Valid() && coverageCalc.Valid()
    }

    /**
     * The components of a session: the model client, the analyzer, the
     * coverage sandbox, Python's parser, and the configured iteration cap.
     */
    constructor (client: Agents.LlmClient, analyzer: Agents.CodeAnalyzerAgent, coverageCalc: Coverage.CoverageCalculator,
                 parsePython: string -> CodeAnalysis.ParseOutcome, settings: Config.Settings)
      requires analyzer.Valid() && coverageCalc.Valid()
      requires 1 <= settings.maxOptimizationIterations
      ensures Valid()
      ensures this.client == client && this.analyzer == analyzer && this.coverageCalc == coverageCalc
      ensures this.parsePython == parsePython && this.maxIterations == settings.maxOptimizationIterations
    {
      this.client := client;
      this.analyzer := analyzer;
      this.coverageCalc := coverageCalc;
      this.parsePython := parsePython;
      this.maxIterations := settings.maxOptimizationIterations;
    }

    /**
     * _analyze_node: the branch map on success; a grammar violation becomes a
     * SyntaxError and any other failure a RuntimeError, each recorded in the
     * state first.
     */
    method AnalyzeNode(state: AgentState) returns (raised: Option<NodeError>)
      requires Valid()
      modifies state
      ensures AnalysisOf(state.code).Success? ==>
        && raised == None && state.branchMap == Some(AnalysisOf(state.code).value)
        && state.error == old(state.error) && state.success == old(state.success)
      ensures AnalysisOf(state.code).Failure? ==>
        && raised == Some(Raise(AnalysisOf(state.code).error))
        && state.error == Some(raised.value.message) && !state.success && state.branchMap == old(state.branchMap)
      ensures state.tests == old(state.tests) && state.coverageResult == old(state.coverageResult)
      ensures state.iteration == old(state.iteration) && state.coverageHistory == old(state.coverageHistory)
    {
      var analysis := analyzer.Analyze(state.code, parsePython);
      if analysis.Success? {
        state.branchMap := Some(analysis.value);
        raised := None;
      } else {
        var exception := Raise(analysis.error);
        state.error := Some(exception.message);
        state.success := false;
        raised := Some(exception);
      }
    }

    /** The analyzer's verdict on a program text. */
    ghost function AnalysisOf(code: string): Result<BranchMap, Agents.AnalysisError>
      reads this, analyzer
      requires Valid()
    {
      analyzer.Verdict(code, parsePython)
    }

    /**
     * _generate_node: the extracted reply becomes the test suite; a failed
     * call, or a state without a branch map, becomes a RuntimeError recorded
     * in the state.
     */
    method GenerateNode(state: AgentState) returns (raised: Option<NodeError>)
      modifies state, client
      ensures state.branchMap.None? ==>
        raised == Some(RuntimeErr("Test generation failed: " + NoneAttribute)) && client.replies == old(client.replies)
      ensures state.branchMap.Some? ==>
        client.replies == (if old(client.replies) == [] then [] else old(client.replies)[1..])
      ensures state.branchMap.Some? && old(client.replies) != [] && old(client.replies)[0].Success? ==>
        raised == None && state.tests == Agents.ExtractCode(old(client.replies)[0].value)
        && state.error == old(state.error) && state.success == old(state.success)
      ensures raised.Some? ==> state.tests == old(state.tests) && state.error == Some(raised.value.message) && !state.success
      ensures state.branchMap.Some? && (old(client.replies) == [] || old(client.replies)[0].Failure?) ==>
        raised == Some(RuntimeErr("Test generation failed: " + Agents.ReplyError(old(client.replies))))
      ensures state.branchMap == old(state.branchMap) && state.coverageResult == old(state.coverageResult)
      ensures state.iteration == old(state.iteration) && state.coverageHistory == old(state.coverageHistory)
    {
      if state.branchMap.None? {
        var message := "Test generation failed: " + NoneAttribute;
        state.error := Some(message);
        state.success := false;
        return Some(RuntimeErr(message));
      }
      var tests := Agents.GenerateTests(client);
      if tests.Failure? {
        var message := "Test generation failed: " + tests.error;
        state.error := Some(message);
        state.success := false;
        return Some(RuntimeErr(message));
      }
      state.tests := tests.value;
      raised := None;
    }

    /**
     * _measure_node: the sandbox's report is stored and the session succeeds
     * once the branch coverage reaches the target; a measurement that raises
     * is stored as a zero report carrying the error, and the node never
     * raises. `measured` is the sandbox's answer: it fails on a module name
     * the guard rejects, and on every name when the working directory is the
     * root.
     */
    method MeasureNode(state: AgentState) returns (ghost measured: Result<CoverageResult, string>)
      requires Valid()
      modifies state, coverageCalc
      ensures measured.Success? ==>
        && state.coverageResult == Some(measured.value) && state.error == old(state.error)
        && state.success == (old(state.success) || measured.value.branchCoverage >= state.targetCoverage)
      ensures measured.Failure? ==>
        var message := "Coverage measurement failed: " + measured.error;
        state.coverageResult == Some(FailedReport(message)) && state.error == Some(message) && !state.success
      ensures measured.Failure? <==> !Coverage.MatchesAsWritten(state.moduleName) || coverageCalc.workDir == Paths.Sep
      ensures measured.Failure? ==>
        measured.error == if !Coverage.MatchesAsWritten(state.moduleName) then Coverage.InvalidModuleName(state.moduleName)
                          else "Path traversal detected in filename: " + state.moduleName + ".py"
      ensures state.tests == old(state.tests) && state.branchMap == old(state.branchMap)
      ensures state.iteration == old(state.iteration) && state.coverageHistory == old(state.coverageHistory)
    {
      if Coverage.MatchesAsWritten(state.moduleName) {
        coverageCalc.IdentifierCanPrepare(state.moduleName);
      }
      var run := coverageCalc.RunWithCoverage(state.code, state.tests, state.moduleName, None);
      measured := run;
      StoreMeasurement(state, run);
    }

    /** The end of _measure_node: the report, or the zero report of the error, goes into the state. */
    static method StoreMeasurement(state: AgentState, run: Result<CoverageResult, string>)
      modifies state
      ensures run.Success? ==>
        && state.coverageResult == Some(run.value) && state.error == old(state.error)
        && state.success == (old(state.success) || run.value.branchCoverage >= state.targetCoverage)
      ensures run.Failure? ==>
        var message := "Coverage measurement failed: " + run.error;
        state.coverageResult == Some(FailedReport(message)) && state.error == Some(message) && !state.success
      ensures state.tests == old(state.tests) && state.branchMap == old(state.branchMap)
      ensures state.iteration == old(state.iteration) && state.coverageHistory == old(state.coverageHistory)
    {
      if run.Success? {
        state.coverageResult := Some(run.value);
        if run.value.branchCoverage >= state.targetCoverage {
          state.success := true;
        }
      } else {
        var message := "Coverage measurement failed: " + run.error;
        state.coverageResult := Some(FailedReport(message));
        state.error := Some(message);
        state.success := false;
      }
    }

    /**
     * _optimize_node: counts the iteration, then appends the extracted reply
     * to the suite after a blank line; a failed call keeps the suite and is
     * recorded only when no error was recorded before. `additional` is the
     * optimizer's answer.
     */
    method OptimizeNode(state: AgentState) returns (ghost additional: Result<string, string>)
      modifies state, client
      ensures state.iteration == old(state.iteration) + 1
      ensures old(state.coverageResult).None? || old(state.branchMap).None? ==>
        additional == Failure(NoneAttribute) && client.replies == old(client.replies)
      ensures old(state.coverageResult).Some? && old(state.branchMap).Some? ==>
        && client.replies == (if old(client.replies) == [] then [] else old(client.replies)[1..])
        && (additional.Success? <==> old(client.replies) != [] && old(client.replies)[0].Success?)
        && (additional.Success? ==> additional.value == Agents.ExtractCode(old(client.replies)[0].value))
      ensures additional.Success? ==>
        state.tests == old(state.tests) + TestSeparator + additional.value && state.error == old(state.error)
      ensures additional.Failure? ==>
        && state.tests == old(state.tests)
        && state.error == if NoError(old(state.error))
                          then Some("Optimization iteration " + PyText.IntToString(state.iteration) + " failed: " + additional.error)
                          else old(state.error)
      ensures state.success == old(state.success) && state.branchMap == old(state.branchMap)
      ensures state.coverageResult == old(state.coverageResult) && state.coverageHistory == old(state.coverageHistory)
    {
      state.iteration := state.iteration + 1;
      var reply: Result<string, string>;
      if state.coverageResult.None? || state.branchMap.None? {
        reply := Failure(NoneAttribute);
      } else {
        reply := Agents.OptimizeCoverage(client);
      }
      additional := reply;
      if reply.Success? {
        state.tests := state.tests + TestSeparator + reply.value;
      } else {
        var message := "Optimization iteration " + PyText.IntToString(state.iteration) + " failed: " + reply.error;
        if NoError(state.error) {
          state.error := Some(message);
        }
      }
    }

    /** _should_optimize on the state: the decision, with the history it leaves behind. */
    method ShouldOptimize(state: AgentState) returns (route: Route)
      modifies state
      ensures var d := Decide(state.success, state.iteration, state.maxIterations, state.coverageResult, old(state.coverageHistory));
        route == d.route && state.coverageHistory == d.history
      ensures state.success == old(state.success) && state.iteration == old(state.iteration)
      ensures state.tests == old(state.tests) && state.branchMap == old(state.branchMap)
      ensures state.coverageResult == old(state.coverageResult) && state.error == old(state.error)
    {
      if state.success {
        return End;
      }
      if state.iteration >= state.maxIterations {
        return End;
      }
      if state.coverageResult.Some? {
        state.coverageHistory := state.coverageHistory + [state.coverageResult.value.branchCoverage];
        var n := |state.coverageHistory|;
        if n >= 3 {
          var h := state.coverageHistory;
          var improvement := Max3(h[n - 3], h[n - 2], h[n - 1]) - Min3(h[n - 3], h[n - 2], h[n - 1]);
          if improvement < 1.0 {
            return End;
          }
        }
      }
      return Optimize;
    }

    /**
     * The entry of the graph: the analyze node, then the generate node. A
     * session passes it with the analyzer's branch map and the extracted
     * first reply as its suite; otherwise the first node's exception ends it.
     */
    method AnalyzeAndGenerate(state: AgentState) returns (raised: Option<NodeError>)
      requires Valid()
      requires state.branchMap.None? && !state.success
      modifies state, client
      ensures raised.None? <==>
        AnalysisOf(state.code).Success? && old(client.replies) != [] && old(client.replies)[0].Success?
      ensures raised.None? ==>
        && state.branchMap == Some(AnalysisOf(state.code).value)
        && state.tests == Agents.ExtractCode(old(client.replies)[0].value)
        && !state.success && state.iteration == old(state.iteration)
      ensures AnalysisOf(state.code).Failure? ==> raised == Some(Raise(AnalysisOf(state.code).error))
      ensures AnalysisOf(state.code).Success? && (old(client.replies) == [] || old(client.replies)[0].Failure?) ==>
        raised == Some(RuntimeErr("Test generation failed: " + Agents.ReplyError(old(client.replies))))
      ensures state.coverageHistory == old(state.coverageHistory)
    {
      raised := AnalyzeNode(state);
      if raised.Some? {
        return;
      }
      raised := GenerateNode(state);
    }

    /**
     * One measure node and the decision after it. The history records the
     * measured figure unless the session ends first by success or the cap.
     */
    method MeasureAndDecide(state: AgentState) returns (route: Route, ghost figure: real)
      requires Valid()
      requires !state.success
      modifies state, coverageCalc
      ensures state.coverageResult.Some? && figure == state.coverageResult.value.branchCoverage
      ensures state.success ==> figure >= state.targetCoverage
      ensures state.coverageHistory
           == old(state.coverageHistory) + (if state.success || state.iteration >= state.maxIterations then [] else [figure])
      ensures state.targetCoverage > 0.0 ==> (state.success <==> figure >= state.targetCoverage)
      ensures route == End <==> state.success || state.iteration >= state.maxIterations || Stagnant(state.coverageHistory)
      ensures state.iteration == old(state.iteration) && state.tests == old(state.tests)
      ensures state.branchMap == old(state.branchMap)
    {
      ghost var measured := MeasureNode(state);
      figure := state.coverageResult.value.branchCoverage;
      route := ShouldOptimize(state);
    }

    /**
     * The cycle from the measure node on: measure, decide, and optimize and
     * measure again while the decision says so. Each round counts one
     * iteration, so the cycle ends by the cap at the latest; when it ends the
     * session has succeeded, reached its cap or stagnated, and the suite it
     * started with is still the start of the suite. `figures` are the branch
     * coverages of its measurements, one per round; the history gains each
     * of them, except the last when the session ends by success or the cap.
     */
    method RunCycle(state: AgentState) returns (ghost figures: seq<real>)
      requires Valid()
      requires state.branchMap.Some? && !state.success && state.iteration <= state.maxIterations
      modifies state, client, coverageCalc
      ensures state.coverageResult.Some? && state.branchMap == old(state.branchMap)
      ensures old(state.iteration) <= state.iteration <= state.maxIterations
      ensures |figures| == state.iteration - old(state.iteration) + 1
      ensures figures[|figures| - 1] == state.coverageResult.value.branchCoverage
      ensures state.coverageHistory
           == old(state.coverageHistory) + Recorded(figures, state.success || state.iteration >= state.maxIterations)
      ensures state.success ==> state.coverageResult.value.branchCoverage >= state.targetCoverage
      ensures state.success || state.iteration == state.maxIterations || Stagnant(state.coverageHistory)
      ensures Continued(old(state.coverageHistory), figures, state.targetCoverage)
      ensures state.targetCoverage > 0.0 ==> (state.success <==> figures[|figures| - 1] >= state.targetCoverage)
      ensures PyText.StartsWith(state.tests, old(state.tests))
      ensures PyText.Count(state.tests, Agents.TestDefinition) >= PyText.Count(old(state.tests), Agents.TestDefinition)
    {
      ghost var initial, start := state.tests, state.coverageHistory;
      ghost var figure;
      var route;
      route, figure := MeasureAndDecide(state);
      figures := [figure];
      while route == Optimize
        invariant Valid()
        invariant state.branchMap == old(state.branchMap) && state.coverageResult.Some?
        invariant old(state.iteration) <= state.iteration <= state.maxIterations
        invariant |figures| == state.iteration - old(state.iteration) + 1
        invariant figures[|figures| - 1] == state.coverageResult.value.branchCoverage
        invariant state.coverageHistory
               == old(state.coverageHistory) + Recorded(figures, state.success || state.iteration >= state.maxIterations)
        invariant route == Optimize ==> state.iteration < state.maxIterations && !state.success
        invariant route == Optimize ==> !Stagnant(state.coverageHistory)
        invariant route == End ==> state.success || state.iteration >= state.maxIterations || Stagnant(state.coverageHistory)
        invariant state.success ==> state.coverageResult.value.branchCoverage >= state.targetCoverage
        invariant state.targetCoverage > 0.0 ==> (state.success <==> figures[|figures| - 1] >= state.targetCoverage)
        invariant Continued(start, figures, state.targetCoverage)
        invariant PyText.StartsWith(state.tests, initial)
        decreases state.maxIterations - state.iteration
      {
        route, figure := OptimizeRound(state, start, figures);
        figures := figures + [figure];
      }
      assert state.tests == initial + state.tests[|initial|..];
      PyText.CountGrowsWithAppend(initial, state.tests[|initial|..], Agents.TestDefinition);
    }

    /**
     * One more round of the cycle, after a decision to optimize: the optimize
     * node, then the measure node and the decision. The round joins the ones
     * before it that routed to another optimization, and the history gains
     * its figure unless the session ends first by success or the cap.
     */
    method OptimizeRound(state: AgentState, ghost start: seq<real>, ghost figures: seq<real>)
      returns (route: Route, ghost figure: real)
      requires Valid()
      requires state.coverageResult.Some? && !state.success && state.iteration < state.maxIterations
      requires figures != [] && figures[|figures| - 1] == state.coverageResult.value.branchCoverage
      requires state.coverageHistory == start + figures && !Stagnant(state.coverageHistory)
      requires Continued(start, figures, state.targetCoverage)
      requires state.targetCoverage > 0.0 ==> figures[|figures| - 1] < state.targetCoverage
      modifies state, client, coverageCalc
      ensures state.iteration == old(state.iteration) + 1 && state.branchMap == old(state.branchMap)
      ensures state.coverageResult.Some? && figure == state.coverageResult.value.branchCoverage
      ensures state.success ==> figure >= state.targetCoverage
      ensures state.targetCoverage > 0.0 ==> (state.success <==> figure >= state.targetCoverage)
      ensures state.coverageHistory
           == start + Recorded(figures + [figure], state.success || state.iteration >= state.maxIterations)
      ensures route == End <==> state.success || state.iteration >= state.maxIterations || Stagnant(state.coverageHistory)
      ensures Continued(start, figures + [figure], state.targetCoverage)
      ensures PyText.StartsWith(state.tests, old(state.tests))
    {
      ghost var additional := OptimizeNode(state);
      route, figure := MeasureAndDecide(state);
      ContinuedExtend(start, figures, figure, state.targetCoverage);
      assert (figures + [figure])[..|figures|] == figures;
    }

    /** The figures the history keeps: all of them, or all but the last when the last decision ended the session first. */
    static function Recorded(figures: seq<real>, endedFirst: bool): seq<real>
      requires figures != []
    {
      if endedFirst then figures[..|figures| - 1] else figures
    }

    /**
     * How a session that ran its cycle ended: one measured figure per
     * iteration, the last being the final branch coverage; the history made
     * of those figures; every round but the last routed to another
     * optimization; and the reason it stopped.
     */
    ghost predicate SessionEnd(success: bool, iterations: int, branchCoverage: real, figures: seq<real>, history: seq<real>,
                               target: real)
    {
      && 0 <= iterations <= maxIterations
      && |figures| == iterations + 1
      && figures[|figures| - 1] == branchCoverage
      && history == Recorded(figures, success || iterations >= maxIterations)
      && (success ==> branchCoverage >= target)
      && (target > 0.0 ==> (success <==> branchCoverage >= target))
      && (success || iterations == maxIterations || Stagnant(history))
      && Continued([], figures, target)
    }

    /** With a positive target met by the first measurement, the session succeeds without optimizing. */
    lemma MetAtFirstMeasurement(success: bool, iterations: int, branchCoverage: real, figures: seq<real>, history: seq<real>,
                                target: real)
      requires SessionEnd(success, iterations, branchCoverage, figures, history, target)
      requires target > 0.0 && figures[0] >= target
      ensures success && iterations == 0
    {
    }

    /** Once the figures of the first `n` rounds have stagnated, the session has ended: it ran at most `n` rounds. */
    lemma StagnationEndsSession(success: bool, iterations: int, branchCoverage: real, figures: seq<real>, history: seq<real>,
                                target: real, n: int)
      requires SessionEnd(success, iterations, branchCoverage, figures, history, target)
      requires 0 < n <= |figures| && Stagnant(figures[..n])
      ensures iterations < n
    {
      assert [] + figures[..n] == figures[..n];
    }

    /**
     * A session whose every measurement gives the same figure below the
     * target (every run timing out under a positive target, say) ends
     * unsuccessfully after exactly two optimization rounds, whatever the cap
     * above that.
     */
    lemma FlatSessionStopsAfterTwoRounds(success: bool, iterations: int, branchCoverage: real, figures: seq<real>,
                                         history: seq<real>, target: real, c: real)
      requires SessionEnd(success, iterations, branchCoverage, figures, history, target)
      requires maxIterations >= 3 && c < target
      requires forall k :: 0 <= k < |figures| ==> figures[k] == c
      ensures !success && iterations == 2
    {
      assert |figures| >= 3 ==> Stagnant([] + figures[..3]);
      assert !success && iterations < 2 ==> history == figures;
    }

    /** The dictionary generate_tests returns, read off the final state. */
    function Outcome(state: AgentState): (r: RunResult)
      reads state
      requires state.coverageResult.Some? && state.branchMap.Some?
      ensures r.testsCount == PyText.Count(state.tests, Agents.TestDefinition)
      ensures r.success == state.success && r.tests == state.tests && r.iterations == state.iteration
      ensures r.branchCoverage == state.coverageResult.value.branchCoverage && r.branchMap == state.branchMap.value
    {
      var report := state.coverageResult.value;
      RunResult(state.success, state.tests, report.branchCoverage, report.totalCoverage,
                PyText.Count(state.tests, Agents.TestDefinition), state.iteration,
                state.branchMap.value, report.output)
    }

    /**
     * The compiled graph run on a fresh state: analyze, generate, then the
     * measure and optimize cycle. The first exception of a node ends the run;
     * otherwise the state holds the analyzer's branch map, a suite that
     * starts with the first extracted reply, and a history made of the
     * measured `figures`.
     */
    method Invoke(state: AgentState) returns (raised: Option<NodeError>, ghost figures: seq<real>)
      requires Valid()
      requires state.branchMap.None? && !state.success && state.iteration == 0 && state.coverageHistory == []
      requires state.maxIterations == maxIterations
      modifies state, client, coverageCalc
      ensures raised.None? <==>
        AnalysisOf(state.code).Success? && old(client.replies) != [] && old(client.replies)[0].Success?
      ensures AnalysisOf(state.code).Failure? ==> raised == Some(Raise(AnalysisOf(state.code).error))
      ensures AnalysisOf(state.code).Success? && (old(client.replies) == [] || old(client.replies)[0].Failure?) ==>
        raised == Some(RuntimeErr("Test generation failed: " + Agents.ReplyError(old(client.replies))))
      ensures raised.None? ==>
        && state.coverageResult.Some? && state.branchMap == Some(AnalysisOf(state.code).value)
        && SessionEnd(state.success, state.iteration, state.coverageResult.value.branchCoverage,
                      figures, state.coverageHistory, state.targetCoverage)
        && PyText.StartsWith(state.tests, Agents.ExtractCode(old(client.replies)[0].value))
        && PyText.Count(state.tests, Agents.TestDefinition)
           >= PyText.Count(Agents.ExtractCode(old(client.replies)[0].value), Agents.TestDefinition)
    {
      figures := [];
      raised := AnalyzeAndGenerate(state);
      if raised.Some? {
        return;
      }
      figures := RunCycle(state);
    }

    /**
     * generate_tests: runs the workflow on a fresh state and reports the
     * outcome. The target defaults to the configured one and must be a valid
     * percentage; an analysis or generation error ends the session with that
     * error. The session ends on success, at the iteration cap, or on
     * stagnation (`history` is the coverage history it ends with, made of
     * the measured `figures`); the suite only grows from the first generated
     * one, so the count of tests never drops below that suite's.
     */
    method GenerateTests(code: string, moduleName: string, targetCoverage: Option<real>)
      returns (r: Result<RunResult, string>, ghost figures: seq<real>, ghost history: seq<real>)
      requires Valid()
      modifies client, coverageCalc
      ensures var target := if targetCoverage.Some? then targetCoverage.value else Config.TargetBranchCoverage;
        && (!(0.0 <= target <= 100.0) ==> r == Failure(InvalidTarget))
        && (r.Success? ==> r.value.success ==> r.value.branchCoverage >= target)
        && ((0.0 <= target <= 100.0 && AnalysisOf(code).Success? && old(client.replies) != []
             && old(client.replies)[0].Success?) ==> r.Success?)
        && ((0.0 <= target <= 100.0 && AnalysisOf(code).Success?
             && (old(client.replies) == [] || old(client.replies)[0].Failure?)) ==>
              r == Failure("Test generation failed: " + Agents.ReplyError(old(client.replies))))
      ensures var target := if targetCoverage.Some? then targetCoverage.value else Config.TargetBranchCoverage;
        r.Success? ==> SessionEnd(r.value.success, r.value.iterations, r.value.branchCoverage, figures, history, target)
      ensures var target := if targetCoverage.Some? then targetCoverage.value else Config.TargetBranchCoverage;
        r.Success? && target > 0.0 && figures[0] >= target ==> r.value.success && r.value.iterations == 0
      ensures r.Success? ==>
        && AnalysisOf(code).Success? && r.value.branchMap == AnalysisOf(code).value
        && old(client.replies) != [] && old(client.replies)[0].Success?
        && PyText.StartsWith(r.value.tests, Agents.ExtractCode(old(client.replies)[0].value))
        && r.value.testsCount == PyText.Count(r.value.tests, Agents.TestDefinition)
        && r.value.testsCount >= PyText.Count(Agents.ExtractCode(old(client.replies)[0].value), Agents.TestDefinition)
      ensures var target := if targetCoverage.Some? then targetCoverage.value else Config.TargetBranchCoverage;
        0.0 <= target <= 100.0 && AnalysisOf(code).Failure? ==> r == Failure(Raise(AnalysisOf(code).error).message)
    {
      figures, history := [], [];
      var target := if targetCoverage.Some? then targetCoverage.value else Config.TargetBranchCoverage;
      if !(0.0 <= target <= 100.0) {
        return Failure(InvalidTarget), [], [];
      }
      var state := new AgentState(code, moduleName, target, maxIterations);
      var raised;
      raised, figures := Invoke(state);
      if raised.Some? {
        return Failure(raised.value.message), [], [];
      }
      r := Success(Outcome(state));
      history := state.coverageHistory;
      if target > 0.0 && figures[0] >= target {
        MetAtFirstMeasurement(r.value.success, r.value.iterations, r.value.branchCoverage, figures, history, target);
      }
    }
  }
}
