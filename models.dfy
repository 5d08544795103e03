/**
 * The records passed between the analyzer, the sandbox and the orchestrator,
 * with the bounds their declarations put on each field, and the one record
 * that is updated in place: the workflow state.
 */
module Models {
  import opened Wrappers

  /** A coverage percentage or target: between 0 and 100. */
  type Percentage = r: real | 0.0 <= r <= 100.0

  /** A cyclomatic complexity: at least 1. */
  type Complexity = n: int | n >= 1 witness 1

  /** An iteration cap: at least 1. */
  type IterationCap = n: int | n >= 1 witness 1

  datatype BranchKind = IfBranch | ElseBranch

  /** One decision point: where it is, which side, and the condition text of an `if`. */
  datatype BranchInfo = BranchInfo(line: int, kind: BranchKind, condition: Option<string>)

  /** A parameter of an analyzed function and its declared type. */
  datatype ArgInfo = ArgInfo(name: string, typeName: string)

  datatype FunctionInfo = FunctionInfo(
    name: string,
    args: seq<ArgInfo>,
    returnType: string,
    branches: seq<BranchInfo>,
    cyclomaticComplexity: Complexity,
    totalBranches: nat,
    lineno: nat)

  datatype BranchMap = BranchMap(functions: seq<FunctionInfo>, totalBranchesInFile: nat)

  /** The coverage tool names a missed branch by its source and destination lines. */
  datatype BranchArc = BranchArc(source: int, destination: int)

  datatype UncoveredBranch = UncoveredBranch(file: string, branch: BranchArc)

  datatype CoverageResult = CoverageResult(
    success: bool,
    totalCoverage: Percentage,
    branchCoverage: Percentage,
    uncoveredBranches: seq<UncoveredBranch>,
    testsRun: nat,
    testsPassed: nat,
    output: string,
    error: Option<string>)

  /** A branch record built with only its required fields: no condition. */
  function NewBranchInfo(line: int, kind: BranchKind): (b: BranchInfo)
    ensures b.line == line && b.kind == kind && b.condition == None
  {
    BranchInfo(line, kind, None)
  }

  /** A function record built with only its name: the declared defaults fill the rest. */
  function NewFunctionInfo(name: string): (f: FunctionInfo)
    ensures f.name == name && f.args == [] && f.returnType == "Any" && f.branches == []
    ensures f.cyclomaticComplexity == 1 && f.totalBranches == 0 && f.lineno == 0
  {
    FunctionInfo(name, [], "Any", [], 1, 0, 0)
  }

  /**
   * Building a coverage record validates its bounds: the percentages must lie
   * in [0, 100] and the test counts must not be negative, otherwise the
   * construction fails with a validation error.
   */
  function MakeCoverageResult(
    success: bool, totalCoverage: real, branchCoverage: real, uncovered: seq<UncoveredBranch>,
    testsRun: int, testsPassed: int, output: string, error: Option<string>): (r: Result<CoverageResult, string>)
    ensures r.Success? <==>
      0.0 <= totalCoverage <= 100.0 && 0.0 <= branchCoverage <= 100.0 && testsRun >= 0 && testsPassed >= 0
    ensures r.Success? ==>
      && r.value.success == success && r.value.totalCoverage == totalCoverage
      && r.value.branchCoverage == branchCoverage && r.value.uncoveredBranches == uncovered
      && r.value.testsRun == testsRun && r.value.testsPassed == testsPassed
      && r.value.output == output && r.value.error == error
  {
    if 0.0 <= totalCoverage <= 100.0 && 0.0 <= branchCoverage <= 100.0 && testsRun >= 0 && testsPassed >= 0 then
      Success(CoverageResult(success, totalCoverage, branchCoverage, uncovered, testsRun, testsPassed, output, error))
    else
      Failure("validation error for CoverageResult")
  }

  /** The report that stands for a run that produced no measurement: nothing covered, nothing run. */
  function FailedReport(error: string): (r: CoverageResult)
    ensures !r.success && r.totalCoverage == 0.0 && r.branchCoverage == 0.0
    ensures r.uncoveredBranches == [] && r.testsRun == 0 && r.testsPassed == 0
    ensures r.output == "" && r.error == Some(error)
  {
    CoverageResult(false, 0.0, 0.0, [], 0, 0, "", Some(error))
  }

  /**
   * The state of one test-generation session. The workflow nodes update its
   * fields in place; the input fields are never reassigned and are constants here.
   */
  class AgentState {
    const code: string
    const moduleName: string
    const targetCoverage: Percentage
    const maxIterations: IterationCap
    var branchMap: Option<BranchMap>
    var tests: string
    var coverageResult: Option<CoverageResult>
    var iteration: nat
    var coverageHistory: seq<real>
    var success: bool
    var finalTestCount: nat
    var error: Option<string>

    /** A fresh state: no tests, no measurement, no history, no error. */
    constructor (code: string, moduleName: string, targetCoverage: Percentage, maxIterations: IterationCap)
      ensures this.code == code && this.moduleName == moduleName
      ensures this.targetCoverage == targetCoverage && this.maxIterations == maxIterations
      ensures branchMap == None && tests == "" && coverageResult == None
      ensures iteration == 0 && coverageHistory == [] && !success && finalTestCount == 0 && error == None
    {
      this.code := code;
      this.moduleName := moduleName;
      this.targetCoverage := targetCoverage;
      this.maxIterations := maxIterations;
      branchMap := None;
      tests := "";
      coverageResult := None;
      iteration := 0;
      coverageHistory := [];
      success := false;
      finalTestCount := 0;
      error := None;
    }

    /** A fresh state built with only the code and module name: target 80.0, at most 5 iterations. */
    constructor WithDefaults(code: string, moduleName: string)
      ensures this.code == code && this.moduleName == moduleName
      ensures targetCoverage == 80.0 && maxIterations == 5
      ensures branchMap == None && tests == "" && coverageResult == None
      ensures iteration == 0 && coverageHistory == [] && !success && finalTestCount == 0 && error == None
    {
      this.code := code;
      this.moduleName := moduleName;
      targetCoverage := 80.0;
      maxIterations := 5;
      branchMap := None;
      tests := "";
      coverageResult := None;
      iteration := 0;
      coverageHistory := [];
      success := false;
      finalTestCount := 0;
      error := None;
    }
  }
}
