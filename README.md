# Multi-agent test generator: a verified model of its core

The system takes a Python module and produces a pytest suite for it. The
suite is meant to reach a target branch coverage. Four agents work through
a state machine:

- the **code analyzer** validates the code against a grammar for a Python
  subset, then walks the syntax tree and records every function with its
  arguments, return type, `if`/`else` branches and cyclomatic complexity;
- the **test generator** asks a language model for an initial suite and
  extracts the code from the reply;
- the **coverage calculator** writes the code and the suite into a working
  directory, after checking the module name and the paths, and runs
  pytest under branch coverage. It reads the JSON coverage report, or the
  text output when there is none, and removes what it wrote;
- the **coverage optimizer** asks for more tests while the target is not
  reached. The loop stops at an iteration cap, or when coverage stagnates.

This project models that core in Dafny, one module per source file, and
proves what each part promises. Python's built-ins that the core relies on
live in `PyText` and `Paths`, and are proved about on their own:

- `str.strip`, `split`, `count`, `lower` and `int()`;
- `os.path.join`, `normpath` and `abspath` on POSIX paths.

Modules:

- `wrappers.dfy`: `Option` and `Result`.
- `pytext.dfy`: the string built-ins.
- `paths.dfy`: joining, normalising and the containment test.
- `models.dfy`: the records passed between the agents, with their
  validation bounds. Also the workflow state, a class whose fields the
  nodes update.
- `config.dfy`: settings read from the environment, checked against their
  ranges, with defaults.
- `code_analysis.dfy`: the syntax tree, Python's breadth-first `ast.walk`,
  and the analysis methods with their loops.
- `agents.dfy`:
  - extraction of the code from a model reply;
  - counting tests;
  - the analyzer agent, with its shared grammar cache;
  - the two generating agents, over a scripted model client.
- `coverage.dfy`:
  - the module-name and path guards;
  - the JSON report summary;
  - the text fallback;
  - the sandbox class, over a map of files and a script of pytest outcomes.
- `orchestrator.dfy`:
  - the credential check;
  - the routing decision;
  - the four workflow nodes;
  - the session loop.

External effects become parameters or scripted state:

- the grammar parser, a function from text to a parse outcome;
- Python's parser, a function from text to a statement tree or an error;
- Python's `float()`, a function from text to an optional real;
- the language model, an `LlmClient` that hands out a fixed sequence of
  replies;
- pytest, a sequence of outcomes (finished, timed out, crashed);
- the file system, a map from absolute paths to entries.

## Model

| member | source | states |
|---|---|---|
| Models.NewBranchInfo | test_generator/test_generator/models.py:11-15 | a branch record built with only its line and kind has no condition |
| Models.NewFunctionInfo | test_generator/test_generator/models.py:18-26 | a function record built from a name alone takes the declared defaults: no args, return type "Any", no branches, complexity 1, 0 branches, line 0 |
| Models.MakeCoverageResult | test_generator/test_generator/models.py:35-44 | building a coverage record succeeds exactly when both percentages lie in [0, 100] and both test counts are non-negative, and then it carries every given field; otherwise it fails with a validation error |
| Models.FailedReport | test_generator/test_generator/coverage_calculator.py:137-156 | the zero report for a run without a measurement: not successful, 0% coverage, no uncovered branches, no tests, empty output, the error kept |
| Models.AgentState.constructor | test_generator/test_generator/models.py:47-66 | a fresh session state: the inputs as given, no branch map, no tests, no measurement, iteration 0, empty history, not successful, no error |
| Models.AgentState.WithDefaults | test_generator/test_generator/models.py:51-60 | the declared defaults: target 80.0 and at most 5 iterations |
| Config.CheckedInt | test_generator/test_generator/config.py:22-31 | an integer setting is the parsed value when it parses and lies in range, otherwise the default; the result is always in range |
| Config.MaxOptimizationIterations | test_generator/test_generator/config.py:22-31 | the iteration cap always lies in [1, 20] |
| Config.TestExecutionTimeout | test_generator/test_generator/config.py:35-44 | the test timeout always lies in [10, 300] seconds |
| Config.Load | test_generator/test_generator/config.py:15-44 | the loaded settings respect both ranges |
| Config.PrintedIterationCapIsUsed | test_generator/test_generator/config.py:22-31 | a variable holding the decimal text of any n in [1, 20] sets the cap to n |
| Config.PrintedTimeoutIsUsed | test_generator/test_generator/config.py:35-44 | a variable holding the decimal text of any n in [10, 300] sets the timeout to n |
| Config.UnsetSettingsTakeDefaults | test_generator/test_generator/config.py:15-44 | with neither integer variable set: 5 iterations and 60 seconds; with the key variable unset too, an empty key, so the loaded settings are (5, 60, "") |
| Config.FixedConstants | test_generator/test_generator/config.py:18-57 | target 80.0, temperature 0.2, 3 retry attempts with waits from 2 to 10 seconds and multiplier 1, indentation 4 |
| PyText.ParseIntRoundTrip | test_generator/test_generator/config.py:23 | `int()` reads back the decimal text of every integer |
| PyText.StripIdempotent | test_generator/test_generator/agents.py:59 | stripping twice is stripping once |
| PyText.CountGrowsWithAppend | test_generator/test_generator/orchestrator.py:337 | appending text never lowers the count of a pattern |
| PyText.FindSucceedsIffContains | test_generator/test_generator/agents.py:54-57 | a search finds the pattern exactly when the text contains it |
| CodeAnalysis.AnnotationText | test_generator/test_generator/code_analysis.py:103-113 | a missing annotation reads "Any", a name annotation its identifier, a constant its text, any other expression its source |
| CodeAnalysis.DetectBranches | test_generator/test_generator/code_analysis.py:81-100 | the queue loop yields exactly the records of the breadth-first walk: one "if" record per `if`, and an "else" record where the else part does not start with an `if` |
| CodeAnalysis.AnalyzeFunction | test_generator/test_generator/code_analysis.py:47-78 | the record of a definition: its arguments with their annotations in order, its return annotation, its branches; complexity 1 plus the number of `if` records, total the number of records |
| CodeAnalysis.AnalyzeFile | test_generator/test_generator/code_analysis.py:17-44 | unparsable code gives the parser's message with no functions and 0 branches; otherwise one record per definition met by the walk, and a file total that is the sum of the functions' totals |
| CodeAnalysis.WalkIsPermutationOfSourceOrder | test_generator/test_generator/code_analysis.py:35-36 | the breadth-first walk meets exactly the nodes of a source-order traversal, each once |
| CodeAnalysis.EveryDefinitionAnalyzedOnce | test_generator/test_generator/code_analysis.py:35-39 | every function definition of the program, nested ones included, is analyzed exactly once |
| CodeAnalysis.BranchesAreThoseOfEveryIf | test_generator/test_generator/code_analysis.py:85-98 | a definition's branch records are exactly those of every `if` nested in it |
| CodeAnalysis.BranchCountBounds | test_generator/test_generator/code_analysis.py:65-68 | there are at least as many branch records as `if` records, and at most twice as many |
| CodeAnalysis.ComplexityBoundsBranches | test_generator/test_generator/code_analysis.py:65-68 | a function's total branches lie between its complexity minus 1 and twice that |
| CodeAnalysis.NestedRecordsIncluded | test_generator/test_generator/code_analysis.py:85 | whatever the walk records for a nested node it also records for the enclosing one |
| CodeAnalysis.NestedBranchesCountedInBoth | test_generator/test_generator/code_analysis.py:35-39 | the branches of a nested function are counted in the enclosing function as well |
| Agents.ExtractCode | test_generator/test_generator/agents.py:44-61 | the extracted code never contains a fence and has no surrounding whitespace |
| Agents.UnfencedReplyIsStripped | test_generator/test_generator/agents.py:58-59 | a reply without fences is returned stripped |
| Agents.ExtractCodeIdempotent | test_generator/test_generator/agents.py:44-61 | extracting from already extracted code changes nothing |
| Agents.FencedBlockExtracted | test_generator/test_generator/agents.py:54-55 | prose without "```python", then a python-fenced block whose code holds no fence and does not end in a backquote, then any text that does not start with a backquote, gives exactly the stripped block |
| Agents.BareFencedBlockExtracted | test_generator/test_generator/agents.py:56-57 | a reply without "```python", with prose free of fences before a bare-fenced block, gives exactly the stripped block |
| Agents.BackquoteAfterBlockLeaks | test_generator/test_generator/agents.py:54-55 | a closing fence followed by "`python" makes a second "```python" one character later, so the code keeps a stray backquote: the text after the block cannot be arbitrary |
| Agents.CountTests | test_generator/test_generator/agents.py:23-42 | parsable code: the number of definitions named test_*, in the walk's order and so in source order; unparsable code: the textual count of "def test_" |
| Agents.CodeAnalyzerAgent.constructor | test_generator/test_generator/agents.py:85-107 | an empty grammar cache is filled with the loaded grammar, or stays empty when loading failed; a filled cache is reused; the agent is enabled exactly when it holds a grammar |
| Agents.CodeAnalyzerAgent.Analyze | test_generator/test_generator/agents.py:109-164 | the result is the stage-by-stage verdict: no grammar, grammar violation at an unexpected token, the AttributeError of a rejected character, other grammar error, parser error, or the branch map of the file analysis |
| Agents.CodeAnalyzerAgent.VerdictMeaning | test_generator/test_generator/agents.py:128-164 | a branch map comes only for code the grammar accepts and Python parses, and it lists every definition once, with the file total the sum of the functions' totals; a grammar violation comes exactly when the grammar rejects a token; a rejected character ends in the AttributeError "no attribute 'expected'"; without a grammar nothing is analyzed |
| Agents.LlmClient.Generate | test_generator/test_generator/agents.py:198 | the model answers with the next scripted reply; with none left the call fails |
| Agents.GenerateTests | test_generator/test_generator/agents.py:172-206 | one model call; the suite exists exactly when the reply does, and it is the code extracted from it; otherwise the error is the client's, or "no reply" |
| Agents.OptimizeCoverage | test_generator/test_generator/agents.py:214-254 | one model call; the additional tests exist exactly when the reply does, and they are the code extracted from it; otherwise the error is the client's, or "no reply" |
| Paths.Join | test_generator/test_generator/coverage_calculator.py:89 | joining onto an absolute directory gives an absolute path |
| Paths.NormalizeIdempotent | test_generator/test_generator/coverage_calculator.py:89-93 | normalising twice is normalising once |
| Paths.JoinPlainIsInside | test_generator/test_generator/coverage_calculator.py:89-96 | a plain file name joined to a normal directory is already normal and lies inside it |
| Paths.ParentIsOutside | test_generator/test_generator/coverage_calculator.py:58-69 | going up from a directory other than the root leaves it: ".." is caught as traversal |
| Paths.AsWrittenAgreesBelowRoot | test_generator/test_generator/coverage_calculator.py:68 | for every base not ending in a separator, the containment test as written is the intended one |
| Paths.RootRejectsEveryFile | test_generator/test_generator/coverage_calculator.py:95-96 | with the root as base, the test as written rejects every file in it, though each lies inside |
| Coverage.SanitizeModuleNameAsWritten | test_generator/test_generator/coverage_calculator.py:39-41 | the regular expression as written accepts exactly the identifiers and the identifiers followed by one newline, and returns the name unchanged; otherwise the error names it |
| Coverage.TrailingNewlinePassesAsWritten | test_generator/test_generator/coverage_calculator.py:39 | an identifier with a trailing newline passes the guard as written but not the intended one |
| Coverage.AcceptedNameIsPlain | test_generator/test_generator/coverage_calculator.py:39-41 | every name the guard as written accepts, one with a trailing newline included, makes `<name>.py` a plain file name |
| Coverage.SanitizeModuleName | test_generator/test_generator/coverage_calculator.py:26-41 | a name passes, unchanged, exactly when it is a full identifier; otherwise the error names it |
| Coverage.IdentifierIsSafe | test_generator/test_generator/coverage_calculator.py:38 | a name that passes has no blank, no separator and no leading dash, and `<name>.py` is a plain file name |
| Coverage.SanitizePath | test_generator/test_generator/coverage_calculator.py:44-71 | a path passes exactly when its absolute form is the base or starts with the base plus a separator, the test as written; for every base but the root this is the intended containment test; a passing path comes back absolute and normal, a refused one is named in the error |
| Coverage.BranchCoveragePercent | test_generator/test_generator/coverage_calculator.py:292-295 | with branches, the percentage times the branch count is 100 times the covered count; without branches it is 0 |
| Coverage.BranchPercentInRange | test_generator/test_generator/coverage_calculator.py:292-295 | with no more covered branches than branches, the percentage lies in [0, 100], and full coverage gives 100 |
| Coverage.UncoveredMembership | test_generator/test_generator/coverage_calculator.py:298-303 | an entry is listed as uncovered exactly when its file reports that branch missing |
| Coverage.CollectUncovered | test_generator/test_generator/coverage_calculator.py:298-303 | the nested loop yields one entry per missing branch per file, in report order |
| Coverage.Summarize | test_generator/test_generator/coverage_calculator.py:277-319 | a readable report gives a summary and an unreadable one none; the JSON path never counts tests |
| Coverage.NothingParsedKeepsFallback | test_generator/test_generator/coverage_calculator.py:330-347 | when no candidate word parses, the value stays at its initial 0 |
| Coverage.LastParseableWins | test_generator/test_generator/coverage_calculator.py:336-355 | each later value overwrites the earlier: the result is the last candidate that parses |
| Coverage.ScanPercentWords | test_generator/test_generator/coverage_calculator.py:338-345 | the word loop over a coverage line leaves the value of the last "%" word that parses, or the previous value |
| Coverage.ScanPassedWords | test_generator/test_generator/coverage_calculator.py:362-370 | the word loop over a "passed" line leaves the last integer before a "passed" word that parses, or the previous value |
| Coverage.ParseCoverageFromText | test_generator/test_generator/coverage_calculator.py:330-380 | statement coverage from the last parsable "%" word on TOTAL lines, branch coverage from "branch" lines, tests run equal to tests passed from the integer before "passed", no uncovered branches; the record is then validated |
| Coverage.CoverageCalculator.constructor | test_generator/test_generator/coverage_calculator.py:22-23 | the working directory is made absolute and normal |
| Coverage.CoverageCalculator.CreateSafeFile | test_generator/test_generator/coverage_calculator.py:74-107 | the joined, normalised path is written exactly when the containment test as written accepts it for the working directory; otherwise nothing is written and the error names the file |
| Coverage.CoverageCalculator.PrepareFiles | test_generator/test_generator/coverage_calculator.py:163-189 | when the code file (a given file, or `<module>.py` in the directory) and the suite pass the test as written, a given file is used as it is and only the suite is written, otherwise the code is written next to the suite; when one is refused, the error is the first refusal and only the code file written before it stays |
| Coverage.CoverageCalculator.IdentifierCanPrepare | test_generator/test_generator/coverage_calculator.py:89-96 | for every name the module guard accepts, the code file and the whole preparation pass exactly when the working directory is not the root |
| Coverage.CoverageCalculator.TestOkIffBelowRoot | test_generator/test_generator/coverage_calculator.py:186-187 | the suite's path passes the containment test as written exactly when the working directory is not the root |
| Coverage.CoverageCalculator.ExecutePytest | test_generator/test_generator/coverage_calculator.py:191-235 | a finished run gives stdout, a newline and stderr, success exactly on exit code 0, and leaves every file it wrote (reports, caches, files of the suite) over the old ones; a timeout or a crash leaves the files alone |
| Coverage.CoverageCalculator.ParseCoverageJson | test_generator/test_generator/coverage_calculator.py:277-328 | without a report nothing is read or removed; with one, it is summarised when readable, and the report and the whole HTML tree are removed either way |
| Coverage.CoverageCalculator.ParseResults | test_generator/test_generator/coverage_calculator.py:237-262 | the JSON summary when there is one, otherwise the text fallback, then validated; the reports are removed when a JSON report exists |
| Coverage.CoverageCalculator.ExecuteAndParse | test_generator/test_generator/coverage_calculator.py:130-158 | one pytest outcome is consumed; a timeout or crash gives the zero report with its message and leaves the files; a finished run's report is what the result parsing gives for stdout, a newline and stderr with success on exit code 0, over the files the run left (a validation error becomes a zero report), and those files stay with the reports removed |
| Coverage.CoverageCalculator.CleanupFiles | test_generator/test_generator/coverage_calculator.py:264-275 | the suite is removed, and so is the code file unless it was given |
| Coverage.CoverageCalculator.RunWithCoverage | test_generator/test_generator/coverage_calculator.py:109-161 | a name the guard as written refuses, or a code file or suite the containment test as written refuses, fails with that error before pytest runs; otherwise a report always comes back: a zero report on timeout or crash, and for a finished run the parsed report of its output over the prepared files and the run's own, successful only on exit code 0; the written code and suite, the JSON report and the HTML tree are gone afterwards, files the run wrote elsewhere stay, and no other file changes |
| Orchestration.ResolveCredentials | test_generator/test_generator/orchestrator.py:34-50 | construction goes ahead exactly when the provider is Google or unnamed and the key (given, else configured) is not empty; another provider is refused by name |
| Orchestration.ExplicitKeyWins | test_generator/test_generator/orchestrator.py:43-50 | a key passed in wins over the configured one, an empty key passed in is refused, and the configured key is used only when none is passed |
| Orchestration.StagnantIffClose | test_generator/test_generator/orchestrator.py:284-289 | the spread of the last three figures is under one point exactly when every two of them are within one point |
| Orchestration.OptimizeOnlyWhenBehind | test_generator/test_generator/orchestrator.py:266-298 | the decision optimizes exactly when the session has not succeeded, is below its cap and has not stagnated; it records at most one more figure |
| Orchestration.FlatCoverageStopsAfterTwoRounds | test_generator/test_generator/orchestrator.py:279-298 | with coverage that never moves, the third decision ends the session after two rounds, whatever cap of 3 or more applies |
| Orchestration.LangGraphOrchestrator.AnalyzeNode | test_generator/test_generator/orchestrator.py:106-139 | the branch map is stored on success; a grammar violation raises a SyntaxError, any other failure a RuntimeError, each recorded in the state with success cleared |
| Orchestration.LangGraphOrchestrator.GenerateNode | test_generator/test_generator/orchestrator.py:141-170 | the extracted reply becomes the suite; a failed or missing reply raises "Test generation failed: " with the client's error, recorded in the state, and keeps the old suite |
| Orchestration.LangGraphOrchestrator.MeasureNode | test_generator/test_generator/orchestrator.py:172-226 | the report is stored and success set once branch coverage reaches the target; the measurement raises exactly for a name the guard as written refuses or a working directory at the root, and then a zero report with that error is stored, success cleared, and nothing is raised |
| Orchestration.LangGraphOrchestrator.StoreMeasurement | test_generator/test_generator/orchestrator.py:186-223 | a report is stored, with success once the target is reached; a failure stores the zero report with "Coverage measurement failed: " and the error, and clears success |
| Orchestration.LangGraphOrchestrator.OptimizeNode | test_generator/test_generator/orchestrator.py:228-264 | the iteration is counted; extracted tests are appended after a blank line; a failure keeps the suite and is recorded only when no error was recorded before |
| Orchestration.LangGraphOrchestrator.ShouldOptimize | test_generator/test_generator/orchestrator.py:266-298 | the route and the history are those of the decision on the current state |
| Orchestration.LangGraphOrchestrator.AnalyzeAndGenerate | test_generator/test_generator/orchestrator.py:91-93 | the session passes the first two nodes exactly when the analysis succeeds and the first reply exists; it then holds the branch map and the extracted reply as its suite; otherwise the analysis error or the generation error is raised; the history is untouched |
| Orchestration.LangGraphOrchestrator.MeasureAndDecide | test_generator/test_generator/orchestrator.py:94-101 | one measurement and one decision: the figure is the measured branch coverage, recorded unless the session succeeded or reached its cap; success implies the target was reached, and with a positive target it holds exactly when the figure reaches it; the route ends exactly on success, the cap or stagnation of the history, and optimizes otherwise |
| Orchestration.LangGraphOrchestrator.OptimizeRound | test_generator/test_generator/orchestrator.py:94-102 | one more round after a decision to optimize: one more iteration, one measurement and its decision; the round before it joins the rounds that routed on, and the history gains the new figure unless success or the cap ends the session first |
| Orchestration.ContinuedExtend | test_generator/test_generator/orchestrator.py:279-298 | a round that routed to another optimization (history not stagnant, figure below a positive target) joins the rounds before the last: no earlier history stagnant, no earlier figure at a positive target |
| Orchestration.LangGraphOrchestrator.RunCycle | test_generator/test_generator/orchestrator.py:93-102 | each round counts one iteration up to the cap and measures once; the history is the old one plus every measured figure, except the last when success or the cap ended the session; the last figure is the final branch coverage; the cycle ends with success (target reached), the cap, or stagnation of that history, and every round before the last had none of these (no stagnant history, with a positive target no figure at the target); with a positive target, success holds exactly when the last figure reaches it; the suite only grows and its test count never drops |
| Orchestration.LangGraphOrchestrator.Invoke | test_generator/test_generator/orchestrator.py:82-104 | the compiled graph from a fresh state: it raises exactly when the analysis fails or the first reply is missing or failed, with that error; otherwise it ends by success at the target, the cap or stagnation of the recorded figures, every earlier round having had none of these, and the final suite starts with the first generated one |
| Orchestration.LangGraphOrchestrator.GenerateTests | test_generator/test_generator/orchestrator.py:300-362 | an invalid target fails; a valid target gives a result exactly when the analysis succeeds and the first reply exists, and otherwise fails with the analysis or the generation error; the result holds the analyzer's branch map and a suite that starts with the first generated one, so it counts no fewer tests; the figures measured and the history they leave end the session by success at the target, the cap, or stagnation, and no earlier round had stagnated or (with a positive target) reached the target; with a positive target met by the first measurement, the session succeeds with 0 iterations |
| Orchestration.LangGraphOrchestrator.MetAtFirstMeasurement | test_generator/test_generator/orchestrator.py:279-298 | with a positive target met by the first measurement, the session succeeds after 0 iterations |
| Orchestration.LangGraphOrchestrator.StagnationEndsSession | test_generator/test_generator/orchestrator.py:279-298 | once the figures of the first n rounds have stagnated, the session ran fewer than n iterations, whatever its cap |
| Orchestration.LangGraphOrchestrator.FlatSessionStopsAfterTwoRounds | test_generator/test_generator/orchestrator.py:279-298 | a whole session whose every measurement gives the same figure below the target ends unsuccessfully after exactly 2 iterations, for any cap of 3 or more |

## Left out

- Logging, the `verbose` flag and the warnings printed while reading the configuration: output only.
- The language-model client, its prompts and its retry policy are not part of this model. A reply is a scripted value. With no reply left the call fails with "no reply".
- The grammar for the Python subset is not part of this model. The grammar parser is a parameter.
- `ast.parse` is a parameter. The syntax tree is reduced to what the analysis looks at: function definitions, `if` statements, other compound statements and simple statements. `ast.unparse` texts (conditions, annotations) are carried in the tree.
- Python's `float()` in the text fallback is a parameter.
- The pytest subprocess is a scripted outcome. Its command line, the `PYTHONPATH` set for a given file, and the timeout value it is given are not modelled. A script with no outcome left is treated as a run that could not be started.
- The file system is a map from absolute paths to entries. Not modelled: creation of parent directories, write and permission errors, and a directory at the report's path.
- Paths are POSIX only. The Windows drive check with `os.path.relpath` (coverage_calculator.py:62-66) can never fire on POSIX.
- Paths.Normalize: gives a single leading separator where Python's `normpath` keeps exactly two leading slashes. The sandbox's working directory and written files never start with two slashes.
- Coverage.CoverageCalculator.CreateSafeFile: its base directory is fixed to the sandbox's working directory, which is the only base the source ever passes.
- Coverage.BranchCoveragePercent: computes with exact reals, where Python's float division rounds. For 57 of 100 branches Python gives 56.99999999999999, so a target of 57.0 is reached in the model and missed by the program.
- PyText.Lower and PyText.ParseInt: ASCII only. Python's `str.lower` folds every Unicode letter, and `int()` accepts every Unicode decimal digit (`int("٥") == 5`).
- Agents.GenerateTests and Agents.OptimizeCoverage: count the tests with `ast.parse`, which is a parameter that either parses or reports a syntax error. A reply holding a NUL character makes Python 3.10 and 3.11 raise ValueError there, which escapes the `except SyntaxError`. The model never fails on such a reply.
- Coverage.CoverageCalculator.ExecutePytest: the files a finished run writes are part of its scripted outcome. Which files a real pytest run writes (`.coverage`, caches, whatever the suite writes) is not modelled, only that they stay after cleanup.
- Error texts and defaults: a rejected target gives "validation error for AgentState" (Orchestration.InvalidTarget), and a record out of bounds gives "validation error for CoverageResult" (Models.MakeCoverageResult). These stand in for pydantic's full ValidationError messages. The Python defaults `module_name="code_to_test"` (orchestrator.py:303, coverage_calculator.py:110) and `work_dir="."` (coverage_calculator.py:22) are not modelled: every call passes the module name, and the working directory is given to the constructor.
- Coverage.CoverageCalculator.ParseCoverageJson: a regular file at the `htmlcov` path is removed like a directory tree, and the summary is kept. In the program `shutil.rmtree` raises NotADirectoryError there (coverage_calculator.py:325-328). The exception leaves _parse_results, and run_with_coverage's `except` turns it into a zero report with that error (coverage_calculator.py:148-158). The same gap carries into ParseResults, ExecuteAndParse and RunWithCoverage, whose reports for such a file system are the program's only when no such file exists.
- Coverage.Summarize: takes the JSON values to have the expected types. A non-numeric `percent_covered` would fail later, in validation.
- Models: the bounds of each record are checked when it is built (MakeCoverageResult); NaN and infinite floats are not modelled. The `final_test_count` field is never written by the core.
- Orchestration: LangGraph's graph compilation and its recursion limit (25 steps by default) are not modelled. With a cap above about 11 iterations, a real run would hit that limit before the cap.
- Orchestration: the state is one object that every node updates. Copying of the state between steps by the graph library is not modelled.
- Orchestration.LangGraphOrchestrator.GenerateTests: the `file_path` argument is ignored, as in the source, which never passes it on.
- Orchestration.LangGraphOrchestrator.GenerateNode: the message for a state without a branch map stands in for Python's AttributeError text.

## Order and stopping

- `ast.walk` is breadth-first, so definitions and branches are recorded in walk order, not source order. The model follows the walk and proves it meets the same nodes as a source-order traversal, each once (CodeAnalysis.WalkIsPermutationOfSourceOrder).
- With a positive target, a session whose runs all time out stops unsuccessfully after two optimization rounds, through the stagnation check, for any iteration cap of 3 or more (Orchestration.FlatCoverageStopsAfterTwoRounds for the decisions, Orchestration.LangGraphOrchestrator.FlatSessionStopsAfterTwoRounds for the whole session). With a target of 0.0, the first timed-out report of 0.0 already meets the target (orchestrator.py:199-200), and the session succeeds with no optimization round. This takes the history figure that the routing function appends (orchestrator.py:281) to persist into the next step. Whether it does depends on how the graph library hands the state to a conditional edge, which this model does not cover (see "## Left out").

## Findings

The sandbox members (SanitizePath, CreateSafeFile, PrepareFiles, RunWithCoverage, MeasureNode) use the guards as written, so the model behaves as the program does. The corrected guards are defined beside them, with their intended properties proved.

| source | as written | input that shows it | evidently intended | confidence | as-written member | corrected member |
|---|---|---|---|---|---|---|
| test_generator/test_generator/coverage_calculator.py:95-96 | a path passes when it starts with the base plus a separator, or is the base | working directory "/" (the calculator's default "." with the process started in the root), file "code_to_test.py": the path "/code_to_test.py" does not start with "//" and is refused as traversal | every path under the base passes, the root included | medium, not executed | Paths.RootRejectsEveryFile | Paths.JoinPlainIsInside |
| test_generator/test_generator/coverage_calculator.py:39 | `re.match` with `^...$`, where `$` also matches before a final newline | module name "abc\n" passes the identifier guard | only full identifiers pass | high, not executed | Coverage.TrailingNewlinePassesAsWritten | Coverage.SanitizeModuleName |
