/**
 * The sandbox that runs the generated tests under branch coverage: the
 * guards on module names and paths, the files it writes and removes, the
 * arithmetic of the JSON report and the text fallback used when there is
 * no JSON report. The test run itself is a scripted outcome.
 */
module Coverage {
  import opened Wrappers
  import opened Models
  import PyText
  import Paths

  // ----- the module name guard -----

  predicate IsIdentStart(c: char) {
    'a' <= c <= 'z' || 'A' <= c <= 'Z' || c == '_'
  }

  predicate IsIdentChar(c: char) {
    IsIdentStart(c) || '0' <= c <= '9'
  }

  /** The whole name matches [a-zA-Z_][a-zA-Z0-9_]*. */
  predicate IsIdentifier(s: string) {
    s != [] && IsIdentStart(s[0]) && forall k :: 1 <= k < |s| ==> IsIdentChar(s[k])
  }

  /**
   * What re.match(r'^[a-zA-Z_][a-zA-Z0-9_]*$', s) accepts: Python's `$` also
   * matches just before a newline that ends the string.
   */
  predicate MatchesAsWritten(s: string) {
    IsIdentifier(s) || (|s| >= 2 && s[|s| - 1] == '\n' && IsIdentifier(s[..|s| - 1]))
  }

  function InvalidModuleName(name: string): string {
    "Invalid module name: " + name + ". Must be a valid Python identifier."
  }

  /** _sanitize_module_name as written: the name back, or the ValueError's message. */
  function SanitizeModuleNameAsWritten(name: string): (r: Result<string, string>)
    ensures r.Success? <==> MatchesAsWritten(name)
    ensures r.Success? ==> r.value == name
    ensures r.Failure? ==> r.error == InvalidModuleName(name)
  {
    if MatchesAsWritten(name) then Success(name) else Failure(InvalidModuleName(name))
  }

  /** _sanitize_module_name as intended: only a full identifier passes, unchanged. */
  function SanitizeModuleName(name: string): (r: Result<string, string>)
    ensures r.Success? <==> IsIdentifier(name)
    ensures r.Success? ==> r.value == name
    ensures r.Failure? ==> r.error == InvalidModuleName(name)
  {
    if IsIdentifier(name) then Success(name) else Failure(InvalidModuleName(name))
  }

  /** An identifier as written: a trailing newline gets through the guard, though no identifier ends in one. */
  lemma TrailingNewlinePassesAsWritten(name: string)
    requires IsIdentifier(name)
    ensures SanitizeModuleNameAsWritten(name + "\n") == Success(name + "\n")
    ensures SanitizeModuleName(name + "\n").Failure?
  {
    var s := name + "\n";
    assert s[..|s| - 1] == name;
    assert !IsIdentChar(s[|s| - 1]);
  }

  /** Any name the guard as written lets through makes a plain file name `<name>.py`. */
  lemma AcceptedNameIsPlain(name: string)
    requires MatchesAsWritten(name)
    ensures Paths.IsPlain(name + ".py")
  {
    var ident := if IsIdentifier(name) then name else name[..|name| - 1];
    assert IsIdentifier(ident);
    var file := name + ".py";
    forall k | 0 <= k < |file|
      ensures file[k] != '/'
    {
      if k < |ident| {
        assert file[k] == ident[k];
      }
    }
  }

  /**
   * A name that passes the guard is a harmless command-line argument and
   * file name: no blank, no leading dash, no separator, and `<name>.py` is a
   * plain file name.
   */
  lemma IdentifierIsSafe(name: string)
    requires IsIdentifier(name)
    ensures forall k :: 0 <= k < |name| ==> !PyText.IsSpace(name[k]) && name[k] != '/'
    ensures name[0] != '-'
    ensures Paths.IsPlain(name + ".py")
  {
    var file := name + ".py";
    forall k | 0 <= k < |file|
      ensures file[k] != '/'
    {
      if k < |name| {
        assert file[k] == name[k];
      }
    }
  }

  // ----- the path guards -----

  /**
   * _sanitize_path: both paths made absolute from the current directory; the
   * path passes when it is the base or starts with the base and a separator.
   * Unless the base is the root, that is exactly "inside the base".
   */
  function SanitizePath(cwd: string, path: string, base: string): (r: Result<string, string>)
    ensures r.Success? <==> Paths.IsInsideAsWritten(Paths.Absolute(cwd, path), Paths.Absolute(cwd, base))
    ensures Paths.Absolute(cwd, base) != Paths.Sep ==>
      (r.Success? <==> Paths.IsInside(Paths.Absolute(cwd, path), Paths.Absolute(cwd, base)))
    ensures r.Success? ==> r.value == Paths.Absolute(cwd, path) && Paths.Normalize(r.value) == r.value
    ensures r.Failure? ==> r.error == "Path traversal detected: " + path
  {
    var absPath := Paths.Absolute(cwd, path);
    var absBase := Paths.Absolute(cwd, base);
    Paths.NormalizeIdempotent(Paths.Join(cwd, path));
    Paths.NormalizeIdempotent(Paths.Join(cwd, base));
    Paths.NormalEndsWithoutSlash(absBase);
    if Paths.IsInsideAsWritten(absPath, absBase) then Success(absPath)
    else Failure("Path traversal detected: " + path)
  }

  // ----- the JSON report -----

  /**
   * The branch coverage of the JSON report: covered over total branches, as
   * a percentage, and 0 for a file without branches.
   */
  function BranchCoveragePercent(numBranches: int, coveredBranches: int): (p: real)
    ensures numBranches > 0 ==> p * numBranches as real == coveredBranches as real * 100.0
    ensures numBranches <= 0 ==> p == 0.0
  {
    if numBranches > 0 then coveredBranches as real / numBranches as real * 100.0 else 0.0
  }

  /** With no more branches covered than exist, the percentage is a valid coverage figure. */
  lemma BranchPercentInRange(numBranches: int, coveredBranches: int)
    requires 0 <= coveredBranches <= numBranches
    ensures 0.0 <= BranchCoveragePercent(numBranches, coveredBranches) <= 100.0
    ensures numBranches > 0 && coveredBranches == numBranches ==> BranchCoveragePercent(numBranches, coveredBranches) == 100.0
  {
    if numBranches > 0 {
      var p := BranchCoveragePercent(numBranches, coveredBranches);
      var n := numBranches as real;
      assert p * n == coveredBranches as real * 100.0;
      assert p * n <= n * 100.0;
    }
  }

  datatype Totals = Totals(percentCovered: Option<real>, numBranches: Option<int>, coveredBranches: Option<int>)

  /** One file entry of the report, in the report's order, with its missing branches when the key is there. */
  datatype FileReport = FileReport(name: string, missingBranches: Option<seq<BranchArc>>)

  /** The content of coverage.json: unreadable, or its "totals" and "files" keys where present. */
  datatype CoverageJson = Unreadable(message: string) | Report(totals: Option<Totals>, files: Option<seq<FileReport>>)

  /** What the JSON path extracts: the JSON report names no test counts, so both are 0. */
  datatype JsonSummary = JsonSummary(
    totalCoverage: real, branchCoverage: real, uncovered: seq<UncoveredBranch>, testsRun: int, testsPassed: int)

  function Get<T>(o: Option<T>, fallback: T): T {
    if o.Some? then o.value else fallback
  }

  function Missing(f: FileReport): seq<BranchArc> {
    Get(f.missingBranches, [])
  }

  /** The uncovered-branch entries of one file: one per missing branch, in order. */
  function EntriesOf(f: FileReport): seq<UncoveredBranch> {
    seq(|Missing(f)|, k requires 0 <= k < |Missing(f)| => UncoveredBranch(f.name, Missing(f)[k]))
  }

  function UncoveredOf(files: seq<FileReport>): seq<UncoveredBranch> {
    if files == [] then [] else UncoveredOf(files[..|files| - 1]) + EntriesOf(files[|files| - 1])
  }

  lemma EntriesMembership(f: FileReport, u: UncoveredBranch)
    ensures u in EntriesOf(f) <==> u.file == f.name && u.branch in Missing(f)
  {
    if u.file == f.name && u.branch in Missing(f) {
      var k :| 0 <= k < |Missing(f)| && Missing(f)[k] == u.branch;
      assert EntriesOf(f)[k] == u;
    }
  }

  /** An entry is uncovered exactly when its file reports that branch missing. */
  lemma {:induction false} UncoveredMembership(files: seq<FileReport>, u: UncoveredBranch)
    ensures u in UncoveredOf(files) <==>
      exists i :: 0 <= i < |files| && u.file == files[i].name && u.branch in Missing(files[i])
  {
    if files != [] {
      var init, last := files[..|files| - 1], files[|files| - 1];
      UncoveredMembership(init, u);
      EntriesMembership(last, u);
      assert UncoveredOf(files) == UncoveredOf(init) + EntriesOf(last);
      if u in UncoveredOf(files) {
        if u in UncoveredOf(init) {
          var i :| 0 <= i < |init| && u.file == init[i].name && u.branch in Missing(init[i]);
          assert files[i] == init[i];
        } else {
          assert u.file == files[|files| - 1].name && u.branch in Missing(files[|files| - 1]);
        }
      } else {
        forall i | 0 <= i < |files|
          ensures !(u.file == files[i].name && u.branch in Missing(files[i]))
        {
          if i < |init| {
            assert files[i] == init[i];
          }
        }
      }
    }
  }

  /** The file loop of _parse_coverage_json: one entry per missing branch per file, in report order. */
  method CollectUncovered(files: seq<FileReport>) returns (uncovered: seq<UncoveredBranch>)
    ensures uncovered == UncoveredOf(files)
  {
    uncovered := [];
    var i := 0;
    while i < |files|
      invariant 0 <= i <= |files|
      invariant uncovered == UncoveredOf(files[..i])
    {
      var missing := Get(files[i].missingBranches, []);
      var k := 0;
      while k < |missing|
        invariant 0 <= k <= |missing|
        invariant uncovered == UncoveredOf(files[..i]) + EntriesOf(files[i])[..k]
      {
        uncovered := uncovered + [UncoveredBranch(files[i].name, missing[k])];
        assert EntriesOf(files[i])[..k + 1] == EntriesOf(files[i])[..k] + [EntriesOf(files[i])[k]];
        k := k + 1;
      }
      assert EntriesOf(files[i])[..k] == EntriesOf(files[i]);
      assert files[..i + 1][..i] == files[..i];
      i := i + 1;
    }
    assert files[..i] == files;
  }

  /** What the JSON path makes of the report: None when it cannot be read. */
  function Summarize(json: CoverageJson): (s: Option<JsonSummary>)
    ensures s.Some? <==> json.Report?
    ensures s.Some? ==> s.value.testsRun == 0 && s.value.testsPassed == 0
  {
    match json
    case Unreadable(_) => None
    case Report(totals, files) =>
      var t := Get(totals, Totals(None, None, None));
      Some(JsonSummary(
        Get(t.percentCovered, 0.0),
        BranchCoveragePercent(Get(t.numBranches, 0), Get(t.coveredBranches, 0)),
        UncoveredOf(Get(files, [])),
        0, 0))
  }

  // ----- the text fallback -----

  function RemovePercent(s: string): (r: string)
    ensures forall k :: 0 <= k < |r| ==> r[k] != '%'
    ensures |r| <= |s|
  {
    if s == [] then [] else (if s[0] == '%' then [] else [s[0]]) + RemovePercent(s[1..])
  }

  /** The words of a line that hold "%", each with its "%" signs removed, in order. */
  function PercentTokens(parts: seq<string>): seq<string>
  {
    if parts == [] then []
    else PercentTokens(parts[..|parts| - 1])
         + (if PyText.Contains(parts[|parts| - 1], "%") then [RemovePercent(parts[|parts| - 1])] else [])
  }

  /** The words just before a word that mentions "passed", in order. */
  function CountTokens(parts: seq<string>): seq<string>
  {
    if parts == [] then []
    else CountTokens(parts[..|parts| - 1])
         + (if |parts| > 1 && PyText.Contains(PyText.Lower(parts[|parts| - 1]), "passed") then [parts[|parts| - 2]] else [])
  }

  predicate IsTotalLine(line: string) {
    PyText.Contains(line, "%") && PyText.Contains(line, "TOTAL")
  }

  predicate IsBranchLine(line: string) {
    PyText.Contains(PyText.Lower(line), "branch") && PyText.Contains(line, "%")
  }

  predicate IsPassedLine(line: string) {
    PyText.Contains(PyText.Lower(line), "passed")
  }

  function TotalTokens(lines: seq<string>): seq<string>
  {
    if lines == [] then []
    else TotalTokens(lines[..|lines| - 1])
         + (if IsTotalLine(lines[|lines| - 1]) then PercentTokens(PyText.SplitWords(lines[|lines| - 1])) else [])
  }

  function BranchTokens(lines: seq<string>): seq<string>
  {
    if lines == [] then []
    else BranchTokens(lines[..|lines| - 1])
         + (if IsBranchLine(lines[|lines| - 1]) then PercentTokens(PyText.SplitWords(lines[|lines| - 1])) else [])
  }

  function PassedTokens(lines: seq<string>): seq<string>
  {
    if lines == [] then []
    else PassedTokens(lines[..|lines| - 1])
         + (if IsPassedLine(lines[|lines| - 1]) then CountTokens(PyText.SplitWords(lines[|lines| - 1])) else [])
  }

  /** The value of the last token that parses, or the fallback when none does. */
  function LastParsed<T>(tokens: seq<string>, parse: string -> Option<T>, fallback: T): T
  {
    if tokens == [] then fallback
    else if parse(tokens[|tokens| - 1]).Some? then parse(tokens[|tokens| - 1]).value
    else LastParsed(tokens[..|tokens| - 1], parse, fallback)
  }

  lemma LastParsedAppend<T>(tokens: seq<string>, more: seq<string>, t: string, parse: string -> Option<T>, fallback: T)
    ensures LastParsed(tokens + (more + [t]), parse, fallback)
         == if parse(t).Some? then parse(t).value else LastParsed(tokens + more, parse, fallback)
  {
    assert tokens + (more + [t]) == (tokens + more) + [t];
    assert ((tokens + more) + [t])[..|tokens + more|] == tokens + more;
  }

  /** When no token parses, the fallback stays. */
  lemma {:induction false} NothingParsedKeepsFallback<T>(tokens: seq<string>, parse: string -> Option<T>, fallback: T)
    requires forall k :: 0 <= k < |tokens| ==> parse(tokens[k]).None?
    ensures LastParsed(tokens, parse, fallback) == fallback
  {
    if tokens != [] {
      var init := tokens[..|tokens| - 1];
      assert forall k :: 0 <= k < |init| ==> init[k] == tokens[k];
      NothingParsedKeepsFallback(init, parse, fallback);
    }
  }

  /** Each later value overwrites an earlier one: the result is the value of the last token that parses. */
  lemma {:induction false} LastParseableWins<T>(tokens: seq<string>, parse: string -> Option<T>, fallback: T, k: int)
    requires 0 <= k < |tokens| && parse(tokens[k]).Some?
    requires forall m :: k < m < |tokens| ==> parse(tokens[m]).None?
    ensures LastParsed(tokens, parse, fallback) == parse(tokens[k]).value
  {
    if k < |tokens| - 1 {
      var init := tokens[..|tokens| - 1];
      assert forall m :: 0 <= m < |init| ==> init[m] == tokens[m];
      LastParseableWins(init, parse, fallback, k);
    }
  }

  lemma LineStep(lines: seq<string>, i: int)
    requires 0 <= i < |lines|
    ensures TotalTokens(lines[..i + 1])
         == TotalTokens(lines[..i]) + (if IsTotalLine(lines[i]) then PercentTokens(PyText.SplitWords(lines[i])) else [])
    ensures BranchTokens(lines[..i + 1])
         == BranchTokens(lines[..i]) + (if IsBranchLine(lines[i]) then PercentTokens(PyText.SplitWords(lines[i])) else [])
    ensures PassedTokens(lines[..i + 1])
         == PassedTokens(lines[..i]) + (if IsPassedLine(lines[i]) then CountTokens(PyText.SplitWords(lines[i])) else [])
  {
    assert lines[..i + 1][..i] == lines[..i];
  }

  lemma PartStep(parts: seq<string>, j: int)
    requires 0 <= j < |parts|
    ensures PercentTokens(parts[..j + 1])
         == PercentTokens(parts[..j]) + (if PyText.Contains(parts[j], "%") then [RemovePercent(parts[j])] else [])
    ensures CountTokens(parts[..j + 1])
         == CountTokens(parts[..j])
            + (if j > 0 && PyText.Contains(PyText.Lower(parts[j]), "passed") then [parts[j - 1]] else [])
  {
    assert parts[..j + 1][..j] == parts[..j];
  }

  /** The word loop over a coverage line: each "%" word that parses replaces the value so far. */
  method ScanPercentWords(parts: seq<string>, ghost prior: seq<string>, current: real, parseFloat: string -> Option<real>)
    returns (v: real)
    requires current == LastParsed(prior, parseFloat, 0.0)
    ensures v == LastParsed(prior + PercentTokens(parts), parseFloat, 0.0)
  {
    v := current;
    var j := 0;
    assert prior + PercentTokens(parts[..0]) == prior;
    while j < |parts|
      invariant 0 <= j <= |parts|
      invariant v == LastParsed(prior + PercentTokens(parts[..j]), parseFloat, 0.0)
    {
      PartStep(parts, j);
      if PyText.Contains(parts[j], "%") {
        LastParsedAppend(prior, PercentTokens(parts[..j]), RemovePercent(parts[j]), parseFloat, 0.0);
        var f := parseFloat(RemovePercent(parts[j]));
        if f.Some? {
          v := f.value;
        }
      } else {
        assert PercentTokens(parts[..j + 1]) == PercentTokens(parts[..j]);
      }
      j := j + 1;
    }
    assert parts[..j] == parts;
  }

  /** The word loop over a line mentioning "passed": the integer before each "passed" word, when it parses, is the count. */
  method ScanPassedWords(parts: seq<string>, ghost prior: seq<string>, current: int) returns (v: int)
    requires current == LastParsed(prior, PyText.ParseInt, 0)
    ensures v == LastParsed(prior + CountTokens(parts), PyText.ParseInt, 0)
  {
    v := current;
    var k := 0;
    assert prior + CountTokens(parts[..0]) == prior;
    while k < |parts|
      invariant 0 <= k <= |parts|
      invariant v == LastParsed(prior + CountTokens(parts[..k]), PyText.ParseInt, 0)
    {
      PartStep(parts, k);
      if PyText.Contains(PyText.Lower(parts[k]), "passed") && k > 0 {
        LastParsedAppend(prior, CountTokens(parts[..k]), parts[k - 1], PyText.ParseInt, 0);
        var n := PyText.ParseInt(parts[k - 1]);
        if n.Some? {
          v := n.value;
        }
      } else {
        assert CountTokens(parts[..k + 1]) == CountTokens(parts[..k]);
      }
      k := k + 1;
    }
    assert parts[..k] == parts;
  }

  /**
   * _parse_coverage_from_text: the statement coverage is the last "%" word
   * that parses on a line naming TOTAL, the branch coverage the last one on
   * a line mentioning "branch", the test count the last integer before a word
   * mentioning "passed"; no uncovered branches. The record is then validated.
   */
  method ParseCoverageFromText(output: string, success: bool, parseFloat: string -> Option<real>)
    returns (r: Result<CoverageResult, string>)
    ensures var lines := PyText.Split(output, "\n");
      var passed := LastParsed(PassedTokens(lines), PyText.ParseInt, 0);
      r == MakeCoverageResult(success, LastParsed(TotalTokens(lines), parseFloat, 0.0),
                              LastParsed(BranchTokens(lines), parseFloat, 0.0), [], passed, passed, output, None)
  {
    var lines := PyText.Split(output, "\n");
    var branchCoverage := 0.0;
    var totalCoverage := 0.0;
    var i := 0;
    while i < |lines|
      invariant 0 <= i <= |lines|
      invariant totalCoverage == LastParsed(TotalTokens(lines[..i]), parseFloat, 0.0)
      invariant branchCoverage == LastParsed(BranchTokens(lines[..i]), parseFloat, 0.0)
    {
      LineStep(lines, i);
      if IsTotalLine(lines[i]) {
        totalCoverage := ScanPercentWords(PyText.SplitWords(lines[i]), TotalTokens(lines[..i]), totalCoverage, parseFloat);
      } else {
        assert TotalTokens(lines[..i + 1]) == TotalTokens(lines[..i]);
      }
      if IsBranchLine(lines[i]) {
        branchCoverage := ScanPercentWords(PyText.SplitWords(lines[i]), BranchTokens(lines[..i]), branchCoverage, parseFloat);
      } else {
        assert BranchTokens(lines[..i + 1]) == BranchTokens(lines[..i]);
      }
      i := i + 1;
    }
    assert lines[..i] == lines;

    var testsRun := 0;
    var testsPassed := 0;
    i := 0;
    while i < |lines|
      invariant 0 <= i <= |lines|
      invariant testsPassed == testsRun == LastParsed(PassedTokens(lines[..i]), PyText.ParseInt, 0)
    {
      LineStep(lines, i);
      if IsPassedLine(lines[i]) {
        testsPassed := ScanPassedWords(PyText.SplitWords(lines[i]), PassedTokens(lines[..i]), testsPassed);
        testsRun := testsPassed;
      } else {
        assert PassedTokens(lines[..i + 1]) == PassedTokens(lines[..i]);
      }
      i := i + 1;
    }
    assert lines[..i] == lines;
    r := MakeCoverageResult(success, totalCoverage, branchCoverage, [], testsRun, testsPassed, output, None);
  }

  // ----- the sandbox -----

  /** What the sandbox finds at a path: a text file, the JSON report, or a directory. */
  datatype Entry = TextFile(content: string) | JsonFile(json: CoverageJson) | Directory

  /**
   * One pytest run: it finishes with its two output streams, its exit code,
   * and every file it leaves behind (the coverage reports among them); or it
   * times out; or it cannot be started.
   */
  datatype ExecOutcome =
    | Finished(stdout: string, stderr: string, returnCode: int, written: map<string, Entry>)
    | TimedOut
    | Crashed(message: string)

  /** The files a run leaves: none unless it finished. */
  function RunWrites(outcome: ExecOutcome): map<string, Entry> {
    if outcome.Finished? then outcome.written else map[]
  }

  /** The files the first of the coming runs leaves. */
  function FirstWrites(runs: seq<ExecOutcome>): map<string, Entry> {
    if runs == [] then map[] else RunWrites(runs[0])
  }

  /** A directory or anything below it. */
  predicate Under(p: string, dir: string) {
    p == dir || PyText.StartsWith(p, dir + Paths.Sep)
  }

  /** The paths of a directory tree that are present. */
  function Tree(m: map<string, Entry>, dir: string): set<string> {
    set p | p in m && Under(p, dir)
  }

  datatype ExecFailure = Timeout | Raised(message: string)

  const TestFileName: string := "test_generated.py"
  const TimeoutMessage: string := "Test execution timeout"
  const NoRunMessage: string := "pytest could not be started"

  /** An optional path argument, read as Python's `if existing_file_path:` does: None and "" are both false. */
  predicate Truthy(existing: Option<string>) {
    existing.Some? && existing.value != ""
  }

  /** The files outside `touched` are the same before and after. */
  ghost predicate SameOutside(before: map<string, Entry>, after: map<string, Entry>, touched: set<string>) {
    forall p :: p !in touched ==> (p in after <==> p in before) && (p in after ==> after[p] == before[p])
  }

  lemma SameOutsideUpdate(m: map<string, Entry>, k: string, v: Entry, touched: set<string>)
    ensures k in touched ==> SameOutside(m, m[k := v], touched)
  {
  }

  lemma SameOutsideRemove(m: map<string, Entry>, removed: set<string>, touched: set<string>)
    ensures removed <= touched ==> SameOutside(m, m - removed, touched)
  {
  }

  lemma SameOutsideWiden(a: map<string, Entry>, b: map<string, Entry>, small: set<string>, big: set<string>)
    ensures small <= big && SameOutside(a, b, small) ==> SameOutside(a, b, big)
  {
  }

  lemma SameOutsideMerge(m: map<string, Entry>, w: map<string, Entry>, touched: set<string>)
    ensures w.Keys <= touched ==> SameOutside(m, m + w, touched)
  {
  }

  lemma SameOutsideTrans(a: map<string, Entry>, b: map<string, Entry>, c: map<string, Entry>, touched: set<string>)
    ensures SameOutside(a, b, touched) && SameOutside(b, c, touched) ==> SameOutside(a, c, touched)
  {
  }

  class CoverageCalculator {
    const cwd: string
    const workDir: string
    const parseFloat: string -> Option<real>
    var files: map<string, Entry>
    var runs: seq<ExecOutcome>

    predicate Valid() {
      PyText.StartsWith(workDir, Paths.Sep) && Paths.Normalize(workDir) == workDir
    }

    /**
     * The working directory is made absolute from the current directory.
     * `files` is the file system the sandbox sees, `runs` what the coming
     * pytest runs do, and `parseFloat` Python's float() on a word.
     */
    constructor (cwd: string, workDir: string, parseFloat: string -> Option<real>,
                 files: map<string, Entry>, runs: seq<ExecOutcome>)
      requires PyText.StartsWith(cwd, Paths.Sep)
      ensures Valid()
      ensures this.cwd == cwd && this.workDir == Paths.Absolute(cwd, workDir) && this.parseFloat == parseFloat
      ensures this.files == files && this.runs == runs
    {
      this.cwd := cwd;
      this.workDir := Paths.Absolute(cwd, workDir);
      this.parseFloat := parseFloat;
      this.files := files;
      this.runs := runs;
      Paths.NormalizeIdempotent(Paths.Join(cwd, workDir));
      Paths.NormalizeStartsAtRoot(Paths.Join(cwd, workDir));
    }

    function JsonPath(): string { Paths.Join(workDir, "coverage.json") }
    function HtmlPath(): string { Paths.Join(workDir, "htmlcov") }
    function TestPath(): string { Paths.Join(workDir, TestFileName) }
    function CodePath(moduleName: string): string { Paths.Normalize(Paths.Join(workDir, moduleName + ".py")) }

    /** The path where the code under test is: the given file, or the one written into the working directory. */
    function CodeFile(moduleName: string, existing: Option<string>): string
    {
      if Truthy(existing) then Paths.Absolute(cwd, existing.value) else CodePath(moduleName)
    }

    /** The code file passes its guard as written: the given one, or the one to be written. */
    predicate CodeOk(moduleName: string, existing: Option<string>)
    {
      Paths.IsInsideAsWritten(CodeFile(moduleName, existing), workDir)
    }

    /** The test file passes its guard as written. */
    predicate TestOk()
    {
      Paths.IsInsideAsWritten(Paths.Normalize(TestPath()), workDir)
    }

    /** Both files pass their guards as written. */
    predicate CanPrepare(moduleName: string, existing: Option<string>)
    {
      CodeOk(moduleName, existing) && TestOk()
    }

    /** Why the files could not be prepared: the code file's guard, else the test file's. */
    function PrepareError(moduleName: string, existing: Option<string>): string
    {
      if CodeOk(moduleName, existing) then "Path traversal detected in filename: " + TestFileName
      else if Truthy(existing) then "Path traversal detected: " + existing.value
      else "Path traversal detected in filename: " + moduleName + ".py"
    }

    /** The files left by a failed preparation: the code file, when it was written before the test file failed. */
    function AfterFailedPrepare(code: string, moduleName: string, existing: Option<string>): map<string, Entry>
      reads this
    {
      if CodeOk(moduleName, existing) && !Truthy(existing) then files[CodePath(moduleName) := TextFile(code)] else files
    }

    /**
     * The test file passes its guard exactly when the working directory is
     * not the root: there the guard asks for the prefix "//".
     */
    lemma TestOkIffBelowRoot()
      requires Valid()
      ensures TestOk() <==> workDir != Paths.Sep
    {
      TestFileIsPlain();
      Paths.JoinPlainIsInside(workDir, TestFileName);
      if workDir != Paths.Sep {
        Paths.NormalEndsWithoutSlash(workDir);
      } else {
        Paths.RootRejectsEveryFile(TestFileName);
      }
    }

    /**
     * _create_safe_file in the working directory: the joined, normalised
     * path is written only when it lies inside the directory.
     */
    method CreateSafeFile(filename: string, content: string) returns (r: Result<string, string>)
      modifies this
      ensures runs == old(runs)
      ensures var path := Paths.Normalize(Paths.Join(workDir, filename));
        if Paths.IsInsideAsWritten(path, workDir) then r == Success(path) && files == old(files)[path := TextFile(content)]
        else r == Failure("Path traversal detected in filename: " + filename) && files == old(files)
    {
      var safePath := Paths.Normalize(Paths.Join(workDir, filename));
      if !Paths.IsInsideAsWritten(safePath, workDir) {
        return Failure("Path traversal detected in filename: " + filename);
      }
      files := files[safePath := TextFile(content)];
      r := Success(safePath);
    }

    /**
     * _prepare_files: the code file (given, or written) and then the test
     * file, each through its guard. A failing test-file guard leaves a
     * written code file in place.
     */
    method PrepareFiles(code: string, tests: string, moduleName: string, existing: Option<string>)
      returns (r: Result<(string, string), string>)
      requires Valid()
      modifies this
      ensures runs == old(runs)
      ensures !CanPrepare(moduleName, existing) ==>
        r == Failure(PrepareError(moduleName, existing)) && files == old(AfterFailedPrepare(code, moduleName, existing))
      ensures CanPrepare(moduleName, existing) ==>
        && r == Success((CodeFile(moduleName, existing), TestPath()))
        && files == (if Truthy(existing) then old(files) else old(files)[CodePath(moduleName) := TextFile(code)])
                    [TestPath() := TextFile(tests)]
    {
      var codeFile: string;
      if Truthy(existing) {
        var checked := SanitizePath(cwd, existing.value, workDir);
        Paths.AbsoluteOfNormal(cwd, workDir);
        if checked.Failure? {
          return Failure(checked.error);
        }
        codeFile := checked.value;
      } else {
        var created := CreateSafeFile(moduleName + ".py", code);
        assert "Path traversal detected in filename: " + (moduleName + ".py")
            == "Path traversal detected in filename: " + moduleName + ".py";
        if created.Failure? {
          return Failure(created.error);
        }
        codeFile := created.value;
      }
      TestFileIsPlain();
      Paths.JoinPlainIsInside(workDir, TestFileName);
      var testFile := CreateSafeFile(TestFileName, tests);
      if testFile.Failure? {
        return Failure(testFile.error);
      }
      r := Success((codeFile, testFile.value));
    }

    /**
     * The files after the JSON report is read: when there is one, it and the
     * whole HTML report tree are removed.
     */
    function AfterReport(m: map<string, Entry>): map<string, Entry>
    {
      if JsonPath() in m then m - ({JsonPath()} + Tree(m, HtmlPath())) else m
    }

    /** _execute_pytest: the next scripted run; its output is stdout, a newline, then stderr. */
    method ExecutePytest() returns (r: Result<(string, bool), ExecFailure>)
      modifies this
      ensures old(runs) == [] ==> r == Failure(Raised(NoRunMessage)) && files == old(files) && runs == []
      ensures old(runs) != [] ==> runs == old(runs)[1..] && match old(runs)[0]
        case Finished(out, err, code, written) =>
          r == Success((out + "\n" + err, code == 0)) && files == old(files) + written
        case TimedOut => r == Failure(Timeout) && files == old(files)
        case Crashed(message) => r == Failure(Raised(message)) && files == old(files)
    {
      if runs == [] {
        return Failure(Raised(NoRunMessage));
      }
      var run := runs[0];
      runs := runs[1..];
      match run
      case Finished(out, err, code, written) =>
        files := files + written;
        r := Success((out + "\n" + err, code == 0));
      case TimedOut =>
        r := Failure(Timeout);
      case Crashed(message) =>
        r := Failure(Raised(message));
    }

    /**
     * _parse_coverage_json: no report file, nothing to read and nothing
     * removed; otherwise the report is read and, whatever it holds, the
     * report file and the HTML report directory, with all it holds, are
     * removed.
     */
    method ParseCoverageJson() returns (summary: Option<JsonSummary>)
      modifies this
      ensures runs == old(runs)
      ensures files == old(AfterReport(files))
      ensures JsonPath() !in old(files) ==> summary == None
      ensures JsonPath() in old(files) ==>
        summary == (if old(files)[JsonPath()].JsonFile? then Summarize(old(files)[JsonPath()].json) else None)
    {
      if JsonPath() !in files {
        return None;
      }
      var entry := files[JsonPath()];
      summary := None;
      if entry.JsonFile? && entry.json.Report? {
        var t := Get(entry.json.totals, Totals(None, None, None));
        var totalCoverage := Get(t.percentCovered, 0.0);
        var numBranches := Get(t.numBranches, 0);
        var coveredBranches := Get(t.coveredBranches, 0);
        var branchCoverage := if numBranches > 0 then coveredBranches as real / numBranches as real * 100.0 else 0.0;
        var uncovered := CollectUncovered(Get(entry.json.files, []));
        summary := Some(JsonSummary(totalCoverage, branchCoverage, uncovered, 0, 0));
      }
      files := files - ({JsonPath()} + Tree(files, HtmlPath()));
    }

    /** _parse_results: the JSON report when there is one, else the text fallback; the record is validated. */
    /**
     * What _parse_results gives over the files `m`: the JSON summary when a
     * readable report is there, otherwise the text fallback on the output;
     * validated either way.
     */
    function Parsed(m: map<string, Entry>, output: string, success: bool): Result<CoverageResult, string>
    {
      var s := if JsonPath() in m && m[JsonPath()].JsonFile? then Summarize(m[JsonPath()].json) else None;
      match s
      case Some(j) =>
        MakeCoverageResult(success, j.totalCoverage, j.branchCoverage, j.uncovered, 0, 0, output, None)
      case None =>
        var lines := PyText.Split(output, "\n");
        var passed := LastParsed(PassedTokens(lines), PyText.ParseInt, 0);
        MakeCoverageResult(success, LastParsed(TotalTokens(lines), parseFloat, 0.0),
                           LastParsed(BranchTokens(lines), parseFloat, 0.0), [], passed, passed, output, None)
    }

    /**
     * The report of a run that finished over the files `m`: its output is
     * stdout, a newline and stderr, its success exit code 0, and the files
     * it wrote are there when the results are parsed; a validation error
     * becomes a zero report carrying it.
     */
    function RunReport(m: map<string, Entry>, outcome: ExecOutcome): CoverageResult
      requires outcome.Finished?
    {
      var p := Parsed(m + outcome.written, outcome.stdout + "\n" + outcome.stderr, outcome.returnCode == 0);
      if p.Success? then p.value else FailedReport(p.error)
    }

    method ParseResults(output: string, success: bool) returns (r: Result<CoverageResult, string>)
      modifies this
      ensures runs == old(runs)
      ensures files == old(AfterReport(files))
      ensures r == Parsed(old(files), output, success)
    {
      var coverageData := ParseCoverageJson();
      if coverageData.Some? {
        var j := coverageData.value;
        r := MakeCoverageResult(success, j.totalCoverage, j.branchCoverage, j.uncovered, j.testsRun, j.testsPassed, output, None);
      } else {
        r := ParseCoverageFromText(output, success, parseFloat);
      }
    }

    /** _cleanup_files: the test file, and the code file unless it was given, are removed. */
    method CleanupFiles(codeFile: string, testFile: string, existing: Option<string>)
      modifies this
      ensures runs == old(runs)
      ensures files == old(files) - (if Truthy(existing) then {testFile} else {codeFile, testFile})
    {
      if !Truthy(existing) && codeFile in files {
        files := files - {codeFile};
      }
      if testFile in files {
        files := files - {testFile};
      }
    }

    /**
     * The files for a module name the guard accepts can be prepared exactly
     * when the working directory is not the root.
     */
    lemma IdentifierCanPrepare(moduleName: string)
      requires Valid() && MatchesAsWritten(moduleName)
      ensures CodeOk(moduleName, None) <==> workDir != Paths.Sep
      ensures CanPrepare(moduleName, None) <==> workDir != Paths.Sep
    {
      AcceptedNameIsPlain(moduleName);
      Paths.JoinPlainIsInside(workDir, moduleName + ".py");
      TestOkIffBelowRoot();
      if workDir == Paths.Sep {
        Paths.RootRejectsEveryFile(moduleName + ".py");
      } else {
        Paths.NormalEndsWithoutSlash(workDir);
      }
    }

    /** The report of a run that produced no measurement, or whose record did not validate. */
    function ReportFor(outcome: ExecOutcome): string
    {
      match outcome
      case TimedOut => TimeoutMessage
      case Crashed(message) => message
      case Finished(_, _, _, _) => ""
    }

    /**
     * The files after the next run: a finished run adds the files it leaves
     * and its report is then read; a run that did not finish changes nothing.
     */
    function AfterRun(m: map<string, Entry>, runs: seq<ExecOutcome>): map<string, Entry>
    {
      if runs != [] && runs[0].Finished? then AfterReport(m + runs[0].written) else m
    }

    /** Reading the report changes nothing outside the report and the HTML report tree. */
    lemma AfterReportFrame(m: map<string, Entry>, touched: set<string>)
      ensures {JsonPath()} + Tree(m, HtmlPath()) <= touched ==> SameOutside(m, AfterReport(m), touched)
    {
    }

    /**
     * The middle of run_with_coverage: the pytest run and the reading of its
     * results. A finished run adds the files it leaves and the report files
     * are then removed; a run that did not finish yields a zero report
     * carrying the reason.
     */
    method ExecuteAndParse() returns (report: CoverageResult)
      modifies this
      ensures runs == (if old(runs) == [] then [] else old(runs)[1..])
      ensures files == AfterRun(old(files), old(runs))
      ensures old(runs) == [] ==> report == FailedReport(NoRunMessage)
      ensures old(runs) != [] && !old(runs)[0].Finished? ==> report == FailedReport(ReportFor(old(runs)[0]))
      ensures old(runs) != [] && old(runs)[0].Finished? ==> report == RunReport(old(files), old(runs)[0])
      ensures report.success ==> old(runs) != [] && old(runs)[0].Finished? && old(runs)[0].returnCode == 0
    {
      var execution := ExecutePytest();
      if execution.Failure? {
        var message := if execution.error.Timeout? then TimeoutMessage else execution.error.message;
        report := FailedReport(message);
      } else {
        var parsed := ParseResults(execution.value.0, execution.value.1);
        report := if parsed.Success? then parsed.value else FailedReport(parsed.error);
      }
    }

    /**
     * run_with_coverage. A module name the guard rejects raises before any
     * file is written; a path guard that fails raises too, leaving a code
     * file already written. Otherwise the run always yields a report, a zero
     * one when it timed out or failed, the report files are removed, and so
     * are the files it wrote, on every path.
     */
    method RunWithCoverage(code: string, tests: string, moduleName: string, existing: Option<string>)
      returns (r: Result<CoverageResult, string>)
      requires Valid()
      modifies this
      ensures !MatchesAsWritten(moduleName) ==>
        r == Failure(InvalidModuleName(moduleName)) && files == old(files) && runs == old(runs)
      ensures MatchesAsWritten(moduleName) && !CanPrepare(moduleName, existing) ==>
        && r == Failure(PrepareError(moduleName, existing))
        && files == old(AfterFailedPrepare(code, moduleName, existing)) && runs == old(runs)
      ensures MatchesAsWritten(moduleName) && CanPrepare(moduleName, existing) ==>
        var prepared := (if Truthy(existing) then old(files) else old(files)[CodePath(moduleName) := TextFile(code)])
                        [TestPath() := TextFile(tests)];
        var ran := prepared + FirstWrites(old(runs));
        && r.Success?
        && runs == (if old(runs) == [] then [] else old(runs)[1..])
        && files == AfterRun(prepared, old(runs)) - (if Truthy(existing) then {TestPath()} else {CodePath(moduleName), TestPath()})
        && SameOutside(old(files), files, {CodeFile(moduleName, existing), TestPath(), JsonPath()}
                                          + FirstWrites(old(runs)).Keys + Tree(ran, HtmlPath()))
        && (old(runs) == [] ==> r.value == FailedReport(NoRunMessage))
        && (old(runs) != [] && !old(runs)[0].Finished? ==> r.value == FailedReport(ReportFor(old(runs)[0])))
        && (old(runs) != [] && old(runs)[0].Finished? ==> r.value == RunReport(prepared, old(runs)[0]))
        && (r.value.success ==> old(runs) != [] && old(runs)[0].Finished? && old(runs)[0].returnCode == 0)
    {
      var name := SanitizeModuleNameAsWritten(moduleName);
      if name.Failure? {
        return Failure(name.error);
      }
      var prepared := PrepareFiles(code, tests, moduleName, existing);
      if prepared.Failure? {
        return Failure(prepared.error);
      }
      var codeFile, testFile := prepared.value.0, prepared.value.1;
      ghost var preparedFiles := files;
      ghost var writes := FirstWrites(runs);
      ghost var touched := {codeFile, testFile, JsonPath()} + writes.Keys + Tree(preparedFiles + writes, HtmlPath());
      SameOutsideUpdate(old(files), codeFile, TextFile(code), touched);
      SameOutsideUpdate(if Truthy(existing) then old(files) else old(files)[codeFile := TextFile(code)],
                        testFile, TextFile(tests), touched);
      SameOutsideMerge(preparedFiles, writes, touched);
      AfterReportFrame(preparedFiles + writes, touched);
      SameOutsideTrans(old(files), preparedFiles, preparedFiles + writes, touched);
      SameOutsideTrans(old(files), preparedFiles + writes, AfterReport(preparedFiles + writes), touched);
      assert SameOutside(old(files), AfterRun(preparedFiles, runs), touched);
      var report := ExecuteAndParse();
      ghost var parsedFiles := files;
      CleanupFiles(codeFile, testFile, existing);
      SameOutsideRemove(parsedFiles, if Truthy(existing) then {testFile} else {codeFile, testFile}, touched);
      SameOutsideTrans(old(files), parsedFiles, files, touched);
      r := Success(report);
    }
  }

  lemma TestFileIsPlain()
    ensures Paths.IsPlain(TestFileName)
  {
  }
}
