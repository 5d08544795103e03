/**
 * The settings read once when the configuration is loaded. The two tunable
 * integers follow one rule: take the environment variable (or its default
 * text), parse it as an integer, keep it when it lies in the allowed range,
 * and otherwise fall back to the default.
 */
module Config {
  import opened Wrappers
  import PyText

  const TargetBranchCoverage: real := 80.0
  const DefaultLlmTemperature: real := 0.2
  const ApiRetryAttempts: nat := 3
  const ApiRetryMinWait: nat := 2
  const ApiRetryMaxWait: nat := 10
  const ApiRetryMultiplier: nat := 1
  const PythonIndentSize: nat := 4

  /** The process environment: variable names to their text. */
  type Environment = map<string, string>

  /** os.getenv(name, fallback). */
  function GetEnv(env: Environment, name: string, fallback: string): (v: string)
    ensures name in env ==> v == env[name]
    ensures name !in env ==> v == fallback
  {
    if name in env then env[name] else fallback
  }

  /** The parse, range-check, else default rule shared by both tunable settings. */
  function CheckedInt(raw: string, lo: int, hi: int, fallback: int): (r: int)
    requires lo <= fallback <= hi
    ensures lo <= r <= hi
    ensures PyText.ParseInt(raw).Some? && lo <= PyText.ParseInt(raw).value <= hi ==> r == PyText.ParseInt(raw).value
    ensures PyText.ParseInt(raw).None? || !(lo <= PyText.ParseInt(raw).value <= hi) ==> r == fallback
  {
    match PyText.ParseInt(raw)
    case Some(n) => if lo <= n <= hi then n else fallback
    case None => fallback
  }

  function MaxOptimizationIterations(env: Environment): (r: int)
    ensures 1 <= r <= 20
  {
    CheckedInt(GetEnv(env, "MAX_OPTIMIZATION_ITERATIONS", "5"), 1, 20, 5)
  }

  function TestExecutionTimeout(env: Environment): (r: int)
    ensures 10 <= r <= 300
  {
    CheckedInt(GetEnv(env, "TEST_EXECUTION_TIMEOUT", "60"), 10, 300, 60)
  }

  function GoogleApiKey(env: Environment): string
  {
    GetEnv(env, "GOOGLE_API_KEY", "")
  }

  /** The values fixed when the configuration is loaded. */
  datatype Settings = Settings(maxOptimizationIterations: int, testExecutionTimeout: int, googleApiKey: string)

  function Load(env: Environment): (s: Settings)
    ensures 1 <= s.maxOptimizationIterations <= 20
    ensures 10 <= s.testExecutionTimeout <= 300
  {
    Settings(MaxOptimizationIterations(env), TestExecutionTimeout(env), GoogleApiKey(env))
  }

  /** A variable holding a printed integer in range is taken as that integer. */
  lemma {:induction false} PrintedIterationCapIsUsed(env: Environment, n: int)
    requires 1 <= n <= 20
    requires "MAX_OPTIMIZATION_ITERATIONS" in env && env["MAX_OPTIMIZATION_ITERATIONS"] == PyText.IntToString(n)
    ensures MaxOptimizationIterations(env) == n
  {
    PyText.ParseIntRoundTrip(n);
  }

  lemma {:induction false} PrintedTimeoutIsUsed(env: Environment, n: int)
    requires 10 <= n <= 300
    requires "TEST_EXECUTION_TIMEOUT" in env && env["TEST_EXECUTION_TIMEOUT"] == PyText.IntToString(n)
    ensures TestExecutionTimeout(env) == n
  {
    PyText.ParseIntRoundTrip(n);
  }

  /**
   * An unset variable falls back to its default text: the integers parse to
   * their default values and the key is empty.
   */
  lemma {:induction false} UnsetSettingsTakeDefaults(env: Environment)
    requires "MAX_OPTIMIZATION_ITERATIONS" !in env && "TEST_EXECUTION_TIMEOUT" !in env
    ensures MaxOptimizationIterations(env) == 5
    ensures TestExecutionTimeout(env) == 60
    ensures "GOOGLE_API_KEY" !in env ==> GoogleApiKey(env) == "" && Load(env) == Settings(5, 60, "")
  {
    PyText.ParseIntRoundTrip(5);
    PyText.ParseIntRoundTrip(60);
    assert PyText.IntToString(5) == "5";
    assert PyText.IntToString(60) == "60";
  }

  /** The fixed coverage target, model temperature, retry policy and indentation width. */
  lemma FixedConstants()
    ensures TargetBranchCoverage == 80.0 && DefaultLlmTemperature == 0.2
    ensures ApiRetryAttempts == 3 && ApiRetryMinWait == 2 && ApiRetryMaxWait == 10 && ApiRetryMultiplier == 1
    ensures PythonIndentSize == 4
  {
  }
}
