/**
 * The behaviour the repository's condition tests pin down, stated for every
 * context that matches each test's set-up: the variables a test exports
 * become requirements on the environment, the platform name and toolchain
 * facts become parameters, and a script "exit N" becomes a runner that
 * reports status N for it.
 */
module ConditionCases {

  import opened Wrappers
  import opened Types
  import opened Version
  import opened Condition
  import ConditionProperties

  function WithEnvSet(names: seq<string>): TaskCondition {
    NoCondition.(envSet := Some(names))
  }

  function WithEnvNotSet(names: seq<string>): TaskCondition {
    NoCondition.(envNotSet := Some(names))
  }

  function WithEnv(entries: seq<(string, string)>): TaskCondition {
    NoCondition.(env := Some(entries))
  }

  function WithPlatforms(platforms: seq<string>): TaskCondition {
    NoCondition.(platforms := Some(platforms))
  }

  function WithChannels(channels: seq<string>): TaskCondition {
    NoCondition.(channels := Some(channels))
  }

  function WithRustVersion(min: Option<string>, max: Option<string>, equal: Option<string>): TaskCondition {
    NoCondition.(rustVersion := Some(RustVersionCondition(min, max, equal)))
  }

  /** A step named "test" with the given condition and condition script. */
  function TestStep(condition: TaskCondition, script: Option<seq<string>>): Step {
    Step("test", Task(Some(condition), script))
  }

  /** The environment after the tests export ENV_SET1="" and ENV_SET2="value". */
  predicate ExportsEmptyAndValue(env: Environment) {
    "ENV_SET1" in env && env["ENV_SET1"] == "" && "ENV_SET2" in env && env["ENV_SET2"] == "value"
  }

  /** BAD_ENV_SET1 and BAD_ENV_SET2, which no test exports, are not set. */
  predicate LacksBadNames(env: Environment) {
    "BAD_ENV_SET1" !in env && "BAD_ENV_SET2" !in env
  }

  /** A runner under which "exit 0" succeeds and "exit 1" exits with status 1. */
  predicate ShellExit(run: ScriptRunner) {
    run(["exit 0"]) == Exited(0) && run(["exit 1"]) == Exited(1)
  }

  // ------------------------------------------------------------ env_set

  lemma EnvSetCases(env: Environment)
    requires ExportsEmptyAndValue(env) && LacksBadNames(env)
    ensures ValidateEnvSet(NoCondition, env)
    ensures ValidateEnvSet(WithEnvSet(["ENV_SET1", "ENV_SET2"]), env)
    ensures !ValidateEnvSet(WithEnvSet(["BAD_ENV_SET1", "BAD_ENV_SET2"]), env)
    ensures !ValidateEnvSet(WithEnvSet(["ENV_SET1", "ENV_SET2", "BAD_ENV_SET1"]), env)
  {
    assert "BAD_ENV_SET1" in ["ENV_SET1", "ENV_SET2", "BAD_ENV_SET1"];
  }

  // -------------------------------------------------------- env_not_set

  lemma EnvNotSetCases(env: Environment)
    requires ExportsEmptyAndValue(env) && LacksBadNames(env)
    ensures ValidateEnvNotSet(NoCondition, env)
    ensures ValidateEnvNotSet(WithEnvNotSet(["BAD_ENV_SET1", "BAD_ENV_SET2"]), env)
    ensures !ValidateEnvNotSet(WithEnvNotSet(["ENV_SET1", "ENV_SET2"]), env)
    ensures !ValidateEnvNotSet(WithEnvNotSet(["ENV_SET1", "ENV_SET2", "BAD_ENV_SET1"]), env)
  {
    assert "ENV_SET1" in ["ENV_SET1", "ENV_SET2"];
    assert "ENV_SET1" in ["ENV_SET1", "ENV_SET2", "BAD_ENV_SET1"];
  }

  // ---------------------------------------------------------------- env

  lemma EnvCases(env: Environment, goodEnv: Environment)
    requires ExportsEmptyAndValue(env) && LacksBadNames(env)
    requires "ENV_SET1" in goodEnv && goodEnv["ENV_SET1"] == "good"
    requires "ENV_SET2" in goodEnv && goodEnv["ENV_SET2"] == "good"
    ensures ValidateEnv(NoCondition, env)
    ensures ValidateEnv(WithEnv([("ENV_SET1", ""), ("ENV_SET2", "value")]), env)
    ensures !ValidateEnv(WithEnv([("BAD_ENV_SET1", ""), ("BAD_ENV_SET2", "value")]), env)
    ensures !ValidateEnv(WithEnv([("ENV_SET2", "value2")]), env)
    ensures !ValidateEnv(WithEnv([("ENV_SET1", "good"), ("ENV_SET2", "bad")]), goodEnv)
  {
    assert ("BAD_ENV_SET1", "") in [("BAD_ENV_SET1", ""), ("BAD_ENV_SET2", "value")];
    assert ("ENV_SET2", "value2") in [("ENV_SET2", "value2")];
    assert ("ENV_SET2", "bad") in [("ENV_SET1", "good"), ("ENV_SET2", "bad")];
  }

  // ------------------------------------------------------------- script

  lemma ScriptCases(run: ScriptRunner)
    requires ShellExit(run)
    ensures ValidateScript(Step("test", Task(None, None)), run)
    ensures ValidateScript(Step("test", Task(None, Some(["exit 0"]))), run)
    ensures !ValidateScript(Step("test", Task(None, Some(["exit 1"]))), run)
  {
  }

  // --------------------------------------------------- platform, channel

  lemma PlatformCases(platform: string)
    requires platform != "bad1" && platform != "bad2"
    ensures ValidatePlatform(WithPlatforms(["bad1", platform, "bad2"]), platform)
    ensures !ValidatePlatform(WithPlatforms(["bad1", "bad2"]), platform)
  {
    assert platform in ["bad1", platform, "bad2"];
  }

  lemma ChannelCases(version: Option<string>)
    ensures ValidateChannel(WithChannels(["bad1", "stable", "bad2"]), RustInfo(Some(Stable), version))
    ensures ValidateChannel(WithChannels(["bad1", "beta", "bad2"]), RustInfo(Some(Beta), version))
    ensures ValidateChannel(WithChannels(["bad1", "nightly", "bad2"]), RustInfo(Some(Nightly), version))
    ensures !ValidateChannel(WithChannels(["bad1", "bad2"]), RustInfo(Some(Stable), version))
  {
    assert "stable" in ["bad1", "stable", "bad2"];
    assert "beta" in ["bad1", "beta", "bad2"];
    assert "nightly" in ["bad1", "nightly", "bad2"];
  }

  // ----------------------------------------------------------- criteria

  lemma CriteriaCases(ctx: ExecutionContext)
    requires ctx.platform != "bad1" && ctx.platform != "bad2"
    ensures ValidateCriteria(ctx, TestStep(NoCondition, None))
    ensures ValidateCriteria(ctx, TestStep(WithPlatforms(["bad1", ctx.platform, "bad2"]), None))
    ensures !ValidateCriteria(ctx, TestStep(WithPlatforms(["bad1", "bad2"]), None))
  {
    assert ctx.platform in ["bad1", ctx.platform, "bad2"];
  }

  lemma CriteriaChannelCases(platform: string, env: Environment, version: Option<string>)
    ensures var ctx := ExecutionContext(platform, RustInfo(Some(Stable), version), env);
      ValidateCriteria(ctx, TestStep(WithChannels(["bad1", "stable", "bad2"]), None))
    ensures var ctx := ExecutionContext(platform, RustInfo(Some(Beta), version), env);
      ValidateCriteria(ctx, TestStep(WithChannels(["bad1", "beta", "bad2"]), None))
    ensures var ctx := ExecutionContext(platform, RustInfo(Some(Nightly), version), env);
      ValidateCriteria(ctx, TestStep(WithChannels(["bad1", "nightly", "bad2"]), None))
    ensures var ctx := ExecutionContext(platform, RustInfo(Some(Stable), version), env);
      !ValidateCriteria(ctx, TestStep(WithChannels(["bad1", "bad2"]), None))
  {
    ChannelCases(version);
  }

  // ---------------------------------------------------------- condition

  lemma ConditionPlatformScriptCases(ctx: ExecutionContext, run: ScriptRunner)
    requires ctx.platform != "bad1" && ctx.platform != "bad2" && ShellExit(run)
    ensures ValidateCondition(ctx, TestStep(WithPlatforms(["bad1", ctx.platform, "bad2"]), Some(["exit 0"])), run)
    ensures !ValidateCondition(ctx, TestStep(WithPlatforms(["bad1", ctx.platform, "bad2"]), Some(["exit 1"])), run)
    ensures !ValidateCondition(ctx, TestStep(WithPlatforms(["bad1", "bad2"]), Some(["exit 0"])), run)
  {
    assert ctx.platform in ["bad1", ctx.platform, "bad2"];
  }

  lemma ConditionEnvCases(ctx: ExecutionContext, run: ScriptRunner)
    requires ShellExit(run) && LacksBadNames(ctx.env)
    requires "ENV_SET1" in ctx.env
    ensures !ValidateCondition(ctx, TestStep(WithEnvSet(["BAD_ENV_SET1"]), Some(["exit 0"])), run)
    ensures !ValidateCondition(ctx, TestStep(WithEnvNotSet(["ENV_SET1"]), Some(["exit 0"])), run)
  {
    assert "BAD_ENV_SET1" in ["BAD_ENV_SET1"];
    assert "ENV_SET1" in ["ENV_SET1"];
  }

  lemma ConditionEnvValueCases(ctx: ExecutionContext, run: ScriptRunner)
    requires ShellExit(run) && LacksBadNames(ctx.env)
    requires "ENV_SET1" in ctx.env && "ENV_SET2" in ctx.env
    ensures !ValidateCondition(ctx, TestStep(WithEnv([("BAD_ENV_SET1", "good"), ("BAD_ENV_SET2", "bad")]), Some(["exit 0"])), run)
    ensures ctx.env["ENV_SET1"] == "good1" && ctx.env["ENV_SET2"] == "good2" ==>
      ValidateCondition(ctx, TestStep(WithEnv([("ENV_SET1", "good1"), ("ENV_SET2", "good2")]), Some(["exit 0"])), run)
    ensures ctx.env["ENV_SET1"] == "good" && ctx.env["ENV_SET2"] == "good" ==>
      !ValidateCondition(ctx, TestStep(WithEnv([("ENV_SET1", "good"), ("ENV_SET2", "bad")]), Some(["exit 0"])), run)
  {
    assert ("BAD_ENV_SET1", "good") in [("BAD_ENV_SET1", "good"), ("BAD_ENV_SET2", "bad")];
    assert ("ENV_SET2", "bad") in [("ENV_SET1", "good"), ("ENV_SET2", "bad")];
  }

  /** An `equal` bound naming the actual version passes; one with '1' appended does not. */
  lemma ConditionRustVersionCases(ctx: ExecutionContext, v: string, run: ScriptRunner)
    requires ctx.rustInfo.version == Some(v) && WellFormed(v)
    ensures WellFormed(v + "1")
    ensures ValidateCondition(ctx, TestStep(WithRustVersion(None, None, Some(v)), None), run)
    ensures !ValidateCondition(ctx, TestStep(WithRustVersion(None, None, Some(v + "1")), None), run)
  {
    CompareReflexive(Parse(v).value);
    ConditionProperties.AppendedOneNeverEqual(ctx.rustInfo, v);
  }

  // ------------------------------------------------------- rust version

  /** A version made of three single digits, "x.y.z", parses into their values. */
  lemma ParseDigits(x: char, y: char, z: char)
    requires IsDigit(x) && IsDigit(y) && IsDigit(z)
    ensures Parse([x, '.', y, '.', z]) == Some([DigitValue(x), DigitValue(y), DigitValue(z)])
  {
    ParseDotted([x], [y], [z]);
    assert [x] + "." + [y] + "." + [z] == [x, '.', y, '.', z];
    assert [x][..0] == [] && [y][..0] == [] && [z][..0] == [];
  }

  /** The version strings the version tests use, parsed. */
  lemma TestVersions()
    ensures Parse("1.0.0") == Some([1, 0, 0])
    ensures Parse("1.9.9") == Some([1, 9, 9])
    ensures Parse("2.0.0") == Some([2, 0, 0])
    ensures Parse("2.0.1") == Some([2, 0, 1])
    ensures Parse("2.1.0") == Some([2, 1, 0])
    ensures Parse("3.0.0") == Some([3, 0, 0])
  {
    ParseDigits('1', '0', '0');
    ParseDigits('1', '9', '9');
    ParseDigits('2', '0', '0');
    ParseDigits('2', '0', '1');
    ParseDigits('2', '1', '0');
    ParseDigits('3', '0', '0');
  }

  function Known(v: string): RustInfo {
    RustInfo(None, Some(v))
  }

  /** With the version unknown even contradictory bounds pass; with no bounds any known version passes. */
  lemma RustVersionOpenCases()
    ensures WellFormed("2.0.0")
    ensures ValidateRustVersionCondition(RustInfo(None, None),
      RustVersionCondition(Some("2.0.0"), Some("1.0.0"), Some("3.0.0")))
    ensures ValidateRustVersionCondition(Known("2.0.0"), RustVersionCondition(None, None, None))
  {
    TestVersions();
  }

  lemma RustVersionMinCases()
    ensures WellFormed("2.0.0") && WellFormed("1.9.9") && WellFormed("3.0.0")
    ensures WellFormed("2.1.0") && WellFormed("2.0.1")
    ensures ValidateRustVersionCondition(Known("2.0.0"), RustVersionCondition(Some("1.9.9"), None, None))
    ensures ValidateRustVersionCondition(Known("2.0.0"), RustVersionCondition(Some("2.0.0"), None, None))
    ensures !ValidateRustVersionCondition(Known("2.0.0"), RustVersionCondition(Some("3.0.0"), None, None))
    ensures !ValidateRustVersionCondition(Known("2.0.0"), RustVersionCondition(Some("2.1.0"), None, None))
    ensures !ValidateRustVersionCondition(Known("2.0.0"), RustVersionCondition(Some("2.0.1"), None, None))
  {
    TestVersions();
    var two := [2, 0, 0];
    assert Compare(two, [1, 9, 9]) == Greater;
    assert Compare(two, [3, 0, 0]) == Less;
    assert Compare(two, [2, 1, 0]) == Less;
    assert Compare(two, [2, 0, 1]) == Less;
    MinOnly("2.0.0", "1.9.9");
    MinOnly("2.0.0", "2.0.0");
    MinOnly("2.0.0", "3.0.0");
    MinOnly("2.0.0", "2.1.0");
    MinOnly("2.0.0", "2.0.1");
  }

  /** A condition with only a minimum passes exactly when the actual version is at least it. */
  lemma MinOnly(v: string, bound: string)
    requires WellFormed(v) && WellFormed(bound)
    ensures ValidateRustVersionCondition(Known(v), RustVersionCondition(Some(bound), None, None))
      <==> Compare(Parse(v).value, Parse(bound).value) != Less
  {
  }

  lemma RustVersionMaxCases()
    ensures WellFormed("2.0.0") && WellFormed("1.9.9") && WellFormed("3.0.0")
    ensures WellFormed("2.1.0") && WellFormed("2.0.1")
    ensures ValidateRustVersionCondition(Known("1.9.9"), RustVersionCondition(None, Some("2.0.0"), None))
    ensures ValidateRustVersionCondition(Known("2.0.0"), RustVersionCondition(None, Some("2.0.0"), None))
    ensures !ValidateRustVersionCondition(Known("3.0.0"), RustVersionCondition(None, Some("2.0.0"), None))
    ensures !ValidateRustVersionCondition(Known("2.1.0"), RustVersionCondition(None, Some("2.0.0"), None))
    ensures !ValidateRustVersionCondition(Known("2.0.1"), RustVersionCondition(None, Some("2.0.0"), None))
  {
    TestVersions();
    var two := [2, 0, 0];
    assert Compare([1, 9, 9], two) == Less;
    assert Compare([3, 0, 0], two) == Greater;
    assert Compare([2, 1, 0], two) == Greater;
    assert Compare([2, 0, 1], two) == Greater;
    MaxOnly("1.9.9", "2.0.0");
    MaxOnly("2.0.0", "2.0.0");
    MaxOnly("3.0.0", "2.0.0");
    MaxOnly("2.1.0", "2.0.0");
    MaxOnly("2.0.1", "2.0.0");
  }

  /** A condition with only a maximum passes exactly when the actual version is at most it. */
  lemma MaxOnly(v: string, bound: string)
    requires WellFormed(v) && WellFormed(bound)
    ensures ValidateRustVersionCondition(Known(v), RustVersionCondition(None, Some(bound), None))
      <==> Compare(Parse(v).value, Parse(bound).value) != Greater
  {
    CompareFlip(Parse(v).value, Parse(bound).value);
  }

  lemma RustVersionEqualCases()
    ensures WellFormed("2.0.0") && WellFormed("1.0.0") && WellFormed("3.0.0")
    ensures ValidateRustVersionCondition(Known("2.0.0"), RustVersionCondition(None, None, Some("2.0.0")))
    ensures !ValidateRustVersionCondition(Known("2.0.0"), RustVersionCondition(None, None, Some("3.0.0")))
    ensures ValidateRustVersionCondition(Known("2.0.0"),
      RustVersionCondition(Some("1.0.0"), Some("3.0.0"), Some("2.0.0")))
  {
    TestVersions();
    var two := [2, 0, 0];
    assert Component(two, 0) != Component([3, 0, 0], 0);
  }

  /** The rust-version check of a whole condition, against the actual version `v`. */
  lemma RustVersionCases(info: RustInfo, v: string)
    requires info.version == Some(v) && WellFormed(v)
    ensures WellFormed(v + "1")
    ensures ValidateRustVersion(NoCondition, info)
    ensures ValidateRustVersion(WithRustVersion(Some(v), Some(v), Some(v)), info)
    ensures !ValidateRustVersion(WithRustVersion(None, None, Some(v + "1")), info)
  {
    ConditionProperties.SelfBoundsEnable(info, v);
    ConditionProperties.AppendedOneNeverEqual(info, v);
  }

  /**
   * Components compare as numbers, not as text: "2.10.0" sorts before
   * "2.9.0" character by character, yet it is the newer version.
   */
  lemma NumericNotTextual()
    ensures Parse("2.10.0") == Some([2, 10, 0]) && Parse("2.9.0") == Some([2, 9, 0])
    ensures "2.10.0"[..2] == "2.9.0"[..2] && "2.10.0"[2] < "2.9.0"[2]
    ensures ValidateRustVersionCondition(Known("2.10.0"), RustVersionCondition(Some("2.9.0"), None, None))
    ensures !ValidateRustVersionCondition(Known("2.10.0"), RustVersionCondition(None, Some("2.9.0"), None))
  {
    ParseDotted("2", "10", "0");
    assert "2" + "." + "10" + "." + "0" == "2.10.0";
    assert "10"[..1] == "1" && "2"[..0] == "" && "0"[..0] == "";
    ParseDigits('2', '9', '0');
  }
}
