/**
 * The task gate: decides whether a step is enabled. Each validator checks
 * one optional field of the step's condition (an absent field is satisfied);
 * the criteria are their conjunction, and the whole condition is the
 * criteria together with the outcome of the optional condition script.
 */
module Condition {

  import opened Wrappers
  import opened Types
  import opened Version

  // ------------------------------------------------------ list helpers

  /** Every listed name is a variable of `env` (an empty value counts). */
  function AllSet(names: seq<string>, env: Environment): (r: bool)
    ensures r <==> forall i | 0 <= i < |names| :: names[i] in env
  {
    |names| == 0 || (names[0] in env && AllSet(names[1..], env))
  }

  /** No listed name is a variable of `env`. */
  function NoneSet(names: seq<string>, env: Environment): (r: bool)
    ensures r <==> forall i | 0 <= i < |names| :: names[i] !in env
  {
    |names| == 0 || (names[0] !in env && NoneSet(names[1..], env))
  }

  /** Every (name, value) entry is a variable of `env` holding exactly that value. */
  function AllMatch(entries: seq<(string, string)>, env: Environment): (r: bool)
    ensures r <==> forall i | 0 <= i < |entries| ::
      entries[i].0 in env && env[entries[i].0] == entries[i].1
  {
    |entries| == 0
    || (entries[0].0 in env && env[entries[0].0] == entries[0].1 && AllMatch(entries[1..], env))
  }

  /** Whether `x` occurs anywhere in `list`. */
  function Contains(list: seq<string>, x: string): (r: bool)
    ensures r <==> x in list
  {
    |list| > 0 && (list[0] == x || Contains(list[1..], x))
  }

  // ------------------------------------------------ environment validators

  function ValidateEnvSet(condition: TaskCondition, env: Environment): (enabled: bool)
    ensures enabled <==> (condition.envSet.Some? ==>
      forall name | name in condition.envSet.value :: name in env)
  {
    match condition.envSet
    case None => true
    case Some(names) => AllSet(names, env)
  }

  function ValidateEnvNotSet(condition: TaskCondition, env: Environment): (enabled: bool)
    ensures enabled <==> (condition.envNotSet.Some? ==>
      forall name | name in condition.envNotSet.value :: name !in env)
  {
    match condition.envNotSet
    case None => true
    case Some(names) => NoneSet(names, env)
  }

  function ValidateEnv(condition: TaskCondition, env: Environment): (enabled: bool)
    ensures enabled <==> (condition.env.Some? ==>
      forall e | e in condition.env.value :: e.0 in env && env[e.0] == e.1)
  {
    match condition.env
    case None => true
    case Some(entries) => AllMatch(entries, env)
  }

  // ---------------------------------------------- platform and channel

  function ValidatePlatform(condition: TaskCondition, platform: string): (enabled: bool)
    ensures enabled <==> (condition.platforms.Some? ==> platform in condition.platforms.value)
  {
    match condition.platforms
    case None => true
    case Some(platforms) => Contains(platforms, platform)
  }

  /** An unknown channel matches no list (fails closed). */
  function ValidateChannel(condition: TaskCondition, info: RustInfo): (enabled: bool)
    ensures enabled <==> (condition.channels.Some? ==>
      info.channel.Some? && ChannelName(info.channel.value) in condition.channels.value)
  {
    match condition.channels
    case None => true
    case Some(channels) =>
      match info.channel
      case None => false
      case Some(channel) => Contains(channels, ChannelName(channel))
  }

  // ------------------------------------------------------ rust version

  predicate BoundWellFormed(bound: Option<string>) {
    bound.Some? ==> WellFormed(bound.value)
  }

  /**
   * Version strings are numeric and dotted wherever the gate compares them:
   * the actual version when it is known, and then every present bound.
   */
  predicate VersionsWellFormed(info: RustInfo, condition: RustVersionCondition) {
    info.version.Some? ==>
      WellFormed(info.version.value)
      && BoundWellFormed(condition.min)
      && BoundWellFormed(condition.max)
      && BoundWellFormed(condition.equal)
  }

  /** The version a present, well-formed bound stands for. */
  function BoundVersion(bound: Option<string>): seq<nat>
    requires bound.Some? && BoundWellFormed(bound)
  {
    Parse(bound.value).value
  }

  /**
   * Unknown toolchain version: enabled whatever the bounds (fails open).
   * Known version: min, max and equal each hold when present.
   */
  function ValidateRustVersionCondition(info: RustInfo, condition: RustVersionCondition): (enabled: bool)
    requires VersionsWellFormed(info, condition)
    ensures info.version.None? ==> enabled
    ensures info.version.Some? ==>
      var actual := Parse(info.version.value).value;
      (enabled <==>
        (condition.min.Some? ==> !Precedes(actual, BoundVersion(condition.min)))
        && (condition.max.Some? ==> !Precedes(BoundVersion(condition.max), actual))
        && (condition.equal.Some? ==> PaddedEqual(actual, BoundVersion(condition.equal))))
  {
    match info.version
    case None => true
    case Some(version) =>
      var actual := Parse(version).value;
      var minOk := condition.min.None? || AtLeast(actual, BoundVersion(condition.min));
      var maxOk := condition.max.None? || AtMost(actual, BoundVersion(condition.max));
      var equalOk := condition.equal.None? || Same(actual, BoundVersion(condition.equal));
      minOk && maxOk && equalOk
  }

  predicate RustVersionWellFormed(condition: TaskCondition, info: RustInfo) {
    condition.rustVersion.Some? ==> VersionsWellFormed(info, condition.rustVersion.value)
  }

  function ValidateRustVersion(condition: TaskCondition, info: RustInfo): (enabled: bool)
    requires RustVersionWellFormed(condition, info)
    ensures condition.rustVersion.None? || info.version.None? ==> enabled
    ensures condition.rustVersion.Some? ==>
      enabled == ValidateRustVersionCondition(info, condition.rustVersion.value)
  {
    match condition.rustVersion
    case None => true
    case Some(rustVersion) => ValidateRustVersionCondition(info, rustVersion)
  }

  // ------------------------------------------------ criteria and script

  /** Declarative meaning of a condition: every present field is satisfied in `ctx`. */
  ghost predicate Satisfied(ctx: ExecutionContext, c: TaskCondition)
    requires RustVersionWellFormed(c, ctx.rustInfo)
  {
    && (c.platforms.Some? ==> ctx.platform in c.platforms.value)
    && (c.channels.Some? ==>
          ctx.rustInfo.channel.Some? && ChannelName(ctx.rustInfo.channel.value) in c.channels.value)
    && (c.envSet.Some? ==> forall name | name in c.envSet.value :: name in ctx.env)
    && (c.envNotSet.Some? ==> forall name | name in c.envNotSet.value :: name !in ctx.env)
    && (c.env.Some? ==> forall e | e in c.env.value :: e.0 in ctx.env && ctx.env[e.0] == e.1)
    && (c.rustVersion.Some? && ctx.rustInfo.version.Some? ==>
          var actual := Parse(ctx.rustInfo.version.value).value;
          var rv := c.rustVersion.value;
          && (rv.min.Some? ==> !Precedes(actual, BoundVersion(rv.min)))
          && (rv.max.Some? ==> !Precedes(BoundVersion(rv.max), actual))
          && (rv.equal.Some? ==> PaddedEqual(actual, BoundVersion(rv.equal))))
  }

  /** Every version the step's condition would compare is well formed. */
  predicate StepWellFormed(ctx: ExecutionContext, step: Step) {
    step.config.condition.Some? ==> RustVersionWellFormed(step.config.condition.value, ctx.rustInfo)
  }

  /** A step without a condition passes; otherwise every validator must pass. */
  function ValidateCriteria(ctx: ExecutionContext, step: Step): (enabled: bool)
    requires StepWellFormed(ctx, step)
    ensures enabled <==> step.config.condition.None? || Satisfied(ctx, step.config.condition.value)
  {
    match step.config.condition
    case None => true
    case Some(condition) =>
      ValidatePlatform(condition, ctx.platform)
      && ValidateChannel(condition, ctx.rustInfo)
      && ValidateEnv(condition, ctx.env)
      && ValidateEnvSet(condition, ctx.env)
      && ValidateEnvNotSet(condition, ctx.env)
      && ValidateRustVersion(condition, ctx.rustInfo)
  }

  /**
   * A step without a condition script passes; otherwise the script must
   * exit with status 0. A non-zero status or a failure to launch disables
   * the step (fails closed).
   */
  function ValidateScript(step: Step, run: ScriptRunner): (enabled: bool)
    ensures step.config.conditionScript.None? ==> enabled
    ensures step.config.conditionScript.Some? ==>
      (enabled <==> run(step.config.conditionScript.value) == Exited(0))
  {
    match step.config.conditionScript
    case None => true
    case Some(script) =>
      match run(script)
      case Exited(code) => code == 0
      case LaunchFailed => false
  }

  /**
   * The gate: the criteria and the script must both pass. The script's
   * outcome matters only when the criteria pass
   * (`ConditionProperties.ScriptIrrelevantWhenCriteriaFail`).
   */
  function ValidateCondition(ctx: ExecutionContext, step: Step, run: ScriptRunner): (enabled: bool)
    requires StepWellFormed(ctx, step)
    ensures enabled <==>
      (step.config.condition.None? || Satisfied(ctx, step.config.condition.value))
      && (step.config.conditionScript.None? || run(step.config.conditionScript.value) == Exited(0))
  {
    ValidateCriteria(ctx, step) && ValidateScript(step, run)
  }
}

/** Properties of the gate that hold in every execution context. */
module ConditionProperties {

  import opened Wrappers
  import opened Types
  import opened Version
  import opened Condition

  /** The empty condition constrains nothing: every validator passes in every context. */
  lemma NoConditionEnables(ctx: ExecutionContext, name: string, run: ScriptRunner)
    ensures ValidatePlatform(NoCondition, ctx.platform)
    ensures ValidateChannel(NoCondition, ctx.rustInfo)
    ensures ValidateEnvSet(NoCondition, ctx.env)
    ensures ValidateEnvNotSet(NoCondition, ctx.env)
    ensures ValidateEnv(NoCondition, ctx.env)
    ensures ValidateRustVersion(NoCondition, ctx.rustInfo)
    ensures ValidateCriteria(ctx, Step(name, Task(Some(NoCondition), None)))
    ensures ValidateCriteria(ctx, Step(name, Task(None, None)))
    ensures ValidateCondition(ctx, Step(name, Task(Some(NoCondition), None)), run)
  {
  }

  /**
   * Unknown toolchain facts are treated differently: with neither channel
   * nor version known, any version bounds pass (fail open) while any
   * channel list fails (fail closed), even one naming every channel.
   */
  lemma UnknownToolchainAsymmetry(condition: TaskCondition)
    requires condition.channels.Some?
    ensures ValidateRustVersion(condition, RustInfo(None, None))
    ensures !ValidateChannel(condition, RustInfo(None, None))
  {
  }

  /** Bounds that all name the actual version pass. */
  lemma SelfBoundsEnable(info: RustInfo, v: string)
    requires info.version == Some(v) && WellFormed(v)
    ensures ValidateRustVersionCondition(info, RustVersionCondition(Some(v), Some(v), Some(v)))
  {
    CompareReflexive(Parse(v).value);
  }

  /** A minimum above the maximum admits no known version. */
  lemma EmptyRangeDisables(info: RustInfo, condition: RustVersionCondition)
    requires VersionsWellFormed(info, condition)
    requires info.version.Some? && condition.min.Some? && condition.max.Some?
    requires Compare(BoundVersion(condition.max), BoundVersion(condition.min)) == Less
    ensures !ValidateRustVersionCondition(info, condition)
  {
    var actual := Parse(info.version.value).value;
    var lo, hi := BoundVersion(condition.min), BoundVersion(condition.max);
    if ValidateRustVersionCondition(info, condition) {
      CompareFlip(actual, hi);
      CompareTransitive(hi, actual, lo, Greater);
      assert false;
    }
  }

  /**
   * Lowering the minimum or raising the maximum (or dropping either) never
   * disables a step that was enabled.
   */
  lemma WideningKeepsEnabled(info: RustInfo, condition: RustVersionCondition, wider: RustVersionCondition)
    requires VersionsWellFormed(info, condition) && VersionsWellFormed(info, wider)
    requires info.version.Some?
    requires wider.equal == condition.equal
    requires wider.min.Some? ==>
      condition.min.Some? && AtMost(BoundVersion(wider.min), BoundVersion(condition.min))
    requires wider.max.Some? ==>
      condition.max.Some? && AtLeast(BoundVersion(wider.max), BoundVersion(condition.max))
    ensures ValidateRustVersionCondition(info, condition) ==> ValidateRustVersionCondition(info, wider)
  {
    var actual := Parse(info.version.value).value;
    if ValidateRustVersionCondition(info, condition) {
      if wider.min.Some? {
        var lo, lo' := BoundVersion(condition.min), BoundVersion(wider.min);
        CompareFlip(lo', lo);
        CompareTransitive(actual, lo, lo', Greater);
      }
      if wider.max.Some? {
        var hi, hi' := BoundVersion(condition.max), BoundVersion(wider.max);
        CompareFlip(hi', hi);
        CompareTransitive(actual, hi, hi', Less);
      }
    }
  }

  /**
   * The actual version with the digit '1' appended never equals the actual
   * version, so an `equal` bound built that way disables the step.
   */
  lemma AppendedOneNeverEqual(info: RustInfo, v: string)
    requires info.version == Some(v) && WellFormed(v)
    ensures WellFormed(v + "1")
    ensures !ValidateRustVersionCondition(info, RustVersionCondition(None, None, Some(v + "1")))
  {
    AppendOne(v);
    var a := Parse(v).value;
    var w := Parse(v + "1").value;
    var n := |a|;
    assert Component(a, n - 1) != Component(w, n - 1);
  }

  /** A name that is both required and forbidden disables the step whatever the environment. */
  lemma RequiredAndForbiddenDisables(ctx: ExecutionContext, step: Step, name: string)
    requires StepWellFormed(ctx, step) && step.config.condition.Some?
    requires var c := step.config.condition.value;
      c.envSet.Some? && c.envNotSet.Some? && name in c.envSet.value && name in c.envNotSet.value
    ensures !ValidateCriteria(ctx, step)
  {
  }

  /** Matching `env` entries are at least as strong as requiring their names to be set. */
  lemma EnvEntriesImplyEnvSet(condition: TaskCondition, env: Environment)
    requires condition.env.Some?
    ensures var entries := condition.env.value;
      var names := seq(|entries|, i requires 0 <= i < |entries| => entries[i].0);
      ValidateEnv(condition, env) ==> ValidateEnvSet(condition.(envSet := Some(names)), env)
  {
  }

  /** The elements of a list, forgetting order and repetition. */
  ghost function ElementSet<T>(xs: seq<T>): set<T> {
    set x | x in xs
  }

  /** The elements of an optional list. */
  ghost function Elements<T>(list: Option<seq<T>>): Option<set<T>> {
    match list
    case None => None
    case Some(xs) => Some(ElementSet(xs))
  }

  lemma SameElements<T>(xs: seq<T>, ys: seq<T>)
    requires ElementSet(xs) == ElementSet(ys)
    ensures forall x :: x in xs <==> x in ys
  {
    forall x ensures x in xs <==> x in ys {
      assert x in xs <==> x in ElementSet(xs);
      assert x in ys <==> x in ElementSet(ys);
    }
  }

  /**
   * Only which entries the lists hold matters, not their order or
   * repetition: reordering platforms, channels, names or `env` entries
   * leaves the verdict unchanged.
   */
  lemma OrderIrrelevant(ctx: ExecutionContext, c: TaskCondition, d: TaskCondition)
    requires RustVersionWellFormed(c, ctx.rustInfo) && c.rustVersion == d.rustVersion
    requires Elements(c.platforms) == Elements(d.platforms)
    requires Elements(c.channels) == Elements(d.channels)
    requires Elements(c.envSet) == Elements(d.envSet)
    requires Elements(c.envNotSet) == Elements(d.envNotSet)
    requires Elements(c.env) == Elements(d.env)
    ensures Satisfied(ctx, c) == Satisfied(ctx, d)
  {
    if c.platforms.Some? { SameElements(c.platforms.value, d.platforms.value); }
    if c.channels.Some? { SameElements(c.channels.value, d.channels.value); }
    if c.envSet.Some? { SameElements(c.envSet.value, d.envSet.value); }
    if c.envNotSet.Some? { SameElements(c.envNotSet.value, d.envNotSet.value); }
    if c.env.Some? { SameElements(c.env.value, d.env.value); }
  }

  /**
   * When the criteria fail, the script's outcome cannot change the verdict,
   * so not running the script is safe.
   */
  lemma ScriptIrrelevantWhenCriteriaFail(ctx: ExecutionContext, step: Step, run: ScriptRunner, other: ScriptRunner)
    requires StepWellFormed(ctx, step) && !ValidateCriteria(ctx, step)
    ensures !ValidateCondition(ctx, step, run) && !ValidateCondition(ctx, step, other)
  {
  }

  /** A condition script that exits non-zero or fails to launch disables any step. */
  lemma FailingScriptDisables(ctx: ExecutionContext, step: Step, run: ScriptRunner)
    requires StepWellFormed(ctx, step) && step.config.conditionScript.Some?
    requires run(step.config.conditionScript.value) != Exited(0)
    ensures !ValidateCondition(ctx, step, run)
  {
  }
}
