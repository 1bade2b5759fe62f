/** Optional values, for the many "absent means no constraint" fields. */
module Wrappers {

  datatype Option<+T> = None | Some(value: T)
}

/**
 * The values the task gate reads. Every field of a task condition is optional;
 * an absent field places no constraint on the step. Facts the surrounding tool
 * discovers (platform name, toolchain channel and version, the process
 * environment) arrive as plain values in an `ExecutionContext`.
 */
module Types {

  import opened Wrappers

  /** Toolchain release track. */
  datatype Channel = Stable | Beta | Nightly

  /** The lowercase name under which a channel is listed in a `channels` condition. */
  function ChannelName(c: Channel): (name: string)
    ensures name == "stable" <==> c == Stable
    ensures name == "beta" <==> c == Beta
    ensures name == "nightly" <==> c == Nightly
  {
    match c
    case Stable => "stable"
    case Beta => "beta"
    case Nightly => "nightly"
  }

  /** Bounds on the toolchain version; each present bound must hold. */
  datatype RustVersionCondition = RustVersionCondition(
    min: Option<string>,
    max: Option<string>,
    equal: Option<string>)

  /**
   * The declarative part of a step's condition. `env` keeps the ordered
   * (name, value) entries of the configuration's map.
   */
  datatype TaskCondition = TaskCondition(
    platforms: Option<seq<string>>,
    channels: Option<seq<string>>,
    envSet: Option<seq<string>>,
    envNotSet: Option<seq<string>>,
    env: Option<seq<(string, string)>>,
    rustVersion: Option<RustVersionCondition>)

  /** The condition that constrains nothing. */
  const NoCondition := TaskCondition(None, None, None, None, None, None)

  /** What toolchain discovery found: either part may be unknown. */
  datatype RustInfo = RustInfo(channel: Option<Channel>, version: Option<string>)

  /** A snapshot of the process environment: variable name to value. */
  type Environment = map<string, string>

  /** Everything the gate reads about the world, fixed for one evaluation. */
  datatype ExecutionContext = ExecutionContext(
    platform: string,
    rustInfo: RustInfo,
    env: Environment)

  /** The part of a task's configuration that the gate consults. */
  datatype Task = Task(
    condition: Option<TaskCondition>,
    conditionScript: Option<seq<string>>)

  datatype Step = Step(name: string, config: Task)

  /** What running a condition script produced. */
  datatype ScriptOutcome = Exited(code: int) | LaunchFailed

  /** Runs the lines of a condition script and reports how it ended. */
  type ScriptRunner = seq<string> -> ScriptOutcome
}
