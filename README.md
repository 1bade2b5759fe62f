# cargo-make task condition gate, in Dafny

Before cargo-make runs a step of a flow, it decides whether the step is
enabled. A step's task may carry a declarative `condition` and a
`condition_script`. The condition has optional fields: `platforms`,
`channels`, `env_set`, `env_not_set`, `env` and `rust_version` with
`min`/`max`/`equal` bounds. An absent field places no constraint. The
present fields are combined with AND (`validate_criteria`). The step is
enabled when the criteria pass and the condition script, if any, exits with
status 0 (`validate_condition`).

This project models that gate as pure functions over plain values:

- `types.dfy` holds the data: `TaskCondition`, `RustVersionCondition`,
  `RustInfo` (optional channel and version), `Task`, `Step`, the
  `ExecutionContext` (platform name, toolchain facts, environment snapshot),
  and `ScriptOutcome`.
- `version.dfy` is the version comparator. It splits a dotted string on
  '.' and parses each piece as a decimal number. Two versions are then
  compared component by component (major, minor, patch, ...), with the
  shorter one padded with zeros, so "1.0" is the same version as "1.0.0".
  The tests only use three-component versions.
- `condition.dfy` has one function per validator (module `Condition`) and
  the properties that hold in every context (module `ConditionProperties`).
- `condition_cases.dfy` restates each test of `src/condition_test.rs` as a
  lemma. Each lemma is stated for every context that matches the test's
  set-up. An exported variable becomes a requirement on the environment.
  The current platform and toolchain become parameters. A script line
  `exit N` becomes a runner that reports status N.

The implementation file that `src/condition_test.rs` tests is not part of
this model. The behaviour is taken from the tests. Where the tests are
silent, the model fixes the rules stated below: zero padding of shorter
versions, and the policy choices that follow.

Policy choices the model keeps:

- An unknown toolchain version passes every version bound ("fail open").
- An unknown channel matches no `channels` list ("fail closed").
- A script that fails to launch disables the step.

## Model

| member | source | states |
|---|---|---|
| Types.ChannelName | src/condition_test.rs:352-401 | Stable, Beta and Nightly are listed as "stable", "beta" and "nightly", and each name belongs to exactly one channel |
| Version.Split | src/condition_test.rs:1084-1303 | a version string has at least one piece and no piece contains '.'; joining the pieces with '.' gives the string back (`JoinSplit`) |
| Version.ParseParts | src/condition_test.rs:1084-1099 | parsing succeeds iff every piece is a numeral; the result has one value per piece, each the piece's decimal value |
| Version.Parse | src/condition_test.rs:1084-1303 | a version string parses iff every '.'-separated piece is a non-empty digit string; the result has one component per piece, each the piece's decimal value |
| Version.ParseRender | src/condition_test.rs:1084-1303 | parsing the rendering of any non-empty component list gives that list back |
| Version.ParseDotted | src/condition_test.rs:1084-1303 | "a.b.c" with numeral pieces parses to the three numeral values |
| Version.AppendOne | src/condition_test.rs:1029-1031 | appending "1" to a well-formed version keeps it well formed, keeps every component but the last, and turns the last component x into 10x+1 |
| Version.Compare | src/condition_test.rs:1084-1286 | the result is Less iff, at the first component where the two differ (zeros filling the shorter), the first version is smaller; Equal iff no padded component differs |
| Version.AtLeast | src/condition_test.rs:1084-1167 | the actual version is at least the bound iff it is not smaller at the first differing component |
| Version.AtMost | src/condition_test.rs:1169-1252 | the actual version is at most the bound iff the bound is not smaller at the first differing component |
| Version.Same | src/condition_test.rs:1254-1286 | equal iff every component agrees once the shorter is padded with zeros, and iff both at least and at most hold |
| Version.CompareFlip | src/condition_test.rs:1169-1252 | swapping the two versions flips the result, so "at most" mirrors "at least" |
| Version.CompareReflexive | src/condition_test.rs:1101-1116 | every version compares Equal to itself |
| Version.CompareTransitive | src/condition_test.rs:1084-1252 | the order the `min` and `max` tests probe is transitive, for Less and for Greater, and an Equal result needs both steps Equal |
| Version.TrailingZero | src/condition_test.rs:1254-1286 | a version is the Same as itself with a trailing zero component (the padding rule; the `equal` tests compare three-component versions only) |
| Condition.AllSet | src/condition_test.rs:24-80 | true iff every listed name is a variable of the environment |
| Condition.NoneSet | src/condition_test.rs:98-154 | true iff no listed name is a variable of the environment |
| Condition.AllMatch | src/condition_test.rs:172-257 | true iff every (name, value) entry names a variable that holds exactly that value |
| Condition.Contains | src/condition_test.rs:300-334 | true iff the item occurs somewhere in the list |
| Condition.ValidateEnvSet | src/condition_test.rs:8-80 | enabled iff `env_set` is absent or every listed name is set, whatever its value (including "") |
| Condition.ValidateEnvNotSet | src/condition_test.rs:82-154 | enabled iff `env_not_set` is absent or none of the listed names is set |
| Condition.ValidateEnv | src/condition_test.rs:156-257 | enabled iff `env` is absent or every entry's variable is set to exactly the entry's value |
| Condition.ValidatePlatform | src/condition_test.rs:300-334 | enabled iff `platforms` is absent or the current platform name is in the list, at any position |
| Condition.ValidateChannel | src/condition_test.rs:336-431 | enabled iff `channels` is absent, or the channel is known and its lowercase name is in the list |
| Condition.ValidateRustVersionCondition | src/condition_test.rs:1051-1303 | an unknown version passes; a known version passes iff it is not smaller than `min` at their first differing component, `max` is not smaller than it, and it equals `equal` after zero padding, each bound only when present |
| Condition.ValidateRustVersion | src/condition_test.rs:1305-1366 | no `rust_version` field, or an unknown version, passes; otherwise the verdict of the bounds check |
| Condition.ValidateCriteria | src/condition_test.rs:433-648 | enabled iff the step has no condition or every present field of it is satisfied in the context (the declarative `Satisfied`) |
| Condition.ValidateScript | src/condition_test.rs:259-298 | no script passes; otherwise enabled iff the script exits with status 0 (a non-zero status or a launch failure disables) |
| Condition.ValidateCondition | src/condition_test.rs:650-1049 | enabled iff the criteria are satisfied and the script, if present, exits with status 0 |
| ConditionProperties.NoConditionEnables | src/condition_test.rs:433-466 | the all-absent condition passes every validator, the criteria and the whole gate, in every context |
| ConditionProperties.UnknownToolchainAsymmetry | src/condition_test.rs:1051-1065 | with channel and version unknown, any version bounds pass while any channel list fails |
| ConditionProperties.SelfBoundsEnable | src/condition_test.rs:1321-1342 | min = max = equal = the actual version passes |
| ConditionProperties.EmptyRangeDisables | src/condition_test.rs:1051-1065 | with a known version, a minimum above the maximum disables the step |
| ConditionProperties.WideningKeepsEnabled | src/condition_test.rs:1288-1303 | lowering `min` or raising `max` never disables a step that passed |
| ConditionProperties.AppendedOneNeverEqual | src/condition_test.rs:1344-1366 | an `equal` bound made by appending "1" to the actual version disables the step |
| ConditionProperties.RequiredAndForbiddenDisables | src/condition_test.rs:766-838 | a name in both `env_set` and `env_not_set` disables the step in every environment |
| ConditionProperties.EnvEntriesImplyEnvSet | src/condition_test.rs:172-193 | when the `env` entries match, requiring their names in `env_set` also passes |
| ConditionProperties.OrderIrrelevant | src/condition_test.rs:300-318 | reordering or repeating list entries (and `env` entries) leaves the verdict unchanged |
| ConditionProperties.ScriptIrrelevantWhenCriteriaFail | src/condition_test.rs:730-764 | failing criteria disable the step whatever the script does, so the script need not run |
| ConditionProperties.FailingScriptDisables | src/condition_test.rs:690-728 | a script that exits non-zero or fails to launch disables any step |
| ConditionCases.EnvSetCases | src/condition_test.rs:8-80 | the env_set tests: empty passes, all set passes (including ""), none set fails, one missing fails |
| ConditionCases.EnvNotSetCases | src/condition_test.rs:82-154 | the env_not_set tests: empty passes, none set passes, all set fails, some set fails |
| ConditionCases.EnvCases | src/condition_test.rs:156-257 | the env tests: empty passes, exact values pass, missing names fail, a wrong value fails |
| ConditionCases.ScriptCases | src/condition_test.rs:259-298 | no script passes, "exit 0" passes, "exit 1" fails |
| ConditionCases.PlatformCases | src/condition_test.rs:300-334 | the current platform among others passes; a list without it fails |
| ConditionCases.ChannelCases | src/condition_test.rs:336-431 | stable, beta and nightly each match their name among others; stable does not match a list without it |
| ConditionCases.CriteriaCases | src/condition_test.rs:433-540 | the criteria tests for the empty condition and for platforms |
| ConditionCases.CriteriaChannelCases | src/condition_test.rs:542-648 | the criteria tests for channels |
| ConditionCases.ConditionPlatformScriptCases | src/condition_test.rs:650-764 | platform and script together: both passing enables; either failing disables |
| ConditionCases.ConditionEnvCases | src/condition_test.rs:766-838 | with "exit 0": an unset `env_set` name or a set `env_not_set` name disables the step |
| ConditionCases.ConditionEnvValueCases | src/condition_test.rs:840-964 | with "exit 0": `env` entries whose values all match enable the step; an entry whose name is not set, or one with a different value, disables it |
| ConditionCases.ConditionRustVersionCases | src/condition_test.rs:966-1049 | `equal` set to the actual version enables; with "1" appended it disables |
| ConditionCases.TestVersions | src/condition_test.rs:1084-1303 | the version strings the tests use parse to the expected components |
| ConditionCases.RustVersionOpenCases | src/condition_test.rs:1051-1082 | unknown version with contradictory bounds passes; a known version with no bounds passes |
| ConditionCases.RustVersionMinCases | src/condition_test.rs:1084-1167 | the `min` tests against 2.0.0: 1.9.9 and 2.0.0 pass; 3.0.0, 2.1.0 and 2.0.1 fail |
| ConditionCases.RustVersionMaxCases | src/condition_test.rs:1169-1252 | the `max` tests with bound 2.0.0: 1.9.9 and 2.0.0 pass; 3.0.0, 2.1.0 and 2.0.1 fail |
| ConditionCases.MinOnly | src/condition_test.rs:1084-1167 | a condition with only `min` passes exactly when the actual version is not older than the bound |
| ConditionCases.MaxOnly | src/condition_test.rs:1169-1252 | a condition with only `max` passes exactly when the actual version is not newer than the bound |
| ConditionCases.RustVersionEqualCases | src/condition_test.rs:1254-1303 | `equal` 2.0.0 passes and 3.0.0 fails for 2.0.0; min 1.0.0, max 3.0.0, equal 2.0.0 together pass |
| ConditionCases.RustVersionCases | src/condition_test.rs:1305-1366 | no `rust_version` passes; all bounds equal to the actual version pass; `equal` with "1" appended fails |
| ConditionCases.NumericNotTextual | src/condition_test.rs:1135-1150 | extends the minor-component `min` test: components compare as numbers, so "2.10.0", which sorts before "2.9.0" as text, is at least 2.9.0 and not at most it |

## Left out

- Running the condition script is not modelled. Writing the lines to a file, choosing the interpreter and spawning and waiting for the child process are replaced by a `ScriptRunner` parameter. It reports an exit status or a launch failure.
- Platform detection (`types::get_platform_name`) and toolchain discovery (`rust_info::get`) are not modelled; their results are fields of `ExecutionContext`. The tested code reads the version from `rust_info::get()` and the channel from the flow's `EnvInfo`. The model takes both from the one `RustInfo` in the context.
- The process environment is read as an immutable map snapshot. Writing to it (`env::set_var`) and the sharing of one environment between tests are not modelled. A variable whose value is not valid Unicode is treated as set, though `env::var` reports it as an error.
- `FlowInfo` and `Config` fields other than the toolchain facts are left out. So is the rest of the task configuration. The step's name is carried in `Step` but never consulted; none of these affects the verdict.
- The `env` map's insertion order is kept as a list of entries. `OrderIrrelevant` shows that the order does not change the verdict.
- Condition.ValidateRustVersionCondition: requires every version string it compares (the known actual version and each present bound) to be a well-formed dotted numeric string. Malformed strings are a configuration error. The model does not say what the gate does with them.
- Condition.ValidateRustVersion, Condition.ValidateCriteria, Condition.ValidateCondition: carry the same well-formedness precondition for the step's version bounds.
- Version strings with pre-release or build suffixes (such as "1.30.0-nightly") are not modelled. Under `Parse` they are malformed.
