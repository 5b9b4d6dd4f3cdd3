# PublishNuget action, modelled in Dafny

PublishNuget is a GitHub Actions step. Its `Action` class (`index.js`) reads
seven inputs (`nuspec`, `solution`, `icon-src`, `icon-dst`, `nuget-key`,
`nuget-feed`, `use-symbols`), then issues up to four external commands:

1. a `curl` download of the package icon,
2. an `msbuild` build of the solution,
3. `nuget pack` of the nuspec,
4. `nuget push` of the packages.

It marks the job failed through `core.setFailed` whenever a command writes
to standard error.

This project models that class:

- `Shell.dfy` (module `Shell`) models how `executeCommand` turns a command
  line into a program and its arguments. This is JavaScript's `split(" ")`,
  with a join. Joining the split pieces gives back any line. Splitting the
  joined pieces gives them back only when no piece contains a space.
- `JobState.dfy` (module `JobState`) models the job state that `core.setFailed`
  writes: a failure flag and the list of messages. It also models how
  `printCommandOutput` updates that state from a command's result. A run is a
  list of steps. Each step either issues a command line or calls `setFailed`.
  `Apply` performs the steps in order.
- `Pipeline.dfy` (module `Pipeline`) holds the exact command strings. `Plan`
  is the list of steps that `run` takes for given inputs, and `Outcome` says
  how `run` ends. The lemmas here cover gating, ordering, failure and the push
  flag.
- `PublishNuget.dfy` (module `PublishNuget`) holds the class `Action`. Its
  fields are the seven inputs, the failure flag and messages, and the log of
  issued command lines. Its methods mirror `executeCommand`,
  `printCommandOutput`, `downloadIcon`, `buildSolution`, `packNuget`,
  `pushNuget` and `run`. Each method's contract ties the new `log` and job state
  to the `Pipeline` steps it performs, so the lemmas about `Plan` describe
  what `Action.Run` actually does.

The process spawner is a parameter of the class, `programs`. It maps an
invocation (program plus arguments) to an output: exit status, stdout and
stderr. The filesystem probe is a parameter too, `onDisk`.

## Behaviour as the code has it

These points follow `index.js` as written. A reader who expects a
fail-fast pipeline would expect something different.

- Missing both `nuspec` and `solution` calls `setFailed` and carries on
  (`index.js:86-88`). No msbuild or nuget command follows. The run then
  reaches `index.js:119`.
- An icon source without a destination calls `setFailed` and skips only the
  download (`index.js:54-56`). Every later stage still runs.
- A failed command never stops a later stage. Only non-empty standard error
  counts as failure. The exit status is never read (`index.js:36-39`). A
  program that cannot be started gives `null` output in Node, so it fails
  nothing. The model represents that case as an oracle answer with empty
  stdout and stderr.
- Without a nuspec, `index.js:119` evaluates `$this.solution`. `$this` is not
  declared, so `run` throws a ReferenceError there, and nothing is pushed.
  `Action.Run` returns `Aborted(ThisIsNotDefined)` in that case. The branch's
  intended push target (`<dir>\bin\Release\*.nuspec`) is never built.

## Model

| member | source | states |
|---|---|---|
| Shell.Split | index.js:22 | `split(" ")` yields one piece more than the line has spaces, and no piece contains a space (empty pieces are kept) |
| Shell.JoinSplit | index.js:22-23 | joining the split pieces with single spaces gives back the command line exactly |
| Shell.SplitJoin | index.js:22-23 | space-free pieces, joined and then split, come back unchanged (the inverse direction) |
| Shell.FirstPieceBeforeFirstSpace | index.js:23 | the tool is a space-free prefix of the line, followed by a space or ending the line: the text before the first space |
| Shell.Parse | index.js:22-23 | `TOOL`/`ARGS`: the tool is the text before the first space, there is one argument per space, and tool and arguments joined by spaces reproduce the line |
| Shell.ParseJoin | index.js:22-23 | a line built from space-free words is parsed into exactly that tool and those arguments |
| JobState.SetFailed | index.js:38 | `core.setFailed(message)`, as a function on the job state: the flag is set and the message appended (definition; no contract of its own) |
| JobState.Report | index.js:30-40 | `printCommandOutput` on the job state: non-empty stderr fails the job with its text (definition; its properties are `JobState.ReportReadsOnlyStderr`) |
| JobState.Perform | index.js:19-40 | one step of a run (an issued line parsed, run and reported, or a `setFailed` call) never clears the flag and appends at most one message; the flag ends set iff it was set or the step fails |
| JobState.Apply | index.js:84-124 | the steps of a run performed in order, none skipped after a failure (definition; its properties are `JobState.ApplyEffect` and the lemmas below it) |
| JobState.ReportReadsOnlyStderr | index.js:30-40 | the job becomes failed, with stderr appended as the message, iff stderr is non-empty; outputs that agree on stderr have the same effect, whatever their stdout and exit status |
| JobState.ApplyEffect | index.js:36-39 | after a sequence of steps the job is failed iff it was before or some step fails; the messages are the old ones followed by those of the failing steps, in order |
| JobState.ApplyMonotonic | index.js:38 | no step clears the failed flag, and `setFailed` only appends messages |
| JobState.ApplyQuiet | index.js:36-39 | steps with empty stderr and no `setFailed` leave the failed flag and messages unchanged |
| JobState.FailingSteps | index.js:36-39 | some step fails iff there is a `setFailed` step or some issued line writes to stderr |
| Pipeline.MessagesHoldNotices | index.js:38 | every message passed to `setFailed` by a step ends up among the recorded messages |
| Pipeline.BuildCommand | index.js:48 | the msbuild line, word for word (definition; stated by `Pipeline.BuildLine` and `Pipeline.BuildInvocation`) |
| Pipeline.IconCommand | index.js:58 | the curl line, word for word (definition; stated by `Pipeline.IconLine` and `Pipeline.IconInvocation`) |
| Pipeline.PackCommand | index.js:68 | the `nuget pack` line (definition; stated by `Pipeline.PackInvocation`) |
| Pipeline.PushBase | index.js:75 | the push line with symbols (definition; stated by `Pipeline.PushInvocation`) |
| Pipeline.PushCommand | index.js:74-80 | the push line of `pushNuget`, chosen by `use-symbols` (definition; stated by `Pipeline.PushSuffix` and `Pipeline.PushInvocation`) |
| Pipeline.Given | index.js:86-114 | JavaScript truthiness of an input string: set iff non-empty (definition; used by every gate of `run`) |
| Pipeline.ValidateSteps | index.js:86-88 | the nothing-to-pack check: a `setFailed` step when both nuspec and solution are empty, which does not halt the run (definition; stated by `Pipeline.PlanNotices`) |
| Pipeline.DownloadSteps | index.js:53-64 | `downloadIcon`: a `setFailed` step without a destination, otherwise the one curl line (definition; the whole of `Action.DownloadIcon`'s contract, stated by `Pipeline.IconWithoutDestination` and `Pipeline.IconDownload`) |
| Pipeline.IconSteps | index.js:91-95 | the download when an icon source is given, nothing otherwise (definition; stated by `Pipeline.PlanStages` and `Pipeline.StageGating`) |
| Pipeline.BuildSteps | index.js:98-102 | the msbuild line when a solution is given (definition; stated by `Pipeline.PlanIssued` and `Pipeline.StageGating`) |
| Pipeline.PackSteps | index.js:107-111 | the `nuget pack` line when a nuspec is given (definition; stated by `Pipeline.PlanIssued` and `Pipeline.StageGating`) |
| Pipeline.PushSteps | index.js:114-122 | the push of `*.nuspec` when a nuspec is given; without one, index.js:119 throws before any push (definition; stated by `Pipeline.StageLines` and `Pipeline.StageGating`) |
| Pipeline.StageCommand | index.js:47-80 | the one command line each stage issues for the inputs (definition; stated by `Pipeline.StageLines`) |
| Pipeline.Plan | index.js:84-124 | the steps `run` takes for the inputs: the nothing-to-pack check, then icon, build, pack and push, each under its own test (definition; stated by the `Plan*`, `Stage*` and `Run*` lemmas) |
| Pipeline.Outcome | index.js:114-122 | `run` ends in the ReferenceError iff the nuspec is empty (definition; its properties are `Pipeline.StageGating`, `Pipeline.StepFails` and `Action.Run`'s outcome ensures) |
| Pipeline.PlanStages | index.js:90-122 | the stages issued are fetch (icon source and destination given), build (solution given), pack and push (nuspec given), in that order |
| Pipeline.PlanIssued | index.js:90-122 | the exact command lines `run` issues, in order, for every combination of inputs |
| Pipeline.PlanNotices | index.js:86-95 | `run` calls `setFailed` itself only for missing nuspec and solution, then for an icon source without a destination, in that order |
| Pipeline.StagesInOrder | index.js:90-122 | commands are issued in the order curl, msbuild, nuget pack, nuget push, and each stage at most once |
| Pipeline.StageGating | index.js:91-122 | each stage runs iff its input is non-empty (the download iff both icon inputs are); a push happens iff `run` finishes normally |
| Pipeline.StageLines | index.js:47-80 | every command `run` issues is its stage's one command line for the inputs: curl for the icon, msbuild for the solution, nuget pack and push for the nuspec, pushing the root `*.nuspec` glob |
| Pipeline.RunFailedIff | index.js:84-124 | from a fresh job, the `setFailed` flag ends set iff nuspec and solution are both missing, or an icon source has no destination, or some issued command writes to stderr; the messages are exactly those of the failing steps |
| Pipeline.StepFails | index.js:84-127 | the step fails (the `setFailed` flag is set, or the uncaught ReferenceError ends the process) iff the nuspec is missing, or an icon source has no destination, or some issued command writes to stderr |
| Pipeline.NothingToPackRun | index.js:86-122 | with no nuspec and no solution the job is failed with that message first, no msbuild or nuget command is issued (at most curl), and `run` ends in the ReferenceError |
| Pipeline.IconWithoutDestination | index.js:53-57 | an icon source without a destination fails the job with the "provide a destination" message |
| Pipeline.IconWithoutDestinationSkipsOnlyDownload | index.js:53-64 | in that case no curl command is issued, and the issued lines are the same as with no icon source at all |
| Pipeline.IconDownload | index.js:58 | with both icon inputs, the first issued line is `curl <src> -o <dst> --fail --silent --show-error`, and it is issued exactly once |
| Pipeline.BuildLine | index.js:48 | the build line is `msbuild`, the solution and `/t:Build /v:m /m /restore /p:Configuration=Release`, separated by single spaces |
| Pipeline.BuildInvocation | index.js:48 | for a space-free solution, msbuild receives the solution and exactly those five switches as arguments |
| Pipeline.IconLine | index.js:58 | the download line is `curl`, the source, `-o`, the destination, `--fail`, `--silent` and `--show-error`, separated by single spaces |
| Pipeline.IconInvocation | index.js:58 | for space-free paths, curl receives exactly those six arguments |
| Pipeline.PackInvocation | index.js:68 | for a space-free nuspec, nuget receives `pack` and the nuspec |
| Pipeline.PushInvocation | index.js:74-80 | the two push lines differ only by a trailing ` -NoSymbols`, which is present iff `use-symbols` is not exactly `"true"`; nuget then receives `-NoSymbols` as a sixth argument |
| Pipeline.PushSuffix | index.js:74-80 | for any inputs, the push line is the line with symbols followed by ` -NoSymbols`, and the suffix is there iff `use-symbols` is not exactly `"true"` |
| Pipeline.SolutionOnlyScenario | index.js:98-122 | with only a solution, the msbuild line is the only command, and the run aborts with the ReferenceError before any push |
| Pipeline.NuspecOnlyScenario | index.js:107-116 | with only a nuspec, `nuget pack` runs and then `nuget push *.nuspec … -NoSymbols`, and the run finishes |
| PublishNuget.Action.constructor | index.js:8-16 | the seven inputs are stored as given; the job starts out not failed, with no messages and no issued commands |
| PublishNuget.Action.SetFailed | index.js:38 | `core.setFailed` sets the failed flag and appends the message |
| PublishNuget.Action.ExecuteCommand | index.js:19-26 | the line is logged, and the result is what the spawner returns for the parsed tool and arguments; the job state is untouched |
| PublishNuget.Action.PrintCommandOutput | index.js:30-40 | failed becomes `old(failed) || stderr != ""` and stderr is appended iff non-empty; stdout plays no part |
| PublishNuget.Action.BuildSolution | index.js:47-50 | issues exactly the msbuild line and reports its output |
| PublishNuget.Action.DownloadIcon | index.js:53-64 | without a destination, fails the job and issues nothing; otherwise issues exactly the curl line and reports its output; the `fileExists` answer affects neither log nor job |
| PublishNuget.Action.FileExists | index.js:42-44 | `fileExists` is the `onDisk` probe (definition; the probe stands in for `existsSync`) |
| PublishNuget.Action.PackNuget | index.js:67-70 | issues exactly the `nuget pack` line and reports its output |
| PublishNuget.Action.PushNuget | index.js:73-81 | issues exactly one push line, with ` -NoSymbols` iff `use-symbols` is not `"true"`, and reports its output |
| PublishNuget.Action.Run | index.js:84-124 | the log grows by exactly the lines of `Plan`, the job state becomes `Apply(Plan)` of the old one, failure is never cleared, messages are only appended, and the outcome is the ReferenceError iff the nuspec is empty |

## Left out

- `spawnSync` (`index.js:25`) is foreign process I/O. The process, its blocking wait and the UTF-8 decoding are out. The class's `programs` oracle gives each invocation's output. A program that cannot be started is the oracle's answer with empty stdout and stderr, matching Node's `null` fields.
- `core.getInput` (`index.js:9-15`) is host I/O. The constructor takes the seven input strings directly.
- `console.log`, `core.info` and `core.error` text is logging only and does not affect the job. This covers the "OK"/"FAILURE" prints and the printing of stdout.
- `fs.existsSync` (`index.js:43`) is a filesystem probe. It is the `onDisk` oracle, and its answer is only logged.
- `path.dirname` (`index.js:119`) is never reached, because `$this` throws first. The process crash that the uncaught ReferenceError causes is modelled as `Run`'s `Aborted` outcome, not as a process exit status.
- The unused `semver` import (`index.js:2`) and the top-level `new Action().run()` (`index.js:127`) are left out. A caller constructs an `Action` and calls `Run` instead.
- Pipeline.BuildInvocation: stated only for inputs without spaces. A space inside an input splits it into several arguments. `Shell.Parse` still describes that case exactly.
- Pipeline.IconInvocation: stated only for inputs without spaces, for the same reason.
- Pipeline.PackInvocation: stated only for inputs without spaces, for the same reason.
- Pipeline.PushInvocation: stated only for inputs without spaces, for the same reason.
