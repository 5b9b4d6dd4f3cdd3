/**
 * What `Action.run` does for a given set of action inputs, as a list of steps:
 * the command lines it builds for curl, msbuild and nuget, the order it issues
 * them in, the inputs that gate them, the `core.setFailed` calls it makes on
 * its own, and the ReferenceError that ends a run without a nuspec.
 */
module Pipeline {
  import opened Shell
  import opened JobState

  /** The seven action inputs, as `core.getInput` returns them ("" when not set). */
  datatype Config = Config(
    nuspec: string,
    solution: string,
    iconSrc: string,
    iconDst: string,
    nugetKey: string,
    nugetFeed: string,
    useSymbols: string)

  /** How `run` ends: normally, or with the error thrown in its no-nuspec branch. */
  datatype RunOutcome = Finished | Aborted(error: string)

  /** JavaScript truthiness of an input string: only "" is falsy. */
  predicate Given(input: string)
  {
    input != ""
  }

  const NothingToPack := "You did not provide a nuspec or a VS solution, I have nothing to pack here..."
  const NoIconDestination := "Please provide a destination for your icon"
  /** The error `run` throws when it evaluates the undeclared identifier `$this`. */
  const ThisIsNotDefined := "ReferenceError: $this is not defined"
  /** The package glob pushed when the user supplied a nuspec. */
  const RootPackages := "*.nuspec"

  /** `msbuild ${solution} /t:Build /v:m /m /restore /p:Configuration=Release`, word by word. */
  function BuildCommand(solution: string): string
  {
    "msbuild" + " " + solution + " " + "/t:Build" + " " + "/v:m" + " " + "/m" + " " + "/restore" + " " +
    "/p:Configuration=Release"
  }

  /** `curl ${src} -o ${dst} --fail --silent --show-error`, word by word. */
  function IconCommand(src: string, dst: string): string
  {
    "curl" + " " + src + " " + "-o" + " " + dst + " " + "--fail" + " " + "--silent" + " " + "--show-error"
  }

  /** `nuget pack ${nuspec}`. */
  function PackCommand(nuspec: string): string
  {
    "nuget" + " " + "pack" + " " + nuspec
  }

  /** `nuget push ${target} ${key} -src ${feed}`: the push line with symbols. */
  function PushBase(target: string, key: string, feed: string): string
  {
    "nuget" + " " + "push" + " " + target + " " + key + " " + "-src" + " " + feed
  }

  /** The push line, followed by ` -NoSymbols` unless `use-symbols` is "true". */
  function PushCommand(target: string, key: string, feed: string, useSymbols: string): string
  {
    if useSymbols == "true" then PushBase(target, key, feed) else PushBase(target, key, feed) + " " + "-NoSymbols"
  }

  /** The check at the top of `run`: it records a failure and does not stop the run. */
  function ValidateSteps(c: Config): seq<Step>
  {
    if !Given(c.nuspec) && !Given(c.solution) then [Fail(NothingToPack)] else []
  }

  /** `downloadIcon`: without a destination only the download is skipped. */
  function DownloadSteps(c: Config): seq<Step>
  {
    if !Given(c.iconDst) then [Fail(NoIconDestination)]
    else [Exec(Fetch, IconCommand(c.iconSrc, c.iconDst))]
  }

  function IconSteps(c: Config): seq<Step>
  {
    if Given(c.iconSrc) then DownloadSteps(c) else []
  }

  function BuildSteps(c: Config): seq<Step>
  {
    if Given(c.solution) then [Exec(Build, BuildCommand(c.solution))] else []
  }

  function PackSteps(c: Config): seq<Step>
  {
    if Given(c.nuspec) then [Exec(Pack, PackCommand(c.nuspec))] else []
  }

  /** `pushNuget` is reached only with a nuspec; the other branch throws first. */
  function PushSteps(c: Config): seq<Step>
  {
    if Given(c.nuspec) then [Exec(Push, PushCommand(RootPackages, c.nugetKey, c.nugetFeed, c.useSymbols))]
    else []
  }

  /** Everything `run` does to the job, in order. It depends on the inputs alone. */
  function Plan(c: Config): seq<Step>
  {
    ValidateSteps(c) + IconSteps(c) + BuildSteps(c) + PackSteps(c) + PushSteps(c)
  }

  /** How `run` ends: normally with a nuspec, otherwise with the ReferenceError of `$this`. */
  function Outcome(c: Config): RunOutcome
  {
    if Given(c.nuspec) then Finished else Aborted(ThisIsNotDefined)
  }

  /** Whether the stages strictly follow the pipeline order (so none repeats). */
  predicate InOrder(stages: seq<Stage>)
  {
    forall i, k :: 0 <= i < k < |stages| ==> Rank(stages[i]) < Rank(stages[k])
  }

  /** Every stage in the list comes before rank `r`. */
  predicate Below(stages: seq<Stage>, r: nat)
  {
    forall i :: 0 <= i < |stages| ==> Rank(stages[i]) < r
  }

  /** A stage that comes after all the listed ones may be appended, or left out. */
  lemma Gate(stages: seq<Stage>, x: Stage, present: bool)
    requires InOrder(stages) && Below(stages, Rank(x))
    ensures var next := stages + (if present then [x] else []);
      InOrder(next) && Below(next, Rank(x) + 1)
  {
    var next := stages + (if present then [x] else []);
    forall i, k | 0 <= i < k < |next| ensures Rank(next[i]) < Rank(next[k]) {
      assert next[i] == stages[i];
      if k < |stages| { assert next[k] == stages[k]; }
    }
    forall i | 0 <= i < |next| ensures Rank(next[i]) < Rank(x) + 1 {
      if i < |stages| { assert next[i] == stages[i]; }
    }
  }

  /** Performing the five parts of the plan one after another performs the plan. */
  lemma PlanChain(c: Config, programs: Programs, j0: Job, j1: Job, j2: Job, j3: Job, j4: Job, j5: Job,
                  l0: seq<string>, l1: seq<string>, l2: seq<string>, l3: seq<string>, l4: seq<string>,
                  l5: seq<string>)
    requires j1 == Apply(ValidateSteps(c), programs, j0) && l1 == l0 + Issued(ValidateSteps(c))
    requires j2 == Apply(IconSteps(c), programs, j1) && l2 == l1 + Issued(IconSteps(c))
    requires j3 == Apply(BuildSteps(c), programs, j2) && l3 == l2 + Issued(BuildSteps(c))
    requires j4 == Apply(PackSteps(c), programs, j3) && l4 == l3 + Issued(PackSteps(c))
    requires j5 == Apply(PushSteps(c), programs, j4) && l5 == l4 + Issued(PushSteps(c))
    ensures j5 == Apply(Plan(c), programs, j0) && l5 == l0 + Issued(Plan(c))
    ensures j0.failed ==> j5.failed
    ensures j0.messages <= j5.messages
  {
    var v, i, b, p, u := ValidateSteps(c), IconSteps(c), BuildSteps(c), PackSteps(c), PushSteps(c);
    Then(v, i, programs, j0, j1, j2, l0, l1, l2);
    Then(v + i, b, programs, j0, j2, j3, l0, l2, l3);
    Then(v + i + b, p, programs, j0, j3, j4, l0, l3, l4);
    Then(v + i + b + p, u, programs, j0, j4, j5, l0, l4, l5);
    ApplyMonotonic(Plan(c), programs, j0);
  }

  /** Each part of the plan holds at most one step. */
  lemma PartShapes(c: Config)
    ensures Stages(ValidateSteps(c)) == [] && Issued(ValidateSteps(c)) == []
    ensures Notices(ValidateSteps(c)) == if !Given(c.nuspec) && !Given(c.solution) then [NothingToPack] else []
    ensures Stages(IconSteps(c)) == (if Given(c.iconSrc) && Given(c.iconDst) then [Fetch] else [])
    ensures Issued(IconSteps(c)) ==
      (if Given(c.iconSrc) && Given(c.iconDst) then [IconCommand(c.iconSrc, c.iconDst)] else [])
    ensures Notices(IconSteps(c)) == if Given(c.iconSrc) && !Given(c.iconDst) then [NoIconDestination] else []
    ensures Stages(BuildSteps(c)) == (if Given(c.solution) then [Build] else [])
    ensures Issued(BuildSteps(c)) == (if Given(c.solution) then [BuildCommand(c.solution)] else [])
    ensures Notices(BuildSteps(c)) == []
    ensures Stages(PackSteps(c)) == (if Given(c.nuspec) then [Pack] else [])
    ensures Issued(PackSteps(c)) == (if Given(c.nuspec) then [PackCommand(c.nuspec)] else [])
    ensures Notices(PackSteps(c)) == []
    ensures Stages(PushSteps(c)) == (if Given(c.nuspec) then [Push] else [])
    ensures Issued(PushSteps(c)) ==
      (if Given(c.nuspec) then [PushCommand(RootPackages, c.nugetKey, c.nugetFeed, c.useSymbols)] else [])
    ensures Notices(PushSteps(c)) == []
  {
    OneStep(Fail(NothingToPack));
    OneStep(Fail(NoIconDestination));
    OneStep(Exec(Fetch, IconCommand(c.iconSrc, c.iconDst)));
    OneStep(Exec(Build, BuildCommand(c.solution)));
    OneStep(Exec(Pack, PackCommand(c.nuspec)));
    OneStep(Exec(Push, PushCommand(RootPackages, c.nugetKey, c.nugetFeed, c.useSymbols)));
  }

  /** The stages `run` issues commands for, in order. */
  lemma PlanStages(c: Config)
    ensures Stages(Plan(c)) ==
      (if Given(c.iconSrc) && Given(c.iconDst) then [Fetch] else []) +
      (if Given(c.solution) then [Build] else []) +
      (if Given(c.nuspec) then [Pack] else []) +
      (if Given(c.nuspec) then [Push] else [])
  {
    PartShapes(c);
    var v, i, b, p, u := ValidateSteps(c), IconSteps(c), BuildSteps(c), PackSteps(c), PushSteps(c);
    StagesAppend(v, i); StagesAppend(v + i, b); StagesAppend(v + i + b, p); StagesAppend(v + i + b + p, u);
  }

  /** The command lines `run` issues, in order. */
  lemma PlanIssued(c: Config)
    ensures Issued(Plan(c)) ==
      (if Given(c.iconSrc) && Given(c.iconDst) then [IconCommand(c.iconSrc, c.iconDst)] else []) +
      (if Given(c.solution) then [BuildCommand(c.solution)] else []) +
      (if Given(c.nuspec) then [PackCommand(c.nuspec)] else []) +
      (if Given(c.nuspec) then [PushCommand(RootPackages, c.nugetKey, c.nugetFeed, c.useSymbols)] else [])
  {
    PartShapes(c);
    var v, i, b, p, u := ValidateSteps(c), IconSteps(c), BuildSteps(c), PackSteps(c), PushSteps(c);
    IssuedAppend(v, i); IssuedAppend(v + i, b); IssuedAppend(v + i + b, p); IssuedAppend(v + i + b + p, u);
  }

  /** The messages `run` passes to `core.setFailed` itself, in order. */
  lemma PlanNotices(c: Config)
    ensures Notices(Plan(c)) ==
      (if !Given(c.nuspec) && !Given(c.solution) then [NothingToPack] else []) +
      (if Given(c.iconSrc) && !Given(c.iconDst) then [NoIconDestination] else [])
  {
    PartShapes(c);
    var v, i, b, p, u := ValidateSteps(c), IconSteps(c), BuildSteps(c), PackSteps(c), PushSteps(c);
    NoticesAppend(v, i); NoticesAppend(v + i, b); NoticesAppend(v + i + b, p); NoticesAppend(v + i + b + p, u);
  }

  /**
   * Commands are issued in the order curl, msbuild, nuget pack, nuget push,
   * each at most once.
   */
  lemma StagesInOrder(c: Config)
    ensures InOrder(Stages(Plan(c)))
  {
    PlanStages(c);
    GatedInOrder(Given(c.iconSrc) && Given(c.iconDst), Given(c.solution), Given(c.nuspec));
  }

  /** Fetch, build, pack and push, each present or not, stay in pipeline order. */
  lemma GatedInOrder(fetch: bool, build: bool, nuspec: bool)
    ensures InOrder((if fetch then [Fetch] else []) + (if build then [Build] else []) +
                    (if nuspec then [Pack] else []) + (if nuspec then [Push] else []))
  {
    var none: seq<Stage> := [];
    var f := if fetch then [Fetch] else [];
    var fb := f + (if build then [Build] else []);
    var fbp := fb + (if nuspec then [Pack] else []);
    Gate(none, Fetch, fetch);
    assert none + (if fetch then [Fetch] else []) == f;
    Gate(f, Build, build);
    Gate(fb, Pack, nuspec);
    Gate(fbp, Push, nuspec);
  }

  /** Which stages such a list holds. */
  lemma GatedMembers(fetch: bool, build: bool, nuspec: bool)
    ensures var stages := (if fetch then [Fetch] else []) + (if build then [Build] else []) +
                          (if nuspec then [Pack] else []) + (if nuspec then [Push] else []);
      (Fetch in stages <==> fetch) && (Build in stages <==> build) &&
      (Pack in stages <==> nuspec) && (Push in stages <==> nuspec)
  {
  }

  /**
   * Each stage runs exactly when its input is set (the download when both icon
   * inputs are); without a nuspec there is no push and `run` aborts.
   */
  lemma StageGating(c: Config)
    ensures Fetch in Stages(Plan(c)) <==> Given(c.iconSrc) && Given(c.iconDst)
    ensures Build in Stages(Plan(c)) <==> Given(c.solution)
    ensures Pack in Stages(Plan(c)) <==> Given(c.nuspec)
    ensures Push in Stages(Plan(c)) <==> Given(c.nuspec)
    ensures Push in Stages(Plan(c)) <==> Outcome(c) == Finished
  {
    PlanStages(c);
    GatedMembers(Given(c.iconSrc) && Given(c.iconDst), Given(c.solution), Given(c.nuspec));
  }

  /** Every command `run` issues is the one command line of its stage. */
  lemma StageLines(c: Config)
    ensures forall s :: s in Plan(c) && s.Exec? ==> s.line == StageCommand(c, s.stage)
  {
    var v, i, b, p, u := ValidateSteps(c), IconSteps(c), BuildSteps(c), PackSteps(c), PushSteps(c);
    forall s | s in Plan(c) && s.Exec? ensures s.line == StageCommand(c, s.stage) {
      assert s in v + i + b + p + u;
      assert s in i || s in b || s in p || s in u;
    }
  }

  /** The one command line each stage can issue for the given inputs. */
  function StageCommand(c: Config, stage: Stage): string
  {
    match stage
    case Fetch => IconCommand(c.iconSrc, c.iconDst)
    case Build => BuildCommand(c.solution)
    case Pack => PackCommand(c.nuspec)
    case Push => PushCommand(RootPackages, c.nugetKey, c.nugetFeed, c.useSymbols)
  }

  /**
   * The `setFailed` flag ends set exactly when both nuspec and solution are
   * missing, or an icon source comes without a destination, or some issued
   * command writes to standard error; the messages are those of the failing
   * steps in the order they ran. (The step can fail without the flag: see
   * `StepFails`.)
   */
  lemma RunFailedIff(c: Config, programs: Programs)
    ensures Apply(Plan(c), programs, Fresh).failed <==>
      (!Given(c.nuspec) && !Given(c.solution)) ||
      (Given(c.iconSrc) && !Given(c.iconDst)) ||
      exists line :: line in Issued(Plan(c)) && programs(Parse(line)).stderr != ""
    ensures Apply(Plan(c), programs, Fresh).messages == Messages(Plan(c), programs)
  {
    ApplyEffect(Plan(c), programs, Fresh);
    FailingSteps(Plan(c), programs);
    PlanNotices(c);
  }

  /**
   * The step's own verdict: it fails when the `setFailed` flag is set or
   * `run` throws the ReferenceError, which nothing catches, so the process
   * exits with an error. That happens exactly when the nuspec is missing, or
   * an icon source comes without a destination, or some issued command
   * writes to standard error.
   */
  lemma StepFails(c: Config, programs: Programs)
    ensures Apply(Plan(c), programs, Fresh).failed || Outcome(c).Aborted? <==>
      !Given(c.nuspec) || (Given(c.iconSrc) && !Given(c.iconDst)) ||
      exists line :: line in Issued(Plan(c)) && programs(Parse(line)).stderr != ""
  {
    RunFailedIff(c, programs);
  }

  /**
   * With neither nuspec nor solution the job is failed first thing, yet the
   * run goes on: no msbuild or nuget command is issued (at most the icon
   * download), and the run ends in the ReferenceError.
   */
  lemma NothingToPackRun(c: Config, programs: Programs)
    requires !Given(c.nuspec) && !Given(c.solution)
    ensures Apply(Plan(c), programs, Fresh).failed
    ensures |Apply(Plan(c), programs, Fresh).messages| > 0 &&
            Apply(Plan(c), programs, Fresh).messages[0] == NothingToPack
    ensures Stages(Plan(c)) == if Given(c.iconSrc) && Given(c.iconDst) then [Fetch] else []
    ensures Outcome(c) == Aborted(ThisIsNotDefined)
  {
    RunFailedIff(c, programs);
    PlanStages(c);
    assert Plan(c)[0] == Fail(NothingToPack);
    assert Messages(Plan(c), programs) == [NothingToPack] + Messages(Plan(c)[1..], programs);
  }

  /** Every message of a `setFailed` step appears among the recorded messages. */
  lemma {:induction false} MessagesHoldNotices(steps: seq<Step>, programs: Programs)
    ensures forall m :: m in Notices(steps) ==> m in Messages(steps, programs)
  {
    if steps != [] {
      MessagesHoldNotices(steps[1..], programs);
    }
  }

  /** An icon source without a destination fails the job, with its own message. */
  lemma IconWithoutDestination(c: Config, programs: Programs)
    requires Given(c.iconSrc) && !Given(c.iconDst)
    ensures Apply(Plan(c), programs, Fresh).failed
    ensures NoIconDestination in Apply(Plan(c), programs, Fresh).messages
  {
    RunFailedIff(c, programs);
    PlanNotices(c);
    MessagesHoldNotices(Plan(c), programs);
  }

  /**
   * An icon source without a destination issues no curl command, and every
   * other command is issued just as if no icon had been asked for.
   */
  lemma IconWithoutDestinationSkipsOnlyDownload(c: Config)
    requires Given(c.iconSrc) && !Given(c.iconDst)
    ensures Fetch !in Stages(Plan(c))
    ensures Issued(Plan(c)) == Issued(Plan(c.(iconSrc := "")))
  {
    PlanStages(c);
    PlanIssued(c);
    PlanIssued(c.(iconSrc := ""));
  }

  /** With both icon inputs set, the curl command is the first one issued, and the only one. */
  lemma IconDownload(c: Config)
    requires Given(c.iconSrc) && Given(c.iconDst)
    ensures |Issued(Plan(c))| > 0 && Issued(Plan(c))[0] == IconCommand(c.iconSrc, c.iconDst)
    ensures multiset(Stages(Plan(c)))[Fetch] == 1
  {
    PlanStages(c);
    PlanIssued(c);
  }

  /** The build command is msbuild, the solution and five switches, joined by spaces. */
  lemma BuildLine(solution: string)
    ensures BuildCommand(solution) ==
      Join(["msbuild", solution, "/t:Build", "/v:m", "/m", "/restore", "/p:Configuration=Release"])
  {
    JoinSeven("msbuild", solution, "/t:Build", "/v:m", "/m", "/restore", "/p:Configuration=Release");
  }

  /** The build command runs msbuild on the solution with exactly these switches. */
  lemma BuildInvocation(solution: string)
    requires ' ' !in solution
    ensures Parse(BuildCommand(solution)) ==
      Invocation("msbuild", [solution, "/t:Build", "/v:m", "/m", "/restore", "/p:Configuration=Release"])
  {
    JoinSeven("msbuild", solution, "/t:Build", "/v:m", "/m", "/restore", "/p:Configuration=Release");
    ParseJoin("msbuild", [solution, "/t:Build", "/v:m", "/m", "/restore", "/p:Configuration=Release"]);
  }

  /** The icon command is curl, the source, `-o`, the destination and three flags, joined by spaces. */
  lemma IconLine(src: string, dst: string)
    ensures IconCommand(src, dst) == Join(["curl", src, "-o", dst, "--fail", "--silent", "--show-error"])
  {
    JoinSeven("curl", src, "-o", dst, "--fail", "--silent", "--show-error");
  }

  /** The icon command runs curl with the source, `-o`, the destination and three flags. */
  lemma IconInvocation(src: string, dst: string)
    requires ' ' !in src && ' ' !in dst
    ensures Parse(IconCommand(src, dst)) ==
      Invocation("curl", [src, "-o", dst, "--fail", "--silent", "--show-error"])
  {
    JoinSeven("curl", src, "-o", dst, "--fail", "--silent", "--show-error");
    ParseJoin("curl", [src, "-o", dst, "--fail", "--silent", "--show-error"]);
  }

  /** The pack command runs nuget with `pack` and the nuspec. */
  lemma PackInvocation(nuspec: string)
    requires ' ' !in nuspec
    ensures Parse(PackCommand(nuspec)) == Invocation("nuget", ["pack", nuspec])
  {
    var args := ["pack", nuspec];
    JoinFront("pack", [nuspec]);
    assert args == ["pack"] + [nuspec];
    JoinFront("nuget", args);
    assert PackCommand(nuspec) == "nuget" + " " + ("pack" + " " + nuspec);
    ParseJoin("nuget", args);
  }

  /**
   * The two push commands differ only in a trailing ` -NoSymbols`, present
   * exactly when `use-symbols` is not the string "true"; nuget then receives
   * `-NoSymbols` as a sixth argument.
   */
  lemma PushInvocation(target: string, key: string, feed: string, useSymbols: string)
    requires ' ' !in target && ' ' !in key && ' ' !in feed
    ensures PushCommand(target, key, feed, useSymbols) ==
      PushCommand(target, key, feed, "true") + (if useSymbols == "true" then "" else " -NoSymbols")
    ensures Parse(PushCommand(target, key, feed, useSymbols)) ==
      Invocation("nuget", ["push", target, key, "-src", feed] +
                          (if useSymbols == "true" then [] else ["-NoSymbols"]))
    ensures |Parse(PushCommand(target, key, feed, useSymbols)).args| == 6 <==> useSymbols != "true"
  {
    if useSymbols == "true" {
      PushSymbolsInvocation(target, key, feed);
    } else {
      PushNoSymbolsInvocation(target, key, feed);
      NoSymbolsSuffix(PushBase(target, key, feed));
    }
  }

  /** Proof helper: the separator and the flag concatenate to ` -NoSymbols`. */
  lemma NoSymbolsSuffix(line: string)
    ensures line + " " + "-NoSymbols" == line + " -NoSymbols"
  {
    assert " " + "-NoSymbols" == " -NoSymbols";
  }

  /**
   * For any inputs, the push line without symbols is the push line with
   * symbols followed by ` -NoSymbols`, and that suffix is there exactly when
   * `use-symbols` is not the string "true".
   */
  lemma PushSuffix(target: string, key: string, feed: string, useSymbols: string)
    ensures PushCommand(target, key, feed, useSymbols) ==
      PushCommand(target, key, feed, "true") + (if useSymbols == "true" then "" else " -NoSymbols")
  {
    NoSymbolsSuffix(PushBase(target, key, feed));
  }

  lemma PushSymbolsInvocation(target: string, key: string, feed: string)
    requires ' ' !in target && ' ' !in key && ' ' !in feed
    ensures Parse(PushBase(target, key, feed)) == Invocation("nuget", ["push", target, key, "-src", feed])
  {
    JoinSix("nuget", "push", target, key, "-src", feed);
    ParseJoin("nuget", ["push", target, key, "-src", feed]);
  }

  lemma PushNoSymbolsInvocation(target: string, key: string, feed: string)
    requires ' ' !in target && ' ' !in key && ' ' !in feed
    ensures Parse(PushBase(target, key, feed) + " " + "-NoSymbols") ==
      Invocation("nuget", ["push", target, key, "-src", feed] + ["-NoSymbols"])
  {
    var args := ["push", target, key, "-src", feed, "-NoSymbols"];
    JoinSeven("nuget", "push", target, key, "-src", feed, "-NoSymbols");
    ParseJoin("nuget", args);
    assert args == ["push", target, key, "-src", feed] + ["-NoSymbols"];
  }

  /**
   * Only a solution: msbuild runs and the run aborts before any nuget command,
   * so nothing is pushed.
   */
  lemma SolutionOnlyScenario(key: string, feed: string)
    ensures var c := Config("", "App.sln", "", "", key, feed, "");
      Issued(Plan(c)) == [BuildCommand("App.sln")] && Outcome(c) == Aborted(ThisIsNotDefined)
  {
    PlanIssued(Config("", "App.sln", "", "", key, feed, ""));
  }

  /** Only a nuspec: it is packed and the root glob is pushed without symbols. */
  lemma NuspecOnlyScenario(key: string, feed: string)
    ensures var c := Config("Pkg.nuspec", "", "", "", key, feed, "");
      Issued(Plan(c)) == [PackCommand("Pkg.nuspec"), PushCommand("*.nuspec", key, feed, "") ] &&
      Outcome(c) == Finished
  {
    PlanIssued(Config("Pkg.nuspec", "", "", "", key, feed, ""));
  }
}
