/**
 * The `Action` class of the PublishNuget GitHub Action: it holds the seven
 * inputs, issues curl, msbuild and nuget commands one after another, and marks
 * the job failed through `core.setFailed`. The job's failure state and the
 * lines handed to the process spawner are fields that its methods update;
 * every method is specified by the steps of `Pipeline` it performs.
 */
module PublishNuget {
  import opened Shell
  import opened JobState
  import opened Pipeline

  class Action {
    const nuspec: string
    const solution: string
    const iconSrc: string
    const iconDst: string
    const nugetKey: string
    const nugetFeed: string
    const useSymbols: string

    /** Stands in for `spawnSync`: what each program prints and returns. */
    const programs: Programs
    /** Stands in for `existsSync`: which paths exist after a command has run. */
    const onDisk: string -> bool

    /** The job state `core.setFailed` writes to. */
    var failed: bool
    var messages: seq<string>
    /** Every command line handed to `executeCommand`, oldest first. */
    var log: seq<string>

    function Inputs(): Config
    {
      Config(nuspec, solution, iconSrc, iconDst, nugetKey, nugetFeed, useSymbols)
    }

    function State(): Job
      reads this
    {
      Job(failed, messages)
    }

    /** Reads the inputs once; the job starts out not failed. */
    constructor (inputs: Config, programs: Programs, onDisk: string -> bool)
      ensures Inputs() == inputs && this.programs == programs && this.onDisk == onDisk
      ensures State() == Fresh && log == []
    {
      nuspec := inputs.nuspec;
      solution := inputs.solution;
      iconSrc := inputs.iconSrc;
      iconDst := inputs.iconDst;
      nugetKey := inputs.nugetKey;
      nugetFeed := inputs.nugetFeed;
      useSymbols := inputs.useSymbols;
      this.programs := programs;
      this.onDisk := onDisk;
      failed := false;
      messages := [];
      log := [];
    }

    /** `core.setFailed`: marks the job failed and keeps the message. */
    method SetFailed(message: string)
      modifies this`failed, this`messages
      ensures failed && messages == old(messages) + [message]
      ensures State() == JobState.SetFailed(old(State()), message)
    {
      failed := true;
      messages := messages + [message];
    }

    /**
     * Splits the line into program and arguments and runs it, blocking until
     * it ends. Nothing about the job changes here.
     */
    method ExecuteCommand(command: string) returns (out: Output)
      modifies this`log
      ensures log == old(log) + [command]
      ensures out == programs(Parse(command))
    {
      log := log + [command];
      var invocation := Parse(command);
      out := programs(invocation);
    }

    /**
     * Fails the job with the standard error text exactly when there is some;
     * standard output and the exit status never matter.
     */
    method PrintCommandOutput(out: Output)
      modifies this`failed, this`messages
      ensures failed == (old(failed) || out.stderr != "")
      ensures messages == old(messages) + (if out.stderr != "" then [out.stderr] else [])
      ensures State() == Report(old(State()), out)
    {
      if out.stderr != "" {
        SetFailed(out.stderr);
      }
    }

    function FileExists(path: string): bool
    {
      onDisk(path)
    }

    method BuildSolution()
      modifies this`log, this`failed, this`messages
      ensures log == old(log) + [BuildCommand(solution)]
      ensures State() == Apply([Exec(Build, BuildCommand(solution))], programs, old(State()))
    {
      var out := ExecuteCommand(BuildCommand(solution));
      PrintCommandOutput(out);
      ApplyOne(Exec(Build, BuildCommand(solution)), programs, old(State()));
    }

    /**
     * Without a destination the job is failed and nothing is downloaded;
     * otherwise curl runs once. Whether the file then exists is only logged.
     */
    method DownloadIcon()
      modifies this`log, this`failed, this`messages
      ensures log == old(log) + Issued(DownloadSteps(Inputs()))
      ensures State() == Apply(DownloadSteps(Inputs()), programs, old(State()))
    {
      if !Given(iconDst) {
        SetFailed(NoIconDestination);
        OneStep(Fail(NoIconDestination));
        ApplyOne(Fail(NoIconDestination), programs, old(State()));
      } else {
        var out := ExecuteCommand(IconCommand(iconSrc, iconDst));
        PrintCommandOutput(out);
        var retrieved := FileExists(iconDst);
        OneStep(Exec(Fetch, IconCommand(iconSrc, iconDst)));
        ApplyOne(Exec(Fetch, IconCommand(iconSrc, iconDst)), programs, old(State()));
      }
    }

    method PackNuget()
      modifies this`log, this`failed, this`messages
      ensures log == old(log) + [PackCommand(nuspec)]
      ensures State() == Apply([Exec(Pack, PackCommand(nuspec))], programs, old(State()))
    {
      var out := ExecuteCommand(PackCommand(nuspec));
      PrintCommandOutput(out);
      ApplyOne(Exec(Pack, PackCommand(nuspec)), programs, old(State()));
    }

    /** Pushes the packages matching `target`, adding `-NoSymbols` unless `use-symbols` is "true". */
    method PushNuget(target: string)
      modifies this`log, this`failed, this`messages
      ensures log == old(log) + [PushCommand(target, nugetKey, nugetFeed, useSymbols)]
      ensures State() ==
        Apply([Exec(Push, PushCommand(target, nugetKey, nugetFeed, useSymbols))], programs, old(State()))
    {
      if useSymbols == "true" {
        var out := ExecuteCommand(PushBase(target, nugetKey, nugetFeed));
        PrintCommandOutput(out);
      } else {
        var out := ExecuteCommand(PushBase(target, nugetKey, nugetFeed) + " " + "-NoSymbols");
        PrintCommandOutput(out);
      }
      ApplyOne(Exec(Push, PushCommand(target, nugetKey, nugetFeed, useSymbols)), programs, old(State()));
    }

    /**
     * Runs the job: the steps of `Plan`, in order, none skipped because an
     * earlier one failed. A failed job stays failed and keeps its messages.
     * Without a nuspec the run stops with the ReferenceError before any push.
     */
    method Run() returns (outcome: RunOutcome)
      modifies this`log, this`failed, this`messages
      ensures log == old(log) + Issued(Plan(Inputs()))
      ensures State() == Apply(Plan(Inputs()), programs, old(State()))
      ensures old(failed) ==> failed
      ensures old(messages) <= messages
      ensures outcome == Outcome(Inputs())
    {
      var c := Inputs();
      ghost var j0, l0 := State(), log;

      if !Given(nuspec) && !Given(solution) {
        SetFailed(NothingToPack);
        OneStep(Fail(NothingToPack));
        ApplyOne(Fail(NothingToPack), programs, j0);
      } else {
        Skip(ValidateSteps(c), programs, j0, l0);
      }
      ghost var j1, l1 := State(), log;

      if Given(iconSrc) {
        DownloadIcon();
      } else {
        Skip(IconSteps(c), programs, j1, l1);
      }
      ghost var j2, l2 := State(), log;

      if Given(solution) {
        BuildSolution();
        Single(BuildSteps(c), Build, BuildCommand(solution), programs, j2, State(), l2, log);
      } else {
        Skip(BuildSteps(c), programs, j2, l2);
      }
      ghost var j3, l3 := State(), log;

      if Given(nuspec) {
        PackNuget();
        Single(PackSteps(c), Pack, PackCommand(nuspec), programs, j3, State(), l3, log);
      } else {
        Skip(PackSteps(c), programs, j3, l3);
      }
      ghost var j4, l4 := State(), log;

      if Given(nuspec) {
        PushNuget(RootPackages);
        Single(PushSteps(c), Push, PushCommand(RootPackages, nugetKey, nugetFeed, useSymbols), programs, j4, State(),
               l4, log);
        outcome := Finished;
      } else {
        Skip(PushSteps(c), programs, j4, l4);
        // `path.dirname($this.solution)`: `$this` is not declared, so the call throws.
        outcome := Aborted(ThisIsNotDefined);
      }
      PlanChain(c, programs, j0, j1, j2, j3, j4, State(), l0, l1, l2, l3, l4, log);
    }
  }
}
