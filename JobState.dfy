/**
 * The job's failure state as `@actions/core` keeps it, and how
 * `Action.printCommandOutput` and `core.setFailed` change it. A run of the
 * action is described as a list of steps (issue a command, or mark the job
 * failed) that are performed one after another on that state.
 */
module JobState {
  import opened Shell

  /** What a finished command hands back: exit status, standard output, standard error. */
  datatype Output = Output(status: int, stdout: string, stderr: string)

  /** The job's failure flag and every message passed to `core.setFailed`, oldest first. */
  datatype Job = Job(failed: bool, messages: seq<string>)

  /** The state a run starts from: not failed, no messages. */
  const Fresh := Job(false, [])

  /** The external programs, asked in the order the pipeline runs them. */
  datatype Stage = Fetch | Build | Pack | Push

  function Rank(s: Stage): nat
  {
    match s
    case Fetch => 0
    case Build => 1
    case Pack => 2
    case Push => 3
  }

  /** One thing the run does to the job: issue a command line, or call `core.setFailed`. */
  datatype Step = Exec(stage: Stage, line: string) | Fail(message: string)

  /** The programs' answers: what a given invocation writes and returns. */
  type Programs = Invocation -> Output

  /** `core.setFailed(message)`: the flag is set and the message appended. */
  function SetFailed(j: Job, message: string): Job
  {
    Job(true, j.messages + [message])
  }

  /** `printCommandOutput`: standard error, when non-empty, fails the job with its text. */
  function Report(j: Job, out: Output): Job
  {
    if out.stderr != "" then SetFailed(j, out.stderr) else j
  }

  /** The result of a command decides the job through its standard error alone. */
  lemma ReportReadsOnlyStderr(j: Job, out: Output)
    ensures Report(j, out).failed <==> j.failed || out.stderr != ""
    ensures Report(j, out).messages == j.messages + (if out.stderr != "" then [out.stderr] else [])
    ensures forall other: Output :: other.stderr == out.stderr ==> Report(j, other) == Report(j, out)
  {
  }

  /** Performs one step: an issued line is parsed, run and reported. */
  function Perform(s: Step, programs: Programs, j: Job): (k: Job)
    ensures j.failed ==> k.failed
    ensures j.messages <= k.messages && |k.messages| <= |j.messages| + 1
    ensures k.failed <==> j.failed || Fails(s, programs)
  {
    match s
    case Exec(_, line) => Report(j, programs(Parse(line)))
    case Fail(message) => SetFailed(j, message)
  }

  /** Performs the steps in order. */
  function Apply(steps: seq<Step>, programs: Programs, j: Job): Job
  {
    if steps == [] then j else Apply(steps[1..], programs, Perform(steps[0], programs, j))
  }

  /** The command lines among the steps, in order. */
  function Issued(steps: seq<Step>): seq<string>
  {
    if steps == [] then []
    else (if steps[0].Exec? then [steps[0].line] else []) + Issued(steps[1..])
  }

  /** The stages of the issued commands, in order. */
  function Stages(steps: seq<Step>): seq<Stage>
  {
    if steps == [] then []
    else (if steps[0].Exec? then [steps[0].stage] else []) + Stages(steps[1..])
  }

  /** The messages of the `setFailed` steps, in order. */
  function Notices(steps: seq<Step>): seq<string>
  {
    if steps == [] then []
    else (if steps[0].Fail? then [steps[0].message] else []) + Notices(steps[1..])
  }

  /** What the projections make of a single step. */
  lemma OneStep(s: Step)
    ensures Issued([s]) == (if s.Exec? then [s.line] else [])
    ensures Stages([s]) == (if s.Exec? then [s.stage] else [])
    ensures Notices([s]) == (if s.Fail? then [s.message] else [])
  {
    assert [s][1..] == [];
  }

  /** Whether a step fails the job: a `setFailed` call, or a command that writes to standard error. */
  predicate Fails(s: Step, programs: Programs)
  {
    s.Fail? || programs(Parse(s.line)).stderr != ""
  }

  /** The message a step records, if it fails. */
  function Message(s: Step, programs: Programs): seq<string>
  {
    if s.Fail? then [s.message]
    else if programs(Parse(s.line)).stderr != "" then [programs(Parse(s.line)).stderr]
    else []
  }

  /** The messages the steps record, in order. */
  function Messages(steps: seq<Step>, programs: Programs): seq<string>
  {
    if steps == [] then [] else Message(steps[0], programs) + Messages(steps[1..], programs)
  }

  /**
   * After the steps the job is failed exactly when it was before or one of
   * them fails, and the messages are the old ones followed by those of the
   * failing steps: nothing is ever cleared or removed.
   */
  lemma ApplyEffect(steps: seq<Step>, programs: Programs, j: Job)
    ensures Apply(steps, programs, j).failed <==>
              j.failed || exists i :: 0 <= i < |steps| && Fails(steps[i], programs)
    ensures Apply(steps, programs, j).messages == j.messages + Messages(steps, programs)
  {
    ApplyFailed(steps, programs, j);
    ApplyMessages(steps, programs, j);
  }

  lemma {:induction false} ApplyFailed(steps: seq<Step>, programs: Programs, j: Job)
    ensures Apply(steps, programs, j).failed <==>
              j.failed || exists i :: 0 <= i < |steps| && Fails(steps[i], programs)
  {
    if steps != [] {
      var next := Perform(steps[0], programs, j);
      ApplyFailed(steps[1..], programs, next);
      assert next.failed == (j.failed || Fails(steps[0], programs));
      if Apply(steps, programs, j).failed && !j.failed && !Fails(steps[0], programs) {
        var i :| 0 <= i < |steps[1..]| && Fails(steps[1..][i], programs);
        assert steps[i + 1] == steps[1..][i];
      }
      if exists i :: 0 <= i < |steps| && Fails(steps[i], programs) {
        var i :| 0 <= i < |steps| && Fails(steps[i], programs);
        if i > 0 { assert steps[1..][i - 1] == steps[i]; }
      }
    }
  }

  lemma {:induction false} ApplyMessages(steps: seq<Step>, programs: Programs, j: Job)
    ensures Apply(steps, programs, j).messages == j.messages + Messages(steps, programs)
  {
    if steps != [] {
      var next := Perform(steps[0], programs, j);
      ApplyMessages(steps[1..], programs, next);
      var first, rest := Message(steps[0], programs), Messages(steps[1..], programs);
      assert next.messages == j.messages + first;
      assert Messages(steps, programs) == first + rest;
      assert (j.messages + first) + rest == j.messages + (first + rest);
    }
  }

  /** A failed job stays failed, and old messages stay at the front. */
  lemma ApplyMonotonic(steps: seq<Step>, programs: Programs, j: Job)
    ensures j.failed ==> Apply(steps, programs, j).failed
    ensures j.messages <= Apply(steps, programs, j).messages
  {
    ApplyEffect(steps, programs, j);
  }

  /** Steps that do not fail leave the job exactly as it was. */
  lemma {:induction false} ApplyQuiet(steps: seq<Step>, programs: Programs, j: Job)
    requires forall i :: 0 <= i < |steps| ==> !Fails(steps[i], programs)
    ensures Apply(steps, programs, j) == j
  {
    if steps != [] {
      assert !Fails(steps[0], programs);
      ApplyQuiet(steps[1..], programs, Perform(steps[0], programs, j));
    }
  }

  /** Performing a list of one step. */
  lemma ApplyOne(s: Step, programs: Programs, j: Job)
    ensures Apply([s], programs, j) == Perform(s, programs, j)
  {
    assert [s][1..] == [];
  }

  /** Proof helper for `Action.Run`: a part of a run that is exactly one command line. */
  lemma Single(part: seq<Step>, stage: Stage, line: string, programs: Programs, j: Job, k: Job,
               log0: seq<string>, log1: seq<string>)
    requires part == [Exec(stage, line)]
    requires k == Apply([Exec(stage, line)], programs, j) && log1 == log0 + [line]
    ensures k == Apply(part, programs, j) && log1 == log0 + Issued(part)
  {
    OneStep(Exec(stage, line));
  }

  /** Proof helper for `Action.Run`: a part of a run that does nothing. */
  lemma Skip(part: seq<Step>, programs: Programs, j: Job, log0: seq<string>)
    requires part == []
    ensures j == Apply(part, programs, j) && log0 == log0 + Issued(part)
  {
  }

  /** Performing two lists of steps one after the other. */
  lemma {:induction false} ApplyAppend(p: seq<Step>, q: seq<Step>, programs: Programs, j: Job)
    ensures Apply(p + q, programs, j) == Apply(q, programs, Apply(p, programs, j))
  {
    if p == [] {
      assert p + q == q;
    } else {
      assert (p + q)[1..] == p[1..] + q;
      ApplyAppend(p[1..], q, programs, Perform(p[0], programs, j));
    }
  }

  /** Chains two runs of steps into one, for the job and for the issued lines. */
  lemma Then(p: seq<Step>, q: seq<Step>, programs: Programs, j: Job, k: Job, l: Job,
             log0: seq<string>, log1: seq<string>, log2: seq<string>)
    requires k == Apply(p, programs, j) && l == Apply(q, programs, k)
    requires log1 == log0 + Issued(p) && log2 == log1 + Issued(q)
    ensures l == Apply(p + q, programs, j)
    ensures log2 == log0 + Issued(p + q)
  {
    ApplyAppend(p, q, programs, j);
    IssuedAppend(p, q);
  }

  lemma {:induction false} IssuedAppend(p: seq<Step>, q: seq<Step>)
    ensures Issued(p + q) == Issued(p) + Issued(q)
  {
    if p == [] {
      assert p + q == q;
    } else {
      assert (p + q)[1..] == p[1..] + q;
      IssuedAppend(p[1..], q);
      var head := if p[0].Exec? then [p[0].line] else [];
      assert Issued(p + q) == head + (Issued(p[1..]) + Issued(q));
      assert Issued(p) == head + Issued(p[1..]);
    }
  }

  lemma {:induction false} StagesAppend(p: seq<Step>, q: seq<Step>)
    ensures Stages(p + q) == Stages(p) + Stages(q)
  {
    if p == [] {
      assert p + q == q;
    } else {
      assert (p + q)[1..] == p[1..] + q;
      StagesAppend(p[1..], q);
      var head := if p[0].Exec? then [p[0].stage] else [];
      assert Stages(p + q) == head + (Stages(p[1..]) + Stages(q));
      assert Stages(p) == head + Stages(p[1..]);
    }
  }

  lemma {:induction false} NoticesAppend(p: seq<Step>, q: seq<Step>)
    ensures Notices(p + q) == Notices(p) + Notices(q)
  {
    if p == [] {
      assert p + q == q;
    } else {
      assert (p + q)[1..] == p[1..] + q;
      NoticesAppend(p[1..], q);
      var head := if p[0].Fail? then [p[0].message] else [];
      assert Notices(p + q) == head + (Notices(p[1..]) + Notices(q));
      assert Notices(p) == head + Notices(p[1..]);
    }
  }

  /**
   * Some step fails exactly when there is a `setFailed` step or some issued
   * line writes to standard error.
   */
  lemma {:induction false} FailingSteps(steps: seq<Step>, programs: Programs)
    ensures (exists i :: 0 <= i < |steps| && Fails(steps[i], programs)) <==>
      Notices(steps) != [] || exists line :: line in Issued(steps) && programs(Parse(line)).stderr != ""
  {
    if steps != [] {
      var tail := steps[1..];
      FailingSteps(tail, programs);
      if exists i :: 0 <= i < |steps| && Fails(steps[i], programs) {
        var i :| 0 <= i < |steps| && Fails(steps[i], programs);
        if i > 0 {
          assert tail[i - 1] == steps[i];
          if Notices(tail) == [] {
            var line :| line in Issued(tail) && programs(Parse(line)).stderr != "";
            assert line in Issued(steps);
          }
        }
      }
      if Notices(steps) != [] || exists line :: line in Issued(steps) && programs(Parse(line)).stderr != "" {
        if !Fails(steps[0], programs) {
          assert Notices(steps) == Notices(tail);
          if Notices(tail) == [] {
            var line :| line in Issued(steps) && programs(Parse(line)).stderr != "";
            assert line in Issued(tail);
          }
          var i :| 0 <= i < |tail| && Fails(tail[i], programs);
          assert steps[i + 1] == tail[i];
        }
      }
    }
  }
}
