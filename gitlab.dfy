/** The GitLab backend (gitlab/gitlab.cs): it renders the pipeline as a
    GitLab CI file, a `stages:` list followed by one `{task}-Job` entry per
    task. It has no artifacts; its only failure is the unimplemented
    job-level `andThen`, which propagates out of the `job` call. */
module Gitlab {
  import opened Results
  import opened Text
  import opened Stages

  /** The only construction error of this backend. */
  datatype Error = NotImplemented

  /** A statement of a step callback: `task(name, f)` where `f` issues the
      `sh` commands listed, or `andThen(f)` where `f` makes further
      declarations on the same step context. */
  datatype StepDecl =
    | Task(name: string, commands: seq<string>)
    | AndThen(body: seq<StepDecl>)

  /** A statement of a job callback: `step(name, f)` or the unimplemented
      `andThen(f)`. */
  datatype JobDecl =
    | Step(name: string, body: seq<StepDecl>)
    | JobAndThen

  // ---------------------------------------------------------------------
  // The text a task writes

  /** The lines the task constructor writes. */
  function HeaderText(step: string, task: string): string
  {
    Line(task + "-Job:") + Line("  stage: " + step) + Line("  script:")
  }

  /** What `sh(command)` writes before the command. */
  const ShPrefix: string := "     - "

  /** The line `sh(command)` writes. */
  function ShLine(command: string): string
  {
    ShPrefix + command
  }

  /** What the `sh` calls with these commands write, one after the other. */
  function ShText(commands: seq<string>): string
  {
    Listing(ShPrefix, commands)
  }

  function ShLines(commands: seq<string>): seq<string>
  {
    Prefixed(ShPrefix, commands)
  }

  /** What a task writes: its header, then a line per command. */
  function TaskText(step: string, task: string, commands: seq<string>): string
  {
    HeaderText(step, task) + ShText(commands)
  }

  /** The lines of a task's text, listed whole. */
  function TaskLines(step: string, task: string, commands: seq<string>): seq<string>
  {
    [task + "-Job:", "  stage: " + step, "  script:"] + ShLines(commands)
  }

  /** A task writes exactly the lines `TaskLines` lists: `{task}-Job:`,
      `  stage: {step}`, `  script:`, then one `     - ` line per command in
      call order; so long as no name or command holds a line break, its
      text splits back into them. */
  lemma TaskLayout(step: string, task: string, commands: seq<string>)
    ensures TaskText(step, task, commands) == Unlines(TaskLines(step, task, commands))
    ensures Free(TaskLines(step, task, commands), EOL) ==>
              Split(TaskText(step, task, commands), EOL) == TaskLines(step, task, commands) + [""]
  {
    var a, b, c := task + "-Job:", "  stage: " + step, "  script:";
    var head := [a, b, c];
    assert Unlines([c]) == Line(c) by { assert [c][1..] == []; assert Line(c) + "" == Line(c); }
    assert Unlines([b, c]) == Line(b) + Line(c) by { assert [b, c][1..] == [c]; }
    assert Unlines(head) == Line(a) + (Line(b) + Line(c)) by { assert head[1..] == [b, c]; }
    AppendAssoc(Line(a), Line(b), Line(c));
    ListingLines(ShPrefix, commands);
    UnlinesAppend(head, ShLines(commands));
    if Free(TaskLines(step, task, commands), EOL) {
      LinesOfUnlines(TaskLines(step, task, commands));
    }
  }

  // ---------------------------------------------------------------------
  // Declarations and what they produce

  /** What a step callback writes: each task's text in declaration order,
      the tasks of a nested `andThen` in its place. */
  function StepText(step: string, decls: seq<StepDecl>): string
    decreases decls
  {
    if decls == [] then ""
    else
      (match decls[0]
       case Task(name, commands) => TaskText(step, name, commands)
       case AndThen(body) => StepText(step, body))
      + StepText(step, decls[1..])
  }

  /** The tasks of a step callback in declaration order, nested `andThen`
      callbacks unfolded in place. */
  function Flatten(decls: seq<StepDecl>): (tasks: seq<StepDecl>)
    ensures forall i :: 0 <= i < |tasks| ==> tasks[i].Task?
    decreases decls
  {
    if decls == [] then []
    else
      (match decls[0]
       case Task(_, _) => [decls[0]]
       case AndThen(body) => Flatten(body))
      + Flatten(decls[1..])
  }

  /** A step callback declared in two parts writes the text of the first
      part, then that of the second. */
  lemma {:induction false} StepTextAppend(step: string, a: seq<StepDecl>, b: seq<StepDecl>)
    ensures StepText(step, a + b) == StepText(step, a) + StepText(step, b)
  {
    if a == [] {
      assert a + b == b;
    } else {
      assert (a + b)[0] == a[0] && (a + b)[1..] == a[1..] + b;
      StepTextAppend(step, a[1..], b);
      var first := match a[0]
        case Task(name, commands) => TaskText(step, name, commands)
        case AndThen(body) => StepText(step, body);
      AppendAssoc(first, StepText(step, a[1..]), StepText(step, b));
    }
  }

  /** `andThen` adds no text of its own: declaring tasks inside it writes
      what declaring them in its place would. */
  lemma AndThenInlines(step: string, pre: seq<StepDecl>, body: seq<StepDecl>, post: seq<StepDecl>)
    ensures StepText(step, pre + [AndThen(body)] + post) == StepText(step, pre + body + post)
  {
    StepTextAppend(step, pre + [AndThen(body)], post);
    StepTextAppend(step, pre, [AndThen(body)]);
    StepTextAppend(step, pre + body, post);
    StepTextAppend(step, pre, body);
    assert [AndThen(body)][1..] == [];
    assert StepText(step, [AndThen(body)]) == StepText(step, body) + "";
  }

  /** However deeply `andThen` callbacks nest, a step callback writes what
      its tasks, listed flat in declaration order, write. */
  lemma {:induction false} FlattenText(step: string, decls: seq<StepDecl>)
    ensures StepText(step, Flatten(decls)) == StepText(step, decls)
    decreases decls
  {
    if decls != [] {
      FlattenText(step, decls[1..]);
      match decls[0]
      case Task(name, commands) =>
        StepTextAppend(step, [decls[0]], Flatten(decls[1..]));
        assert [decls[0]][1..] == [];
        assert StepText(step, [decls[0]]) == TaskText(step, name, commands) + "";
      case AndThen(body) =>
        FlattenText(step, body);
        StepTextAppend(step, Flatten(body), Flatten(decls[1..]));
    }
  }

  /** The step names registered by and the text written by a job callback,
      and whether it threw. */
  datatype JobRun = JobRun(steps: seq<string>, text: string, outcome: Outcome<Error>)

  /** A job callback's declarations in order: each step registers its name
      once and writes its tasks; the unimplemented `andThen` ends it. */
  function RunJob(decls: seq<JobDecl>): JobRun
    decreases |decls|
  {
    if decls == [] then JobRun([], "", Pass)
    else
      match decls[0]
      case JobAndThen => JobRun([], "", Fail(NotImplemented))
      case Step(name, body) =>
        var rest := RunJob(decls[1..]);
        JobRun([name] + rest.steps, StepText(name, body) + rest.text, rest.outcome)
  }

  /** The registered steps are the names of the leading `step` declarations,
      each once, whatever `andThen` calls they hold; the callback throws
      exactly when it declares a job-level `andThen`, and the step list then
      stops right before the first one. */
  lemma {:induction false} StepsAreStepNames(decls: seq<JobDecl>)
    ensures var r := RunJob(decls);
      && |r.steps| <= |decls|
      && (forall i :: 0 <= i < |r.steps| ==> decls[i].Step? && r.steps[i] == decls[i].name)
      && (|r.steps| < |decls| ==> decls[|r.steps|].JobAndThen?)
      && (r.outcome.Fail? <==> exists i :: 0 <= i < |decls| && decls[i].JobAndThen?)
      && (r.outcome.Fail? ==> r.outcome.error == NotImplemented)
  {
    if decls != [] {
      StepsAreStepNames(decls[1..]);
      var r := RunJob(decls);
      var rest := RunJob(decls[1..]);
      if decls[0].Step? {
        assert forall i :: 1 <= i < |decls| ==> decls[i] == decls[1..][i - 1];
        if rest.outcome.Fail? {
          var i :| 0 <= i < |decls[1..]| && decls[1..][i].JobAndThen?;
          assert decls[i + 1].JobAndThen?;
        }
        if exists i :: 0 <= i < |decls| && decls[i].JobAndThen? {
          var i :| 0 <= i < |decls| && decls[i].JobAndThen?;
          assert decls[1..][i - 1].JobAndThen?;
        }
      }
    }
  }

  /** Running the first step of a job callback and then the rest runs the
      whole callback. */
  lemma StepThenJob(decls: seq<JobDecl>, t0: string, t1: string, t2: string,
                    steps0: seq<string>, steps1: seq<string>, steps2: seq<string>, o: Outcome<Error>)
    requires decls != [] && decls[0].Step?
    requires steps1 == steps0 + [decls[0].name] && t1 == t0 + StepText(decls[0].name, decls[0].body)
    requires var rest := RunJob(decls[1..]);
      steps2 == steps1 + rest.steps && t2 == t1 + rest.text && o == rest.outcome
    ensures var r := RunJob(decls);
      steps2 == steps0 + r.steps && t2 == t0 + r.text && o == r.outcome
  {
    var rest := RunJob(decls[1..]);
    AppendAssoc(t0, StepText(decls[0].name, decls[0].body), rest.text);
    AppendAssoc(steps0, [decls[0].name], rest.steps);
  }

  // ---------------------------------------------------------------------
  // The objects

  class TaskContext {
    const writer: Writer

    /** Writes the task's header. */
    constructor (writer: Writer, stepName: string, taskName: string)
      modifies writer
      ensures this.writer == writer
      ensures writer.text == old(writer.text) + HeaderText(stepName, taskName)
    {
      this.writer := writer;
      new;
      writer.WriteLine(taskName + "-Job:");
      writer.WriteLine("  stage: " + stepName);
      writer.WriteLine("  script:");
    }

    method Sh(command: string)
      modifies writer
      ensures writer.text == old(writer.text) + Line(ShLine(command))
    {
      writer.WriteLine(ShLine(command));
    }
  }

  class StepContext {
    const origin: Job
    const writer: Writer
    const stepName: string

    /** Every construction registers the step's name with its job. */
    constructor (j: Job, stepName: string, writer: Writer)
      modifies j
      ensures origin == j && this.writer == writer && this.stepName == stepName
      ensures j.steps == old(j.steps) + [stepName]
    {
      origin := j;
      this.writer := writer;
      this.stepName := stepName;
      new;
      j.AddStep(stepName);
    }

    /** `task(name, f)`: a fresh task context writes its header and `f`
        issues its `sh` calls on it. */
    method Task(taskName: string, commands: seq<string>)
      modifies writer
      ensures writer.text == old(writer.text) + TaskText(stepName, taskName, commands)
    {
      ghost var t0 := writer.text;
      var ctx := new TaskContext(writer, stepName, taskName);
      ghost var t1 := writer.text;
      // The task callback's successive `sh` calls, one per command.
      for i := 0 to |commands|
        invariant writer.text == t1 + ShText(commands[..i])
      {
        assert commands[..i + 1][..i] == commands[..i];
        AppendAssoc(t1, ShText(commands[..i]), Line(ShLine(commands[i])));
        ctx.Sh(commands[i]);
      }
      assert commands[..|commands|] == commands;
      AppendAssoc(t0, HeaderText(stepName, taskName), ShText(commands));
    }

    /** `andThen(f)` runs `f` on this very context: it registers no step and
        writes nothing of its own. */
    method AndThen(body: seq<StepDecl>)
      modifies writer
      ensures writer.text == old(writer.text) + StepText(stepName, body)
      decreases body, 1
    {
      Run(body);
    }

    /** Runs a step callback on this context. */
    method Run(decls: seq<StepDecl>)
      modifies writer
      ensures writer.text == old(writer.text) + StepText(stepName, decls)
      decreases decls, 0
    {
      if decls == [] {
        return;
      }
      ghost var t0 := writer.text;
      ghost var first: string;
      match decls[0] {
      case Task(name, commands) =>
        Task(name, commands);
        first := TaskText(stepName, name, commands);
      case AndThen(body) =>
        AndThen(body);
        first := StepText(stepName, body);
      }
      Run(decls[1..]);
      AppendAssoc(t0, first, StepText(stepName, decls[1..]));
    }
  }

  class JobContext {
    const origin: Job
    const writer: Writer

    constructor (origin: Job, writer: Writer)
      ensures this.origin == origin && this.writer == writer
    {
      this.origin := origin;
      this.writer := writer;
    }

    /** The job-level `andThen` is not implemented: it always throws. */
    method AndThen() returns (o: Outcome<Error>)
      ensures o == Fail(NotImplemented)
    {
      o := Fail(NotImplemented);
    }

    /** `step(name, f)`: a new step context, which registers the name, runs
        `f`. */
    method Step(stepName: string, body: seq<StepDecl>)
      modifies origin, writer
      ensures origin.steps == old(origin.steps) + [stepName]
      ensures writer.text == old(writer.text) + StepText(stepName, body)
    {
      var ctx := new StepContext(origin, stepName, writer);
      ctx.Run(body);
    }

    /** Runs a job callback on this context. */
    method Run(decls: seq<JobDecl>) returns (o: Outcome<Error>)
      modifies origin, writer
      ensures var r := RunJob(decls);
        && origin.steps == old(origin.steps) + r.steps
        && writer.text == old(writer.text) + r.text
        && o == r.outcome
      decreases |decls|
    {
      if decls == [] {
        return Pass;
      }
      match decls[0] {
      case JobAndThen =>
        o := AndThen();
      case Step(name, body) =>
        ghost var t0, steps0 := writer.text, origin.steps;
        Step(name, body);
        ghost var t1, steps1 := writer.text, origin.steps;
        o := Run(decls[1..]);
        StepThenJob(decls, t0, t1, writer.text, steps0, steps1, origin.steps, o);
      }
    }
  }

  class Job {
    const writer: Writer
    var steps: seq<string>

    constructor (tw: Writer)
      ensures writer == tw && steps == []
    {
      writer := tw;
      steps := [];
    }

    method AddStep(stageName: string)
      modifies this
      ensures steps == old(steps) + [stageName]
    {
      steps := steps + [stageName];
    }

    /** The body of the job's constructor: the callback writes into a local
        buffer; when it returns, the stage list of the steps it registered
        and then the buffer reach the outer writer. If it throws, the outer
        writer is untouched. */
    method Build(decls: seq<JobDecl>) returns (o: Outcome<Error>)
      modifies this, writer
      ensures var r := RunJob(decls);
        && steps == old(steps) + r.steps && o == r.outcome
        && writer.text == old(writer.text) + (if o.Pass? then JobText(steps, r.text) else "")
    {
      var body;
      body, o := RunCallback(decls);
      if o.Pass? {
        WriteJob(body);
      }
    }

    /** Runs the callback against a fresh local buffer and returns what it
        wrote there. */
    method RunCallback(decls: seq<JobDecl>) returns (body: string, o: Outcome<Error>)
      modifies this
      ensures var r := RunJob(decls);
        steps == old(steps) + r.steps && body == r.text && o == r.outcome
    {
      var localWriter := new Writer();
      var ctx := new JobContext(this, localWriter);
      o := ctx.Run(decls);
      body := localWriter.text;
    }

    /** Writes the `stages:` line, the stage list and the callback's text. */
    method WriteJob(body: string)
      modifies writer
      ensures writer.text == old(writer.text) + JobText(steps, body)
    {
      ghost var t0 := writer.text;
      writer.WriteLine("stages:");
      WriteStages();
      writer.Write(body);
      JobTextParts(t0, steps, body);
    }

    /** Writes one ` - s` line per registered step. */
    method WriteStages()
      modifies writer
      ensures writer.text == old(writer.text) + StagesText(steps)
    {
      ghost var t0 := writer.text;
      var stages := steps;
      for i := 0 to |stages|
        modifies writer
        invariant writer.text == t0 + StagesText(stages[..i])
      {
        assert stages[..i + 1][..i] == stages[..i];
        AppendAssoc(t0, StagesText(stages[..i]), Line(StagePrefix + stages[i]));
        writer.WriteLine(StagePrefix + stages[i]);
      }
      assert stages[..|stages|] == stages;
    }

    /** `andThen(f)` runs `f` against the outer writer, after the stage list
        was written: its tasks follow with no header of their own, and the
        steps it registers appear in no stage list. */
    method AndThen(decls: seq<JobDecl>) returns (o: Outcome<Error>)
      modifies this, writer
      ensures var r := RunJob(decls);
        && steps == old(steps) + r.steps
        && writer.text == old(writer.text) + r.text
        && o == r.outcome
    {
      var ctx := new JobContext(this, writer);
      o := ctx.Run(decls);
    }
  }

  class Builder {
    const writer: Writer

    constructor ()
      ensures fresh(writer) && writer.text == ""
    {
      writer := new Writer();
    }

    /** `job(name, f)`: on success the job's text is appended to what the
        builder holds; an exception leaves it unchanged. The job's name is
        not written anywhere. */
    method Job(jobName: string, decls: seq<JobDecl>) returns (r: Result<Job, Error>)
      modifies writer
      ensures var run := RunJob(decls);
        && (run.outcome.Pass? ==>
              && r.Success? && fresh(r.value) && r.value.writer == writer && r.value.steps == run.steps
              && writer.text == old(writer.text) + JobText(run.steps, run.text))
        && (run.outcome.Fail? ==> r == Failure(run.outcome.error) && writer.text == old(writer.text))
    {
      var job := new Job(writer);
      var o := job.Build(decls);
      r := if o.Pass? then Success(job) else Failure(o.error);
    }

    /** The rendering: everything the jobs wrote, in the order they were
        declared. */
    method ToString() returns (s: string)
      ensures s == writer.text
    {
      s := writer.text;
    }
  }
}
