/** The Azure DevOps backend (azuredevops/azuredevops.cs): it renders the
    pipeline as a `steps:` list with one `script` entry per task. Unlike the
    local backend, an exception thrown by a task callback is not caught: it
    ends the task, the step, the job callback and the `job` call. */
module Azure {
  import opened Results
  import opened Text
  import opened Pipeline

  /** The exception messages; the null-artifact message does not name the
      task. */
  function Message(e: Error): string
  {
    match e
    case NullArtifact(_) =>
      "The artifact passed to 'consumeArtifact' must not be null. Ensure, that the artifact is produced in an earlier step."
    case EmptyArtifact => "An artifact must at least contain one entry!"
    case ProducedTwice => "An artifact can only be produced once per step!"
    case NotImplemented => "The method or operation is not implemented."
  }

  /** Which task was handed a null artifact cannot be told from the message. */
  lemma MessageOmitsTask(a: string, b: string)
    ensures Message(NullArtifact(a)) == Message(NullArtifact(b))
  {
  }

  // ---------------------------------------------------------------------
  // The text a task writes

  /** The line the task constructor writes; the step name is not used. */
  const ScriptLine: string := "- script: |"

  /** What `sh(command)` writes before the command. */
  const ShPrefix: string := "    "

  /** The line `sh(command)` writes. */
  function ShLine(command: string): string
  {
    ShPrefix + command
  }

  /** What the `sh` calls with these commands write, one after the other. */
  function ShText(commands: seq<string>): string
  {
    Listing(ShPrefix, commands)
  }

  /** The line `finalize` writes. */
  function DisplayLine(task: string): string
  {
    "  displayName: " + task
  }

  /** What a task writes: the script line, what its `sh` calls write and,
      when the callback completed, the display name. */
  function TaskText(task: string, r: BodyRun): string
  {
    Line(ScriptLine) + ShText(r.commands) + (if r.outcome.Pass? then Line(DisplayLine(task)) else "")
  }

  function ShLines(commands: seq<string>): seq<string>
  {
    Prefixed(ShPrefix, commands)
  }

  /** The lines of a task's text, listed whole. */
  function TaskLines(task: string, r: BodyRun): seq<string>
  {
    [ScriptLine] + ShLines(r.commands) + (if r.outcome.Pass? then [DisplayLine(task)] else [])
  }

  /** A task writes exactly the lines `TaskLines` lists: `- script: |`, one
      indented line per command in call order, then `  displayName: ` and
      the task's name unless the callback threw; so long as no name or
      command holds a line break, its text splits back into them. */
  lemma TaskLayout(task: string, r: BodyRun)
    ensures TaskText(task, r) == Unlines(TaskLines(task, r))
    ensures Free(TaskLines(task, r), EOL) ==> Split(TaskText(task, r), EOL) == TaskLines(task, r) + [""]
  {
    var sh := ShLines(r.commands);
    var tail := if r.outcome.Pass? then [DisplayLine(task)] else [];
    assert Unlines([ScriptLine]) == Line(ScriptLine) by {
      assert [ScriptLine][1..] == [];
      assert Line(ScriptLine) + "" == Line(ScriptLine);
    }
    assert Unlines(tail) == (if r.outcome.Pass? then Line(DisplayLine(task)) else "") by {
      if tail != [] {
        assert tail[1..] == [];
        assert Line(DisplayLine(task)) + "" == Line(DisplayLine(task));
      }
    }
    ListingLines(ShPrefix, r.commands);
    UnlinesAppend([ScriptLine], sh);
    UnlinesAppend([ScriptLine] + sh, tail);
    if Free(TaskLines(task, r), EOL) {
      LinesOfUnlines(TaskLines(task, r));
    }
  }

  // ---------------------------------------------------------------------
  // Declarations and what they produce

  /** The step names registered by, the text written by and the artifact
      variables left by a step callback, and whether it threw. */
  datatype StepRun = StepRun(steps: seq<string>, text: string, env: Env, outcome: Outcome<Error>)

  /** A step callback's declarations in order; a task that throws ends the
      callback, after its partial text has been written. */
  function RunStep(step: string, decls: seq<StepDecl>, env: Env): StepRun
    decreases |decls|
  {
    if decls == [] then StepRun([], "", env, Pass)
    else
      var d := decls[0];
      var t := RunBody(d.name, d.body, Fresh, env);
      var registered := if d.AndThen? then [step] else [];
      if t.outcome.Fail? then StepRun(registered, TaskText(d.name, t), t.env, t.outcome)
      else
        var rest := RunStep(step, decls[1..], t.env);
        StepRun(registered + rest.steps, TaskText(d.name, t) + rest.text, rest.env, rest.outcome)
  }

  datatype JobRun = JobRun(steps: seq<string>, text: string, env: Env, outcome: Outcome<Error>)

  /** A job callback's declarations in order; a step that throws, or the
      unimplemented `andThen`, ends it. */
  function RunJob(decls: seq<JobDecl>, env: Env): JobRun
    decreases |decls|
  {
    if decls == [] then JobRun([], "", env, Pass)
    else
      match decls[0]
      case JobAndThen => JobRun([], "", env, Fail(NotImplemented))
      case Step(name, body) =>
        var s := RunStep(name, body, env);
        if s.outcome.Fail? then JobRun([name] + s.steps, s.text, s.env, s.outcome)
        else
          var rest := RunJob(decls[1..], s.env);
          JobRun([name] + s.steps + rest.steps, s.text + rest.text, rest.env, rest.outcome)
  }

  /** The text of a job: the bare `steps:` header, then what its tasks
      wrote. The registered step names are not written. */
  function JobText(body: string): string
  {
    Line("steps:") + body
  }

  /** A task to run: the name and callback of a `task` or step-level
      `andThen`. */
  datatype TaskCall = TaskCall(name: string, body: seq<TaskDecl>)

  /** The tasks of a step callback, in declaration order. */
  function StepCalls(decls: seq<StepDecl>): seq<TaskCall>
  {
    seq(|decls|, i requires 0 <= i < |decls| => TaskCall(decls[i].name, decls[i].body))
  }

  /** The tasks of a job callback, in declaration order across its steps, up
      to a job-level `andThen`. */
  function JobCalls(decls: seq<JobDecl>): seq<TaskCall>
  {
    if decls == [] then []
    else
      match decls[0]
      case JobAndThen => []
      case Step(_, body) => StepCalls(body) + JobCalls(decls[1..])
  }

  datatype TasksRun = TasksRun(text: string, env: Env, outcome: Outcome<Error>)

  /** Runs tasks one after the other until one throws. */
  function RunTasks(calls: seq<TaskCall>, env: Env): TasksRun
    decreases |calls|
  {
    if calls == [] then TasksRun("", env, Pass)
    else
      var t := RunBody(calls[0].name, calls[0].body, Fresh, env);
      if t.outcome.Fail? then TasksRun(TaskText(calls[0].name, t), t.env, t.outcome)
      else
        var rest := RunTasks(calls[1..], t.env);
        TasksRun(TaskText(calls[0].name, t) + rest.text, rest.env, rest.outcome)
  }

  /** Running two lists of tasks one after the other runs their
      concatenation. */
  lemma {:induction false} RunTasksAppend(a: seq<TaskCall>, b: seq<TaskCall>, env: Env)
    ensures var ra := RunTasks(a, env);
      RunTasks(a + b, env)
      == if ra.outcome.Fail? then ra
         else var rb := RunTasks(b, ra.env); TasksRun(ra.text + rb.text, rb.env, rb.outcome)
  {
    if a == [] {
      assert a + b == b;
    } else {
      assert (a + b)[0] == a[0] && (a + b)[1..] == a[1..] + b;
      var t := RunBody(a[0].name, a[0].body, Fresh, env);
      if t.outcome.Pass? {
        RunTasksAppend(a[1..], b, t.env);
        var ra' := RunTasks(a[1..], t.env);
        if ra'.outcome.Pass? {
          AppendAssoc(TaskText(a[0].name, t), ra'.text, RunTasks(b, ra'.env).text);
        }
      }
    }
  }

  /** A step callback writes exactly what its tasks write, run in
      declaration order: the step's name plays no part in the text. */
  lemma {:induction false} StepTextFromTasks(step: string, decls: seq<StepDecl>, env: Env)
    ensures var r := RunStep(step, decls, env);
      var t := RunTasks(StepCalls(decls), env);
      r.text == t.text && r.env == t.env && r.outcome == t.outcome
  {
    if decls != [] {
      assert StepCalls(decls)[0] == TaskCall(decls[0].name, decls[0].body);
      assert StepCalls(decls)[1..] == StepCalls(decls[1..]);
      var t := RunBody(decls[0].name, decls[0].body, Fresh, env);
      if t.outcome.Pass? {
        StepTextFromTasks(step, decls[1..], t.env);
      }
    }
  }

  /** A job callback writes exactly what its tasks write, run in declaration
      order across its steps: neither the step names nor the way the tasks
      are grouped into steps play a part in the text. */
  lemma {:induction false} JobTextFromTasks(decls: seq<JobDecl>, env: Env)
    ensures var r := RunJob(decls, env);
      var t := RunTasks(JobCalls(decls), env);
      && r.text == t.text && r.env == t.env
      && (t.outcome.Fail? ==> r.outcome == t.outcome)
      && (r.outcome.Pass? ==> t.outcome.Pass?)
  {
    if decls != [] {
      match decls[0]
      case JobAndThen =>
      case Step(name, body) =>
        StepTextFromTasks(name, body, env);
        RunTasksAppend(StepCalls(body), JobCalls(decls[1..]), env);
        var s := RunStep(name, body, env);
        if s.outcome.Pass? {
          JobTextFromTasks(decls[1..], s.env);
        }
    }
  }

  /** Two jobs whose callbacks declare the same tasks in the same order
      render the same text, whatever their steps are called. */
  lemma {:induction false} StepNamesNotRendered(a: seq<JobDecl>, b: seq<JobDecl>, env: Env)
    requires JobCalls(a) == JobCalls(b)
    ensures RunJob(a, env).text == RunJob(b, env).text
  {
    JobTextFromTasks(a, env);
    JobTextFromTasks(b, env);
  }

  /** A step callback re-registers the step's name once per `andThen` it
      reaches: all of them when it completes. */
  lemma {:induction false} AndThenRegistersAgain(step: string, decls: seq<StepDecl>, env: Env)
    ensures var r := RunStep(step, decls, env);
      && r.steps <= Repeat(step, AndThens(decls))
      && (r.outcome.Pass? ==> r.steps == Repeat(step, AndThens(decls)))
  {
    if decls != [] {
      var d := decls[0];
      var t := RunBody(d.name, d.body, Fresh, env);
      var n := if d.AndThen? then 1 else 0;
      assert Repeat(step, AndThens(decls)) == Repeat(step, n) + Repeat(step, AndThens(decls[1..]));
      if t.outcome.Pass? {
        AndThenRegistersAgain(step, decls[1..], t.env);
      }
    }
  }

  /** The registered step names are those the declarations call for, up to
      the point where the job callback threw. */
  lemma {:induction false} StepsFromDeclarations(decls: seq<JobDecl>, env: Env)
    ensures var r := RunJob(decls, env);
      && r.steps <= Registrations(decls)
      && (r.outcome.Pass? ==> r.steps == Registrations(decls))
  {
    if decls != [] {
      match decls[0]
      case JobAndThen =>
      case Step(name, body) =>
        AndThenRegistersAgain(name, body, env);
        var s := RunStep(name, body, env);
        var regs := Registrations(decls[1..]);
        AppendAssoc([name], Repeat(name, AndThens(body)), regs);
        if s.outcome.Pass? {
          StepsFromDeclarations(decls[1..], s.env);
          AppendAssoc([name], s.steps, RunJob(decls[1..], s.env).steps);
        }
    }
  }

  /** Running the first declaration of a step callback and then the rest
      runs the whole callback. */
  lemma TaskThenStep(step: string, decls: seq<StepDecl>, env: Env, t0: string, t1: string, t2: string,
                     steps0: seq<string>, steps1: seq<string>, steps2: seq<string>, env1: Env, env2: Env, o: Outcome<Error>)
    requires decls != []
    requires var d := decls[0];
      var t := RunBody(d.name, d.body, Fresh, env);
      && t.outcome.Pass?
      && steps1 == steps0 + (if d.AndThen? then [step] else []) && t1 == t0 + TaskText(d.name, t) && env1 == t.env
    requires var rest := RunStep(step, decls[1..], env1);
      && steps2 == steps1 + rest.steps && t2 == t1 + rest.text && env2 == rest.env && o == rest.outcome
    ensures var r := RunStep(step, decls, env);
      && steps2 == steps0 + r.steps && t2 == t0 + r.text && env2 == r.env && o == r.outcome
  {
    var d := decls[0];
    var rest := RunStep(step, decls[1..], env1);
    AppendAssoc(t0, TaskText(d.name, RunBody(d.name, d.body, Fresh, env)), rest.text);
    AppendAssoc(steps0, if d.AndThen? then [step] else [], rest.steps);
  }

  /** Running the first step of a job callback and then the rest runs the
      whole callback. */
  lemma StepThenJob(decls: seq<JobDecl>, env: Env, t0: string, t1: string, t2: string,
                    steps0: seq<string>, steps1: seq<string>, steps2: seq<string>, env1: Env, env2: Env, o: Outcome<Error>)
    requires decls != [] && decls[0].Step?
    requires var s := RunStep(decls[0].name, decls[0].body, env);
      && s.outcome.Pass?
      && steps1 == steps0 + [decls[0].name] + s.steps && t1 == t0 + s.text && env1 == s.env
    requires var rest := RunJob(decls[1..], env1);
      && steps2 == steps1 + rest.steps && t2 == t1 + rest.text && env2 == rest.env && o == rest.outcome
    ensures var r := RunJob(decls, env);
      && steps2 == steps0 + r.steps && t2 == t0 + r.text && env2 == r.env && o == r.outcome
  {
    var s := RunStep(decls[0].name, decls[0].body, env);
    var rest := RunJob(decls[1..], env1);
    AppendAssoc(t0, s.text, rest.text);
    AppendAssoc(steps0 + [decls[0].name], s.steps, rest.steps);
    AppendAssoc(steps0, [decls[0].name] + s.steps, rest.steps);
    AppendAssoc(steps0, [decls[0].name], s.steps);
  }

  /** A step that throws ends the job callback: what the step did is all
      the callback did. */
  lemma StepFailsJob(decls: seq<JobDecl>, env: Env, t0: string, t1: string,
                     steps0: seq<string>, steps1: seq<string>, env1: Env, o: Outcome<Error>)
    requires decls != [] && decls[0].Step?
    requires var s := RunStep(decls[0].name, decls[0].body, env);
      && s.outcome.Fail?
      && steps1 == steps0 + [decls[0].name] + s.steps && t1 == t0 + s.text && env1 == s.env && o == s.outcome
    ensures var r := RunJob(decls, env);
      && steps1 == steps0 + r.steps && t1 == t0 + r.text && env1 == r.env && o == r.outcome
  {
    var s := RunStep(decls[0].name, decls[0].body, env);
    AppendAssoc(steps0, [decls[0].name], s.steps);
  }

  // ---------------------------------------------------------------------
  // The objects

  class TaskContext {
    const writer: Writer
    const name: string
    var consumed: seq<Artifact>
    var produced: Option<Artifact>

    /** The ledger this task has recorded. */
    function Recorded(): Ledger
      reads this
    {
      Ledger(consumed, produced)
    }

    /** Writes the script line. */
    constructor (writer: Writer, stepName: string, taskName: string)
      modifies writer
      ensures this.writer == writer && name == taskName
      ensures consumed == [] && produced == None
      ensures writer.text == old(writer.text) + Line(ScriptLine)
    {
      this.writer := writer;
      name := taskName;
      consumed := [];
      produced := None;
      new;
      writer.WriteLine(ScriptLine);
    }

    /** Null fails; anything else is appended and nothing else changes. */
    method ConsumeArtifact(artifact: Option<Artifact>) returns (o: Outcome<Error>)
      modifies this
      ensures produced == old(produced)
      ensures artifact.None? ==> o == Fail(NullArtifact(name)) && consumed == old(consumed)
      ensures artifact.Some? ==> o == Pass && consumed == old(consumed) + [artifact.value]
      ensures Pipeline.ConsumeArtifact(old(Recorded()), name, artifact)
              == if o.Pass? then Success(Recorded()) else Failure(o.error)
    {
      if artifact.None? {
        return Fail(NullArtifact(name));
      }
      consumed := consumed + [artifact.value];
      o := Pass;
    }

    /** An empty filter list fails before anything is assigned, then a
        second production fails; otherwise the new artifact names this task
        as its producer. */
    method ProduceArtifact(artifact: string, filters: seq<string>) returns (r: Result<Artifact, Error>)
      modifies this
      ensures consumed == old(consumed)
      ensures |filters| == 0 ==> r == Failure(EmptyArtifact) && produced == old(produced)
      ensures |filters| > 0 && old(produced).Some? ==> r == Failure(ProducedTwice) && produced == old(produced)
      ensures |filters| > 0 && old(produced).None? ==>
                r == Success(Artifact(artifact, filters, name)) && produced == Some(r.value)
      ensures r == Pipeline.ProduceArtifact(old(Recorded()), name, artifact, filters)
    {
      if |filters| == 0 {
        return Failure(EmptyArtifact);
      }
      if produced.Some? {
        return Failure(ProducedTwice);
      }
      var a := Artifact(artifact, filters, name);
      produced := Some(a);
      r := Success(a);
    }

    method Sh(command: string)
      modifies writer
      ensures writer.text == old(writer.text) + Line(ShLine(command))
    {
      writer.WriteLine(ShLine(command));
    }

    /** Writes the display name; the ledger is not written. */
    method Finalize()
      modifies writer
      ensures writer.text == old(writer.text) + Line(DisplayLine(name))
    {
      writer.WriteLine(DisplayLine(name));
    }

    /** One statement of a task callback, on this context. */
    method Perform(d: TaskDecl, env: Env) returns (env': Env, o: Outcome<Error>)
      modifies this, writer
      ensures var s := Pipeline.Perform(name, d, old(Recorded()), env);
        && writer.text == old(writer.text) + ShText(s.commands)
        && Recorded() == s.ledger && env' == s.env && o == s.outcome
    {
      env', o := env, Pass;
      match d {
      case Sh(c) =>
        Sh(c);
        ListingOne(ShPrefix, c);
      case Produce(artifact, paths, v) =>
        var r := ProduceArtifact(artifact, paths);
        if r.Failure? {
          o := Fail(r.error);
        } else {
          env' := env[v := r.value];
        }
      case Consume(v) =>
        o := ConsumeArtifact(if v in env then Some(env[v]) else None);
      }
    }

    /** Runs a task callback on this context; the first statement that throws
        ends it. */
    method Run(body: seq<TaskDecl>, env: Env) returns (env': Env, o: Outcome<Error>)
      modifies this, writer
      ensures var r := RunBody(name, body, old(Recorded()), env);
        && writer.text == old(writer.text) + ShText(r.commands)
        && Recorded() == r.ledger && env' == r.env && o == r.outcome
      decreases |body|
    {
      if body == [] {
        return env, Pass;
      }
      ghost var t0 := writer.text;
      ghost var s := Pipeline.Perform(name, body[0], Recorded(), env);
      env', o := Perform(body[0], env);
      if o.Fail? {
        return;
      }
      ghost var r := RunBody(name, body[1..], Recorded(), env');
      env', o := Run(body[1..], env');
      ListingAppend(ShPrefix, s.commands, r.commands);
      AppendAssoc(t0, ShText(s.commands), ShText(r.commands));
    }
  }

  class StepContext {
    const origin: Job
    const writer: Writer
    const stepName: string

    /** Every construction registers the step's name with its job. */
    constructor (j: Job, stepName: string, writer: Writer)
      modifies j
      ensures origin == j && this.writer == writer && this.stepName == stepName
      ensures j.steps == old(j.steps) + [stepName]
    {
      origin := j;
      this.writer := writer;
      this.stepName := stepName;
      new;
      j.AddStep(stepName);
    }

    /** `task(name, f)`: a fresh task context writes its script line, runs
        `f`, then finalizes; an exception from `f` propagates and skips the
        finalize. */
    method Task(taskName: string, body: seq<TaskDecl>, env: Env) returns (env': Env, o: Outcome<Error>)
      modifies writer
      ensures var r := RunBody(taskName, body, Fresh, env);
        && writer.text == old(writer.text) + TaskText(taskName, r)
        && env' == r.env && o == r.outcome
    {
      ghost var t0 := writer.text;
      ghost var r := RunBody(taskName, body, Fresh, env);
      var ctx := new TaskContext(writer, stepName, taskName);
      env', o := ctx.Run(body, env);
      ghost var head, sh := Line(ScriptLine), ShText(r.commands);
      AppendAssoc(t0, head, sh);
      if o.Pass? {
        ctx.Finalize();
        AppendAssoc(t0, head + sh, Line(DisplayLine(taskName)));
      }
    }

    /** `andThen(name, f)`: a new context for the same step, which registers
        the step's name again, runs exactly one task. */
    method AndThen(taskName: string, body: seq<TaskDecl>, env: Env)
      returns (next: StepContext, env': Env, o: Outcome<Error>)
      modifies origin, writer
      ensures fresh(next) && next.origin == origin && next.writer == writer && next.stepName == stepName
      ensures origin.steps == old(origin.steps) + [stepName]
      ensures var r := RunBody(taskName, body, Fresh, env);
        && writer.text == old(writer.text) + TaskText(taskName, r)
        && env' == r.env && o == r.outcome
    {
      next := new StepContext(origin, stepName, writer);
      env', o := next.Task(taskName, body, env);
    }

    /** Runs a step callback on this context. */
    method Run(decls: seq<StepDecl>, env: Env) returns (env': Env, o: Outcome<Error>)
      modifies origin, writer
      ensures var r := RunStep(stepName, decls, env);
        && origin.steps == old(origin.steps) + r.steps
        && writer.text == old(writer.text) + r.text
        && env' == r.env && o == r.outcome
      decreases |decls|
    {
      if decls == [] {
        return env, Pass;
      }
      ghost var t0, steps0 := writer.text, origin.steps;
      var d := decls[0];
      if d.Task? {
        env', o := Task(d.name, d.body, env);
      } else {
        var next;
        next, env', o := AndThen(d.name, d.body, env);
      }
      if o.Fail? {
        return;
      }
      ghost var t1, steps1, env1 := writer.text, origin.steps, env';
      env', o := Run(decls[1..], env');
      TaskThenStep(stepName, decls, env, t0, t1, writer.text, steps0, steps1, origin.steps, env1, env', o);
    }
  }

  class JobContext {
    const origin: Job
    const writer: Writer

    constructor (origin: Job, writer: Writer)
      ensures this.origin == origin && this.writer == writer
    {
      this.origin := origin;
      this.writer := writer;
    }

    /** The job-level `andThen` is not implemented: it always throws. */
    method AndThen() returns (o: Outcome<Error>)
      ensures o == Fail(NotImplemented)
    {
      o := Fail(NotImplemented);
    }

    /** `step(name, f)`: a new step context, which registers the name, runs
        `f`. */
    method Step(stepName: string, body: seq<StepDecl>, env: Env) returns (env': Env, o: Outcome<Error>)
      modifies origin, writer
      ensures var r := RunStep(stepName, body, env);
        && origin.steps == old(origin.steps) + [stepName] + r.steps
        && writer.text == old(writer.text) + r.text
        && env' == r.env && o == r.outcome
    {
      var ctx := new StepContext(origin, stepName, writer);
      env', o := ctx.Run(body, env);
    }

    /** Runs a job callback on this context. */
    method Run(decls: seq<JobDecl>, env: Env) returns (env': Env, o: Outcome<Error>)
      modifies origin, writer
      ensures var r := RunJob(decls, env);
        && origin.steps == old(origin.steps) + r.steps
        && writer.text == old(writer.text) + r.text
        && env' == r.env && o == r.outcome
      decreases |decls|
    {
      if decls == [] {
        return env, Pass;
      }
      if decls[0].JobAndThen? {
        env' := env;
        o := AndThen();
        return;
      }
      var d := decls[0];
      ghost var t0, steps0 := writer.text, origin.steps;
      env', o := Step(d.name, d.body, env);
      ghost var t1, steps1, env1 := writer.text, origin.steps, env';
      if o.Fail? {
        StepFailsJob(decls, env, t0, t1, steps0, steps1, env1, o);
        return;
      }
      env', o := Run(decls[1..], env');
      StepThenJob(decls, env, t0, t1, writer.text, steps0, steps1, origin.steps, env1, env', o);
    }
  }

  class Job {
    const writer: Writer
    var steps: seq<string>

    constructor (tw: Writer)
      ensures writer == tw && steps == []
    {
      writer := tw;
      steps := [];
    }

    method AddStep(stageName: string)
      modifies this
      ensures steps == old(steps) + [stageName]
    {
      steps := steps + [stageName];
    }

    /** The body of the job's constructor: the callback writes into a local
        buffer; when it returns, the `steps:` header and then the buffer
        reach the outer writer. If it throws, the outer writer is untouched
        and the partial buffer is lost. */
    method Build(decls: seq<JobDecl>, env: Env) returns (env': Env, o: Outcome<Error>)
      modifies this, writer
      ensures var r := RunJob(decls, env);
        && steps == old(steps) + r.steps && env' == r.env && o == r.outcome
        && writer.text == old(writer.text) + (if o.Pass? then JobText(r.text) else "")
    {
      var body;
      body, env', o := RunCallback(decls, env);
      if o.Pass? {
        WriteJob(body);
      }
    }

    /** Writes the `steps:` line and the callback's text. */
    method WriteJob(body: string)
      modifies writer
      ensures writer.text == old(writer.text) + JobText(body)
    {
      ghost var t0 := writer.text;
      writer.WriteLine("steps:");
      writer.Write(body);
      AppendAssoc(t0, Line("steps:"), body);
    }

    /** Runs the callback against a fresh local buffer and returns what it
        wrote there. */
    method RunCallback(decls: seq<JobDecl>, env: Env) returns (body: string, env': Env, o: Outcome<Error>)
      modifies this
      ensures var r := RunJob(decls, env);
        steps == old(steps) + r.steps && body == r.text && env' == r.env && o == r.outcome
    {
      var localWriter := new Writer();
      var ctx := new JobContext(this, localWriter);
      env', o := ctx.Run(decls, env);
      body := localWriter.text;
    }

    /** `andThen(f)` runs `f` against the outer writer, after the job's text;
        what it wrote before an exception stays there. */
    method AndThen(decls: seq<JobDecl>, env: Env) returns (env': Env, o: Outcome<Error>)
      modifies this, writer
      ensures var r := RunJob(decls, env);
        && steps == old(steps) + r.steps
        && writer.text == old(writer.text) + r.text
        && env' == r.env && o == r.outcome
    {
      var ctx := new JobContext(this, writer);
      env', o := ctx.Run(decls, env);
    }
  }

  class Builder {
    const writer: Writer

    constructor ()
      ensures fresh(writer) && writer.text == ""
    {
      writer := new Writer();
    }

    /** `job(name, f)`: on success the job's text is appended to what the
        builder holds; an exception leaves it unchanged. The job's name is
        not written anywhere. */
    method Job(jobName: string, decls: seq<JobDecl>, env: Env) returns (r: Result<Job, Error>, env': Env)
      modifies writer
      ensures var run := RunJob(decls, env);
        && env' == run.env
        && (run.outcome.Pass? ==>
              && r.Success? && fresh(r.value) && r.value.writer == writer && r.value.steps == run.steps
              && writer.text == old(writer.text) + JobText(run.text))
        && (run.outcome.Fail? ==> r == Failure(run.outcome.error) && writer.text == old(writer.text))
    {
      var job := new Job(writer);
      var o;
      env', o := job.Build(decls, env);
      r := if o.Pass? then Success(job) else Failure(o.error);
    }

    /** The rendering: everything the jobs wrote, in the order they were
        declared. */
    method ToString() returns (s: string)
      ensures s == writer.text
    {
      s := writer.text;
    }
  }
}
