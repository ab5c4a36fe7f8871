/** The local backend (local/local.cs): it records the pipeline in a
    GitLab-like text while it runs each task. The model runs every dispatched
    task to completion before the declaring thread continues, which is one of
    the interleavings the thread pool allows; process spawning and the
    completion barrier are not modelled. */
module Local {
  import opened Results
  import opened Text
  import opened Pipeline
  import opened Stages

  /** The exception messages. */
  function Message(e: Error): string
  {
    match e
    case NullArtifact(task) =>
      NullPrefix + task
      + "' must not be null. Ensure, that the artifact is produced in an earlier step."
    case EmptyArtifact => "An artifact must at least contain one entry!"
    case ProducedTwice => "An artifact can only be produced once per step!"
    case NotImplemented => "The method or operation is not implemented."
  }

  const NullPrefix: string := "The artifact passed to 'consumeArtifact' in task '"

  /** The message for a null artifact names the task it was passed to, right
      after a fixed prefix. */
  lemma MessageNamesTask(task: string)
    ensures |NullPrefix| + |task| <= |Message(NullArtifact(task))|
    ensures Message(NullArtifact(task))[..|NullPrefix|] == NullPrefix
    ensures Message(NullArtifact(task))[|NullPrefix|..|NullPrefix| + |task|] == task
  {
  }

  // ---------------------------------------------------------------------
  // The text a task writes

  /** The three lines the task constructor writes. */
  function HeaderText(step: string, task: string): string
  {
    Line(task + ":") + Line("  stage: " + step) + Line("  script:")
  }

  /** What `sh(command)` writes before the command. */
  const ShPrefix: string := "     - "

  /** The line `sh(command)` writes. */
  function ShLine(command: string): string
  {
    ShPrefix + command
  }

  /** What the `sh` calls with these commands write, one after the other. */
  function ShText(commands: seq<string>): string
  {
    Listing(ShPrefix, commands)
  }

  /** The producers' names of the consumed artifacts, in consumption order. */
  function Producers(consumed: seq<Artifact>): seq<string>
  {
    seq(|consumed|, i requires 0 <= i < |consumed| => consumed[i].producedBy)
  }

  function NeedsLine(consumed: seq<Artifact>): string
  {
    "  needs: [" + Join(Producers(consumed), ',') + "]"
  }

  /** What the artifacts block writes before each path filter. */
  const PathPrefix: string := "          - "

  function PathLine(path: string): string
  {
    PathPrefix + path
  }

  /** One path line per path filter, in order. */
  function PathsText(paths: seq<string>): string
  {
    Listing(PathPrefix, paths)
  }

  /** The first half of `finalize`. */
  function NeedsText(consumed: seq<Artifact>): string
  {
    if |consumed| == 0 then "" else Line(NeedsLine(consumed))
  }

  /** The second half of `finalize`. */
  function ArtifactText(produced: Option<Artifact>): string
  {
    if produced.None? then ""
    else Line("  artifacts:") + Line("      paths:") + PathsText(produced.value.path)
  }

  /** What `finalize` writes for a task's ledger. */
  function FinalizeText(l: Ledger): string
  {
    NeedsText(l.consumed) + ArtifactText(l.produced)
  }

  /** What a task writes: its header, what its `sh` calls write, then what
      `finalize` writes unless the callback threw. */
  function TaskText(step: string, task: string, r: BodyRun): string
  {
    HeaderText(step, task) + ShText(r.commands) + (if r.outcome.Pass? then FinalizeText(r.ledger) else "")
  }

  /** The lines of a task's text, listed whole: the header, one line per
      command, then (unless the callback threw) a needs line when something
      was consumed and an artifacts block with one line per path filter when
      an artifact was produced. */
  function TaskLines(step: string, task: string, r: BodyRun): seq<string>
  {
    [task + ":", "  stage: " + step, "  script:"] + ShLines(r.commands)
    + (if r.outcome.Pass? then FinalizeLines(r.ledger) else [])
  }

  function ShLines(commands: seq<string>): seq<string>
  {
    Prefixed(ShPrefix, commands)
  }

  function FinalizeLines(l: Ledger): seq<string>
  {
    (if |l.consumed| > 0 then [NeedsLine(l.consumed)] else [])
    + (if l.produced.Some? then ["  artifacts:", "      paths:"] + PathLines(l.produced.value.path) else [])
  }

  function PathLines(paths: seq<string>): seq<string>
  {
    Prefixed(PathPrefix, paths)
  }

  lemma FinalizeTextLines(l: Ledger)
    ensures FinalizeText(l) == Unlines(FinalizeLines(l))
  {
    var needs := if |l.consumed| > 0 then [NeedsLine(l.consumed)] else [];
    var art := if l.produced.Some? then ["  artifacts:", "      paths:"] + PathLines(l.produced.value.path) else [];
    assert Unlines(needs) == NeedsText(l.consumed) by {
      if needs != [] { assert needs[1..] == []; }
    }
    assert Unlines(art) == ArtifactText(l.produced) by {
      if art != [] {
        var paths := l.produced.value.path;
        ListingLines(PathPrefix, paths);
        assert art[1..][1..] == PathLines(paths);
        AppendAssoc(Line("  artifacts:"), Line("      paths:"), PathsText(paths));
      }
    }
    UnlinesAppend(needs, art);
  }

  /** A task writes exactly the lines `TaskLines` lists; so long as no name,
      command or path holds a line break, its text splits back into them. */
  lemma TaskLayout(step: string, task: string, r: BodyRun)
    ensures TaskText(step, task, r) == Unlines(TaskLines(step, task, r))
    ensures Free(TaskLines(step, task, r), EOL) ==>
              Split(TaskText(step, task, r), EOL) == TaskLines(step, task, r) + [""]
  {
    var a, b, c := task + ":", "  stage: " + step, "  script:";
    var head := [a, b, c];
    var tail := if r.outcome.Pass? then FinalizeLines(r.ledger) else [];
    assert Unlines([c]) == Line(c) by { assert [c][1..] == []; assert Line(c) + "" == Line(c); }
    assert Unlines([b, c]) == Line(b) + Line(c) by { assert [b, c][1..] == [c]; }
    assert Unlines(head) == Line(a) + (Line(b) + Line(c)) by { assert head[1..] == [b, c]; }
    AppendAssoc(Line(a), Line(b), Line(c));
    ListingLines(ShPrefix, r.commands);
    UnlinesAppend(head, ShLines(r.commands));
    UnlinesAppend(head + ShLines(r.commands), tail);
    if r.outcome.Pass? {
      FinalizeTextLines(r.ledger);
    }
    if Free(TaskLines(step, task, r), EOL) {
      LinesOfUnlines(TaskLines(step, task, r));
    }
  }

  /** The needs line lists the producers of the consumed artifacts in
      consumption order, repeated ones included, separated by exactly n - 1
      commas (so long as no producer's name holds a comma). */
  lemma NeedsListsProducers(consumed: seq<Artifact>)
    requires |consumed| > 0
    requires Free(Producers(consumed), ',')
    ensures var list := NeedsLine(consumed)[|"  needs: ["|..|NeedsLine(consumed)| - 1];
      && NeedsLine(consumed) == "  needs: [" + list + "]"
      && Split(list, ',') == Producers(consumed)
      && Occurrences(list, ',') == |consumed| - 1
  {
    var list := Join(Producers(consumed), ',');
    assert NeedsLine(consumed)[|"  needs: ["|..|NeedsLine(consumed)| - 1] == list;
    SplitJoin(Producers(consumed), ',');
    SeparatorCount(Producers(consumed), ',');
  }

  // ---------------------------------------------------------------------
  // Declarations and what they produce

  /** The step names registered by, the text written by, and the artifact
      variables left by a step callback. */
  datatype StepRun = StepRun(steps: seq<string>, text: string, env: Env)

  /** A task's exception is caught on its worker, so a step callback always
      completes. */
  function RunStep(step: string, decls: seq<StepDecl>, env: Env): StepRun
    decreases |decls|
  {
    if decls == [] then StepRun([], "", env)
    else
      var d := decls[0];
      var t := RunBody(d.name, d.body, Fresh, env);
      var rest := RunStep(step, decls[1..], t.env);
      StepRun((if d.AndThen? then [step] else []) + rest.steps,
              TaskText(step, d.name, t) + rest.text, rest.env)
  }

  datatype JobRun = JobRun(steps: seq<string>, text: string, env: Env, outcome: Outcome<Error>)

  function RunJob(decls: seq<JobDecl>, env: Env): JobRun
    decreases |decls|
  {
    if decls == [] then JobRun([], "", env, Pass)
    else
      match decls[0]
      case JobAndThen => JobRun([], "", env, Fail(NotImplemented))
      case Step(name, body) =>
        var s := RunStep(name, body, env);
        var rest := RunJob(decls[1..], s.env);
        JobRun([name] + s.steps + rest.steps, s.text + rest.text, rest.env, rest.outcome)
  }

  /** Running the first declaration of a step callback and then the rest
      runs the whole callback: the effects on the registered steps, the text
      and the artifact variables compose. */
  lemma TaskThenStep(step: string, decls: seq<StepDecl>, env: Env, t0: string, t1: string, t2: string,
                     steps0: seq<string>, steps1: seq<string>, steps2: seq<string>, env1: Env, env2: Env)
    requires decls != []
    requires var d := decls[0];
      var t := RunBody(d.name, d.body, Fresh, env);
      && steps1 == steps0 + (if d.AndThen? then [step] else []) && t1 == t0 + TaskText(step, d.name, t) && env1 == t.env
    requires var rest := RunStep(step, decls[1..], env1);
      && steps2 == steps1 + rest.steps && t2 == t1 + rest.text && env2 == rest.env
    ensures var r := RunStep(step, decls, env);
      && steps2 == steps0 + r.steps && t2 == t0 + r.text && env2 == r.env
  {
    var d := decls[0];
    var rest := RunStep(step, decls[1..], env1);
    AppendAssoc(t0, TaskText(step, d.name, RunBody(d.name, d.body, Fresh, env)), rest.text);
    AppendAssoc(steps0, if d.AndThen? then [step] else [], rest.steps);
  }

  /** Running the first step of a job callback and then the rest runs the
      whole callback. */
  lemma StepThenJob(decls: seq<JobDecl>, env: Env, t0: string, t1: string, t2: string,
                    steps0: seq<string>, steps1: seq<string>, steps2: seq<string>, env1: Env, env2: Env, o: Outcome<Error>)
    requires decls != [] && decls[0].Step?
    requires var s := RunStep(decls[0].name, decls[0].body, env);
      && steps1 == steps0 + [decls[0].name] + s.steps && t1 == t0 + s.text && env1 == s.env
    requires var rest := RunJob(decls[1..], env1);
      && steps2 == steps1 + rest.steps && t2 == t1 + rest.text && env2 == rest.env && o == rest.outcome
    ensures var r := RunJob(decls, env);
      && steps2 == steps0 + r.steps && t2 == t0 + r.text && env2 == r.env && o == r.outcome
  {
    var s := RunStep(decls[0].name, decls[0].body, env);
    var rest := RunJob(decls[1..], env1);
    AppendAssoc(t0, s.text, rest.text);
    AppendAssoc(steps0 + [decls[0].name], s.steps, rest.steps);
    AppendAssoc(steps0, [decls[0].name] + s.steps, rest.steps);
    AppendAssoc(steps0, [decls[0].name], s.steps);
  }

  /** A step callback re-registers the step's own name once per `andThen`
      and registers nothing else. */
  lemma {:induction false} AndThenRegistersAgain(step: string, decls: seq<StepDecl>, env: Env)
    ensures RunStep(step, decls, env).steps == Repeat(step, AndThens(decls))
  {
    if decls != [] {
      var d := decls[0];
      var t := RunBody(d.name, d.body, Fresh, env);
      AndThenRegistersAgain(step, decls[1..], t.env);
    }
  }

  /** The stage list is determined by the shape of the declarations: it does
      not depend on the artifact variables or on what the tasks do. */
  lemma {:induction false} StagesFromDeclarations(decls: seq<JobDecl>, env: Env)
    ensures RunJob(decls, env).steps == Registrations(decls)
  {
    if decls != [] {
      match decls[0]
      case JobAndThen =>
      case Step(name, body) =>
        AndThenRegistersAgain(name, body, env);
        StagesFromDeclarations(decls[1..], RunStep(name, body, env).env);
    }
  }

  // ---------------------------------------------------------------------
  // The objects

  class TaskContext {
    const writer: Writer
    const name: string
    var consumed: seq<Artifact>
    var produced: Option<Artifact>

    /** The ledger this task has recorded. */
    function Recorded(): Ledger
      reads this
    {
      Ledger(consumed, produced)
    }

    /** Writes the task header. */
    constructor (writer: Writer, stepName: string, taskName: string)
      modifies writer
      ensures this.writer == writer && name == taskName
      ensures consumed == [] && produced == None
      ensures writer.text == old(writer.text) + HeaderText(stepName, taskName)
    {
      this.writer := writer;
      name := taskName;
      consumed := [];
      produced := None;
      new;
      writer.WriteLine(taskName + ":");
      writer.WriteLine("  stage: " + stepName);
      writer.WriteLine("  script:");
    }

    /** Null fails, naming this task; anything else is appended. */
    method ConsumeArtifact(artifact: Option<Artifact>) returns (o: Outcome<Error>)
      modifies this
      ensures produced == old(produced)
      ensures artifact.None? ==> o == Fail(NullArtifact(name)) && consumed == old(consumed)
      ensures artifact.Some? ==> o == Pass && consumed == old(consumed) + [artifact.value]
      ensures Pipeline.ConsumeArtifact(old(Recorded()), name, artifact)
              == if o.Pass? then Success(Recorded()) else Failure(o.error)
    {
      if artifact.None? {
        return Fail(NullArtifact(name));
      }
      consumed := consumed + [artifact.value];
      o := Pass;
    }

    /** An empty filter list fails first, then a second production fails;
        otherwise the new artifact names this task as its producer. */
    method ProduceArtifact(artifact: string, filters: seq<string>) returns (r: Result<Artifact, Error>)
      modifies this
      ensures consumed == old(consumed)
      ensures |filters| == 0 ==> r == Failure(EmptyArtifact) && produced == old(produced)
      ensures |filters| > 0 && old(produced).Some? ==> r == Failure(ProducedTwice) && produced == old(produced)
      ensures |filters| > 0 && old(produced).None? ==>
                r == Success(Artifact(artifact, filters, name)) && produced == Some(r.value)
      ensures r == Pipeline.ProduceArtifact(old(Recorded()), name, artifact, filters)
    {
      if |filters| == 0 {
        return Failure(EmptyArtifact);
      }
      if produced.Some? {
        return Failure(ProducedTwice);
      }
      var a := Artifact(artifact, filters, name);
      produced := Some(a);
      r := Success(a);
    }

    /** Records the command; running it is not modelled. */
    method Sh(command: string)
      modifies writer
      ensures writer.text == old(writer.text) + Line(ShLine(command))
    {
      writer.WriteLine(ShLine(command));
    }

    /** Writes the needs line and the artifacts block. */
    method Finalize()
      modifies writer
      ensures writer.text == old(writer.text) + FinalizeText(Recorded())
    {
      ghost var t0 := writer.text;
      WriteNeeds();
      WriteArtifacts();
      AppendAssoc(t0, NeedsText(consumed), ArtifactText(produced));
    }

    /** The first half of `finalize`: when something was consumed,
        `  needs: [` then the producers' names, a comma after each but the
        last (the `numWritten` counter decides), then `]`. */
    method WriteNeeds()
      modifies writer
      ensures writer.text == old(writer.text) + NeedsText(Recorded().consumed)
    {
      if |consumed| > 0 {
        ghost var t0 := writer.text;
        ghost var names := Producers(consumed);
        writer.Write("  needs: [");
        ghost var head := writer.text;
        ghost var list: string := "";
        var numWritten := 0;
        while numWritten < |consumed|
          modifies writer
          invariant 0 <= numWritten <= |consumed|
          invariant writer.text == head + list
          invariant list == Join(names[..numWritten], ',') + (if 0 < numWritten < |consumed| then "," else "")
        {
          var x := consumed[numWritten].producedBy;
          if numWritten > 0 {
            JoinSnoc(names[..numWritten], x, ',');
            assert names[..numWritten + 1] == names[..numWritten] + [x];
          } else {
            assert names[..1] == [x];
          }
          writer.Write(x);
          AppendAssoc(head, list, x);
          list := list + x;
          numWritten := numWritten + 1;
          if numWritten != |consumed| {
            writer.Write(",");
            AppendAssoc(head, list, ",");
            list := list + ",";
          }
        }
        writer.WriteLine("]");
        assert names[..numWritten] == names;
        ghost var open := "  needs: [";
        AppendAssoc(t0, open, list);
        AppendAssoc(t0, open + list, Line("]"));
        AppendAssoc(open + list, "]", [EOL]);
      }
    }

    /** The second half of `finalize`: when an artifact was produced, its
        block with one line per path filter, in order. */
    method WriteArtifacts()
      modifies writer
      ensures writer.text == old(writer.text) + ArtifactText(Recorded().produced)
    {
      if produced.Some? {
        ghost var t0 := writer.text;
        var paths := produced.value.path;
        writer.WriteLine("  artifacts:");
        writer.WriteLine("      paths:");
        ghost var t1 := writer.text;
        for i := 0 to |paths|
          modifies writer
          invariant writer.text == t1 + PathsText(paths[..i])
        {
          assert paths[..i + 1][..i] == paths[..i];
          AppendAssoc(t1, PathsText(paths[..i]), Line(PathLine(paths[i])));
          writer.WriteLine(PathLine(paths[i]));
        }
        assert paths[..|paths|] == paths;
        ghost var block := Line("  artifacts:") + Line("      paths:");
        AppendAssoc(t0, Line("  artifacts:"), Line("      paths:"));
        AppendAssoc(t0, block, PathsText(paths));
      }
    }

    /** One statement of a task callback, on this context. */
    method Perform(d: TaskDecl, env: Env) returns (env': Env, o: Outcome<Error>)
      modifies this, writer
      ensures var s := Pipeline.Perform(name, d, old(Recorded()), env);
        && writer.text == old(writer.text) + ShText(s.commands)
        && Recorded() == s.ledger && env' == s.env && o == s.outcome
    {
      env', o := env, Pass;
      match d {
      case Sh(c) =>
        Sh(c);
        ListingOne(ShPrefix, c);
      case Produce(artifact, paths, v) =>
        var r := ProduceArtifact(artifact, paths);
        if r.Failure? {
          o := Fail(r.error);
        } else {
          env' := env[v := r.value];
        }
      case Consume(v) =>
        o := ConsumeArtifact(if v in env then Some(env[v]) else None);
      }
    }

    /** Runs a task callback on this context; the first statement that throws
        ends it. */
    method Run(body: seq<TaskDecl>, env: Env) returns (env': Env, o: Outcome<Error>)
      modifies this, writer
      ensures var r := RunBody(name, body, old(Recorded()), env);
        && writer.text == old(writer.text) + ShText(r.commands)
        && Recorded() == r.ledger && env' == r.env && o == r.outcome
      decreases |body|
    {
      if body == [] {
        return env, Pass;
      }
      ghost var t0 := writer.text;
      ghost var s := Pipeline.Perform(name, body[0], Recorded(), env);
      env', o := Perform(body[0], env);
      if o.Fail? {
        return;
      }
      ghost var r := RunBody(name, body[1..], Recorded(), env');
      env', o := Run(body[1..], env');
      ListingAppend(ShPrefix, s.commands, r.commands);
      AppendAssoc(t0, ShText(s.commands), ShText(r.commands));
    }
  }

  class StepContext {
    const origin: Job
    const writer: Writer
    const stepName: string

    /** Every construction registers the step's name with its job. */
    constructor (j: Job, stepName: string, writer: Writer)
      modifies j
      ensures origin == j && this.writer == writer && this.stepName == stepName
      ensures j.steps == old(j.steps) + [stepName]
    {
      origin := j;
      this.writer := writer;
      this.stepName := stepName;
      new;
      j.AddStep(stepName);
    }

    /** `task(name, f)`: a fresh task context writes its header, runs `f` and,
        unless `f` threw, finalizes; a thrown exception is swallowed. */
    method Task(taskName: string, body: seq<TaskDecl>, env: Env) returns (env': Env)
      modifies writer
      ensures var r := RunBody(taskName, body, Fresh, env);
        writer.text == old(writer.text) + TaskText(stepName, taskName, r) && env' == r.env
    {
      ghost var t0 := writer.text;
      ghost var r := RunBody(taskName, body, Fresh, env);
      var ctx := new TaskContext(writer, stepName, taskName);
      var o;
      env', o := ctx.Run(body, env);
      ghost var h, sh := HeaderText(stepName, taskName), ShText(r.commands);
      AppendAssoc(t0, h, sh);
      if o.Pass? {
        ctx.Finalize();
        AppendAssoc(t0, h + sh, FinalizeText(r.ledger));
      }
    }

    /** `andThen(name, f)`: a new context for the same step, which registers
        the step's name again, runs exactly one task. */
    method AndThen(taskName: string, body: seq<TaskDecl>, env: Env)
      returns (next: StepContext, env': Env)
      modifies origin, writer
      ensures fresh(next) && next.origin == origin && next.writer == writer && next.stepName == stepName
      ensures origin.steps == old(origin.steps) + [stepName]
      ensures var r := RunBody(taskName, body, Fresh, env);
        writer.text == old(writer.text) + TaskText(stepName, taskName, r) && env' == r.env
    {
      next := new StepContext(origin, stepName, writer);
      env' := next.Task(taskName, body, env);
    }

    /** Runs a step callback on this context. */
    method Run(decls: seq<StepDecl>, env: Env) returns (env': Env)
      modifies origin, writer
      ensures var r := RunStep(stepName, decls, env);
        && origin.steps == old(origin.steps) + r.steps
        && writer.text == old(writer.text) + r.text
        && env' == r.env
      decreases |decls|
    {
      if decls == [] {
        return env;
      }
      ghost var t0, steps0 := writer.text, origin.steps;
      var d := decls[0];
      if d.Task? {
        env' := Task(d.name, d.body, env);
      } else {
        var next;
        next, env' := AndThen(d.name, d.body, env);
      }
      ghost var t1, steps1, env1 := writer.text, origin.steps, env';
      env' := Run(decls[1..], env');
      TaskThenStep(stepName, decls, env, t0, t1, writer.text, steps0, steps1, origin.steps, env1, env');
    }
  }

  class JobContext {
    const origin: Job
    const writer: Writer

    constructor (origin: Job, writer: Writer)
      ensures this.origin == origin && this.writer == writer
    {
      this.origin := origin;
      this.writer := writer;
    }

    /** The job-level `andThen` is not implemented: it always throws. */
    method AndThen() returns (o: Outcome<Error>)
      ensures o == Fail(NotImplemented)
    {
      o := Fail(NotImplemented);
    }

    /** `step(name, f)`: a new step context, which registers the name, runs
        `f`. */
    method Step(stepName: string, body: seq<StepDecl>, env: Env) returns (env': Env)
      modifies origin, writer
      ensures var r := RunStep(stepName, body, env);
        && origin.steps == old(origin.steps) + [stepName] + r.steps
        && writer.text == old(writer.text) + r.text
        && env' == r.env
    {
      var ctx := new StepContext(origin, stepName, writer);
      env' := ctx.Run(body, env);
    }

    /** Runs a job callback on this context; the unimplemented `andThen` ends
        it with an exception. */
    method Run(decls: seq<JobDecl>, env: Env) returns (env': Env, o: Outcome<Error>)
      modifies origin, writer
      ensures var r := RunJob(decls, env);
        && origin.steps == old(origin.steps) + r.steps
        && writer.text == old(writer.text) + r.text
        && env' == r.env && o == r.outcome
      decreases |decls|
    {
      if decls == [] {
        return env, Pass;
      }
      match decls[0] {
      case JobAndThen =>
        env' := env;
        o := AndThen();
      case Step(name, body) =>
        ghost var t0, steps0 := writer.text, origin.steps;
        env' := Step(name, body, env);
        ghost var t1, steps1, env1 := writer.text, origin.steps, env';
        env', o := Run(decls[1..], env');
        StepThenJob(decls, env, t0, t1, writer.text, steps0, steps1, origin.steps, env1, env', o);
      }
    }
  }

  class Job {
    const writer: Writer
    var steps: seq<string>

    constructor (tw: Writer)
      ensures writer == tw && steps == []
    {
      writer := tw;
      steps := [];
    }

    method AddStep(stageName: string)
      modifies this
      ensures steps == old(steps) + [stageName]
    {
      steps := steps + [stageName];
    }

    /** The body of the job's constructor: the callback writes into a local
        buffer; only when it returns does the stage list, then the buffer,
        reach the outer writer. If it throws, the outer writer is untouched. */
    method Build(decls: seq<JobDecl>, env: Env) returns (env': Env, o: Outcome<Error>)
      modifies this, writer
      ensures var r := RunJob(decls, env);
        && steps == old(steps) + r.steps && env' == r.env && o == r.outcome
        && writer.text == old(writer.text) + (if o.Pass? then JobText(steps, r.text) else "")
    {
      var body;
      body, env', o := RunCallback(decls, env);
      if o.Pass? {
        WriteJob(body);
      }
    }

    /** Runs the callback against a fresh local buffer and returns what it
        wrote there. */
    method RunCallback(decls: seq<JobDecl>, env: Env) returns (body: string, env': Env, o: Outcome<Error>)
      modifies this
      ensures var r := RunJob(decls, env);
        steps == old(steps) + r.steps && body == r.text && env' == r.env && o == r.outcome
    {
      var localWriter := new Writer();
      var ctx := new JobContext(this, localWriter);
      env', o := ctx.Run(decls, env);
      body := localWriter.text;
    }

    /** Writes the `stages:` line, the stage list and the callback's text. */
    method WriteJob(body: string)
      modifies writer
      ensures writer.text == old(writer.text) + JobText(steps, body)
    {
      ghost var t0 := writer.text;
      writer.WriteLine("stages:");
      WriteStages();
      writer.Write(body);
      JobTextParts(t0, steps, body);
    }

    /** The `foreach` over the registered steps. */
    method WriteStages()
      modifies writer
      ensures writer.text == old(writer.text) + StagesText(steps)
    {
      ghost var t0 := writer.text;
      var stages := steps;
      for i := 0 to |stages|
        modifies writer
        invariant writer.text == t0 + StagesText(stages[..i])
      {
        assert stages[..i + 1][..i] == stages[..i];
        AppendAssoc(t0, StagesText(stages[..i]), Line(StagePrefix + stages[i]));
        writer.WriteLine(StagePrefix + stages[i]);
      }
      assert stages[..|stages|] == stages;
    }

    /** `andThen(f)` runs `f` against the outer writer: no new header, and
        the steps it registers come after the stage list was written. */
    method AndThen(decls: seq<JobDecl>, env: Env) returns (env': Env, o: Outcome<Error>)
      modifies this, writer
      ensures var r := RunJob(decls, env);
        && steps == old(steps) + r.steps
        && writer.text == old(writer.text) + r.text
        && env' == r.env && o == r.outcome
    {
      var ctx := new JobContext(this, writer);
      env', o := ctx.Run(decls, env);
    }
  }

  class Builder {
    const writer: Writer

    constructor ()
      ensures fresh(writer) && writer.text == ""
    {
      writer := new Writer();
    }

    /** `job(name, f)`. The job's name is not written anywhere. */
    method Job(jobName: string, decls: seq<JobDecl>, env: Env)
      returns (r: Result<Job, Error>, env': Env)
      modifies writer
      ensures var run := RunJob(decls, env);
        && env' == run.env
        && (run.outcome.Pass? ==>
              && r.Success? && fresh(r.value) && r.value.writer == writer && r.value.steps == run.steps
              && writer.text == old(writer.text) + JobText(run.steps, run.text))
        && (run.outcome.Fail? ==> r == Failure(run.outcome.error) && writer.text == old(writer.text))
    {
      var job := new Job(writer);
      var o;
      env', o := job.Build(decls, env);
      r := if o.Pass? then Success(job) else Failure(o.error);
    }

    /** Once every task has finished (the wait is not modelled), `ToString`
        reports completion; the recorded text is never returned. */
    method ToString() returns (s: string)
      ensures s == "Local Execution finished"
    {
      s := "Local Execution finished";
    }
  }
}
