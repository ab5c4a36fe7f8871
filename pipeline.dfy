/** What the artifact-aware backends (local and Azure DevOps) share: the
    declarations a task callback makes, the artifact ledger each
    `TaskContext` keeps, and the construction errors it raises. Both source
    files carry copies of this logic that are identical except for the
    null-artifact message; that message and the text they write live in
    their own modules. */
module Pipeline {
  import opened Results

  /** The construction errors the declaration API throws. */
  datatype Error =
    | NullArtifact(task: string)  // consumeArtifact(null) in the named task
    | EmptyArtifact               // produceArtifact with no path filter
    | ProducedTwice               // a second produceArtifact on one task
    | NotImplemented              // JobContext.andThen

  /** An artifact handle: its name, its path filters and the task that
      produced it, identified by its name (the only thing of the producing
      task that any backend reads). */
  datatype Artifact = Artifact(name: string, path: seq<string>, producedBy: string)

  /** The declaration closure's artifact variables; a variable that is not in
      the map still holds null. */
  type Env = map<string, Artifact>

  /** One statement of a task callback. `Produce` assigns the returned handle
      to the variable `into`; `Consume` passes the variable `from`. */
  datatype TaskDecl =
    | Sh(command: string)
    | Produce(artifact: string, paths: seq<string>, into: string)
    | Consume(from: string)

  /** A task's `consumedArtifacts` list and `producedArtifact` field. */
  datatype Ledger = Ledger(consumed: seq<Artifact>, produced: Option<Artifact>)

  /** The ledger of a freshly constructed task. */
  const Fresh: Ledger := Ledger([], None)

  /** The handle held by variable `v`, or null. */
  function Lookup(env: Env, v: string): Option<Artifact>
  {
    if v in env then Some(env[v]) else None
  }

  /** `produceArtifact(name, paths)` on task `task` whose ledger is `l`: the
      empty-list check comes first, then the already-produced check. */
  function ProduceArtifact(l: Ledger, task: string, name: string, paths: seq<string>): Result<Artifact, Error>
  {
    if |paths| == 0 then Failure(EmptyArtifact)
    else if l.produced.Some? then Failure(ProducedTwice)
    else Success(Artifact(name, paths, task))
  }

  /** `consumeArtifact(a)` on task `task` whose ledger is `l`. */
  function ConsumeArtifact(l: Ledger, task: string, a: Option<Artifact>): Result<Ledger, Error>
  {
    if a.None? then Failure(NullArtifact(task)) else Success(l.(consumed := l.consumed + [a.value]))
  }

  /** The effect of running a task callback: the `sh` commands issued, the
      final ledger and artifact variables, and whether it threw. */
  datatype BodyRun = BodyRun(commands: seq<string>, ledger: Ledger, env: Env, outcome: Outcome<Error>)

  /** The effect of one statement of a task callback on task `task` whose
      ledger is `l`: an `sh` issues its command, a production assigns the new
      handle to its variable, and a failed production or consumption throws,
      having changed nothing. */
  function Perform(task: string, d: TaskDecl, l: Ledger, env: Env): BodyRun
  {
    match d
    case Sh(c) => BodyRun([c], l, env, Pass)
    case Produce(name, paths, v) =>
      (match ProduceArtifact(l, task, name, paths)
       case Failure(e) => BodyRun([], l, env, Fail(e))
       case Success(a) => BodyRun([], l.(produced := Some(a)), env[v := a], Pass))
    case Consume(v) =>
      (match ConsumeArtifact(l, task, Lookup(env, v))
       case Failure(e) => BodyRun([], l, env, Fail(e))
       case Success(l') => BodyRun([], l', env, Pass))
  }

  /** Runs the statements of a task callback in order on task `task`, starting
      from ledger `l`; the first statement that throws ends the callback and
      nothing after it happens. */
  function RunBody(task: string, body: seq<TaskDecl>, l: Ledger, env: Env): BodyRun
    decreases |body|
  {
    if body == [] then BodyRun([], l, env, Pass)
    else
      var s := Perform(task, body[0], l, env);
      if s.outcome.Fail? then s
      else
        var r := RunBody(task, body[1..], s.ledger, s.env);
        r.(commands := s.commands + r.commands)
  }

  /** The commands of the `sh` statements of `body`, in order. */
  function Commands(body: seq<TaskDecl>): seq<string>
  {
    if body == [] then []
    else (if body[0].Sh? then [body[0].command] else []) + Commands(body[1..])
  }

  /** How many `produceArtifact` statements `body` holds. */
  function Produces(body: seq<TaskDecl>): nat
  {
    if body == [] then 0 else (if body[0].Produce? then 1 else 0) + Produces(body[1..])
  }

  /** How many `consumeArtifact` statements `body` holds. */
  function Consumes(body: seq<TaskDecl>): nat
  {
    if body == [] then 0 else (if body[0].Consume? then 1 else 0) + Consumes(body[1..])
  }

  /** A statement of a step callback: `task(name, f)` or `andThen(name, f)`.
      Both act on contexts of the same step. In local, `andThen` also waits
      for the task of the context it is called on; that wait is not part of
      this model. */
  datatype StepDecl =
    | Task(name: string, body: seq<TaskDecl>)
    | AndThen(name: string, body: seq<TaskDecl>)

  /** A statement of a job callback: `step(name, f)` or the unimplemented
      `andThen(f)`. */
  datatype JobDecl =
    | Step(name: string, body: seq<StepDecl>)
    | JobAndThen

  /** `s` repeated `n` times. */
  function Repeat(s: string, n: nat): seq<string>
  {
    seq(n, _ => s)
  }

  function AndThens(decls: seq<StepDecl>): nat
  {
    if decls == [] then 0 else (if decls[0].AndThen? then 1 else 0) + AndThens(decls[1..])
  }

  /** The step names a job callback registers, read off the declarations
      alone: each step's name once for `step`, and again for every `andThen`
      in it, up to an unimplemented `andThen` on the job. */
  function Registrations(decls: seq<JobDecl>): seq<string>
  {
    if decls == [] then []
    else
      match decls[0]
      case JobAndThen => []
      case Step(name, body) => [name] + Repeat(name, AndThens(body)) + Registrations(decls[1..])
  }

  /** The invariant of a task's ledger: its artifact, if any, has at least one
      path filter and records this task as its producer. */
  predicate Valid(l: Ledger, task: string)
  {
    l.produced.Some? ==> |l.produced.value.path| > 0 && l.produced.value.producedBy == task
  }

  /** A task callback keeps the ledger invariant. */
  lemma {:induction false} RunBodyValid(task: string, body: seq<TaskDecl>, l: Ledger, env: Env)
    requires Valid(l, task)
    ensures Valid(RunBody(task, body, l, env).ledger, task)
  {
    if body != [] {
      var s := Perform(task, body[0], l, env);
      if s.outcome.Pass? {
        RunBodyValid(task, body[1..], s.ledger, s.env);
      }
    }
  }

  /** A task produces at most one artifact: a callback that completes has at
      most one `produceArtifact` statement, none at all if the task had
      already produced; and an artifact once recorded is never replaced,
      whether or not the callback throws. */
  lemma {:induction false} ProducedOnce(task: string, body: seq<TaskDecl>, l: Ledger, env: Env)
    ensures var r := RunBody(task, body, l, env);
      && (l.produced.Some? ==> r.ledger.produced == l.produced)
      && (r.outcome.Pass? ==> Produces(body) + (if l.produced.Some? then 1 else 0) <= 1)
      && (r.outcome.Pass? ==> (r.ledger.produced.Some? <==> l.produced.Some? || Produces(body) == 1))
  {
    if body != [] {
      var s := Perform(task, body[0], l, env);
      if s.outcome.Pass? {
        ProducedOnce(task, body[1..], s.ledger, s.env);
      }
    }
  }

  /** The consumed list only grows at its end, and a callback that completes
      has added exactly one entry per `consumeArtifact` statement, repeated
      artifacts included. */
  lemma {:induction false} ConsumedAppendOnly(task: string, body: seq<TaskDecl>, l: Ledger, env: Env)
    ensures var r := RunBody(task, body, l, env);
      && l.consumed <= r.ledger.consumed
      && (r.outcome.Pass? ==> |r.ledger.consumed| == |l.consumed| + Consumes(body))
  {
    if body != [] {
      var s := Perform(task, body[0], l, env);
      if s.outcome.Pass? {
        ConsumedAppendOnly(task, body[1..], s.ledger, s.env);
      }
    }
  }

  /** The commands a callback issues are those of its `sh` statements in call
      order: all of them when it completes, a prefix of them when it throws. */
  lemma {:induction false} CommandsInCallOrder(task: string, body: seq<TaskDecl>, l: Ledger, env: Env)
    ensures var r := RunBody(task, body, l, env);
      && r.commands <= Commands(body)
      && (r.outcome.Pass? ==> r.commands == Commands(body))
  {
    if body != [] {
      var s := Perform(task, body[0], l, env);
      if s.outcome.Pass? {
        CommandsInCallOrder(task, body[1..], s.ledger, s.env);
      }
    }
  }
}
