# ci-mage pipeline declarations, modelled in Dafny

ci-mage lets a program declare a CI pipeline through a nested callback DSL:
`job → step → task → sh / produceArtifact / consumeArtifact`. Three backends
interpret the declarations:

- **local** runs each task and records a GitLab-like text.
- **azuredevops** renders an Azure DevOps `steps:` list.
- **gitlab** renders a GitLab CI file.

Each backend builds a small object model (`Builder`, `Job`, `JobContext`,
`StepContext`, `TaskContext`, and in local and Azure DevOps also `Artifact`)
that appends lines to a shared `TextWriter` and appends step names to the
job's `steps` list.

The model keeps that imperative shape.

- Each of those objects is a Dafny `class` whose methods update its fields and
  append to a `Text.Writer`.
- The user's callbacks become data: the `Pipeline.TaskDecl`,
  `Pipeline.StepDecl` and `Pipeline.JobDecl` datatypes for local and Azure
  DevOps, and `Gitlab.StepDecl` / `Gitlab.JobDecl` for GitLab.
- Recursive `Run` methods interpret the callbacks on the contexts, one
  declaration at a time, as the callback would call the context.
- Artifact-holding closure variables are an environment `Env` (a map from
  variable name to artifact handle). A variable that is not in the map is
  null.
- Exceptions are `Outcome`/`Result` values that end the enclosing callback.

Every method is proved against a specification function:

- `Pipeline.RunBody`: what a task callback does to its ledger.
- `Local.RunStep`/`RunJob`, `Azure.RunStep`/`RunJob` and
  `Gitlab.StepText`/`RunJob`: what a step or job callback registers and
  writes.
- `TaskText`, `FinalizeText` and `JobText`: the exact text.

The lemmas then state what the backends promise about those functions:
line layout, ledger invariants, registration counts and what the text depends
on.

Files:

- `results.dfy`: `Option`, `Outcome`, `Result`.
- `text.dfy`: the append-only writer, lines, `Join`/`Split` and their inverse
  lemmas.
- `stages.dfy`: the `stages:` header that local and GitLab share.
- `pipeline.dfy`: declarations, the artifact ledger and its errors.
  local/local.cs and azuredevops/azuredevops.cs carry copies of this logic
  that are identical except for the null-artifact message, which each
  backend module defines.
- `local.dfy`, `azure.dfy`, `gitlab.dfy`: one module per backend.

Three behaviours of the code are easy to miss:

- In local, a declaration error does not abort the job. The task's exception
  is caught on its worker and only printed, so the job goes on.
- The Azure DevOps null-artifact message does not identify the task.
- The GitLab `TaskContext` has no `consumeArtifact` or `produceArtifact`, so
  GitLab tasks are modelled as lists of `sh` commands.

## Model

| member | source | states |
|---|---|---|
| Pipeline.RunBodyValid | local/local.cs:196-210 | every task callback keeps the ledger invariant: a produced artifact has at least one path filter and names the task as its producer |
| Pipeline.ProducedOnce | local/local.cs:198-209 | an artifact once recorded is never replaced, even when the callback throws; a callback that completes holds at most one `produceArtifact`, none if the task had already produced; after it completes, the task has an artifact exactly when it had one or the callback produced one |
| Pipeline.ConsumedAppendOnly | local/local.cs:187-194 | the consumed list only grows at its end; a completed callback adds exactly one entry per `consumeArtifact`, duplicates included |
| Pipeline.CommandsInCallOrder | local/local.cs:212-214 | the commands issued are the callback's `sh` commands in call order: all of them when it completes, a prefix when it throws |
| Text.ListingLines | local/local.cs:56-59 | a listing (the stage list, a task's command lines, an artifact's path lines) is exactly one prefixed line per item, in order, repeats kept |
| Text.ListingAppend | local/local.cs:212-214 | listing two batches of items one after the other lists their concatenation, so lines stay in call order |
| Local.MessageNamesTask | local/local.cs:189-192 | the null-artifact message holds the task's name right after a fixed prefix |
| Local.TaskLayout | local/local.cs:176-183 | a task writes `{task}:`, `  stage: {step}`, `  script:`, one `     - {cmd}` line per `sh` in call order, then (if the callback completed) the finalize lines; when no name holds a line break the text splits back into exactly those lines |
| Local.FinalizeTextLines | local/local.cs:243-270 | finalize writes the needs line only when something was consumed, and the `artifacts:`/`paths:` block with one `          - p` line per path only when an artifact was produced |
| Local.NeedsListsProducers | local/local.cs:245-259 | when no producer name contains a comma, the needs line is `  needs: [` + list + `]`, where list splits at commas back into the producers' names in consumption order and holds exactly n - 1 commas |
| Local.AndThenRegistersAgain | local/local.cs:154 | a step callback registers the step's own name once more per `andThen`, and nothing else |
| Local.StagesFromDeclarations | local/local.cs:93-98 | the registered step list is a function of the declarations' shape alone: one entry per `step` plus one per `andThen`, up to a job-level `andThen` |
| Local.TaskContext.constructor | local/local.cs:176-183 | appends the three header lines; empty ledger |
| Local.TaskContext.ConsumeArtifact | local/local.cs:187-194 | null fails with the task's error and changes nothing; otherwise the artifact is appended, the produced artifact untouched |
| Local.TaskContext.ProduceArtifact | local/local.cs:196-210 | an empty filter list fails first, then a second production fails, both leaving the artifact unchanged; otherwise the artifact is (name, exact filter list, this task) and is recorded |
| Local.TaskContext.Sh | local/local.cs:212-214 | appends exactly one `     - {cmd}` line |
| Local.TaskContext.Finalize | local/local.cs:243-270 | appends the needs text and then the artifact text of the recorded ledger |
| Local.TaskContext.WriteNeeds | local/local.cs:245-259 | the `numWritten` loop writes `  needs: [`, the producers separated by commas, `]`, or nothing when nothing was consumed |
| Local.TaskContext.WriteArtifacts | local/local.cs:261-269 | the path loop writes the artifact block, or nothing when no artifact was produced |
| Local.TaskContext.Perform | local/local.cs:133 | one statement of the callback has the effect `Pipeline.Perform` gives on text, ledger and variables |
| Local.TaskContext.Run | local/local.cs:133 | the callback has the effect `Pipeline.RunBody` gives, and the text grows by its commands' lines |
| Local.StepContext.constructor | local/local.cs:110-116 | every construction appends the step name to the job's list |
| Local.StepContext.Task | local/local.cs:123-143 | writes the task's header and commands, plus the finalize lines only if the callback completed; a thrown exception is swallowed |
| Local.StepContext.AndThen | local/local.cs:145-161 | registers the same step name again, then runs exactly one task |
| Local.StepContext.Run | local/local.cs:96 | a step callback registers and writes what `RunStep` says |
| Local.JobContext.constructor | local/local.cs:82-86 | the context holds the job it registers steps with and the writer it writes to |
| Local.JobContext.AndThen | local/local.cs:88-91 | always fails as not implemented |
| Local.JobContext.Step | local/local.cs:93-98 | registers the name, then what the step callback registers; writes what it writes |
| Local.JobContext.Run | local/local.cs:54 | a job callback registers, writes and fails as `RunJob` says |
| Local.Job.constructor | local/local.cs:47-50 | the job holds the outer writer and starts with no registered steps |
| Local.Job.AddStep | local/local.cs:64-67 | appends the name to `steps` |
| Local.Job.Build | local/local.cs:48-62 | on success the outer writer gets `stages:`, the stage list of every step registered during the callback, then the callback's text; on an exception it gets nothing |
| Local.Job.RunCallback | local/local.cs:52-54 | the callback runs against a fresh buffer; the steps it registers are appended and its text is returned |
| Local.Job.WriteJob | local/local.cs:55-61 | appends the job text for the current steps and body |
| Local.Job.WriteStages | local/local.cs:56-59 | the `foreach` appends one ` - s` line per registered step |
| Local.Job.AndThen | local/local.cs:69-74 | the callback writes to the outer writer with no header; its steps are appended after the stage list was written |
| Local.Builder.constructor | local/local.cs:27 | the builder starts with a fresh, empty writer |
| Local.Builder.Job | local/local.cs:31-34 | on success, a fresh job holding the registered steps, with the job text appended; on failure, the error and an unchanged text |
| Local.Builder.ToString | local/local.cs:36-40 | returns the completion message, not the recorded text |
| Azure.MessageOmitsTask | azuredevops/azuredevops.cs:123-126 | the null-artifact message is the same whichever task it was passed to |
| Azure.TaskLayout | azuredevops/azuredevops.cs:111-117 | a task writes `- script: \|`, one `    {cmd}` line per `sh` in call order, then `  displayName: {task}` if the callback completed; when no name holds a line break the text splits back into exactly those lines |
| Azure.JobTextFromTasks | azuredevops/azuredevops.cs:28-37 | a job callback writes exactly what its tasks write, run in declaration order across steps, with the same variables; the grouping into steps and the step names play no part |
| Azure.StepTextFromTasks | azuredevops/azuredevops.cs:68-73 | a step callback writes exactly what its tasks write, in declaration order |
| Azure.RunTasksAppend | azuredevops/azuredevops.cs:96-102 | running two task lists in turn runs their concatenation; an exception stops everything after it |
| Azure.StepNamesNotRendered | azuredevops/azuredevops.cs:35-36 | two jobs declaring the same tasks in the same order render the same text, whatever their steps are called |
| Azure.AndThenRegistersAgain | azuredevops/azuredevops.cs:91-94 | a step callback re-registers the step name once per `andThen` it reaches: a prefix of them if it throws, all of them if it completes |
| Azure.StepsFromDeclarations | azuredevops/azuredevops.cs:83-89 | the registered step list is a prefix of the one the declarations call for, and equals it when the callback completes |
| Azure.StepFailsJob | azuredevops/azuredevops.cs:68-73 | an exception in a step ends the job callback |
| Azure.TaskContext.constructor | azuredevops/azuredevops.cs:111-117 | appends `- script: \|`; empty ledger |
| Azure.TaskContext.ConsumeArtifact | azuredevops/azuredevops.cs:121-128 | null fails and changes nothing; otherwise the artifact is appended and nothing else changes |
| Azure.TaskContext.ProduceArtifact | azuredevops/azuredevops.cs:130-144 | an empty filter list fails before anything is assigned, then a second production fails; otherwise the artifact is (name, exact filter list, this task) and is recorded |
| Azure.TaskContext.Sh | azuredevops/azuredevops.cs:146-149 | appends exactly one `    {cmd}` line |
| Azure.TaskContext.Finalize | azuredevops/azuredevops.cs:156-158 | appends `  displayName: {task}` and nothing about artifacts |
| Azure.TaskContext.Perform | azuredevops/azuredevops.cs:99 | one statement of the callback has the effect `Pipeline.Perform` gives |
| Azure.TaskContext.Run | azuredevops/azuredevops.cs:99 | the callback has the effect `Pipeline.RunBody` gives |
| Azure.StepContext.constructor | azuredevops/azuredevops.cs:83-89 | every construction appends the step name |
| Azure.StepContext.Task | azuredevops/azuredevops.cs:96-102 | writes the task's text; finalize runs only if the callback completed, and the exception propagates |
| Azure.StepContext.AndThen | azuredevops/azuredevops.cs:91-94 | registers the same step name again, then runs exactly one task |
| Azure.StepContext.Run | azuredevops/azuredevops.cs:71 | a step callback registers, writes and fails as `RunStep` says |
| Azure.JobContext.constructor | azuredevops/azuredevops.cs:57-61 | the context holds the job it registers steps with and the writer it writes to |
| Azure.JobContext.AndThen | azuredevops/azuredevops.cs:63-66 | always fails as not implemented |
| Azure.JobContext.Step | azuredevops/azuredevops.cs:68-73 | registers the name, then what the step callback registers; writes what it writes |
| Azure.JobContext.Run | azuredevops/azuredevops.cs:34 | a job callback registers, writes and fails as `RunJob` says |
| Azure.Job.constructor | azuredevops/azuredevops.cs:26-30 | the job holds the outer writer and starts with no registered steps |
| Azure.Job.AddStep | azuredevops/azuredevops.cs:39-42 | appends the name to `steps` |
| Azure.Job.Build | azuredevops/azuredevops.cs:28-37 | on success the outer writer gets `steps:` then the callback's text, and the step list is never written; on an exception it gets nothing |
| Azure.Job.RunCallback | azuredevops/azuredevops.cs:32-34 | the callback runs against a fresh buffer; the steps it registers are appended and its text is returned |
| Azure.Job.WriteJob | azuredevops/azuredevops.cs:35-36 | appends `steps:` and then the callback's text |
| Azure.Job.AndThen | azuredevops/azuredevops.cs:44-49 | the callback writes to the outer writer with no header |
| Azure.Builder.constructor | azuredevops/azuredevops.cs:8 | the builder starts with a fresh, empty writer |
| Azure.Builder.Job | azuredevops/azuredevops.cs:12-15 | on success, a fresh job with the job text appended; on failure, the error and an unchanged text |
| Azure.Builder.ToString | azuredevops/azuredevops.cs:17-20 | returns everything the jobs appended, in call order |
| Gitlab.TaskLayout | gitlab/gitlab.cs:111-122 | a task writes `{task}-Job:`, `  stage: {step}`, `  script:`, then one `     - {cmd}` line per `sh` in call order; when no name holds a line break the text splits back into exactly those lines |
| Gitlab.StepTextAppend | gitlab/gitlab.cs:100-104 | a step callback in two parts writes the first part's text, then the second's |
| Gitlab.AndThenInlines | gitlab/gitlab.cs:94-98 | `andThen` writes nothing of its own: declaring tasks inside it writes what declaring them in its place would |
| Gitlab.FlattenText | gitlab/gitlab.cs:94-98 | however `andThen` callbacks nest, a step writes what its tasks, listed flat in declaration order, write |
| Gitlab.Flatten | gitlab/gitlab.cs:94-98 | the flat list holds only task declarations |
| Gitlab.StepsAreStepNames | gitlab/gitlab.cs:86-92 | the registered steps are the names of the leading `step` declarations, each once, whatever `andThen` calls they hold; the callback throws `NotImplemented` exactly when it declares a job-level `andThen`, and the list stops before the first one |
| Gitlab.TaskContext.constructor | gitlab/gitlab.cs:111-117 | appends the three header lines |
| Gitlab.TaskContext.Sh | gitlab/gitlab.cs:119-122 | appends exactly one `     - {cmd}` line |
| Gitlab.StepContext.constructor | gitlab/gitlab.cs:86-92 | every construction appends the step name |
| Gitlab.StepContext.Task | gitlab/gitlab.cs:100-104 | writes the header, then one line per command in order |
| Gitlab.StepContext.AndThen | gitlab/gitlab.cs:94-98 | runs the callback on the same context: no step is registered, and only the nested tasks' text is written |
| Gitlab.StepContext.Run | gitlab/gitlab.cs:74 | a step callback writes `StepText` and registers nothing |
| Gitlab.JobContext.constructor | gitlab/gitlab.cs:60-64 | the context holds the job it registers steps with and the writer it writes to |
| Gitlab.JobContext.AndThen | gitlab/gitlab.cs:66-69 | always fails as not implemented |
| Gitlab.JobContext.Step | gitlab/gitlab.cs:71-76 | registers the name once, writes the step callback's text |
| Gitlab.JobContext.Run | gitlab/gitlab.cs:32 | a job callback registers, writes and fails as `RunJob` says |
| Gitlab.Job.constructor | gitlab/gitlab.cs:24-28 | the job holds the outer writer and starts with no registered steps |
| Gitlab.Job.AddStep | gitlab/gitlab.cs:42-45 | appends the name to `steps` |
| Gitlab.Job.Build | gitlab/gitlab.cs:26-40 | on success the outer writer gets `stages:`, the stage list of every step registered during the callback, then the callback's text; on an exception it gets nothing |
| Gitlab.Job.RunCallback | gitlab/gitlab.cs:30-32 | the callback runs against a fresh buffer; the steps it registers are appended and its text is returned |
| Gitlab.Job.WriteJob | gitlab/gitlab.cs:33-39 | appends the job text for the current steps and body |
| Gitlab.Job.WriteStages | gitlab/gitlab.cs:34-37 | the `foreach` appends one ` - s` line per registered step |
| Gitlab.Job.AndThen | gitlab/gitlab.cs:47-52 | the callback writes to the outer writer with no header; its steps come after the stage list was written, so no stage list shows them |
| Gitlab.Builder.constructor | gitlab/gitlab.cs:6 | the builder starts with a fresh, empty writer |
| Gitlab.Builder.Job | gitlab/gitlab.cs:10-13 | on success, a fresh job holding the registered steps, with the job text (a function of the declarations alone) appended; on failure, the error and an unchanged text |
| Gitlab.Builder.ToString | gitlab/gitlab.cs:15-18 | returns everything the jobs appended, in call order |

## Left out

- Local concurrency is not modelled: the `ThreadPool` dispatch, the `AutoResetEvent` rendezvous, the finalizer that sets it, and the static `activeTasks` counter with its `tasksDone` wait (local/local.cs:9-24, 108, 118-143). The model runs each dispatched task to completion before the declaring callback goes on. That is one interleaving the thread pool allows. Three kinds of behaviour in the other interleavings are not captured. First, task texts from different workers can mix. Second, text can be copied before the tasks wrote it: the `Job` constructor copies the job buffer to the outer writer (local/local.cs:61) as soon as the callback returns, which can be before queued task bodies (local/local.cs:128-142) have written their lines, and those lines are then lost. Local.Job.Build and Local.Builder.Job promise all task text only under the modelled interleaving. Third, a handle can be read before it is assigned: a task that consumes a variable set by an earlier plain `task` can run first, see null, throw and lose its finalize lines, whereas Local.RunStep always sees the handle.
- Local.StepContext.AndThen: the wait on the previous task's `AutoResetEvent` (local/local.cs:153) is not modelled, and the model always runs the new task to completion. The source blocks forever in three cases the model does not capture: the previous task threw before `evt.Set()`; the context dispatched no task, so its event, created unset (local/local.cs:108), is never signalled; and `andThen` is called a second time on the same context, whose signal the first `WaitOne` already consumed while the new task signals the new context (local/local.cs:153-154). For example `Local.RunStep("S", [AndThen("T", [])], map[]).steps == ["S"]`, where the source hangs.
- Local.Builder.ToString: the wait for all tasks to finish (local/local.cs:38) is not modelled, and the model always returns. The source blocks forever in two cases. If no task was ever dispatched, `tasksDone` is never set, because only a decrement of `activeTasks` to zero sets it (local/local.cs:17-24). A second `ToString` also blocks, because the first `WaitOne` used up the signal.
- Process spawning and console output in the local `sh` (local/local.cs:215-235) are not modelled, nor is the console logging of a swallowed exception (local/local.cs:139). Only the line `sh` writes is kept.
- Callbacks are modelled as straight-line declaration lists on their own context, in which every exception ends the callback. Three things cannot be expressed:
  - a callback that catches the exception of its own `produceArtifact` or `consumeArtifact` and goes on;
  - a callback that calls an enclosing context, such as the step context's `task` inside a task callback;
  - a local `sh` that throws because `Process.Start` of `cmd.exe` fails (local/local.cs:219, 226). That exception would skip the rest of the callback and `finalize`, but the model's `sh` never throws.
- `Artifact.producedBy` is held as the producing task's name. That name is the only attribute of the producing task any backend reads.
- `Artifact.Path` is the filter list's value at production time. Later mutation of the caller's `List<string>`, which the artifact aliases, is not modelled.
- `sh` commands are literal strings in the declarations. A command computed from closure state when the callback runs is not modelled.
- `WriteLine` appends `\n`. The platform's `Environment.NewLine` is not modelled.
- Strings in the contracts that split text back into lines require that no name or command contains a line break. Likewise, splitting the `needs:` list back into producer names (Local.NeedsListsProducers) requires that no producer name contains a comma.
- The job name passed to `job` is written nowhere by any backend, so it is a parameter only.
- Program.cs (example client code) and contracts.cs (interface and delegate declarations) are not part of this model.
