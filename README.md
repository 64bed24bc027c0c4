# AutoClaude workflow orchestration core, in Dafny

This project models the orchestration core of the AutoClaude MCP server
(`AutoClaudeServer` in `server/index.js`) and proves properties about it.
The server stores automation workflows. Each workflow has triggers (cron
schedules, file-system events, one-off dates) and steps (file operations,
shell commands, conditions, loops). The server arms the triggers, queues
the runs they cause, executes the steps in order, and keeps a bounded
history of executions.

What is modelled:

- **The server object.** `Server.AutoClaudeServer` is a class. Its fields
  are the ones the handlers update in place:
  - the workflow map, with the order its keys were inserted in;
  - the last saved snapshot;
  - the `scheduledJobs` and `fileWatchers` registries;
  - the execution history and the execution queue;
  - the `isExecuting` flag.
- **Identifiers.** They are modelled without randomness.
  - Workflow ids are supplied by the caller. A precondition says the id is
    fresh and is 36 characters long, the length of a `uuidv4` id.
  - Execution ids, and the ids of generated triggers and steps, are fresh
    numbers rendered as decimal text from a counter (`serial`).
    `Strings.NatToStringInjective` makes them pairwise distinct.
- **The outside world** is one value of type `Model.Env`:
  - the configuration: `ENABLE_SYSTEM_COMMANDS`, the allowed directories
    (already expanded) and `LOG_RETENTION_DAYS`;
  - `path.resolve` and `cron.validate`, as functions;
  - an oracle that says whether the file operation or command of a given
    step of a given execution succeeds, or what it throws.

  The current time `now` is a parameter of every handler. Timestamps are
  integers.
- **Atomic handlers.** Each handler runs to completion, and each `await` is
  taken as atomic. So a run the queue pump starts has settled before the
  pump counts running executions again. From that, the model proves that
  the `MAX_CONCURRENT_WORKFLOWS` ceiling is never reached while the history
  is settled, and that a drain empties the whole queue. Between handlers
  the `isExecuting` flag is down; the class invariant `Valid` says so.
  - `ProcessQueue` itself is specified for every starting history,
    including one at the ceiling. In that case it changes nothing and the
    head goes back to the front of the queue.
- **The execution record.** `executeWorkflow` mutates its record while
  steps run. The model appends the record as `running` with no steps,
  builds it up in a local variable (`Server.RunSteps`), and writes it back
  in one assignment.
  - The pure function `Runner.ExecutionRecord` is the specification of that
    loop. The lemmas beside it state the step-sequencing rules.
- **Errors, patterns and name words are datatypes.**
  - What a step throws is a `Model.StepError`. `Model.Message` gives the
    `error.message` text.
  - File patterns are `NaturalLanguage.Glob`; `GlobText` gives their text.
  - Workflow-name words are `NaturalLanguage.Word`; `WordText` gives their
    text.
- **Absent JSON fields.** A missing or empty text field is the empty
  string, and a missing optional value is `None`. A missing `type` or
  `operation` is its own variant: `Untyped`, `UntypedTrigger` or
  `Unspecified`.
- **The natural-language parser.** Each regular-expression test on the
  request is a boolean input signal. The model covers what the parser
  does with those signals:
  - the schedule,
  - the operation precedence,
  - the pattern list,
  - the steps,
  - the composed name.

Modules, by file:

- `strings.dfy`: `Strings`, the string operations.
- `sequences.dfy`: `Sequences`, the array operations.
- `model.dfy`: `Model`, the records.
- `path_guard.dfy`: `PathGuard`.
- `validation.dfy`: `Validation`.
- `runner.dfy`: `Runner`.
- `history.dfy`: `History`.
- `triggers.dfy`: `Triggers`.
- `store.dfy`: `Store`.
- `invariants.dfy`: `Invariants`, the store and registry invariants on
  values.
- `nlp.dfy`: `NaturalLanguage`.
- `server.dfy`: `Server`, the class and the queue-drain specification.

## Model

| member | source | states |
|---|---|---|
| Strings.ToLower | server/index.js:779 | `toLowerCase` keeps the length, lowers each ASCII capital and keeps every other character; no capital is left |
| Strings.ContainsAt | server/index.js:782 | `includes(sub)` holds exactly when `sub` occurs at some position |
| Strings.ContainsChar | server/index.js:28 | a one-character substring occurs exactly when the character is in the string |
| Strings.ReplaceAllAbsent | server/index.js:26-28 | a global replace of a pattern that does not occur changes nothing |
| Strings.ReplaceAllAtFront | server/index.js:26-28 | a pattern at the front is replaced, and the scan goes on after the replacement |
| Strings.ReplaceCharRemovesIt | server/index.js:28 | replacing every `c` with a text that holds no `c` leaves no `c` |
| Strings.JoinNonEmpty | server/index.js:301 | joining non-empty parts gives a non-empty text at least as long as the first part |
| Strings.JoinStartsWith | server/index.js:301 | a join starts with its first part |
| Strings.NatToString | server/index.js:518 | a fresh id is a non-empty string of decimal digits |
| Strings.ParseNatToString | server/index.js:518 | reading a fresh id back gives the number it was made from |
| Strings.NatToStringInjective | server/index.js:518 | two fresh ids are equal only when they come from the same number, so fresh ids never collide |
| Sequences.Filter | server/index.js:500 | `filter` returns no more elements than it was given, and every one passes the test |
| Sequences.FilterMembership | server/index.js:369-371 | an element survives `filter` exactly when it was there and passes the test |
| Sequences.FilterAppend | server/index.js:500 | filtering distributes over concatenation |
| Sequences.FilterFullLength | server/index.js:1363-1364 | the filter keeps every element exactly when every element passes |
| Sequences.FilterIsSubsequence | server/index.js:369-371 | `filter` keeps its input's order |
| Sequences.Last | server/index.js:375 | the last `min(n, length)` elements, in order, which is what `slice(-n)` returns for `n > 0` (the sweep keeps the last 1000) |
| Sequences.Reverse | server/index.js:1342 | `reverse` keeps the length and puts element `i` at position `length - 1 - i` |
| PathGuard.ExpandPathPlain | server/index.js:23-29 | `expandPath` returns a path with no `$` and no `~` unchanged |
| PathGuard.ExpandTilde | server/index.js:23-29 | a leading `~` (with no other `$` or `~`) becomes the home directory, and no `~` is left when the home directory holds none |
| PathGuard.UnderSomeDirectoryExists | server/index.js:786-789 | the `some` over allowed directories holds exactly when the normalised path starts with the resolved, lower-cased form of some allowed directory |
| PathGuard.IsPathAllowedSpec | server/index.js:777-790 | a path whose resolved, lower-cased form contains `..` is refused; any other path is allowed exactly when that form starts with the normalised form of some allowed directory |
| PathGuard.CaseInsensitive | server/index.js:778-788 | two paths whose resolved forms differ only in ASCII case get the same verdict |
| PathGuard.EtcPasswdDenied | server/index.js:777-790 | with `/home/u/Desktop` as the only allowed directory, `/etc/passwd` is refused |
| PathGuard.TraversalDenied | server/index.js:777-790 | with `/home/u/Desktop` as the only allowed directory and a resolver that, like `path.resolve`, takes `/home/u/Desktop/../../etc` to `/home/etc`, that path is refused by the prefix test |
| PathGuard.DoubleDotNameDenied | server/index.js:782-784 | the `..` test reads the text, not the segments: `/home/u/Desktop/notes..txt`, which resolves to itself, is refused whatever the allowed directories |
| PathGuard.SiblingPrefixAccepted | server/index.js:786-789 | the test is a string prefix, not a path-segment test: `/home/u/Desktop-private/notes` is accepted under `/home/u/Desktop` |
| Validation.AllTriggerErrorsEmpty | server/index.js:819-835 | the trigger loop reports nothing exactly when every trigger has a type, every schedule trigger's cron (when given) is valid, and every file-event trigger has a path |
| Validation.AllStepErrorsEmpty | server/index.js:838-853 | the step loop reports nothing exactly when every step has a type, and every file operation has an operation and a source unless it creates a directory |
| Validation.ValidateWorkflowEmptyIff | server/index.js:810-856 | `validateWorkflow` returns no error exactly when the workflow has a name and all its triggers and steps pass (both directions) |
| Validation.ValidationIgnoresBookkeeping | server/index.js:810-856 | the verdict does not depend on the `enabled` flag or the update time |
| Runner.EvaluateCondition | server/index.js:767-770 | the placeholder condition evaluator holds for every condition |
| Runner.AccessDeniedBeforeDispatch | server/index.js:602-611 | when the source or the destination fails the guard, the operation throws `Access denied` for the first failing path, whatever the operation is and whatever the file system would do |
| Runner.StepOutcomeShape | server/index.js:558-601 | a step record carries the step's id and declared type, has settled, and has an error exactly when it failed |
| Runner.ExecuteStep | server/index.js:558-601 | `executeStep` returns the step's outcome. Only a condition step with `onFalse: "stop"` can be skipped, and a condition step never fails. A command fails with `System commands are disabled` when commands are off. Loop steps, archive operations and unknown or missing types fail. |
| Runner.FirstHalt | server/index.js:536-541 | finds the first step at or after `k` that failed without `onError: "continue"`; no earlier one does so, and `None` means no such step exists |
| Runner.RecordHeader | server/index.js:518-529 | the execution record has settled and carries the execution id, workflow id, start time and context it was started with |
| Runner.RecordedStepsArePrefix | server/index.js:533-543 | the recorded steps are the outcomes of a prefix of the workflow's steps, in order, each under its step's id |
| Runner.FailsIffSomeStepHalts | server/index.js:533-546 | the execution ends `failed` exactly when some step fails without `onError: "continue"`, and `completed` otherwise; it never stays `running` |
| Runner.FailedRunEndsAtFirstHalt | server/index.js:536-541 | a failed execution ends with the first step that failed without `continue`, and carries that step's error; no earlier step stopped the run |
| Runner.CompletedRunRecordsEveryStep | server/index.js:533-546 | a completed execution records every step's outcome and carries no error |
| Runner.NoStepIsSkipped | server/index.js:577-583 | since the condition evaluator always holds, no recorded step is ever skipped |
| Runner.HaltingFailureStopsTheRun | server/index.js:536-541 | with steps `[A, B]`, where A fails without `continue`, the run fails with A's error and B is never attempted |
| Runner.ContinuedFailureCompletes | server/index.js:533-546 | with steps `[A, B]`, where A fails with `continue` and B succeeds, the run completes and records both |
| Runner.DisabledCommandFailsRun | server/index.js:571-574 | a command step without `continue`, reached while commands are disabled, ends the run `failed` with `System commands are disabled` as its last step |
| History.RunningCountAppendSettled | server/index.js:500 | appending a settled record leaves the running count unchanged |
| History.RunningCountAppendAllSettled | server/index.js:500 | appending settled records leaves the running count unchanged |
| History.SettledHistoryRunsNothing | server/index.js:500-501 | a settled history has no running execution, so it is under the concurrency ceiling |
| History.Sweep | server/index.js:368-376 | after the sweep, at most `MAX_EXECUTION_HISTORY` records are left, every one started after the cutoff, and they are the newest survivors of the date filter |
| History.SweepPreservesOrder | server/index.js:368-376 | the swept history is an order-preserving subsequence of the old one |
| History.SweepKeepsRecent | server/index.js:368-376 | when at most `MAX_EXECUTION_HISTORY` records are recent, a record survives exactly when it was there and is recent |
| History.SweepIdempotent | server/index.js:368-376 | a second sweep with the same cutoff changes nothing |
| History.HistoryQuerySpec | server/index.js:1337-1342 | the corrected query returns `min(limit, matches)` records (none for `limit <= 0`), the newest matching record first |
| History.HistoryQueryMembers | server/index.js:1337-1342 | every record the corrected query returns is from the history, and has the requested workflow id when one is given |
| History.QueryAgreesForPositiveLimit | server/index.js:1342 | for a positive limit, `slice(-limit).reverse()` is the corrected query |
| History.ZeroLimitReturnsEverything | server/index.js:1342 | as written, a limit of 0 returns every matching record |
| History.NegativeLimitDropsOldest | server/index.js:1342 | as written, a negative limit drops the `-limit` oldest records instead of returning none |
| History.ZeroLimitCounterexample | server/index.js:1342 | a history of one record queried with limit 0: the query as written returns one record, the corrected one returns none |
| History.Summary | server/index.js:1357-1366 | a summary reports the record's id, status and error, the number of recorded steps, and a completed count no larger than that number |
| History.SummaryAllCompleted | server/index.js:1363-1364 | `stepsCompleted == totalSteps` exactly when every recorded step completed |
| History.FailedRunSummary | server/index.js:1363-1364 | a failed run never reports all of its recorded steps completed |
| Triggers.ArmOneSpec | server/index.js:441-478 | A trigger that does not arm changes nothing: an invalid cron, `delay <= 0`, a missing date or another type. One that arms registers `workflowId_triggerId` under the workflow, a watcher in `fileWatchers` and anything else in `scheduledJobs`. It uses a fresh id exactly when the trigger has none. |
| Triggers.ArmAllFrame | server/index.js:421-439 | `setupTriggers` never removes a key. It leaves every handle keyed outside `workflowId_` as it was, and every handle it adds or replaces belongs to the workflow and is well-formed. |
| Triggers.ArmAllRegistersEach | server/index.js:421-439 | every trigger that arms is registered when `setupTriggers` is done: under `workflowId_triggerId` when it has an id, and otherwise under the fresh id current when its turn came |
| Triggers.DuplicateIdReplacesHandle | server/index.js:441-448 | two schedule triggers with one id share one key, and the second job replaces the first in `scheduledJobs` |
| Triggers.ArmAllNothing | server/index.js:421-439 | triggers none of which arms leave the registry as it was |
| Triggers.DisarmedDropsOwner | server/index.js:1258-1272 | when every handle is keyed under its owner, none of the handles the `startsWith(workflowId)` removal keeps belongs to that workflow |
| Triggers.DisarmedIsOwnHandles | server/index.js:1258-1272 | when every owner id has the length of the id being disabled, the `startsWith(workflowId)` removal takes exactly that workflow's handles |
| Triggers.DeleteKeysStartingWith | server/index.js:1258-1272 | the clean-up loop deletes exactly the keys that start with the workflow id and keeps every other entry unchanged |
| Triggers.ShorterIdDropsForeignHandle | server/index.js:1259 | the prefix test does not stop at `_`: disabling `ab` also drops a handle of workflow `abc` (ruled out in the server by fixed-length ids) |
| Store.Values | server/index.js:413 | `Array.from(workflows.values())` has one entry per key of the insertion order |
| Invariants.ValuesListsEachOnce | server/index.js:413 | with the store invariant, the saved array holds each stored workflow exactly once, at the position of its key in the insertion order |
| Store.WithoutSpec | server/index.js:1298 | `delete(id)` removes exactly `id` from the key order and keeps the other keys in order |
| Store.WithStatusSpec | server/index.js:1156-1160 | a workflow is listed exactly when it is stored and has the requested status (`all`, `enabled`, anything else meaning disabled), in store order |
| Store.StatusesPartition | server/index.js:1159-1160 | the enabled and the disabled listings together hold every workflow |
| Invariants.InsertFits | server/index.js:1039 | storing a workflow with a fresh id of uuid length keeps the store and registry invariants |
| Invariants.RemoveFits | server/index.js:1298 | removing a workflow none of whose handles is armed keeps both invariants |
| Invariants.DisarmFits | server/index.js:1254-1272 | with ids of one length, the prefix removal takes exactly the workflow's handles, and what is left still fits after the record changes |
| Invariants.DisabledOwnsNothing | server/index.js:1294-1296 | a disabled workflow owns no handle, so nothing is removed for it |
| NaturalLanguage.ClockRoundTrip | server/index.js:140 | every 12-hour reading from 1 to 12, am or pm, becomes an hour below 24, and converts back to the same reading |
| NaturalLanguage.ParseScheduleSpec | server/index.js:131-176 | a trigger is produced exactly for daily, hourly, or weekly with a named day; it is a schedule with a non-empty cron and no id |
| NaturalLanguage.OperationPrecedence | server/index.js:183-187 | copy wins over delete, delete over create-folder, create-folder over archive, and move is the default (both directions for each) |
| NaturalLanguage.PatternsSpec | server/index.js:190-199 | the screenshot patterns come first, then the image patterns, then the document patterns; each group is whole, and duplicates are kept |
| NaturalLanguage.PatternStepsSpec | server/index.js:257-268 | one file operation step per pattern, in order, with pairwise distinct fresh ids |
| NaturalLanguage.ParseFileOperationsSpec | server/index.js:177-280 | Every step uses the chosen operation and the chosen source, and steps follow the patterns in order. With no pattern, only a directory creation yields a step. Step ids are distinct. |
| NaturalLanguage.WorkflowName | server/index.js:281-302 | the composed name is never empty |
| NaturalLanguage.NameStartsWithFirstWord | server/index.js:300-301 | with any word found, the name starts with the first word of timing, actions and targets in that order |
| NaturalLanguage.WorkflowNameSpec | server/index.js:281-301 | the name starts with the first timing word; with no timing word, with the first action; with neither, with the first target; a daily request's name starts with `Daily` |
| NaturalLanguage.NotCustomPrefix | server/index.js:283-297 | no name word is a prefix of `Custom Workflow` |
| NaturalLanguage.WorkflowNameFallback | server/index.js:281-301 | the name is `Custom Workflow` exactly when none of the eleven words is signalled |
| NaturalLanguage.ParsedStepsValid | server/index.js:257-277 | the parsed steps pass step validation when the home-derived directories are non-empty |
| NaturalLanguage.ParsedValidation | server/index.js:1056-1074 | a workflow built from a parse fails validation only for a rejected schedule cron |
| Server.LaunchedSnoc | server/index.js:496-503 | one more drained entry adds one record when its workflow exists and is enabled, and none otherwise |
| Server.LaunchedSpec | server/index.js:489-511 | a drain starts one run per runnable entry, in queue order; the `i`-th record gets the `i`-th fresh id and the drain's time, has settled, and names a runnable workflow |
| Server.LaunchedIdsDistinct | server/index.js:518 | the runs of one drain get pairwise distinct execution ids |
| Server.DrainStep | server/index.js:497-503 | one turn of the pump's loop extends the drained records and keeps the running count |
| Server.RunSteps | server/index.js:533-546 | the step loop turns a fresh `running` record into the workflow's execution record |
| Server.DrainKeepsSettled | server/index.js:489-511 | a drain keeps a settled history settled |
| Server.AutoClaudeServer.constructor | server/index.js:319-325 | the server starts with empty maps, history and queue, and the flag down |
| Server.AutoClaudeServer.SaveWorkflows | server/index.js:411-419 | the snapshot becomes the stored workflows in insertion order |
| Server.AutoClaudeServer.FreshKey | server/index.js:448 | the key is `workflowId_triggerId`, or `workflowId_` plus a fresh id, used up only when the trigger has no id |
| Server.AutoClaudeServer.SetupScheduleTrigger | server/index.js:441-450 | a cron job is registered only when the cron is valid |
| Server.AutoClaudeServer.SetupFileEventTrigger | server/index.js:451-467 | a watcher is always registered |
| Server.AutoClaudeServer.SetupTimeBasedTrigger | server/index.js:469-478 | a timer is registered only when its delay is positive |
| Server.AutoClaudeServer.SetupTriggers | server/index.js:421-439 | the triggers are armed one after another, as `ArmAll` states |
| Server.AutoClaudeServer.ExecuteWorkflow | server/index.js:512-556 | A missing or disabled workflow changes nothing. Otherwise exactly one record is appended, with a fresh id, and it settles as the execution record. |
| Server.AutoClaudeServer.ProcessQueue | server/index.js:489-511 | The flag ends as it started. The pump does nothing while a drain runs, when the queue is empty, or at the ceiling, and at the ceiling the head goes back to the front. Otherwise the queue is drained completely, one run per runnable entry, in order. |
| Server.AutoClaudeServer.EnqueueWorkflow | server/index.js:481-487 | the entry joins the back of the queue and, no drain running between handlers, the pump drains the whole queue, one run per runnable entry, in order; the invariants are kept |
| Server.AutoClaudeServer.FireScheduledJob | server/index.js:443-444 | a cron or timer callback enqueues the owning workflow with the job's context |
| Server.AutoClaudeServer.FireWatcher | server/index.js:458-464 | a watcher callback enqueues the owning workflow with the event and the reported path |
| Server.AutoClaudeServer.SweepHistory | server/index.js:365-378 | the hourly sweep replaces the history by `Sweep` of it at the cutoff and keeps it settled |
| Server.AutoClaudeServer.GetExecutionHistory | server/index.js:1334-1366 | returns the summaries of the corrected query |
| Server.AutoClaudeServer.ListWorkflows | server/index.js:1155-1160 | returns the stored workflows with the requested status, in insertion order |
| Server.AutoClaudeServer.CreateWorkflow | server/index.js:1019-1041 | A workflow with validation errors is refused with them, and nothing changes. A valid one is stored disabled, with no steps, under its fresh id, and saved. |
| Server.AutoClaudeServer.CreateWorkflowFromNlp | server/index.js:1052-1077 | like `createWorkflow`, with the parsed name, description, triggers and steps; the step ids are used up either way |
| Server.AutoClaudeServer.Insert | server/index.js:1034-1040 | validate, then insert at the back of the order and save, or refuse with the errors and change nothing |
| Server.AutoClaudeServer.EnableWorkflow | server/index.js:1201-1234 | A missing workflow is not found. An enabled one changes no state. A disabled one becomes enabled with the new update time, and its triggers are armed and saved. |
| Server.AutoClaudeServer.Arm | server/index.js:1220-1224 | the record is marked enabled and its triggers are armed |
| Server.AutoClaudeServer.DisableWorkflow | server/index.js:1235-1284 | A missing workflow is not found. A disabled one changes no state. An enabled one becomes disabled, exactly the keys that start with its id are removed (which are exactly its own handles), and the change is saved. |
| Server.AutoClaudeServer.Disarm | server/index.js:1254-1274 | the record is marked disabled; the prefix removal takes exactly its handles |
| Server.AutoClaudeServer.UpdateWorkflow | server/index.js:1113-1154 | The record is changed before it is validated. The triggers are re-armed when the workflow is enabled. On failure the store keeps the changed record and the save is skipped, except for the save the re-arming already did. |
| Server.AutoClaudeServer.Revise | server/index.js:1122-1136 | the new steps, the new triggers (disarmed and re-armed for an enabled workflow) and the update time |
| Server.AutoClaudeServer.Forget | server/index.js:1298-1299 | the record leaves the store and the key order, and the store is saved |
| Server.AutoClaudeServer.Put | server/index.js:1220-1221 | a stored record is replaced by one with the same id |
| Server.AutoClaudeServer.Edit | server/index.js:1122-1124 | a field other than the id and the flag is assigned, and the invariants are kept |
| Server.AutoClaudeServer.ReplaceTriggers | server/index.js:1125-1134 | an enabled workflow is disabled, given the new triggers and enabled again; a disabled one just gets the new triggers |
| Server.AutoClaudeServer.DeleteWorkflow | server/index.js:1285-1309 | a missing workflow is not found; otherwise none of its handles survives, every other handle is kept, and it leaves the store and the file |
| Server.AutoClaudeServer.ManualExecuteWorkflow | server/index.js:1310-1333 | a missing workflow, or one without steps, is refused with no change; otherwise it is enqueued with a manual context |

## Left out

- MCP plumbing is not modelled. This covers the `Server` and transport objects, the tool schemas, the request dispatch, and every reply text. Replies are the `Store.Reply` datatype, and a thrown error is one of its variants.
- `executeCommand` (process spawning, output capture, timeouts, `activeProcesses`) is foreign I/O. A command step's outcome comes from the oracle `Env.io`.
- The file-system operations (`moveFiles`, `copyFiles`, `copyDirectory`, `deleteFiles`, `mkdir`, `glob`) are I/O. Their outcome comes from `Env.io`, and the destination-path choice inside `moveFiles` is not modelled.
- `node-cron`, `chokidar` and `setTimeout` are foreign libraries. A handle records its owner and what it fires with. `cron.validate` is the predicate `Env.cronValid`, and the callbacks are the methods `FireScheduledJob` and `FireWatcher`.
- A handle being stopped, closed or cleared when it is removed is not modelled: handles hold no resources here.
- Triggers.ArmOne: a handle already stored under the same key is replaced in the map, while in the source the earlier `cron` job, `chokidar` watcher or timer was already started (lines 447, 452 and 472, before the `set` at 448, 466 and 476). That earlier handle stays live and is never stopped by `disableWorkflow` (lines 1258-1272), so its later firings are not represented. Two triggers with one id in a workflow cause this (`Triggers.DuplicateIdReplacesHandle`).
- Triggers.TriggerKey: the fresh id of an id-less trigger is a rendered counter, so it can coincide with an explicit numeric trigger id such as `"0"`; the source's `uuidv4` ids make such a clash practically impossible.
- `loadWorkflows` and the JSON file are file I/O. `saveWorkflows` writes the abstract `snapshot` field, and a write failure (which the source only logs) is not modelled.
- `logExecution`, `setupDirectories`, `shutdown` and the handlers for process signals are logging and process lifecycle.
- Configuration read from the environment, `parseAllowedDirectories` and the date parsing of `new Date(...)` are not modelled. Configuration values are fields of `Env`, and dates are integers (`TimeBased(None)` stands for an unparseable date).
- `uuidv4` is not modelled as random. Workflow ids are parameters; other ids are rendered counters.
- Each `await` is atomic: interleaving between concurrent callbacks is not modelled. This matters for `enqueueWorkflow`, which in the source does not await `processQueue`.
- The `try`/`catch` branches for exceptions from outside calls are not modelled. These are `executeWorkflow`'s catch-all (lines 547-550) and `setupTriggers`' per-trigger catch. Only a step's thrown error, through `Env.io`, is modelled.
- The regular expressions of `NaturalLanguageParser` are boolean input signals. The folder phrases that choose the destination (lines 211-254) are folded into the input `Request.destination`. `Request.desktopDir` and `Request.downloadsDir` stand for the directories joined from the home directory.
- Schedule descriptions, step descriptions and `basename` are display text and are not modelled.
- Step and execution times (`startTime` of a step, `endTime`, `duration`) are not modelled. The summary's `duration` field therefore has no counterpart.
- One `now` stands for the moment a handler runs. `setupTimeBasedTrigger`'s `new Date()` and `executeWorkflow`'s start time both read it.
- `Strings.ToLower` lowers ASCII letters only; JavaScript's Unicode case mapping is not modelled.
- `expandPath` is modelled with a home directory that is plain text: the `$` patterns that `String.replace` interprets in a replacement text are not modelled.
- `Model.Message`: a quirk of the source's text for a type or operation written as the empty string is not reproduced. Both an absent and an empty `type`/`operation` are the empty name, rendered `undefined`; the source prints an empty string for a present empty one.
- `Runner.ExecuteStep` records the step's declared `type` as `StepTypeName` of its kind. An unknown type keeps its name, and an absent type is the empty string.
- `Server.AutoClaudeServer.GetExecutionHistory` uses the corrected query for `limit <= 0` (see Findings); `History.QueryAsWritten` is the source's behaviour.
- A non-integer `limit` is not modelled: `limit` is an integer.

## Findings

| source | as written | input that shows it | evidently intended | confidence | as-written member | corrected member |
|---|---|---|---|---|---|---|
| server/index.js:1342 | `history.slice(-limit).reverse()`; `-0` is `0`, so `slice(-0)` returns the whole array, and a negative limit drops the oldest records | `get_execution_history` with `limit: 0` on a history of one record returns that record | at most `limit` records, the newest first, and none for `limit <= 0` | not executed | History.ZeroLimitCounterexample | History.HistoryQuerySpec |
