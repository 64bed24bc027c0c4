/** The step state machine (`executeStep`, `executeFileOperation`,
    `evaluateCondition`) and the execution record `executeWorkflow` builds
    from a workflow's steps. The method that runs the loop in place is
    `AutoClaudeServer.ExecuteWorkflow`; `ExecutionRecord` is its
    specification. */
module Runner {
  import opened Strings
  import opened Model
  import opened PathGuard

  /** `evaluateCondition`: a placeholder that holds for every condition. */
  function EvaluateCondition(condition: string, context: Context): (holds: bool)
    ensures holds
  {
    true
  }

  /** `executeFileOperation`: the source, then the destination (each when
      given) must pass the path guard before anything is dispatched; archive
      and unknown operations throw; the others are handed to the file system. */
  function FileOperationOutcome(env: Env, op: FileOp, source: string, destination: string,
                                executionId: string, index: nat): IoResult
  {
    if source != "" && !IsPathAllowed(env, source) then Throws(AccessDenied(source))
    else if destination != "" && !IsPathAllowed(env, destination) then Throws(AccessDenied(destination))
    else match op
      case Archive => Throws(ArchiveNotImplemented)
      case Unspecified => Throws(UnknownOperation(""))
      case OtherOp(name) => Throws(UnknownOperation(name))
      case _ => env.io(executionId, index)
  }

  /** A path that fails the guard makes the step throw "Access denied"
      whatever the operation is and whatever the file system would do: the
      check happens before any operation is dispatched. */
  lemma AccessDeniedBeforeDispatch(env: Env, op: FileOp, op': FileOp, source: string, destination: string,
                                   io': (string, nat) -> IoResult, executionId: string, index: nat)
    requires (source != "" && !IsPathAllowed(env, source))
             || (destination != "" && !IsPathAllowed(env, destination))
    ensures FileOperationOutcome(env, op, source, destination, executionId, index).Throws?
    ensures FileOperationOutcome(env, op, source, destination, executionId, index)
            == FileOperationOutcome(env.(io := io'), op', source, destination, executionId, index)
    ensures FileOperationOutcome(env, op, source, destination, executionId, index).error
            == if source != "" && !IsPathAllowed(env, source) then AccessDenied(source) else AccessDenied(destination)
  {
  }

  /** The record a step's outcome settles into. */
  function Settle(stepId: string, stepType: string, outcome: IoResult): StepExecution {
    match outcome
    case Done => StepExecution(stepId, stepType, StepCompleted, None)
    case Throws(m) => StepExecution(stepId, stepType, StepFailed, Some(m))
  }

  /** The step record `executeStep` returns for `step`, run as step `index`
      of execution `executionId`. */
  function StepOutcome(env: Env, step: Step, context: Context, executionId: string, index: nat): StepExecution {
    var id, ty := step.id, StepTypeName(step.kind);
    match step.kind
    case FileOperation(op, source, destination, _) =>
      Settle(id, ty, FileOperationOutcome(env, op, source, destination, executionId, index))
    case Command(_, _) =>
      Settle(id, ty, if !env.commandsEnabled then Throws(CommandsDisabled) else env.io(executionId, index))
    case Condition(condition, stopOnFalse) =>
      if !EvaluateCondition(condition, context) && stopOnFalse
      then StepExecution(id, ty, StepSkipped, None)
      else Settle(id, ty, Done)
    case Loop => Settle(id, ty, Throws(LoopNotImplemented))
    case Untyped => Settle(id, ty, Throws(UnknownStepType("")))
    case UnknownStep(name) => Settle(id, ty, Throws(UnknownStepType(name)))
  }

  /** A step's record carries the step's id and declared type, has settled,
      and has an error exactly when it failed. */
  lemma StepOutcomeShape(env: Env, step: Step, context: Context, executionId: string, index: nat)
    ensures var out := StepOutcome(env, step, context, executionId, index);
            && out.stepId == step.id && out.stepType == StepTypeName(step.kind)
            && out.status != StepRunning
            && (out.status == StepFailed <==> out.error.Some?)
  {
  }

  /** `executeStep`: starts a `running` record for the step, dispatches on
      the step type and settles the record as `completed`, `failed` with the
      thrown message, or (for a false condition with `onFalse: "stop"`)
      `skipped`. */
  method ExecuteStep(env: Env, step: Step, context: Context, executionId: string, index: nat)
    returns (stepExecution: StepExecution)
    ensures stepExecution == StepOutcome(env, step, context, executionId, index)
    ensures stepExecution.stepId == step.id && stepExecution.stepType == StepTypeName(step.kind)
    ensures stepExecution.status != StepRunning
    ensures stepExecution.status == StepFailed <==> stepExecution.error.Some?
    ensures stepExecution.status == StepSkipped ==> step.kind.Condition? && step.kind.stopOnFalse
    ensures step.kind.Command? && !env.commandsEnabled ==>
              stepExecution.status == StepFailed && stepExecution.error == Some(CommandsDisabled)
    ensures step.kind.Loop? ==> stepExecution.error == Some(LoopNotImplemented)
    ensures step.kind.Untyped? || step.kind.UnknownStep? ==> stepExecution.status == StepFailed
    ensures step.kind.FileOperation? && step.kind.operation == Archive ==> stepExecution.status == StepFailed
    ensures step.kind.Condition? ==> stepExecution.status != StepFailed
  {
    stepExecution := StepExecution(step.id, StepTypeName(step.kind), StepRunning, None);
    var outcome := Done;
    var skipped := false;
    match step.kind {
      case FileOperation(op, source, destination, _) =>
        outcome := FileOperationOutcome(env, op, source, destination, executionId, index);
      case Command(_, _) =>
        if !env.commandsEnabled {
          outcome := Throws(CommandsDisabled);
        } else {
          outcome := env.io(executionId, index);
        }
      case Condition(condition, stopOnFalse) =>
        var conditionResult := EvaluateCondition(condition, context);
        skipped := !conditionResult && stopOnFalse;
      case Loop =>
        outcome := Throws(LoopNotImplemented);
      case Untyped =>
        outcome := Throws(UnknownStepType(""));
      case UnknownStep(name) =>
        outcome := Throws(UnknownStepType(name));
    }
    if skipped {
      stepExecution := stepExecution.(status := StepSkipped);
    } else if outcome.Throws? {
      stepExecution := stepExecution.(status := StepFailed, error := Some(outcome.error));
    } else {
      stepExecution := stepExecution.(status := StepCompleted);
    }
  }

  /** The outcome every step of `steps` has when run in execution `executionId`. */
  function StepOutcomes(env: Env, steps: seq<Step>, context: Context, executionId: string): (outs: seq<StepExecution>)
    ensures |outs| == |steps|
    ensures forall i :: 0 <= i < |steps| ==> outs[i] == StepOutcome(env, steps[i], context, executionId, i)
  {
    seq(|steps|, i requires 0 <= i < |steps| => StepOutcome(env, steps[i], context, executionId, i))
  }

  /** Step `i` stops the workflow: it failed and its `onError` is not `"continue"`. */
  predicate Halts(steps: seq<Step>, outs: seq<StepExecution>, i: int)
    requires |outs| == |steps|
  {
    0 <= i < |steps| && outs[i].status == StepFailed && !steps[i].continueOnError
  }

  /** The first step at or after `k` that stops the workflow, if any. */
  function FirstHalt(steps: seq<Step>, outs: seq<StepExecution>, k: nat): (r: Option<nat>)
    requires |outs| == |steps| && k <= |steps|
    ensures r.Some? ==> k <= r.value < |steps| && Halts(steps, outs, r.value)
    ensures r.Some? ==> forall j :: k <= j < r.value ==> !Halts(steps, outs, j)
    ensures r.None? ==> forall j :: k <= j < |steps| ==> !Halts(steps, outs, j)
    decreases |steps| - k
  {
    if k == |steps| then None
    else if Halts(steps, outs, k) then Some(k)
    else FirstHalt(steps, outs, k + 1)
  }

  /** The record `executeWorkflow` leaves in the history for workflow `wf`
      (stored under `workflowId`), started at `startTime`: the steps up to and
      including the first one that stops the workflow, or all of them. */
  function ExecutionRecord(env: Env, wf: Workflow, workflowId: string, executionId: string,
                           startTime: int, context: Context): Execution
  {
    var outs := StepOutcomes(env, wf.steps, context, executionId);
    match FirstHalt(wf.steps, outs, 0)
    case Some(i) => Execution(executionId, workflowId, wf.name, startTime, context, outs[..i + 1], Failed, outs[i].error)
    case None => Execution(executionId, workflowId, wf.name, startTime, context, outs, Completed, None)
  }

  /** A record has settled and carries the identity and start data it was
      given. */
  lemma RecordHeader(env: Env, wf: Workflow, workflowId: string, executionId: string,
                     startTime: int, context: Context)
    ensures var rec := ExecutionRecord(env, wf, workflowId, executionId, startTime, context);
            && rec.status != Running
            && rec.id == executionId && rec.workflowId == workflowId
            && rec.startTime == startTime && rec.context == context
  {
  }

  /** The recorded steps are the outcomes of a prefix of the workflow's
      steps, in the workflow's order, and the record carries the workflow's
      identity and the start data it was given. */
  lemma RecordedStepsArePrefix(env: Env, wf: Workflow, workflowId: string, executionId: string,
                               startTime: int, context: Context)
    ensures var rec := ExecutionRecord(env, wf, workflowId, executionId, startTime, context);
            var outs := StepOutcomes(env, wf.steps, context, executionId);
            && |rec.steps| <= |wf.steps|
            && rec.steps == outs[..|rec.steps|]
            && (forall i :: 0 <= i < |rec.steps| ==> rec.steps[i].stepId == wf.steps[i].id)
            && rec.id == executionId && rec.workflowId == workflowId && rec.workflowName == wf.name
            && rec.startTime == startTime && rec.context == context
  {
    var outs := StepOutcomes(env, wf.steps, context, executionId);
    var rec := ExecutionRecord(env, wf, workflowId, executionId, startTime, context);
    var r := FirstHalt(wf.steps, outs, 0);
    var n := if r.Some? then r.value + 1 else |outs|;
    assert rec.steps == outs[..n];
    forall i | 0 <= i < n
      ensures rec.steps[i].stepId == wf.steps[i].id
    {
      assert rec.steps[i] == outs[i] == StepOutcome(env, wf.steps[i], context, executionId, i);
      StepOutcomeShape(env, wf.steps[i], context, executionId, i);
    }
  }

  /** The execution ends `failed` exactly when some step fails without
      `onError: "continue"`, and `completed` otherwise; it never stays
      `running`. */
  lemma {:induction false} FailsIffSomeStepHalts(env: Env, wf: Workflow, workflowId: string, executionId: string,
                                                 startTime: int, context: Context)
    ensures var rec := ExecutionRecord(env, wf, workflowId, executionId, startTime, context);
            var outs := StepOutcomes(env, wf.steps, context, executionId);
            && rec.status != Running
            && (rec.status == Failed <==> exists i :: Halts(wf.steps, outs, i))
  {
    var outs := StepOutcomes(env, wf.steps, context, executionId);
    var r := FirstHalt(wf.steps, outs, 0);
    if r.Some? {
      assert Halts(wf.steps, outs, r.value);
    }
  }

  /** A failed execution ends with the first step that failed without
      `onError: "continue"`, and carries that step's error; no step before it
      stopped the run. */
  lemma {:induction false} FailedRunEndsAtFirstHalt(env: Env, wf: Workflow, workflowId: string, executionId: string,
                                                    startTime: int, context: Context)
    ensures var rec := ExecutionRecord(env, wf, workflowId, executionId, startTime, context);
            var outs := StepOutcomes(env, wf.steps, context, executionId);
            rec.status == Failed ==>
              && 0 < |rec.steps| <= |wf.steps|
              && Halts(wf.steps, outs, |rec.steps| - 1)
              && rec.error == rec.steps[|rec.steps| - 1].error
              && rec.error.Some?
              && forall j :: 0 <= j < |rec.steps| - 1 ==> !Halts(wf.steps, outs, j)
  {
    var outs := StepOutcomes(env, wf.steps, context, executionId);
    var rec := ExecutionRecord(env, wf, workflowId, executionId, startTime, context);
    var r := FirstHalt(wf.steps, outs, 0);
    if r.Some? {
      var i := r.value;
      assert rec.steps == outs[..i + 1] && rec.error == outs[i].error;
      assert |rec.steps| == i + 1;
      assert Halts(wf.steps, outs, i) && forall j :: 0 <= j < i ==> !Halts(wf.steps, outs, j);
      assert rec.steps[i] == outs[i] == StepOutcome(env, wf.steps[i], context, executionId, i);
      StepOutcomeShape(env, wf.steps[i], context, executionId, i);
    } else {
      assert rec.status == Completed;
    }
  }

  /** A completed execution records every step, none of which stopped the run,
      and carries no error. */
  lemma {:induction false} CompletedRunRecordsEveryStep(env: Env, wf: Workflow, workflowId: string, executionId: string,
                                                        startTime: int, context: Context)
    ensures var rec := ExecutionRecord(env, wf, workflowId, executionId, startTime, context);
            var outs := StepOutcomes(env, wf.steps, context, executionId);
            rec.status == Completed ==>
              && rec.steps == outs
              && rec.error == None
              && forall j :: 0 <= j < |wf.steps| ==> !Halts(wf.steps, outs, j)
  {
  }

  /** With every condition evaluating to true, no step is ever recorded as
      skipped. */
  lemma NoStepIsSkipped(env: Env, wf: Workflow, workflowId: string, executionId: string,
                        startTime: int, context: Context)
    ensures var rec := ExecutionRecord(env, wf, workflowId, executionId, startTime, context);
            forall i :: 0 <= i < |rec.steps| ==> rec.steps[i].status != StepSkipped
  {
    RecordedStepsArePrefix(env, wf, workflowId, executionId, startTime, context);
  }

  /** Steps `[A, B]` where A fails without `onError: "continue"`: the
      execution fails with A's error and B is never attempted. */
  lemma HaltingFailureStopsTheRun(env: Env, wf: Workflow, workflowId: string, executionId: string,
                                  startTime: int, context: Context)
    requires |wf.steps| == 2 && !wf.steps[0].continueOnError
    requires StepOutcome(env, wf.steps[0], context, executionId, 0).status == StepFailed
    ensures var rec := ExecutionRecord(env, wf, workflowId, executionId, startTime, context);
            && rec.status == Failed
            && rec.steps == [StepOutcome(env, wf.steps[0], context, executionId, 0)]
            && rec.error == StepOutcome(env, wf.steps[0], context, executionId, 0).error
  {
    var outs := StepOutcomes(env, wf.steps, context, executionId);
    assert Halts(wf.steps, outs, 0);
    assert FirstHalt(wf.steps, outs, 0) == Some(0);
  }

  /** Steps `[A, B]` where A fails with `onError: "continue"` and B succeeds:
      the execution completes and records both. */
  lemma ContinuedFailureCompletes(env: Env, wf: Workflow, workflowId: string, executionId: string,
                                  startTime: int, context: Context)
    requires |wf.steps| == 2 && wf.steps[0].continueOnError
    requires StepOutcome(env, wf.steps[0], context, executionId, 0).status == StepFailed
    requires StepOutcome(env, wf.steps[1], context, executionId, 1).status == StepCompleted
    ensures var rec := ExecutionRecord(env, wf, workflowId, executionId, startTime, context);
            && rec.status == Completed
            && |rec.steps| == 2
            && rec.steps[0].status == StepFailed
            && rec.steps[1].status == StepCompleted
  {
    var outs := StepOutcomes(env, wf.steps, context, executionId);
    assert !Halts(wf.steps, outs, 0) && !Halts(wf.steps, outs, 1);
    assert FirstHalt(wf.steps, outs, 0) == None;
  }

  /** A command step without `onError: "continue"`, with system commands
      disabled and no earlier step stopping the run, makes the execution fail
      with "System commands are disabled". */
  lemma DisabledCommandFailsRun(env: Env, wf: Workflow, workflowId: string, executionId: string,
                                startTime: int, context: Context, k: nat)
    requires !env.commandsEnabled
    requires k < |wf.steps| && wf.steps[k].kind.Command? && !wf.steps[k].continueOnError
    requires forall j :: 0 <= j < k ==> !Halts(wf.steps, StepOutcomes(env, wf.steps, context, executionId), j)
    ensures var rec := ExecutionRecord(env, wf, workflowId, executionId, startTime, context);
            && rec.status == Failed
            && |rec.steps| == k + 1
            && rec.error == Some(CommandsDisabled)
  {
    var outs := StepOutcomes(env, wf.steps, context, executionId);
    assert Halts(wf.steps, outs, k);
    var r := FirstHalt(wf.steps, outs, 0);
    assert r == Some(k);
  }
}
