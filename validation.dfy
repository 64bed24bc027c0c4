/** `validateWorkflow`: the list of validation errors of a workflow, in the
    order the source pushes them. */
module Validation {
  import opened Model

  /** The errors one trigger contributes. A schedule trigger with an empty
      cron contributes none: the cron is checked only when present. */
  function TriggerErrors(env: Env, t: Trigger): seq<string> {
    match t.kind
    case UntypedTrigger => ["Trigger type is required"]
    case Schedule(cron) =>
      if cron != "" && !env.cronValid(cron) then ["Invalid cron expression: " + cron] else []
    case FileEvent(path, _) =>
      if path == "" then ["File event trigger requires a path"] else []
    case _ => []
  }

  /** The errors one step contributes. */
  function StepErrors(s: Step): seq<string> {
    match s.kind
    case Untyped => ["Step type is required"]
    case FileOperation(op, source, _, _) =>
      (if op == Unspecified then ["File operation type is required"] else [])
      + (if source == "" && op != CreateDirectory then ["File operation source is required"] else [])
    case _ => []
  }

  function AllTriggerErrors(env: Env, ts: seq<Trigger>): seq<string>
    decreases |ts|
  {
    if ts == [] then [] else TriggerErrors(env, ts[0]) + AllTriggerErrors(env, ts[1..])
  }

  function AllStepErrors(ss: seq<Step>): seq<string>
    decreases |ss|
  {
    if ss == [] then [] else StepErrors(ss[0]) + AllStepErrors(ss[1..])
  }

  /** `validateWorkflow(workflow)` */
  function ValidateWorkflow(env: Env, w: Workflow): seq<string> {
    (if w.name == "" then ["Workflow name is required"] else [])
    + AllTriggerErrors(env, w.triggers)
    + AllStepErrors(w.steps)
  }

  /** What a trigger must satisfy to pass validation. */
  predicate TriggerOk(env: Env, t: Trigger) {
    && !t.kind.UntypedTrigger?
    && (t.kind.Schedule? && t.kind.cron != "" ==> env.cronValid(t.kind.cron))
    && (t.kind.FileEvent? ==> t.kind.path != "")
  }

  /** What a step must satisfy to pass validation. */
  predicate StepOk(s: Step) {
    && !s.kind.Untyped?
    && (s.kind.FileOperation? ==>
          s.kind.operation != Unspecified
          && (s.kind.source != "" || s.kind.operation == CreateDirectory))
  }

  lemma {:induction false} AllTriggerErrorsEmpty(env: Env, ts: seq<Trigger>)
    ensures AllTriggerErrors(env, ts) == [] <==> forall i :: 0 <= i < |ts| ==> TriggerOk(env, ts[i])
    decreases |ts|
  {
    if ts != [] {
      AllTriggerErrorsEmpty(env, ts[1..]);
      assert forall i :: 1 <= i < |ts| ==> ts[i] == ts[1..][i - 1];
    }
  }

  lemma {:induction false} AllStepErrorsEmpty(ss: seq<Step>)
    ensures AllStepErrors(ss) == [] <==> forall i :: 0 <= i < |ss| ==> StepOk(ss[i])
    decreases |ss|
  {
    if ss != [] {
      AllStepErrorsEmpty(ss[1..]);
      assert forall i :: 1 <= i < |ss| ==> ss[i] == ss[1..][i - 1];
    }
  }

  /** A workflow passes validation exactly when it has a name, every trigger
      has a type, every schedule trigger's cron (when given) is valid, every
      file-event trigger has a path, every step has a type, and every file
      operation names its operation and has a source unless it creates a
      directory. */
  lemma ValidateWorkflowEmptyIff(env: Env, w: Workflow)
    ensures ValidateWorkflow(env, w) == [] <==>
              && w.name != ""
              && (forall i :: 0 <= i < |w.triggers| ==> TriggerOk(env, w.triggers[i]))
              && (forall i :: 0 <= i < |w.steps| ==> StepOk(w.steps[i]))
  {
    AllTriggerErrorsEmpty(env, w.triggers);
    AllStepErrorsEmpty(w.steps);
  }

  /** Validation looks at the name, triggers and steps only: the flag, the
      description and the timestamps do not change the verdict. */
  lemma ValidationIgnoresBookkeeping(env: Env, w: Workflow, enabled: bool, updatedAt: int)
    ensures ValidateWorkflow(env, w.(enabled := enabled, updatedAt := updatedAt)) == ValidateWorkflow(env, w)
  {
  }
}
