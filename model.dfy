/** The records the orchestration core works on: workflows with their triggers
    and steps, execution records, queue entries, and the configuration and
    outside world the core consults (`Env`).

    A JSON field that is absent (or falsy) is the empty string for text
    fields, `None` for optional values, and a dedicated variant for the type
    tags (`Untyped`, `Unspecified`). */
module Model {

  /** `CONFIG.MAX_EXECUTION_HISTORY` */
  const MaxExecutionHistory: nat := 1000
  /** `CONFIG.MAX_CONCURRENT_WORKFLOWS` */
  const MaxConcurrentWorkflows: nat := 10
  /** Milliseconds in a day: `24 * 60 * 60 * 1000`. */
  const DayMs: int := 86400000

  /** A trigger's declarative kind (`trigger.type` and the fields it uses). */
  datatype TriggerKind =
    | Schedule(cron: string)
    | FileEvent(path: string, event: string)
    /** `datetime` in milliseconds since the epoch; `None` when it does not parse as a date. */
    | TimeBased(datetime: Option<int>)
    /** `trigger.type` absent or empty. */
    | UntypedTrigger
    /** Any other non-empty `trigger.type`. */
    | OtherTrigger(typeName: string)

  /** A trigger; an empty `id` means the trigger carries no id. */
  datatype Trigger = Trigger(id: string, kind: TriggerKind)

  /** `step.operation` of a file operation step. */
  datatype FileOp =
    | Move | Copy | Delete | CreateDirectory | Archive
    /** `operation` absent or empty. */
    | Unspecified
    /** Any other non-empty operation name. */
    | OtherOp(name: string)

  /** A step's kind (`step.type` and the fields it uses). */
  datatype StepKind =
    | FileOperation(operation: FileOp, source: string, destination: string, pattern: string)
    | Command(command: string, args: seq<string>)
    /** `stopOnFalse` is `step.onFalse === "stop"`. */
    | Condition(condition: string, stopOnFalse: bool)
    | Loop
    /** `step.type` absent or empty. */
    | Untyped
    /** Any other non-empty `step.type`. */
    | UnknownStep(typeName: string)

  /** A step; `continueOnError` is `step.onError === "continue"`. */
  datatype Step = Step(id: string, kind: StepKind, continueOnError: bool)

  /** A workflow record; times are integer timestamps. */
  datatype Workflow = Workflow(
    id: string,
    name: string,
    description: string,
    triggers: seq<Trigger>,
    steps: seq<Step>,
    enabled: bool,
    createdAt: int,
    updatedAt: int)

  /** The `context` an execution is started with. */
  datatype Context =
    | Manual
    | ScheduleFired(cron: string)
    | FileEventFired(event: string, path: string)
    | DeadlineReached(datetime: int)

  datatype StepStatus = StepRunning | StepCompleted | StepFailed | StepSkipped

  datatype Status = Running | Completed | Failed

  /** `stepExecution`; step times and durations are not modelled. */
  datatype StepExecution = StepExecution(
    stepId: string,
    stepType: string,
    status: StepStatus,
    error: Option<StepError>)

  /** `execution`; `endTime` and `duration` are not modelled. */
  datatype Execution = Execution(
    id: string,
    workflowId: string,
    workflowName: string,
    startTime: int,
    context: Context,
    steps: seq<StepExecution>,
    status: Status,
    error: Option<StepError>)

  /** An entry of `executionQueue`. */
  datatype QueueEntry = QueueEntry(workflowId: string, context: Context)

  /** What a step throws; `Message` renders the `error.message` text. */
  datatype StepError =
    | CommandsDisabled
    | LoopNotImplemented
    | ArchiveNotImplemented
    | AccessDenied(path: string)
    /** `operation` absent (the empty name) or not one the server knows. */
    | UnknownOperation(operation: string)
    /** `type` absent (the empty name) or not one the server knows. */
    | UnknownStepType(typeName: string)
    /** A message thrown by the file system or the spawned process. */
    | External(message: string)

  /** The text of `error.message`; an absent name prints as `undefined`. */
  function Message(e: StepError): string {
    match e
    case CommandsDisabled => "System commands are disabled"
    case LoopNotImplemented => "Loop functionality not yet implemented"
    case ArchiveNotImplemented => "Archive functionality not yet implemented"
    case AccessDenied(path) => "Access denied to path: " + path
    case UnknownOperation(op) => "Unknown file operation: " + (if op == "" then "undefined" else op)
    case UnknownStepType(ty) => "Unknown step type: " + (if ty == "" then "undefined" else ty)
    case External(message) => message
  }

  /** The outcome of an operation the core hands to the outside world: a file
      operation or an external command either succeeds or throws. */
  datatype IoResult = Done | Throws(error: StepError)

  /** The configuration and the outside world.
      - `commandsEnabled`: `CONFIG.ENABLE_SYSTEM_COMMANDS`;
      - `allowedDirectories`: `CONFIG.ALLOWED_DIRECTORIES`, already expanded;
      - `resolve`: `path.resolve`, an abstract normaliser to an absolute path;
      - `cronValid`: `cron.validate`;
      - `io(executionId, index)`: what the file system or the spawned process
        does for step `index` of execution `executionId`;
      - `retentionDays`: `CONFIG.LOG_RETENTION_DAYS`. */
  datatype Env = Env(
    commandsEnabled: bool,
    allowedDirectories: seq<string>,
    resolve: string -> string,
    cronValid: string -> bool,
    io: (string, nat) -> IoResult,
    retentionDays: int)

  datatype Option<T> = None | Some(value: T)

  /** The `type` string a step was declared with, as recorded in `stepType`. */
  function StepTypeName(k: StepKind): string {
    match k
    case FileOperation(_, _, _, _) => "file_operation"
    case Command(_, _) => "command"
    case Condition(_, _) => "condition"
    case Loop => "loop"
    case Untyped => ""
    case UnknownStep(name) => name
  }
}
