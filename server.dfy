/** `AutoClaudeServer`: the workflow store, the trigger registry, the
    execution queue with its pump, and the execution history, with the
    handlers that change them. Every handler runs to completion before the
    next one starts (each `await` is taken as atomic), so a run started by the
    pump has settled before the pump looks at the history again. */
module Server {
  import opened Strings
  import opened Model
  import opened Sequences
  import opened Validation
  import opened Runner
  import opened History
  import opened Triggers
  import opened Store
  import opened NaturalLanguage
  import opened Invariants

  /** `executeWorkflow` does something for this entry: its workflow exists
      and is enabled. */
  predicate Runnable(workflows: map<string, Workflow>, e: QueueEntry) {
    e.workflowId in workflows && workflows[e.workflowId].enabled
  }

  /** How many of `entries` start a run. */
  function Runs(workflows: map<string, Workflow>, entries: seq<QueueEntry>): nat
    decreases |entries|
  {
    if entries == [] then 0
    else Runs(workflows, entries[..|entries| - 1]) + (if Runnable(workflows, entries[|entries| - 1]) then 1 else 0)
  }

  /** The records the pump appends to the history while draining `entries`
      in order; execution ids are fresh ids rendered from `serial` onwards. */
  function Launched(env: Env, workflows: map<string, Workflow>, entries: seq<QueueEntry>,
                    serial: nat, now: int): seq<Execution>
    decreases |entries|
  {
    if entries == [] then []
    else
      var init, e := entries[..|entries| - 1], entries[|entries| - 1];
      Launched(env, workflows, init, serial, now)
      + if Runnable(workflows, e)
        then [ExecutionRecord(env, workflows[e.workflowId], e.workflowId, NatToString(serial + Runs(workflows, init)), now, e.context)]
        else []
  }

  /** One more entry drained: one more record when it is runnable, none otherwise. */
  lemma LaunchedSnoc(env: Env, workflows: map<string, Workflow>, entries: seq<QueueEntry>, e: QueueEntry,
                     serial: nat, now: int)
    ensures Runs(workflows, entries + [e]) == Runs(workflows, entries) + (if Runnable(workflows, e) then 1 else 0)
    ensures Launched(env, workflows, entries + [e], serial, now)
            == Launched(env, workflows, entries, serial, now)
               + if Runnable(workflows, e)
                 then [ExecutionRecord(env, workflows[e.workflowId], e.workflowId,
                                       NatToString(serial + Runs(workflows, entries)), now, e.context)]
                 else []
  {
    assert (entries + [e])[..|entries|] == entries;
  }

  /** Draining the queue starts one run per runnable entry, in queue order: the
      `i`-th record gets the `i`-th fresh id, carries a runnable workflow and
      the time of the drain, and has settled. */
  lemma {:induction false} LaunchedSpec(env: Env, workflows: map<string, Workflow>, entries: seq<QueueEntry>,
                                        serial: nat, now: int)
    ensures var l := Launched(env, workflows, entries, serial, now);
            && |l| == Runs(workflows, entries) <= |entries|
            && forall i :: 0 <= i < |l| ==>
                 && l[i].status != Running
                 && l[i].id == NatToString(serial + i)
                 && l[i].startTime == now
                 && Runnable(workflows, QueueEntry(l[i].workflowId, l[i].context))
    decreases |entries|
  {
    if entries != [] {
      var init, e := entries[..|entries| - 1], entries[|entries| - 1];
      LaunchedSpec(env, workflows, init, serial, now);
      if Runnable(workflows, e) {
        var id := NatToString(serial + Runs(workflows, init));
        var l0 := Launched(env, workflows, init, serial, now);
        var rec := ExecutionRecord(env, workflows[e.workflowId], e.workflowId, id, now, e.context);
        RecordHeader(env, workflows[e.workflowId], e.workflowId, id, now, e.context);
        assert Launched(env, workflows, entries, serial, now) == l0 + [rec];
        forall i | 0 <= i < |l0| + 1
          ensures (l0 + [rec])[i] == if i < |l0| then l0[i] else rec
        {
        }
      }
    }
  }

  /** The runs of one drain get pairwise distinct execution ids. */
  lemma LaunchedIdsDistinct(env: Env, workflows: map<string, Workflow>, entries: seq<QueueEntry>,
                            serial: nat, now: int)
    ensures var l := Launched(env, workflows, entries, serial, now);
            forall i, j :: 0 <= i < j < |l| ==> l[i].id != l[j].id
  {
    var l := Launched(env, workflows, entries, serial, now);
    LaunchedSpec(env, workflows, entries, serial, now);
    forall i, j | 0 <= i < j < |l|
      ensures l[i].id != l[j].id
    {
      if l[i].id == l[j].id {
        NatToStringInjective(serial + i, serial + j);
      }
    }
  }

  /** One turn of the pump's loop: the entry's run (if any) extends the
      drained records by one and keeps the running count. */
  lemma DrainStep(env: Env, workflows: map<string, Workflow>, h0: seq<Execution>, processed: seq<QueueEntry>,
                  entry: QueueEntry, s0: nat, now: int,
                  before: seq<Execution>, serialBefore: nat, after: seq<Execution>, serialAfter: nat)
    requires before == h0 + Launched(env, workflows, processed, s0, now)
    requires serialBefore == s0 + Runs(workflows, processed)
    requires RunningCount(before) == RunningCount(h0)
    requires !Runnable(workflows, entry) ==> after == before && serialAfter == serialBefore
    requires Runnable(workflows, entry) ==>
               && after == before + [ExecutionRecord(env, workflows[entry.workflowId], entry.workflowId,
                                                    NatToString(serialBefore), now, entry.context)]
               && serialAfter == serialBefore + 1
    ensures after == h0 + Launched(env, workflows, processed + [entry], s0, now)
    ensures serialAfter == s0 + Runs(workflows, processed + [entry])
    ensures RunningCount(after) == RunningCount(h0)
  {
    LaunchedSnoc(env, workflows, processed, entry, s0, now);
    if Runnable(workflows, entry) {
      var rec := ExecutionRecord(env, workflows[entry.workflowId], entry.workflowId,
                                 NatToString(serialBefore), now, entry.context);
      RecordHeader(env, workflows[entry.workflowId], entry.workflowId,
                   NatToString(serialBefore), now, entry.context);
      RunningCountAppendSettled(before, rec);
    }
  }

  /** The step loop of `executeWorkflow` on the record `start` (appended as
      `running` with no steps): each step's outcome is pushed onto the
      record; the first failing step without `continueOnError` marks the run
      failed with that step's error and stops it; a run no step stops is
      marked completed. The result is the execution record of the workflow. */
  method RunSteps(env: Env, workflow: Workflow, start: Execution) returns (execution: Execution)
    requires start.workflowName == workflow.name && start.steps == [] && start.status == Running && start.error == None
    ensures execution == ExecutionRecord(env, workflow, start.workflowId, start.id, start.startTime, start.context)
  {
    execution := start;
    ghost var outs := StepOutcomes(env, workflow.steps, start.context, start.id);
    var i := 0;
    while i < |workflow.steps|
      invariant 0 <= i <= |workflow.steps|
      invariant execution == start.(steps := outs[..i])
      invariant forall j :: 0 <= j < i ==> !Halts(workflow.steps, outs, j)
    {
      var stepResult := ExecuteStep(env, workflow.steps[i], start.context, start.id, i);
      assert outs[..i] + [stepResult] == outs[..i + 1];
      execution := execution.(steps := execution.steps + [stepResult]);
      if stepResult.status == StepFailed && !workflow.steps[i].continueOnError {
        execution := execution.(status := Failed, error := stepResult.error);
        assert Halts(workflow.steps, outs, i);
        assert FirstHalt(workflow.steps, outs, 0) == Some(i);
        return;
      }
      i := i + 1;
    }
    assert outs[..i] == outs;
    assert FirstHalt(workflow.steps, outs, 0) == None;
    execution := execution.(status := Completed);
  }

  /** A drain keeps a settled history settled. */
  lemma DrainKeepsSettled(env: Env, workflows: map<string, Workflow>, h: seq<Execution>, entries: seq<QueueEntry>,
                          serial: nat, now: int, h': seq<Execution>)
    requires Settled(h)
    requires h' == h + Launched(env, workflows, entries, serial, now)
    ensures Settled(h')
  {
    LaunchedSpec(env, workflows, entries, serial, now);
  }

  /** A second assignment to the same key overrides the first. */
  lemma UpdateTwice<K, V>(m: map<K, V>, k: K, a: V, b: V)
    ensures m[k := a][k := b] == m[k := b]
  {
  }

  class AutoClaudeServer {
    /** The configuration and the outside world. */
    const env: Env
    /** `this.workflows` ... */
    var workflows: map<string, Workflow>
    /** ... and the order its keys were inserted in. */
    var order: seq<string>
    /** What the last `saveWorkflows` wrote: the workflows in insertion order. */
    var snapshot: seq<Workflow>
    var scheduledJobs: map<string, Handle>
    var fileWatchers: map<string, Handle>
    var executionHistory: seq<Execution>
    var executionQueue: seq<QueueEntry>
    var isExecuting: bool
    /** The source of fresh `uuidv4` ids for executions, steps and triggers. */
    var serial: nat

    /** The store: keys in insertion order, each record under its own id,
        every id as long as a generated one. */
    ghost predicate StoreOk()
      reads this`workflows, this`order
    {
      StoreFits(workflows, order)
    }

    /** The registry: every handle is well-formed and belongs to a stored,
        enabled workflow. */
    ghost predicate RegistryOk()
      reads this`workflows, this`scheduledJobs, this`fileWatchers
    {
      RegistryFits(env, workflows, scheduledJobs, fileWatchers)
    }

    /** Every recorded execution has settled. */
    ghost predicate HistorySettled()
      reads this`executionHistory
    {
      Settled(executionHistory)
    }

    /** The state between two handlers: store and registry fit, every run
        has settled and no drain is in progress. */
    ghost predicate Valid()
      reads this`workflows, this`order, this`scheduledJobs, this`fileWatchers, this`executionHistory, this`isExecuting
    {
      StoreOk() && RegistryOk() && HistorySettled() && !isExecuting
    }

    function Registered(): Registry
      reads this`scheduledJobs, this`fileWatchers, this`serial
    {
      Registry(scheduledJobs, fileWatchers, serial)
    }

    constructor(env: Env)
      ensures Valid()
      ensures this.env == env
      ensures workflows == map[] && order == [] && snapshot == []
      ensures scheduledJobs == map[] && fileWatchers == map[]
      ensures executionHistory == [] && executionQueue == [] && !isExecuting && serial == 0
    {
      this.env := env;
      workflows := map[];
      order := [];
      snapshot := [];
      scheduledJobs := map[];
      fileWatchers := map[];
      executionHistory := [];
      executionQueue := [];
      isExecuting := false;
      serial := 0;
    }

    /** `saveWorkflows` */
    method SaveWorkflows()
      requires StoreOk()
      modifies this`snapshot
      ensures snapshot == Values(order, workflows)
    {
      snapshot := Values(order, workflows);
    }

    /** `${workflowId}_${trigger.id || uuidv4()}` */
    method FreshKey(workflowId: string, trigger: Trigger) returns (key: string)
      modifies this`serial
      ensures key == TriggerKey(workflowId, trigger, old(serial))
      ensures serial == if trigger.id != "" then old(serial) else old(serial) + 1
    {
      if trigger.id != "" {
        key := workflowId + "_" + trigger.id;
      } else {
        key := workflowId + "_" + NatToString(serial);
        serial := serial + 1;
      }
    }

    /** `setupScheduleTrigger`: a job is armed only for a valid cron. */
    method SetupScheduleTrigger(workflowId: string, trigger: Trigger)
      requires trigger.kind.Schedule?
      modifies this`scheduledJobs, this`serial
      ensures Registered() == ArmOne(env, workflowId, trigger, 0, old(Registered()))
    {
      if env.cronValid(trigger.kind.cron) {
        var key := FreshKey(workflowId, trigger);
        scheduledJobs := scheduledJobs[key := CronJob(workflowId, trigger.kind.cron)];
      }
    }

    /** `setupFileEventTrigger`: a watcher is always armed. */
    method SetupFileEventTrigger(workflowId: string, trigger: Trigger)
      requires trigger.kind.FileEvent?
      modifies this`fileWatchers, this`serial
      ensures Registered() == ArmOne(env, workflowId, trigger, 0, old(Registered()))
    {
      var key := FreshKey(workflowId, trigger);
      fileWatchers := fileWatchers[key := Watcher(workflowId, trigger.kind.path, trigger.kind.event)];
    }

    /** `setupTimeBasedTrigger`: a timer is armed only for a date after `now`. */
    method SetupTimeBasedTrigger(workflowId: string, trigger: Trigger, now: int)
      requires trigger.kind.TimeBased?
      modifies this`scheduledJobs, this`serial
      ensures Registered() == ArmOne(env, workflowId, trigger, now, old(Registered()))
    {
      if trigger.kind.datetime.Some? {
        var delay := trigger.kind.datetime.value - now;
        if delay > 0 {
          var key := FreshKey(workflowId, trigger);
          scheduledJobs := scheduledJobs[key := Timer(workflowId, trigger.kind.datetime.value, delay)];
        }
      }
    }

    /** `setupTriggers(workflow)`: the triggers are armed one after the other. */
    method SetupTriggers(workflow: Workflow, now: int)
      modifies this`scheduledJobs, this`fileWatchers, this`serial
      ensures Registered() == ArmAll(env, workflow.id, workflow.triggers, now, old(Registered()))
    {
      var i := 0;
      while i < |workflow.triggers|
        invariant 0 <= i <= |workflow.triggers|
        invariant Registered() == ArmAll(env, workflow.id, workflow.triggers[..i], now, old(Registered()))
      {
        var trigger := workflow.triggers[i];
        match trigger.kind {
          case Schedule(_) => SetupScheduleTrigger(workflow.id, trigger);
          case FileEvent(_, _) => SetupFileEventTrigger(workflow.id, trigger);
          case TimeBased(_) => SetupTimeBasedTrigger(workflow.id, trigger, now);
          case UntypedTrigger =>
          case OtherTrigger(_) =>
        }
        assert workflow.triggers[..i + 1][..i] == workflow.triggers[..i];
        i := i + 1;
      }
      assert workflow.triggers[..i] == workflow.triggers;
    }

    /** `executeWorkflow`: nothing for a missing or disabled workflow;
        otherwise one record is appended as `running` with no steps, the steps
        are run in order until one stops the run, and the record settles as
        the execution record of the workflow. */
    method ExecuteWorkflow(workflowId: string, context: Context, now: int)
      modifies this`executionHistory, this`serial
      ensures !Runnable(workflows, QueueEntry(workflowId, context)) ==>
                executionHistory == old(executionHistory) && serial == old(serial)
      ensures Runnable(workflows, QueueEntry(workflowId, context)) ==>
                && executionHistory == old(executionHistory)
                     + [ExecutionRecord(env, workflows[workflowId], workflowId, NatToString(old(serial)), now, context)]
                && serial == old(serial) + 1
    {
      if workflowId !in workflows || !workflows[workflowId].enabled {
        return;
      }
      var workflow := workflows[workflowId];
      var executionId := NatToString(serial);
      serial := serial + 1;
      var execution := Execution(executionId, workflowId, workflow.name, now, context, [], Running, None);
      executionHistory := executionHistory + [execution];
      var n := |executionHistory| - 1;
      execution := RunSteps(env, workflow, execution);
      ReplaceLast(old(executionHistory), executionHistory[n], execution);
      executionHistory := executionHistory[n := execution];
    }

    /** `processQueue`: nothing while a drain is in progress or the queue is
        empty. Otherwise the entries are drained in order while fewer than
        `MAX_CONCURRENT_WORKFLOWS` executions are running; at the ceiling the
        head goes back to the front. As every run settles before the next
        check, the count never moves during a drain: either nothing is run or
        the whole queue is. The flag is lowered again at the end. */
    method ProcessQueue(now: int)
      modifies this`executionQueue, this`isExecuting, this`executionHistory, this`serial
      ensures isExecuting == old(isExecuting)
      ensures old(isExecuting) || old(executionQueue) == [] || RunningCount(old(executionHistory)) >= MaxConcurrentWorkflows ==>
                executionQueue == old(executionQueue) && executionHistory == old(executionHistory) && serial == old(serial)
      ensures !old(isExecuting) && RunningCount(old(executionHistory)) < MaxConcurrentWorkflows ==>
                && executionQueue == []
                && executionHistory == old(executionHistory) + Launched(env, workflows, old(executionQueue), old(serial), now)
                && serial == old(serial) + Runs(workflows, old(executionQueue))
    {
      if |executionQueue| == 0 || isExecuting {
        assert executionHistory + [] == executionHistory;
        return;
      }
      isExecuting := true;
      ghost var processed: seq<QueueEntry> := [];
      while |executionQueue| > 0
        invariant isExecuting
        invariant old(executionQueue) == processed + executionQueue
        invariant executionHistory == old(executionHistory) + Launched(env, workflows, processed, old(serial), now)
        invariant serial == old(serial) + Runs(workflows, processed)
        invariant RunningCount(executionHistory) == RunningCount(old(executionHistory))
        invariant RunningCount(old(executionHistory)) >= MaxConcurrentWorkflows ==> processed == []
      {
        var entry := executionQueue[0];
        executionQueue := executionQueue[1..];
        var runningCount := RunningCount(executionHistory);
        if runningCount < MaxConcurrentWorkflows {
          ghost var before, serialBefore := executionHistory, serial;
          ExecuteWorkflow(entry.workflowId, entry.context, now);
          DrainStep(env, workflows, old(executionHistory), processed, entry, old(serial), now,
                    before, serialBefore, executionHistory, serial);
          processed := processed + [entry];
        } else {
          assert processed == [] && old(executionQueue) == [entry] + executionQueue;
          executionQueue := [entry] + executionQueue;
          assert executionHistory == old(executionHistory) + [] && serial == old(serial) + 0;
          break;
        }
      }
      if executionQueue == [] {
        assert processed + [] == processed;
      }
      isExecuting := false;
    }

    /** `enqueueWorkflow`: the entry joins the back of the queue and the pump
        is started unless a drain is in progress. Between handlers none is,
        and the history being settled, fewer than `MAX_CONCURRENT_WORKFLOWS`
        runs are in progress, so the pump drains the whole queue. */
    method EnqueueWorkflow(workflowId: string, context: Context, now: int)
      requires Valid()
      modifies this`executionQueue, this`isExecuting, this`executionHistory, this`serial
      ensures Valid()
      ensures var e := QueueEntry(workflowId, context);
              && executionQueue == []
              && executionHistory == old(executionHistory) + Launched(env, workflows, old(executionQueue) + [e], old(serial), now)
              && serial == old(serial) + Runs(workflows, old(executionQueue) + [e])
    {
      ghost var h0, s0 := executionHistory, serial;
      ghost var entries := executionQueue + [QueueEntry(workflowId, context)];
      SettledHistoryRunsNothing(executionHistory);
      executionQueue := executionQueue + [QueueEntry(workflowId, context)];
      if !isExecuting {
        ProcessQueue(now);
        DrainKeepsSettled(env, workflows, h0, entries, s0, now, executionHistory);
      }
    }

    /** A cron job or timer callback: the owning workflow is enqueued with
        the job's context. The timer's entry stays in `scheduledJobs`. */
    method FireScheduledJob(key: string, now: int)
      requires Valid()
      requires key in scheduledJobs
      modifies this`executionQueue, this`isExecuting, this`executionHistory, this`serial
      ensures Valid()
      ensures var h := old(scheduledJobs[key]);
              var e := QueueEntry(h.owner, FiredContext(h, ""));
              && executionQueue == []
              && executionHistory == old(executionHistory) + Launched(env, workflows, old(executionQueue) + [e], old(serial), now)
              && serial == old(serial) + Runs(workflows, old(executionQueue) + [e])
    {
      var h := scheduledJobs[key];
      EnqueueWorkflow(h.owner, FiredContext(h, ""), now);
    }

    /** A watcher callback reporting `path`: the owning workflow is enqueued
        with the watcher's event and that path. */
    method FireWatcher(key: string, path: string, now: int)
      requires Valid()
      requires key in fileWatchers
      modifies this`executionQueue, this`isExecuting, this`executionHistory, this`serial
      ensures Valid()
      ensures var h := old(fileWatchers[key]);
              var e := QueueEntry(h.owner, FileEventFired(h.event, path));
              && executionQueue == []
              && executionHistory == old(executionHistory) + Launched(env, workflows, old(executionQueue) + [e], old(serial), now)
              && serial == old(serial) + Runs(workflows, old(executionQueue) + [e])
    {
      var h := fileWatchers[key];
      assert FiredContext(h, path) == FileEventFired(h.event, path);
      EnqueueWorkflow(h.owner, FiredContext(h, path), now);
    }

    /** The hourly sweep of `startHistoryCleanup`. */
    method SweepHistory(now: int)
      requires Valid()
      modifies this`executionHistory
      ensures Valid()
      ensures executionHistory == Sweep(old(executionHistory), Cutoff(env, now))
    {
      var cutoff := Cutoff(env, now);
      ghost var h := executionHistory;
      executionHistory := Survivors(executionHistory, cutoff);
      if |executionHistory| > MaxExecutionHistory {
        executionHistory := executionHistory[|executionHistory| - MaxExecutionHistory..];
      }
      forall e | e in executionHistory
        ensures e.status != Running
      {
        FilterMembership(h, (e: Execution) => e.startTime > cutoff, e);
      }
    }

    /** `getExecutionHistory`: the summaries of the newest `limit` matching
        records, newest first. An absent `limit` is passed as 50, an absent
        workflow id as the empty string. */
    method GetExecutionHistory(workflowId: string, limit: int) returns (summaries: seq<ExecutionSummary>)
      ensures summaries == Summaries(HistoryQuery(executionHistory, workflowId, limit))
    {
      var history := HistoryQuery(executionHistory, workflowId, limit);
      summaries := Summaries(history);
    }

    /** `listWorkflows`: the stored workflows with the requested status, in
        insertion order. An absent status is passed as `"all"`. */
    method ListWorkflows(status: string) returns (listed: seq<Workflow>)
      requires StoreOk()
      ensures listed == WithStatus(Values(order, workflows), status)
    {
      var all := Values(order, workflows);
      listed := WithStatus(all, status);
    }

    /** `createWorkflow`: a new disabled workflow without steps is stored and
        saved when it validates; nothing changes otherwise. `id` is the fresh
        uuid. */
    method CreateWorkflow(id: string, name: string, description: string, triggers: seq<Trigger>, now: int)
      returns (reply: Reply)
      requires Valid()
      requires id !in workflows && |id| == UuidLength
      modifies this`workflows, this`order, this`snapshot
      ensures Valid()
      ensures var w := Workflow(id, name, description, triggers, [], false, now, now);
              var errors := ValidateWorkflow(env, w);
              && (errors != [] ==>
                    && reply == ValidationFailed(errors)
                    && workflows == old(workflows) && order == old(order) && snapshot == old(snapshot))
              && (errors == [] ==>
                    && reply == Created(id)
                    && workflows == old(workflows)[id := w] && order == old(order) + [id]
                    && snapshot == Values(order, workflows))
    {
      var workflow := Workflow(id, name, description, triggers, [], false, now, now);
      reply := Insert(workflow);
    }

    /** `createWorkflowFromNLP`: like `createWorkflow` with the parser's
        name, description, triggers and steps; the step ids are used up even
        when validation fails. */
    method CreateWorkflowFromNlp(id: string, request: Request, now: int) returns (reply: Reply)
      requires Valid()
      requires id !in workflows && |id| == UuidLength
      modifies this`workflows, this`order, this`snapshot, this`serial
      ensures Valid()
      ensures var p := Parse(request, old(serial));
              var w := Workflow(id, p.name, p.description, p.triggers, p.steps, false, now, now);
              var errors := ValidateWorkflow(env, w);
              && serial == old(serial) + |p.steps|
              && (errors != [] ==>
                    && reply == ValidationFailed(errors)
                    && workflows == old(workflows) && order == old(order) && snapshot == old(snapshot))
              && (errors == [] ==>
                    && reply == Created(id)
                    && workflows == old(workflows)[id := w] && order == old(order) + [id]
                    && snapshot == Values(order, workflows))
    {
      var parsed := Parse(request, serial);
      serial := serial + |parsed.steps|;
      var workflow := Workflow(id, parsed.name, parsed.description, parsed.triggers, parsed.steps, false, now, now);
      reply := Insert(workflow);
    }

    /** The validate, insert and save tail the two creation handlers share. */
    method Insert(workflow: Workflow) returns (reply: Reply)
      requires Valid()
      requires workflow.id !in workflows && |workflow.id| == UuidLength && !workflow.enabled
      modifies this`workflows, this`order, this`snapshot
      ensures Valid()
      ensures var errors := ValidateWorkflow(env, workflow);
              && (errors != [] ==>
                    && reply == ValidationFailed(errors)
                    && workflows == old(workflows) && order == old(order) && snapshot == old(snapshot))
              && (errors == [] ==>
                    && reply == Created(workflow.id)
                    && workflows == old(workflows)[workflow.id := workflow] && order == old(order) + [workflow.id]
                    && snapshot == Values(order, workflows))
    {
      var errors := ValidateWorkflow(env, workflow);
      if errors != [] {
        reply := ValidationFailed(errors);
        return;
      }
      InsertFits(env, workflows, order, scheduledJobs, fileWatchers, workflow);
      workflows := workflows[workflow.id := workflow];
      order := order + [workflow.id];
      SaveWorkflows();
      reply := Created(workflow.id);
    }

    /** `enableWorkflow` */
    method EnableWorkflow(workflowId: string, now: int) returns (reply: Reply)
      requires Valid()
      modifies this`workflows, this`snapshot, this`scheduledJobs, this`fileWatchers, this`serial
      ensures Valid()
      ensures workflowId !in old(workflows) ==> reply == NotFound(workflowId) && unchanged(this)
      ensures workflowId in old(workflows) && old(workflows[workflowId].enabled) ==>
                reply == AlreadyEnabled(workflowId) && unchanged(this)
      ensures workflowId in old(workflows) && !old(workflows[workflowId].enabled) ==>
                && reply == Enabled(workflowId)
                && workflows == old(workflows)[workflowId := old(workflows[workflowId]).(enabled := true, updatedAt := now)]
                && Registered() == ArmAll(env, workflowId, old(workflows[workflowId]).triggers, now, old(Registered()))
                && snapshot == Values(order, workflows)
    {
      if workflowId !in workflows {
        return NotFound(workflowId);
      }
      if workflows[workflowId].enabled {
        return AlreadyEnabled(workflowId);
      }
      Arm(workflowId, now);
      reply := Enabled(workflowId);
    }

    /** What `enableWorkflow` does to a disabled workflow: it is marked
        enabled and its triggers are armed. */
    method Arm(workflowId: string, now: int)
      requires Valid() && workflowId in workflows && !workflows[workflowId].enabled
      modifies this`workflows, this`snapshot, this`scheduledJobs, this`fileWatchers, this`serial
      ensures Valid()
      ensures workflows == old(workflows)[workflowId := old(workflows[workflowId]).(enabled := true, updatedAt := now)]
      ensures Registered() == ArmAll(env, workflowId, old(workflows[workflowId]).triggers, now, old(Registered()))
      ensures snapshot == Values(order, workflows)
    {
      var workflow := workflows[workflowId].(enabled := true, updatedAt := now);
      Put(workflowId, workflow);
      ghost var r := Registered();
      SetupTriggers(workflow, now);
      ArmAllFrame(env, workflowId, workflow.triggers, now, r);
      SaveWorkflows();
    }

    /** `disableWorkflow`. */
    method DisableWorkflow(workflowId: string, now: int) returns (reply: Reply)
      requires Valid()
      modifies this`workflows, this`snapshot, this`scheduledJobs, this`fileWatchers
      ensures Valid()
      ensures workflowId !in old(workflows) ==> reply == NotFound(workflowId) && unchanged(this)
      ensures workflowId in old(workflows) && !old(workflows[workflowId].enabled) ==>
                reply == AlreadyDisabled(workflowId) && unchanged(this)
      ensures workflowId in old(workflows) && old(workflows[workflowId].enabled) ==>
                && reply == Disabled(workflowId)
                && workflows == old(workflows)[workflowId := old(workflows[workflowId]).(enabled := false, updatedAt := now)]
                && scheduledJobs == Disarmed(old(scheduledJobs), workflowId)
                && fileWatchers == Disarmed(old(fileWatchers), workflowId)
                && scheduledJobs == OthersHandles(old(scheduledJobs), workflowId)
                && fileWatchers == OthersHandles(old(fileWatchers), workflowId)
                && snapshot == Values(order, workflows)
    {
      if workflowId !in workflows {
        return NotFound(workflowId);
      }
      if !workflows[workflowId].enabled {
        return AlreadyDisabled(workflowId);
      }
      Disarm(workflowId, now);
      reply := Disabled(workflowId);
    }

    /** What `disableWorkflow` does to an enabled workflow. The handles
        removed are exactly the workflow's own: every key starting with its
        id, which, ids having one length, are the handles it owns. */
    method Disarm(workflowId: string, now: int)
      requires Valid() && workflowId in workflows && workflows[workflowId].enabled
      modifies this`workflows, this`snapshot, this`scheduledJobs, this`fileWatchers
      ensures Valid()
      ensures workflows == old(workflows)[workflowId := old(workflows[workflowId]).(enabled := false, updatedAt := now)]
      ensures scheduledJobs == Disarmed(old(scheduledJobs), workflowId)
      ensures fileWatchers == Disarmed(old(fileWatchers), workflowId)
      ensures scheduledJobs == OthersHandles(old(scheduledJobs), workflowId)
      ensures fileWatchers == OthersHandles(old(fileWatchers), workflowId)
      ensures snapshot == Values(order, workflows)
    {
      var workflow := workflows[workflowId].(enabled := false, updatedAt := now);
      DisarmFits(env, workflows, scheduledJobs, fileWatchers, workflowId, workflow);
      Put(workflowId, workflow);
      scheduledJobs := DeleteKeysStartingWith(scheduledJobs, workflowId);
      fileWatchers := DeleteKeysStartingWith(fileWatchers, workflowId);
      SaveWorkflows();
      assert Valid();
    }

    /** `updateWorkflow`, as written: the record is changed in place before
        it is validated. Replacing the triggers of an enabled workflow goes
        through `disableWorkflow` and `enableWorkflow`, both of which save, so
        on a failed validation the store keeps the invalid record, and the
        file holds it as well when the triggers were re-armed. */
    method UpdateWorkflow(workflowId: string, steps: Option<seq<Step>>, triggers: Option<seq<Trigger>>, now: int)
      returns (reply: Reply)
      requires Valid()
      modifies this`workflows, this`snapshot, this`scheduledJobs, this`fileWatchers, this`serial
      ensures Valid()
      ensures workflowId !in old(workflows) ==> reply == NotFound(workflowId) && unchanged(this)
      ensures workflowId in old(workflows) ==>
                var w := old(workflows[workflowId]);
                var revised := Revised(w, steps, triggers, now);
                var errors := ValidateWorkflow(env, revised);
                var rearmed := triggers.Some? && w.enabled;
                && workflows == old(workflows)[workflowId := revised]
                && (rearmed ==> Registered() == ArmAll(env, workflowId, triggers.value, now,
                                  Registry(Disarmed(old(scheduledJobs), workflowId), Disarmed(old(fileWatchers), workflowId), old(serial))))
                && (!rearmed ==> scheduledJobs == old(scheduledJobs) && fileWatchers == old(fileWatchers) && serial == old(serial))
                && (errors == [] ==> reply == Updated(workflowId) && snapshot == Values(order, workflows))
                && (errors != [] ==>
                      && reply == ValidationFailed(errors)
                      && snapshot == if rearmed then Values(order, workflows) else old(snapshot))
    {
      if workflowId !in workflows {
        return NotFound(workflowId);
      }
      Revise(workflowId, steps, triggers, now);
      var errors := ValidateWorkflow(env, workflows[workflowId]);
      if errors != [] {
        return ValidationFailed(errors);
      }
      SaveWorkflows();
      reply := Updated(workflowId);
    }

    /** The changes `updateWorkflow` makes before it validates: the new
        steps, the new triggers (re-armed when the workflow is enabled) and
        the time of the change. */
    method Revise(workflowId: string, steps: Option<seq<Step>>, triggers: Option<seq<Trigger>>, now: int)
      requires Valid() && workflowId in workflows
      modifies this`workflows, this`snapshot, this`scheduledJobs, this`fileWatchers, this`serial
      ensures Valid()
      ensures var w := old(workflows[workflowId]);
              var rearmed := triggers.Some? && w.enabled;
              && workflows == old(workflows)[workflowId := Revised(w, steps, triggers, now)]
              && (rearmed ==>
                    && Registered() == ArmAll(env, workflowId, triggers.value, now,
                         Registry(Disarmed(old(scheduledJobs), workflowId), Disarmed(old(fileWatchers), workflowId), old(serial)))
                    && snapshot == Values(order, workflows))
              && (!rearmed ==> Registered() == old(Registered()) && snapshot == old(snapshot))
    {
      var workflow := workflows[workflowId];
      ghost var ws := workflows;
      if steps.Some? {
        Edit(workflowId, workflows[workflowId].(steps := steps.value));
        assert workflows == ws[workflowId := workflows[workflowId]];
      }
      if triggers.Some? {
        ghost var mid := workflows;
        ReplaceTriggers(workflowId, triggers.value, now);
        UpdateTwice(ws, workflowId, mid[workflowId], workflows[workflowId]);
      }
      ghost var mid := workflows;
      Edit(workflowId, workflows[workflowId].(updatedAt := now));
      UpdateTwice(ws, workflowId, mid[workflowId], workflows[workflowId]);
    }

    /** The second half of `deleteWorkflow`: the record, none of whose
        handles is armed, leaves the store and the file. */
    method Forget(workflowId: string)
      requires StoreOk() && RegistryOk() && HistorySettled() && !isExecuting
      requires forall k :: k in scheduledJobs ==> scheduledJobs[k].owner != workflowId
      requires forall k :: k in fileWatchers ==> fileWatchers[k].owner != workflowId
      modifies this`workflows, this`order, this`snapshot
      ensures Valid()
      ensures workflows == old(workflows) - {workflowId}
      ensures order == Without(old(order), workflowId)
      ensures snapshot == Values(order, workflows)
    {
      RemoveFits(env, workflows, order, scheduledJobs, fileWatchers, workflowId);
      workflows := workflows - {workflowId};
      order := Without(order, workflowId);
      SaveWorkflows();
    }

    /** A stored record replaced by one with the same id. */
    method Put(workflowId: string, w: Workflow)
      requires StoreOk() && workflowId in workflows && w.id == workflowId
      modifies this`workflows
      ensures StoreOk()
      ensures workflows == old(workflows)[workflowId := w]
    {
      workflows := workflows[workflowId := w];
    }

    /** An assignment to a field of a stored record other than its id and
        its `enabled` flag. */
    method Edit(workflowId: string, w: Workflow)
      requires Valid() && workflowId in workflows
      requires w.id == workflowId && w.enabled == workflows[workflowId].enabled
      modifies this`workflows
      ensures Valid()
      ensures workflows == old(workflows)[workflowId := w]
    {
      workflows := workflows[workflowId := w];
    }

    /** The `triggers` branch of `updateWorkflow`: an enabled workflow is
        disabled, given its new triggers and enabled again, which re-arms
        them and saves; a disabled one only gets the new triggers. */
    method ReplaceTriggers(workflowId: string, triggers: seq<Trigger>, now: int)
      requires Valid() && workflowId in workflows
      modifies this`workflows, this`snapshot, this`scheduledJobs, this`fileWatchers, this`serial
      ensures Valid()
      ensures var w := old(workflows[workflowId]);
              && (w.enabled ==>
                    && workflows == old(workflows)[workflowId := w.(triggers := triggers, updatedAt := now)]
                    && Registered() == ArmAll(env, workflowId, triggers, now,
                         Registry(Disarmed(old(scheduledJobs), workflowId), Disarmed(old(fileWatchers), workflowId), old(serial)))
                    && snapshot == Values(order, workflows))
              && (!w.enabled ==>
                    && workflows == old(workflows)[workflowId := w.(triggers := triggers)]
                    && Registered() == old(Registered()) && snapshot == old(snapshot))
    {
      if workflows[workflowId].enabled {
        Disarm(workflowId, now);
        ghost var disarmed := workflows;
        ghost var r := Registered();
        Edit(workflowId, workflows[workflowId].(triggers := triggers));
        ghost var edited := workflows;
        Arm(workflowId, now);
        UpdateTwice(old(workflows), workflowId, disarmed[workflowId], edited[workflowId]);
        UpdateTwice(old(workflows), workflowId, edited[workflowId], workflows[workflowId]);
        assert r == Registry(Disarmed(old(scheduledJobs), workflowId), Disarmed(old(fileWatchers), workflowId), old(serial));
      } else {
        Edit(workflowId, workflows[workflowId].(triggers := triggers));
      }
    }

    /** `deleteWorkflow`: an enabled workflow is disabled first, so none of
        its handles survives; then it leaves the store and the file. */
    method DeleteWorkflow(workflowId: string, now: int) returns (reply: Reply)
      requires Valid()
      modifies this`workflows, this`order, this`snapshot, this`scheduledJobs, this`fileWatchers
      ensures Valid()
      ensures workflowId !in old(workflows) ==> reply == NotFound(workflowId) && unchanged(this)
      ensures workflowId in old(workflows) ==>
                && reply == Deleted(workflowId)
                && workflows == old(workflows) - {workflowId}
                && order == Without(old(order), workflowId)
                && scheduledJobs == OthersHandles(old(scheduledJobs), workflowId)
                && fileWatchers == OthersHandles(old(fileWatchers), workflowId)
                && snapshot == Values(order, workflows)
    {
      if workflowId !in workflows {
        return NotFound(workflowId);
      }
      if workflows[workflowId].enabled {
        DisarmedDropsOwner(scheduledJobs, workflowId);
        DisarmedDropsOwner(fileWatchers, workflowId);
        Disarm(workflowId, now);
        assert workflows - {workflowId} == old(workflows) - {workflowId};
      } else {
        DisabledOwnsNothing(env, workflows, scheduledJobs, fileWatchers, workflowId);
      }
      Forget(workflowId);
      reply := Deleted(workflowId);
    }

    /** `manualExecuteWorkflow`: a missing workflow and a workflow without
        steps are refused; otherwise the workflow is enqueued with a manual
        context. */
    method ManualExecuteWorkflow(workflowId: string, now: int) returns (reply: Reply)
      requires Valid()
      modifies this`executionQueue, this`isExecuting, this`executionHistory, this`serial
      ensures Valid()
      ensures workflowId !in old(workflows) ==> reply == NotFound(workflowId) && unchanged(this)
      ensures workflowId in old(workflows) && old(workflows[workflowId].steps) == [] ==>
                reply == NoSteps(old(workflows[workflowId].name)) && unchanged(this)
      ensures workflowId in old(workflows) && old(workflows[workflowId].steps) != [] ==>
                var e := QueueEntry(workflowId, Manual);
                && reply == Started(workflowId)
                && executionQueue == []
                && executionHistory == old(executionHistory) + Launched(env, workflows, old(executionQueue) + [e], old(serial), now)
                && serial == old(serial) + Runs(workflows, old(executionQueue) + [e])
    {
      if workflowId !in workflows {
        return NotFound(workflowId);
      }
      var workflow := workflows[workflowId];
      if workflow.steps == [] {
        return NoSteps(workflow.name);
      }
      EnqueueWorkflow(workflowId, Manual, now);
      reply := Started(workflowId);
    }
  }
}
