/** The execution history ledger: the running count the queue pump checks
    against its ceiling, the hourly retention sweep (`startHistoryCleanup`),
    and the `get_execution_history` query with the summary it returns. */
module History {
  import opened Model
  import opened Sequences
  import opened Runner

  predicate IsRunning(e: Execution) {
    e.status == Running
  }

  /** No recorded execution is still running. */
  predicate Settled(h: seq<Execution>) {
    forall e :: e in h ==> e.status != Running
  }

  /** `executionHistory.filter(e => e.status === "running").length` */
  function RunningCount(h: seq<Execution>): nat {
    |Filter(h, IsRunning)|
  }

  /** Appending a settled record leaves the running count as it was. */
  lemma RunningCountAppendSettled(h: seq<Execution>, rec: Execution)
    requires rec.status != Running
    ensures RunningCount(h + [rec]) == RunningCount(h)
  {
    FilterAppend(h, [rec], IsRunning);
    assert Filter([rec], IsRunning) == [];
  }

  /** Appending settled records leaves the running count as it was. */
  lemma RunningCountAppendAllSettled(h: seq<Execution>, recs: seq<Execution>)
    requires forall i :: 0 <= i < |recs| ==> recs[i].status != Running
    ensures RunningCount(h + recs) == RunningCount(h)
  {
    FilterAppend(h, recs, IsRunning);
    FilterDropsAll(recs, IsRunning);
  }

  /** A history of settled records holds no running execution. */
  lemma SettledHistoryRunsNothing(h: seq<Execution>)
    requires Settled(h)
    ensures RunningCount(h) == 0
  {
    assert forall i :: 0 <= i < |h| ==> !IsRunning(h[i]) by {
      forall i | 0 <= i < |h|
        ensures !IsRunning(h[i])
      {
        assert h[i] in h;
      }
    }
    FilterDropsAll(h, IsRunning);
  }

  /** `Date.now() - CONFIG.LOG_RETENTION_DAYS * 24 * 60 * 60 * 1000` */
  function Cutoff(env: Env, now: int): int {
    now - env.retentionDays * DayMs
  }

  /** The records the sweep's date filter keeps. */
  function Survivors(h: seq<Execution>, cutoff: int): seq<Execution> {
    Filter(h, (e: Execution) => e.startTime > cutoff)
  }

  /** The history after one sweep: records started after the cutoff, then
      only the newest `MAX_EXECUTION_HISTORY` of those. */
  function Sweep(h: seq<Execution>, cutoff: int): (r: seq<Execution>)
    ensures |r| <= MaxExecutionHistory
    ensures forall i :: 0 <= i < |r| ==> r[i].startTime > cutoff
    ensures var s := Survivors(h, cutoff);
            && |r| == (if |s| < MaxExecutionHistory then |s| else MaxExecutionHistory)
            && r == s[|s| - |r|..]
  {
    var kept := Survivors(h, cutoff);
    if |kept| > MaxExecutionHistory then kept[|kept| - MaxExecutionHistory..] else kept
  }

  /** The sweep keeps the history's order: what is left is a subsequence of
      what was there. */
  lemma SweepPreservesOrder(h: seq<Execution>, cutoff: int)
    ensures SubsequenceOf(Sweep(h, cutoff), h)
  {
    var s := Survivors(h, cutoff);
    var r := Sweep(h, cutoff);
    FilterIsSubsequence(h, (e: Execution) => e.startTime > cutoff);
    SuffixIsSubsequence(s, |s| - |r|);
    SubsequenceTransitive(r, s, h);
  }

  /** When at most `MAX_EXECUTION_HISTORY` records are recent, the sweep
      keeps every one of them and drops exactly the old ones. */
  lemma SweepKeepsRecent(h: seq<Execution>, cutoff: int, e: Execution)
    requires |Survivors(h, cutoff)| <= MaxExecutionHistory
    ensures e in Sweep(h, cutoff) <==> e in h && e.startTime > cutoff
  {
    FilterMembership(h, (e: Execution) => e.startTime > cutoff, e);
    var s := Survivors(h, cutoff);
    assert s[0..] == s;
  }

  /** A second sweep with the same cutoff changes nothing. */
  lemma SweepIdempotent(h: seq<Execution>, cutoff: int)
    ensures Sweep(Sweep(h, cutoff), cutoff) == Sweep(h, cutoff)
  {
    var r := Sweep(h, cutoff);
    FilterKeepsAll(r, (e: Execution) => e.startTime > cutoff);
  }

  /** `history.filter(h => h.workflowId === workflowId)` when a workflow id is
      given (an empty id is no filter). */
  function Matching(h: seq<Execution>, workflowId: string): seq<Execution> {
    if workflowId == "" then h else Filter(h, (e: Execution) => e.workflowId == workflowId)
  }

  /** `history.slice(-limit).reverse()` as written. */
  function QueryAsWritten(h: seq<Execution>, workflowId: string, limit: int): seq<Execution> {
    Reverse(JsSlice(Matching(h, workflowId), -limit))
  }

  /** The query as intended: the newest `limit` matching records (none for a
      negative limit), newest first. */
  function HistoryQuery(h: seq<Execution>, workflowId: string, limit: int): seq<Execution> {
    Reverse(Last(Matching(h, workflowId), if limit < 0 then 0 else limit))
  }

  /** The corrected query returns at most `limit` records (none for a
      limit that is not positive), the newest matching record first. */
  lemma HistoryQuerySpec(h: seq<Execution>, workflowId: string, limit: int)
    ensures var m := Matching(h, workflowId);
            var r := HistoryQuery(h, workflowId, limit);
            && |r| == (if limit <= 0 then 0 else if limit < |m| then limit else |m|)
            && (forall i :: 0 <= i < |r| ==> r[i] == m[|m| - 1 - i])
  {
  }

  /** Every record the corrected query returns is from the history and, when
      a workflow id is given, of that workflow. */
  lemma HistoryQueryMembers(h: seq<Execution>, workflowId: string, limit: int)
    ensures var r := HistoryQuery(h, workflowId, limit);
            && (forall i :: 0 <= i < |r| ==> r[i] in h)
            && (workflowId != "" ==> forall i :: 0 <= i < |r| ==> r[i].workflowId == workflowId)
  {
    var m := Matching(h, workflowId);
    var r := HistoryQuery(h, workflowId, limit);
    forall i | 0 <= i < |r|
      ensures r[i] in h
    {
      assert r[i] in m;
      if workflowId != "" {
        FilterMembership(h, (e: Execution) => e.workflowId == workflowId, r[i]);
      }
    }
  }

  /** For a positive limit the source's slice is the intended one. */
  lemma QueryAgreesForPositiveLimit(h: seq<Execution>, workflowId: string, limit: int)
    requires limit > 0
    ensures QueryAsWritten(h, workflowId, limit) == HistoryQuery(h, workflowId, limit)
  {
    var m := Matching(h, workflowId);
    assert JsSlice(m, -limit) == Last(m, limit);
  }

  /** `slice(-0)` is `slice(0)`: a limit of 0 returns every matching record. */
  lemma ZeroLimitReturnsEverything(h: seq<Execution>, workflowId: string)
    ensures QueryAsWritten(h, workflowId, 0) == Reverse(Matching(h, workflowId))
  {
    var m := Matching(h, workflowId);
    assert m[0..] == m;
  }

  /** A negative limit drops the oldest `-limit` records instead of returning none. */
  lemma NegativeLimitDropsOldest(h: seq<Execution>, workflowId: string, limit: int)
    requires limit < 0
    ensures var m := Matching(h, workflowId);
            QueryAsWritten(h, workflowId, limit) == Reverse(m[(if -limit < |m| then -limit else |m|)..])
  {
  }

  /** One record and `limit` 0: the query as written returns one record,
      more than the limit asked for. */
  lemma ZeroLimitCounterexample()
    ensures var rec := Execution("1", "w", "n", 0, Manual, [], Completed, None);
            |QueryAsWritten([rec], "", 0)| == 1 && |HistoryQuery([rec], "", 0)| == 0
  {
    var rec := Execution("1", "w", "n", 0, Manual, [], Completed, None);
    ZeroLimitReturnsEverything([rec], "");
  }

  /** The summary line of one execution. */
  datatype ExecutionSummary = ExecutionSummary(
    id: string,
    workflowName: string,
    status: Status,
    startTime: int,
    stepsCompleted: nat,
    totalSteps: nat,
    error: Option<StepError>)

  function Summary(e: Execution): (s: ExecutionSummary)
    ensures s.totalSteps == |e.steps| && s.stepsCompleted <= s.totalSteps
    ensures s.id == e.id && s.status == e.status && s.error == e.error
  {
    ExecutionSummary(e.id, e.workflowName, e.status, e.startTime,
                     |Filter(e.steps, (x: StepExecution) => x.status == StepCompleted)|, |e.steps|, e.error)
  }

  function Summaries(rs: seq<Execution>): (ss: seq<ExecutionSummary>)
    ensures |ss| == |rs|
    ensures forall i :: 0 <= i < |rs| ==> ss[i] == Summary(rs[i])
  {
    seq(|rs|, i requires 0 <= i < |rs| => Summary(rs[i]))
  }

  /** "Steps: n/n" exactly when every recorded step completed. */
  lemma SummaryAllCompleted(e: Execution)
    ensures Summary(e).stepsCompleted == Summary(e).totalSteps
            <==> forall i :: 0 <= i < |e.steps| ==> e.steps[i].status == StepCompleted
  {
    FilterFullLength(e.steps, (x: StepExecution) => x.status == StepCompleted);
  }

  /** A failed run never reports all of its recorded steps completed: the
      step that stopped it failed. */
  lemma FailedRunSummary(env: Env, wf: Workflow, workflowId: string, executionId: string,
                         startTime: int, context: Context)
    ensures var rec := ExecutionRecord(env, wf, workflowId, executionId, startTime, context);
            rec.status == Failed ==> Summary(rec).stepsCompleted < Summary(rec).totalSteps
  {
    var rec := ExecutionRecord(env, wf, workflowId, executionId, startTime, context);
    if rec.status == Failed {
      FailedRunEndsAtFirstHalt(env, wf, workflowId, executionId, startTime, context);
      SummaryAllCompleted(rec);
      assert rec.steps[|rec.steps| - 1].status != StepCompleted;
    }
  }
}
