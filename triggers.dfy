/** The trigger registry: `setupTriggers` with its three `setup*Trigger`
    helpers, which arm handles in `scheduledJobs` and `fileWatchers` under
    `workflowId + "_" + triggerId`, and the prefix-based removal
    `disableWorkflow` performs. A handle stands for the `node-cron` job, the
    `setTimeout` timer or the `chokidar` watcher; it records its owner and
    what it fires with. */
module Triggers {
  import opened Strings
  import opened Model

  /** The length of the ids `uuidv4` generates. */
  const UuidLength: nat := 36

  datatype Handle =
    | CronJob(owner: string, cron: string)
    /** `delay` is `datetime - now` at the time the timer was armed. */
    | Timer(owner: string, datetime: int, delay: int)
    | Watcher(owner: string, path: string, event: string)

  /** The two handle maps and the source of fresh ids for id-less triggers. */
  datatype Registry = Registry(jobs: map<string, Handle>, watchers: map<string, Handle>, serial: nat)

  /** `${workflowId}_${trigger.id || uuidv4()}`; the fresh id is the rendering
      of `serial`. */
  function TriggerKey(workflowId: string, t: Trigger, serial: nat): string {
    workflowId + "_" + (if t.id != "" then t.id else NatToString(serial))
  }

  /** Arming `t` at time `now` registers a handle: a schedule whose cron is
      valid, a file event, or a date strictly in the future. */
  predicate Arms(env: Env, t: Trigger, now: int) {
    match t.kind
    case Schedule(cron) => env.cronValid(cron)
    case FileEvent(_, _) => true
    case TimeBased(datetime) => datetime.Some? && datetime.value - now > 0
    case _ => false
  }

  /** One turn of the `setupTriggers` loop: the `switch (trigger.type)`. */
  function ArmOne(env: Env, workflowId: string, t: Trigger, now: int, r: Registry): Registry {
    var key := TriggerKey(workflowId, t, r.serial);
    var serial := if t.id != "" then r.serial else r.serial + 1;
    match t.kind
    case Schedule(cron) =>
      if env.cronValid(cron) then r.(jobs := r.jobs[key := CronJob(workflowId, cron)], serial := serial) else r
    case FileEvent(path, event) =>
      r.(watchers := r.watchers[key := Watcher(workflowId, path, event)], serial := serial)
    case TimeBased(datetime) =>
      if datetime.Some? && datetime.value - now > 0
      then r.(jobs := r.jobs[key := Timer(workflowId, datetime.value, datetime.value - now)], serial := serial)
      else r
    case _ => r
  }

  /** The registry after `setupTriggers` has run over `ts` in order. */
  function ArmAll(env: Env, workflowId: string, ts: seq<Trigger>, now: int, r: Registry): Registry
    decreases |ts|
  {
    if ts == [] then r
    else ArmOne(env, workflowId, ts[|ts| - 1], now, ArmAll(env, workflowId, ts[..|ts| - 1], now, r))
  }

  /** What makes a handle one `setup*Trigger` could have armed: a cron job's
      expression is valid and a timer's delay is positive. */
  predicate HandleOk(env: Env, h: Handle) {
    match h
    case CronJob(_, cron) => env.cronValid(cron)
    case Timer(_, _, delay) => delay > 0
    case Watcher(_, _, _) => true
  }

  /** An entry of `scheduledJobs`: keyed under its owner, armed as above, and
      a cron job or a timer. */
  predicate JobOk(env: Env, key: string, h: Handle) {
    StartsWith(key, h.owner + "_") && HandleOk(env, h) && !h.Watcher?
  }

  /** An entry of `fileWatchers`: keyed under its owner, and a watcher. */
  predicate WatcherOk(key: string, h: Handle) {
    StartsWith(key, h.owner + "_") && h.Watcher?
  }

  /** A trigger that does not arm leaves the registry as it was: a schedule
      with an invalid cron, a date that is not in the future, an unknown type.
      One that arms registers its key, in `fileWatchers` for a file event and
      in `scheduledJobs` otherwise, with a handle owned by the workflow, and
      uses up a fresh id exactly when the trigger has none. */
  lemma ArmOneSpec(env: Env, workflowId: string, t: Trigger, now: int, r: Registry)
    ensures var r' := ArmOne(env, workflowId, t, now, r);
            var key := TriggerKey(workflowId, t, r.serial);
            && (!Arms(env, t, now) ==> r' == r)
            && (Arms(env, t, now) && t.kind.FileEvent? ==>
                  key in r'.watchers && r'.watchers[key].owner == workflowId
                  && WatcherOk(key, r'.watchers[key]) && r'.jobs == r.jobs)
            && (Arms(env, t, now) && !t.kind.FileEvent? ==>
                  key in r'.jobs && r'.jobs[key].owner == workflowId
                  && JobOk(env, key, r'.jobs[key]) && r'.watchers == r.watchers)
            && (Arms(env, t, now) ==> r'.serial == if t.id == "" then r.serial + 1 else r.serial)
  {
    var key := TriggerKey(workflowId, t, r.serial);
    assert StartsWith(key, workflowId + "_");
  }

  /** `setupTriggers` only ever adds keys, never removes one. It leaves every
      handle whose key is outside `workflowId + "_"` as it was, and every
      handle it arms or replaces is owned by the workflow, keyed under it and
      well-formed. */
  lemma {:induction false} ArmAllFrame(env: Env, workflowId: string, ts: seq<Trigger>, now: int, r: Registry)
    ensures var r' := ArmAll(env, workflowId, ts, now, r);
            && r.jobs.Keys <= r'.jobs.Keys && r.watchers.Keys <= r'.watchers.Keys
            && r.serial <= r'.serial
            && (forall k :: k in r.jobs && !StartsWith(k, workflowId + "_") ==> r'.jobs[k] == r.jobs[k])
            && (forall k :: k in r.watchers && !StartsWith(k, workflowId + "_") ==> r'.watchers[k] == r.watchers[k])
            && (forall k :: k in r'.jobs ==>
                  (k in r.jobs && r'.jobs[k] == r.jobs[k])
                  || (r'.jobs[k].owner == workflowId && JobOk(env, k, r'.jobs[k])))
            && (forall k :: k in r'.watchers ==>
                  (k in r.watchers && r'.watchers[k] == r.watchers[k])
                  || (r'.watchers[k].owner == workflowId && WatcherOk(k, r'.watchers[k])))
    decreases |ts|
  {
    if ts != [] {
      var mid := ArmAll(env, workflowId, ts[..|ts| - 1], now, r);
      ArmAllFrame(env, workflowId, ts[..|ts| - 1], now, r);
      ArmOneSpec(env, workflowId, ts[|ts| - 1], now, mid);
      var key := TriggerKey(workflowId, ts[|ts| - 1], mid.serial);
      assert StartsWith(key, workflowId + "_");
    }
  }

  /** Every trigger that arms has its key registered once `setupTriggers`
      is done, whatever comes after it: the key its own id gives, or, for an
      id-less trigger, the key of the fresh id current when its turn came. */
  lemma {:induction false} ArmAllRegistersEach(env: Env, workflowId: string, ts: seq<Trigger>, now: int,
                                               r: Registry, i: nat)
    requires i < |ts| && Arms(env, ts[i], now)
    ensures var r' := ArmAll(env, workflowId, ts, now, r);
            TriggerKey(workflowId, ts[i], ArmAll(env, workflowId, ts[..i], now, r).serial) in r'.jobs.Keys + r'.watchers.Keys
    ensures var r' := ArmAll(env, workflowId, ts, now, r);
            ts[i].id != "" ==> workflowId + "_" + ts[i].id in r'.jobs.Keys + r'.watchers.Keys
    decreases |ts|
  {
    var mid := ArmAll(env, workflowId, ts[..|ts| - 1], now, r);
    ArmOneSpec(env, workflowId, ts[|ts| - 1], now, mid);
    if i < |ts| - 1 {
      assert ts[..|ts| - 1][i] == ts[i];
      assert ts[..|ts| - 1][..i] == ts[..i];
      ArmAllRegistersEach(env, workflowId, ts[..|ts| - 1], now, r, i);
      ArmAllFrame(env, workflowId, [ts[|ts| - 1]], now, mid);
      assert ArmAll(env, workflowId, [ts[|ts| - 1]], now, mid) == ArmOne(env, workflowId, ts[|ts| - 1], now, mid) by {
        assert [ts[|ts| - 1]][..0] == [];
      }
    } else {
      assert ts[..i] == ts[..|ts| - 1];
    }
  }

  /** Two triggers with one id share one key: the second one's handle takes
      the place of the first one's in the map. */
  lemma DuplicateIdReplacesHandle(env: Env, workflowId: string, a: string, b: string, now: int, r: Registry)
    requires env.cronValid(a) && env.cronValid(b)
    ensures var r' := ArmAll(env, workflowId, [Trigger("t", Schedule(a)), Trigger("t", Schedule(b))], now, r);
            workflowId + "_t" in r'.jobs && r'.jobs[workflowId + "_t"] == CronJob(workflowId, b)
  {
    var ts := [Trigger("t", Schedule(a)), Trigger("t", Schedule(b))];
    assert ts[..1][..0] == [];
    var r1 := ArmOne(env, workflowId, ts[0], now, r);
    assert ArmAll(env, workflowId, ts[..1], now, r) == r1;
    assert ArmAll(env, workflowId, ts, now, r) == ArmOne(env, workflowId, ts[1], now, r1);
    assert TriggerKey(workflowId, ts[1], r1.serial) == workflowId + "_t";
  }

  /** Triggers none of which arms leave the registry as it was. */
  lemma {:induction false} ArmAllNothing(env: Env, workflowId: string, ts: seq<Trigger>, now: int, r: Registry)
    requires forall i :: 0 <= i < |ts| ==> !Arms(env, ts[i], now)
    ensures ArmAll(env, workflowId, ts, now, r) == r
    decreases |ts|
  {
    if ts != [] {
      ArmAllNothing(env, workflowId, ts[..|ts| - 1], now, r);
      ArmOneSpec(env, workflowId, ts[|ts| - 1], now, r);
    }
  }

  /** The handles `disableWorkflow` keeps: those whose key does not start
      with the workflow id. */
  function Disarmed(m: map<string, Handle>, workflowId: string): map<string, Handle> {
    map k | k in m && !StartsWith(k, workflowId) :: m[k]
  }

  /** The handles of `m` some other workflow than `workflowId` owns. */
  function OthersHandles(m: map<string, Handle>, workflowId: string): map<string, Handle> {
    map k | k in m && m[k].owner != workflowId :: m[k]
  }

  /** With every handle keyed under its owner, none of the handles the
      prefix removal keeps belongs to `workflowId`: its own keys all start
      with `workflowId + "_"`, hence with `workflowId`. */
  lemma DisarmedDropsOwner(m: map<string, Handle>, workflowId: string)
    requires forall k :: k in m ==> StartsWith(k, m[k].owner + "_")
    ensures forall k :: k in Disarmed(m, workflowId) ==> Disarmed(m, workflowId)[k].owner != workflowId
  {
    forall k | k in m && m[k].owner == workflowId
      ensures StartsWith(k, workflowId)
    {
      assert k[..|workflowId|] == (workflowId + "_")[..|workflowId|] == workflowId;
    }
  }

  /** When every owner id has the length of the id being disabled (as
      uuid-generated ids do), the prefix test removes exactly that workflow's
      handles. */
  lemma DisarmedIsOwnHandles(m: map<string, Handle>, workflowId: string)
    requires forall k :: k in m ==> StartsWith(k, m[k].owner + "_") && |m[k].owner| == |workflowId|
    ensures Disarmed(m, workflowId) == OthersHandles(m, workflowId)
  {
    forall k | k in m
      ensures StartsWith(k, workflowId) <==> m[k].owner == workflowId
    {
      var o := m[k].owner;
      assert k[..|o|] == (o + "_")[..|o|] == o;
    }
  }

  /** The clean-up loops of `disableWorkflow`: every entry whose key starts
      with `workflowId` is deleted, the others are kept. */
  method DeleteKeysStartingWith(m: map<string, Handle>, workflowId: string) returns (pruned: map<string, Handle>)
    ensures pruned == Disarmed(m, workflowId)
  {
    pruned := m;
    var keys := m.Keys;
    while keys != {}
      invariant keys <= m.Keys
      invariant forall k :: k in pruned ==> k in m && pruned[k] == m[k]
      invariant forall k :: k in m ==> (k in pruned <==> k in keys || !StartsWith(k, workflowId))
      decreases |keys|
    {
      var key :| key in keys;
      if StartsWith(key, workflowId) {
        pruned := pruned - {key};
      }
      keys := keys - {key};
    }
  }

  /** The prefix test does not stop at the `_`: disabling `ab` also drops a
      handle of a workflow `abc`. Fixed-length ids rule this out. */
  lemma ShorterIdDropsForeignHandle()
    ensures "abc_1" !in Disarmed(map["abc_1" := CronJob("abc", "* * * * *")], "ab")
  {
    assert StartsWith("abc_1", "ab");
  }

  /** The context a fired handle enqueues its workflow with; `path` is the
      path a watcher reports. */
  function FiredContext(h: Handle, path: string): Context {
    match h
    case CronJob(_, cron) => ScheduleFired(cron)
    case Timer(_, datetime, _) => DeadlineReached(datetime)
    case Watcher(_, _, event) => FileEventFired(event, path)
  }
}
