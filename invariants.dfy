/** The invariants the server keeps over its store and its trigger
    registry, stated on values, with the facts each handler needs to keep
    them. */
module Invariants {
  import opened Model
  import opened Sequences
  import opened Triggers
  import opened Store

  /** The store invariant on values: keys in insertion order, each record
      under its own id, every id as long as a generated one. */
  ghost predicate StoreFits(ws: map<string, Workflow>, order: seq<string>) {
    && Distinct(order)
    && (forall k :: k in ws <==> k in order)
    && (forall k :: k in ws ==> ws[k].id == k && |k| == UuidLength)
  }

  /** The array `saveWorkflows` writes holds each stored workflow exactly
      once, at the position of its key in the insertion order. */
  lemma ValuesListsEachOnce(ws: map<string, Workflow>, order: seq<string>)
    requires StoreFits(ws, order)
    ensures var vs := Values(order, ws);
            && (forall i :: 0 <= i < |vs| ==> vs[i] == ws[order[i]] && vs[i].id == order[i])
            && (forall k :: k in ws ==> exists i :: 0 <= i < |vs| && order[i] == k && vs[i] == ws[k])
            && (forall i, j :: 0 <= i < j < |vs| ==> vs[i].id != vs[j].id)
  {
    var vs := Values(order, ws);
    forall k | k in ws
      ensures exists i :: 0 <= i < |vs| && order[i] == k && vs[i] == ws[k]
    {
      var i :| 0 <= i < |order| && order[i] == k;
      assert vs[i] == ws[k];
    }
  }

  /** A new record with a fresh id of the right length joins the store at
      the back. */
  lemma InsertFits(env: Env, ws: map<string, Workflow>, order: seq<string>, jobs: map<string, Handle>,
                   watchers: map<string, Handle>, w: Workflow)
    requires StoreFits(ws, order) && RegistryFits(env, ws, jobs, watchers)
    requires w.id !in ws && |w.id| == UuidLength
    ensures StoreFits(ws[w.id := w], order + [w.id])
    ensures RegistryFits(env, ws[w.id := w], jobs, watchers)
  {
    var order' := order + [w.id];
    forall i, j | 0 <= i < j < |order'|
      ensures order'[i] != order'[j]
    {
      if j == |order| {
        assert order[i] in order;
      }
    }
  }

  /** Removing a record none of whose handles is armed keeps both invariants. */
  lemma RemoveFits(env: Env, ws: map<string, Workflow>, order: seq<string>, jobs: map<string, Handle>,
                   watchers: map<string, Handle>, workflowId: string)
    requires StoreFits(ws, order) && RegistryFits(env, ws, jobs, watchers)
    requires forall k :: k in jobs ==> jobs[k].owner != workflowId
    requires forall k :: k in watchers ==> watchers[k].owner != workflowId
    ensures StoreFits(ws - {workflowId}, Without(order, workflowId))
    ensures RegistryFits(env, ws - {workflowId}, jobs, watchers)
  {
    FilterDistinct(order, (k: string) => k != workflowId);
    forall k
      ensures k in Without(order, workflowId) <==> k in order && k != workflowId
    {
      WithoutSpec(order, workflowId, k);
    }
  }

  /** The registry invariant on values: every handle is well-formed and
      belongs to a stored, enabled workflow. */
  ghost predicate RegistryFits(env: Env, ws: map<string, Workflow>, jobs: map<string, Handle>,
                               watchers: map<string, Handle>)
  {
    && (forall k :: k in jobs ==> JobOk(env, k, jobs[k]) && jobs[k].owner in ws && ws[jobs[k].owner].enabled)
    && (forall k :: k in watchers ==> WatcherOk(k, watchers[k]) && watchers[k].owner in ws && ws[watchers[k].owner].enabled)
  }

  /** With every stored id of one length, the prefix removal `disableWorkflow`
      performs takes exactly the workflow's own handles, and what is left
      still fits once that workflow's record is changed. */
  lemma DisarmFits(env: Env, ws: map<string, Workflow>, jobs: map<string, Handle>,
                   watchers: map<string, Handle>, workflowId: string, w: Workflow)
    requires RegistryFits(env, ws, jobs, watchers)
    requires forall k :: k in ws ==> |k| == UuidLength
    requires workflowId in ws
    ensures Disarmed(jobs, workflowId) == OthersHandles(jobs, workflowId)
    ensures Disarmed(watchers, workflowId) == OthersHandles(watchers, workflowId)
    ensures RegistryFits(env, ws[workflowId := w], OthersHandles(jobs, workflowId), OthersHandles(watchers, workflowId))
  {
    DisarmedIsOwnHandles(jobs, workflowId);
    DisarmedIsOwnHandles(watchers, workflowId);
  }

  /** A workflow that is not enabled owns no handle, so keeping the handles
      of the others keeps them all. */
  lemma DisabledOwnsNothing(env: Env, ws: map<string, Workflow>, jobs: map<string, Handle>,
                            watchers: map<string, Handle>, workflowId: string)
    requires RegistryFits(env, ws, jobs, watchers)
    requires workflowId in ws && !ws[workflowId].enabled
    ensures forall k :: k in jobs ==> jobs[k].owner != workflowId
    ensures forall k :: k in watchers ==> watchers[k].owner != workflowId
    ensures OthersHandles(jobs, workflowId) == jobs && OthersHandles(watchers, workflowId) == watchers
  {
  }
}
