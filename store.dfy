/** The workflow store: the `Map` of workflows with its insertion order, the
    array `saveWorkflows` writes, the `listWorkflows` status filter, and the
    replies of the workflow handlers. */
module Store {
  import opened Model
  import opened Sequences

  /** What a workflow handler answers; the reply texts are not modelled. */
  datatype Reply =
    | Created(workflowId: string)
    | Updated(workflowId: string)
    | Enabled(workflowId: string)
    | AlreadyEnabled(workflowId: string)
    | Disabled(workflowId: string)
    | AlreadyDisabled(workflowId: string)
    | Deleted(workflowId: string)
    | Started(workflowId: string)
    /** `Workflow not found: ...` */
    | NotFound(workflowId: string)
    /** `Workflow validation failed: ...` with the errors in order. */
    | ValidationFailed(errors: seq<string>)
    /** `Workflow "..." has no steps to execute` */
    | NoSteps(name: string)

  /** `Array.from(this.workflows.values())`: the workflows in insertion order. */
  function Values(order: seq<string>, m: map<string, Workflow>): (ws: seq<Workflow>)
    requires forall i :: 0 <= i < |order| ==> order[i] in m
    ensures |ws| == |order|
  {
    seq(|order|, i requires 0 <= i < |order| => m[order[i]])
  }

  /** The insertion order after `this.workflows.delete(id)`. */
  function Without(order: seq<string>, id: string): seq<string> {
    Filter(order, (k: string) => k != id)
  }

  /** Deleting a key removes it and keeps every other key in its place in the order. */
  lemma WithoutSpec(order: seq<string>, id: string, k: string)
    ensures k in Without(order, id) <==> k in order && k != id
    ensures SubsequenceOf(Without(order, id), order)
  {
    FilterMembership(order, (k: string) => k != id, k);
    FilterIsSubsequence(order, (k: string) => k != id);
  }

  /** The `listWorkflows` filter: `"all"` lists everything, `"enabled"` the
      enabled workflows, and any other status the disabled ones. */
  function WithStatus(ws: seq<Workflow>, status: string): seq<Workflow> {
    if status == "all" then ws else Filter(ws, (w: Workflow) => w.enabled == (status == "enabled"))
  }

  /** A workflow is listed exactly when it is stored and has the requested
      status, and the listing keeps the store's order. */
  lemma WithStatusSpec(ws: seq<Workflow>, status: string, w: Workflow)
    ensures w in WithStatus(ws, status) <==> w in ws && (status == "all" || w.enabled == (status == "enabled"))
    ensures SubsequenceOf(WithStatus(ws, status), ws)
  {
    if status == "all" {
      SubsequenceReflexive(ws);
    } else {
      FilterMembership(ws, (w: Workflow) => w.enabled == (status == "enabled"), w);
      FilterIsSubsequence(ws, (w: Workflow) => w.enabled == (status == "enabled"));
    }
  }

  /** The enabled and the disabled listings split the store between them. */
  lemma {:induction false} StatusesPartition(ws: seq<Workflow>)
    ensures |WithStatus(ws, "enabled")| + |WithStatus(ws, "disabled")| == |ws|
    decreases |ws|
  {
    if ws != [] {
      StatusesPartition(ws[1..]);
    }
  }

  /** `updateWorkflow`'s changes to the stored record: the steps and the
      triggers when given, and the update time. */
  function Revised(w: Workflow, steps: Option<seq<Step>>, triggers: Option<seq<Trigger>>, now: int): Workflow {
    w.(steps := if steps.Some? then steps.value else w.steps,
       triggers := if triggers.Some? then triggers.value else w.triggers,
       updatedAt := now)
  }
}
