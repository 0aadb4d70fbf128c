/** Workflow records. Only the fields the graph's lookups read are kept:
    the workflow's id and title, and the activity's id, owning workflow,
    title and sequence. */
module Workflows {

  datatype Workflow = Workflow(
    WorkflowID: int,
    Title: string)

  datatype WorkflowActivity = WorkflowActivity(
    WorkflowActivityID: int,
    WorkflowID: int,
    Title: string,
    Seq: int)
}
