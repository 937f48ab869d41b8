/** What the application asks its worker to do, and the object an
    operation acts on. */
module Effects {
  import opened Wrappers

  datatype Effect =
    | LoadWorkflows
    | LoadWorkflowDetail(workflowId: string, runId: Option<string>)
    | LoadHistory(workflowId: string, runId: Option<string>)
    | LoadNamespaces
    | LoadSchedules
    | LoadScheduleDetail(scheduleId: string)
    | LoadWorkflowCount
    | CancelWorkflow(workflowId: string, runId: Option<string>)
    | TerminateWorkflow(workflowId: string, runId: Option<string>)
    | PauseSchedule(scheduleId: string, pause: bool)
    | TriggerSchedule(scheduleId: string)
    | DeleteSchedule(scheduleId: string)
    | LoadMoreWorkflows
    | LoadTaskQueueDetail(taskQueue: string)
    | SignalWorkflow(workflowId: string, runId: Option<string>, signal: string, input: Option<string>)
    | Quit

  /** `OperationTarget::Workflow` and `OperationTarget::Schedule`. */
  datatype OperationTarget =
    | WorkflowTarget(workflowId: string, runId: Option<string>)
    | ScheduleTarget(scheduleId: string)
}
