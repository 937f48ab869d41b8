/** The records the service client fills in and the application stores.
    Timestamps, durations and the floating-point poll rate are dropped;
    JSON payloads are kept as their text. */
module Domain {
  import opened Wrappers

  datatype WorkflowStatus =
    | Running
    | Completed
    | Failed
    | Canceled
    | Terminated
    | TimedOut
    | ContinuedAsNew

  datatype WorkflowSummary = WorkflowSummary(
    workflowId: string,
    runId: string,
    workflowType: string,
    status: WorkflowStatus,
    taskQueue: string)

  /** A `serde_json::Value`: strings and objects are told apart, every other
      value is kept as its text. */
  datatype Json =
    | JString(str: string)
    | JObject(fields: map<string, Json>)
    | JOther(text: string)

  /** `Value::get(key)`: a field of an object, nothing for other values. */
  function Get(v: Json, key: string): (r: Option<Json>)
    ensures r.Some? <==> v.JObject? && key in v.fields
  {
    if v.JObject? && key in v.fields then Some(v.fields[key]) else None
  }

  /** `Value::as_str` */
  function AsStr(v: Json): (r: Option<string>)
    ensures r.Some? <==> v.JString?
  {
    if v.JString? then Some(v.str) else None
  }

  datatype FailureInfo = FailureInfo(
    message: string,
    failureType: string,
    stackTrace: Option<string>,
    cause: Option<FailureInfo>)

  datatype WorkflowDetail = WorkflowDetail(
    summary: WorkflowSummary,
    input: Option<Json>,
    output: Option<Json>,
    failure: Option<FailureInfo>,
    historyLength: nat)

  datatype HistoryEvent = HistoryEvent(eventId: int, eventType: string, details: Json)

  datatype Namespace = Namespace(name: string, state: string, description: string, ownerEmail: string)

  datatype ScheduleState = Active | Paused

  datatype Schedule = Schedule(
    scheduleId: string,
    workflowType: string,
    state: ScheduleState,
    specDescription: string,
    recentActionCount: nat,
    notes: string)

  datatype TaskQueueInfo = TaskQueueInfo(name: string, pollers: seq<string>)
}
