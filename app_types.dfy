/** The application's state and the actions it reacts to. */
module AppTypes {
  import opened Wrappers
  import opened Kinds
  import D = Domain
  import E = Effects

  datatype View = Collection(kind: KindId) | Detail(kind: KindId)

  datatype InputMode = Normal | Command | Search | PendingG

  /** The operation waiting behind the confirmation dialog. */
  datatype OperationConfirm = OperationConfirm(kind: KindId, op: OperationId, target: E.OperationTarget)

  /** `Overlay::None` is `NoOverlay`; the one-variant `ConfirmAction` is
      folded into `Confirm`. */
  datatype Overlay = NoOverlay | Help | NamespaceSelector | Confirm(confirm: OperationConfirm)

  datatype LoadState<T> = NotLoaded | Loading | Loaded(data: T) | LoadFailed(message: string)

  datatype ConnectionStatus = Disconnected | Connecting | Connected | ConnectionError(message: string)

  /** `ViewType::Workflows`, `::Schedules`, `::TaskQueues`. */
  datatype ViewType = WorkflowsTab | SchedulesTab | TaskQueuesTab

  /** Every action `App::update` handles. */
  datatype Action =
    | NavigateUp
    | NavigateDown
    | NavigateTop
    | NavigateBottom
    | PageUp
    | PageDown
    | Select
    | Back
    | SwitchView(viewType: ViewType)
    | EnterPendingG
    | RunOperation(op: OperationId)
    | OpenCommandInput
    | OpenSearch
    | CloseOverlay
    | SubmitCommandInput(command: string)
    | UpdateInputBuffer(buffer: string)
    | SubmitSearch(query: string)
    | ToggleHelp
    | SwitchNamespace(namespace: string)
    | NextTab
    | PrevTab
    | OpenScheduleWorkflows
    | OpenWorkflowActivities
    | WorkflowsLoaded(workflows: seq<D.WorkflowSummary>, pageToken: seq<int>)
    | MoreWorkflowsLoaded(workflows: seq<D.WorkflowSummary>, pageToken: seq<int>)
    | WorkflowDetailLoaded(detail: D.WorkflowDetail)
    | HistoryLoaded(events: seq<D.HistoryEvent>)
    | NamespacesLoaded(namespaces: seq<D.Namespace>)
    | SchedulesLoaded(schedules: seq<D.Schedule>)
    | ScheduleDetailLoaded(schedule: D.Schedule)
    | WorkflowCountLoaded(count: nat)
    | TaskQueueDetailLoaded(info: D.TaskQueueInfo)
    | Refresh
    | Quit
    | Tick
    | Error(message: string)
    | ClearError
    | TogglePolling

  /** The fields of `App`. A `TableState` is its selected row; durations are
      whole seconds; an `Instant` is a reading, in seconds, of the clock the
      caller passes in. */
  datatype AppState = AppState(
    view: View,
    inputMode: InputMode,
    overlay: Overlay,
    namespace: string,
    namespaces: seq<D.Namespace>,
    connectionStatus: ConnectionStatus,
    workflows: LoadState<seq<D.WorkflowSummary>>,
    workflowCount: Option<nat>,
    selectedWorkflow: Option<D.WorkflowDetail>,
    workflowHistory: LoadState<seq<D.HistoryEvent>>,
    workflowSelection: Option<nat>,
    workflowDetailTab: nat,
    schedules: LoadState<seq<D.Schedule>>,
    selectedSchedule: Option<D.Schedule>,
    scheduleSelection: Option<nat>,
    taskQueueDetail: LoadState<D.TaskQueueInfo>,
    namespaceSelection: Option<nat>,
    detailScroll: nat,
    inputBuffer: string,
    searchQueries: map<KindId, string>,
    pollingEnabled: bool,
    pollingInterval: nat,
    basePollingInterval: nat,
    lastRefresh: Option<nat>,
    errorCount: nat,
    loadingMore: bool,
    shouldQuit: bool,
    lastError: Option<(string, nat)>,
    activeTab: ViewType,
    pageSize: int,
    nextPageToken: seq<int>)

  /** The outcome of one step: the new state and the effects it asks for. */
  datatype Outcome = Outcome(state: AppState, effects: seq<E.Effect>)
}
