/** `App::update` as a function of the state: for each action, the new state
    and the effects handed to the worker. The class in `app.dfy` performs the
    same steps in place and is proved against these functions. */
module Reducer {
  import opened Wrappers
  import opened Text
  import opened Location
  import opened Kinds
  import opened AppTypes
  import D = Domain
  import E = Effects
  import U = Uri

  /** Rows moved by `PageUp`/`PageDown` (`page_height`). */
  const PageHeight: nat := 20
  /** `u16::MAX`, the largest `detail_scroll`. */
  const U16Max: nat := 65535
  /** Longest polling interval, in seconds. */
  const MaxBackoffSecs: nat := 60
  /** Largest exponent of the backoff multiplier. */
  const MaxBackoffExponent: nat := 5
  /** Seconds an error toast stays before the next action clears it. */
  const ToastSecs: nat := 5
  /** How close to the end of the list the selection must be to load more. */
  const LoadMoreMargin: nat := 5
  /** `detail_tab_count(WorkflowExecution).max(1)` */
  const WorkflowTabCount: nat := 5

  function Min(a: nat, b: nat): nat { if a <= b then a else b }

  function Pow2(n: nat): (r: nat)
    ensures r >= 1
  {
    if n == 0 then 1 else 2 * Pow2(n - 1)
  }

  /** `Instant::elapsed` of a reading `t`, seen from the reading `now`. */
  function Elapsed(now: nat, t: nat): nat { if now >= t then now - t else 0 }

  /** `u16::saturating_sub` and `u16::saturating_add`. */
  function SatSub(a: nat, b: nat): nat { if a >= b then a - b else 0 }
  function SatAddU16(a: nat, b: nat): nat { Min(a + b, U16Max) }

  // ---------------------------------------------------------------- the start state

  /** `App::new` */
  function Initial(namespace: string): AppState {
    AppState(
      view := Collection(WorkflowExecution),
      inputMode := Normal,
      overlay := NoOverlay,
      namespace := namespace,
      namespaces := [],
      connectionStatus := Connecting,
      workflows := NotLoaded,
      workflowCount := None,
      selectedWorkflow := None,
      workflowHistory := NotLoaded,
      workflowSelection := None,
      workflowDetailTab := 0,
      schedules := NotLoaded,
      selectedSchedule := None,
      scheduleSelection := None,
      taskQueueDetail := NotLoaded,
      namespaceSelection := None,
      detailScroll := 0,
      inputBuffer := [],
      searchQueries := map[],
      pollingEnabled := true,
      pollingInterval := 3,
      basePollingInterval := 3,
      lastRefresh := None,
      errorCount := 0,
      loadingMore := false,
      shouldQuit := false,
      lastError := None,
      activeTab := WorkflowsTab,
      pageSize := 50,
      nextPageToken := [])
  }

  // ---------------------------------------------------------------- table selection

  /** The rows of a list, none while it is not loaded (`data().unwrap_or`). */
  function Rows<T>(l: LoadState<seq<T>>): seq<T> {
    if l.Loaded? then l.data else []
  }

  /** A raw `TableState` selection as the table shows it: clamped to the last
      row, and nothing on an empty table. */
  function Fit(raw: nat, len: nat): (r: Option<nat>)
    ensures r.None? <==> len == 0
    ensures r.Some? ==> r.value < len
  {
    if len == 0 then None else Some(Min(raw, len - 1))
  }

  /** `TableState::select_next`: one row down, the first row from none. */
  function SelectNext(sel: Option<nat>, len: nat): Option<nat> {
    Fit(if sel.None? then 0 else sel.value + 1, len)
  }

  /** `TableState::select_previous`: one row up, the last row from none. */
  function SelectPrevious(sel: Option<nat>, len: nat): Option<nat> {
    Fit(if sel.None? then len else if sel.value == 0 then 0 else sel.value - 1, len)
  }

  function IsDetail(v: View): bool { v.Detail? }

  /** `navigate_up` */
  function SelectUp(s: AppState): AppState {
    match s.view
    case Collection(WorkflowExecution) =>
      s.(workflowSelection := SelectPrevious(s.workflowSelection, |Rows(s.workflows)|))
    case Collection(Schedule) =>
      s.(scheduleSelection := SelectPrevious(s.scheduleSelection, |Rows(s.schedules)|))
    case Detail(_) => s
  }

  /** `navigate_down`: nothing on an empty list. */
  function SelectDown(s: AppState): AppState {
    match s.view
    case Collection(WorkflowExecution) =>
      if |Rows(s.workflows)| == 0 then s
      else s.(workflowSelection := SelectNext(s.workflowSelection, |Rows(s.workflows)|))
    case Collection(Schedule) =>
      if |Rows(s.schedules)| == 0 then s
      else s.(scheduleSelection := SelectNext(s.scheduleSelection, |Rows(s.schedules)|))
    case Detail(_) => s
  }

  /** `navigate_top`: also ends a pending `g` chord. */
  function SelectTop(s: AppState): AppState {
    var t := s.(inputMode := Normal);
    match s.view
    case Collection(WorkflowExecution) => t.(workflowSelection := Fit(0, |Rows(s.workflows)|))
    case Collection(Schedule) => t.(scheduleSelection := Fit(0, |Rows(s.schedules)|))
    case Detail(_) => t
  }

  /** `navigate_bottom` */
  function SelectBottom(s: AppState): AppState {
    match s.view
    case Collection(WorkflowExecution) =>
      s.(workflowSelection := Fit(|Rows(s.workflows)|, |Rows(s.workflows)|))
    case Collection(Schedule) =>
      s.(scheduleSelection := Fit(|Rows(s.schedules)|, |Rows(s.schedules)|))
    case Detail(_) => s
  }

  /** `navigate_up` repeated `n` times (the loop of `PageUp`). */
  function SelectUpTimes(s: AppState, n: nat): AppState {
    if n == 0 then s else SelectUp(SelectUpTimes(s, n - 1))
  }

  /** `navigate_down` repeated `n` times (the loop of `PageDown`). */
  function SelectDownTimes(s: AppState, n: nat): AppState {
    if n == 0 then s else SelectDown(SelectDownTimes(s, n - 1))
  }

  /** `selected_workflow_summary` */
  function SelectedWorkflowSummary(s: AppState): Option<D.WorkflowSummary> {
    match s.view
    case Collection(WorkflowExecution) =>
      if s.workflowSelection.Some? && s.workflowSelection.value < |Rows(s.workflows)|
      then Some(Rows(s.workflows)[s.workflowSelection.value]) else None
    case Detail(WorkflowExecution) =>
      if s.selectedWorkflow.Some? then Some(s.selectedWorkflow.value.summary) else None
    case _ => None
  }

  /** `selected_schedule_summary` */
  function SelectedScheduleSummary(s: AppState): Option<D.Schedule> {
    match s.view
    case Collection(Schedule) =>
      if s.scheduleSelection.Some? && s.scheduleSelection.value < |Rows(s.schedules)|
      then Some(Rows(s.schedules)[s.scheduleSelection.value]) else None
    case Detail(Schedule) => s.selectedSchedule
    case _ => None
  }

  /** A selection points at a row of its list, or there is none. */
  predicate Fits(sel: Option<nat>, len: nat) {
    sel.Some? ==> sel.value < len
  }

  /** What the screens rely on: every selection is on a row, the detail tab
      is one of the five and the scroll offset is a `u16`. */
  predicate Valid(s: AppState) {
    Fits(s.workflowSelection, |Rows(s.workflows)|)
    && Fits(s.scheduleSelection, |Rows(s.schedules)|)
    && Fits(s.namespaceSelection, |s.namespaces|)
    && s.workflowDetailTab < WorkflowTabCount
    && s.detailScroll <= U16Max
  }

  // ---------------------------------------------------------------- polling backoff

  /** `reset_backoff` */
  function ResetBackoff(s: AppState): AppState {
    s.(errorCount := 0, pollingInterval := s.basePollingInterval)
  }

  /** `apply_backoff`: the base interval doubled once per error, at most
      five times, and never above a minute. */
  function ApplyBackoff(s: AppState): AppState {
    s.(pollingInterval := Min(s.basePollingInterval * Pow2(Min(s.errorCount, MaxBackoffExponent)), MaxBackoffSecs))
  }

  /** `Action::Error`: the toast, one more error, a longer interval, and a
      connected status turns into an error status. */
  function RecordError(s: AppState, message: string, now: nat): AppState {
    var t := ApplyBackoff(s.(lastError := Some((message, now)), errorCount := s.errorCount + 1));
    if s.connectionStatus == Connected then t.(connectionStatus := ConnectionError(message)) else t
  }

  // ---------------------------------------------------------------- pagination

  /** `maybe_load_more`: asks for the next page when the selection is within
      five rows of the end of the workflow list, unless a page is already on
      its way or there is none. */
  function MaybeLoadMore(s: AppState): Outcome {
    if s.view != Collection(WorkflowExecution) || s.loadingMore || s.nextPageToken == [] then Outcome(s, [])
    else if s.workflows.Loaded? && s.workflowSelection.Some?
      && s.workflowSelection.value + LoadMoreMargin >= |s.workflows.data|
    then Outcome(s.(loadingMore := true), [E.LoadMoreWorkflows])
    else Outcome(s, [])
  }

  // ---------------------------------------------------------------- views

  /** `refresh_current_view`: what to reload for the screen shown. */
  function RefreshCurrentView(s: AppState): seq<E.Effect> {
    match s.view
    case Collection(WorkflowExecution) => [E.LoadWorkflows, E.LoadWorkflowCount]
    case Detail(WorkflowExecution) =>
      if s.selectedWorkflow.Some?
      then [E.LoadWorkflowDetail(s.selectedWorkflow.value.summary.workflowId, Some(s.selectedWorkflow.value.summary.runId))]
      else []
    case Collection(Schedule) => [E.LoadSchedules]
    case Detail(Schedule) =>
      if s.selectedSchedule.Some? then [E.LoadScheduleDetail(s.selectedSchedule.value.scheduleId)] else []
  }

  /** `handle_select`: opens the selected row. */
  function HandleSelect(s: AppState): Outcome {
    match s.view
    case Collection(WorkflowExecution) =>
      if s.workflowSelection.Some? && s.workflowSelection.value < |Rows(s.workflows)| then
        var wf := Rows(s.workflows)[s.workflowSelection.value];
        Outcome(
          s.(view := Detail(WorkflowExecution), workflowDetailTab := 0, workflowHistory := Loading,
             taskQueueDetail := NotLoaded, detailScroll := 0),
          [E.LoadWorkflowDetail(wf.workflowId, Some(wf.runId)), E.LoadHistory(wf.workflowId, Some(wf.runId))])
      else Outcome(s, [])
    case Collection(Schedule) =>
      if s.scheduleSelection.Some? && s.scheduleSelection.value < |Rows(s.schedules)| then
        var sch := Rows(s.schedules)[s.scheduleSelection.value];
        Outcome(s.(view := Detail(Schedule), detailScroll := 0), [E.LoadScheduleDetail(sch.scheduleId)])
      else Outcome(s, [])
    case Detail(_) => Outcome(s, [])
  }

  /** `handle_back` as written: leaves a detail view for its list and
      forgets the shown item; it does not look at the input mode. */
  function HandleBack(s: AppState): AppState {
    match s.view
    case Detail(WorkflowExecution) =>
      s.(view := Collection(WorkflowExecution), selectedWorkflow := None, workflowHistory := NotLoaded)
    case Detail(Schedule) =>
      s.(view := Collection(Schedule), selectedSchedule := None)
    case Collection(_) => s
  }

  /** Ends a pending `g` chord. `Back` and `NavigateTop` are the two actions
      a key pressed during the chord produces; `UpdateCorrected` ends the
      chord in both, where the code as written ends it only in the list
      branch of `navigate_top`. */
  function EndChord(s: AppState): AppState {
    if s.inputMode == PendingG then s.(inputMode := Normal) else s
  }

  /** `set_kind_query`: a query is stored, none removes the stored one. */
  function SetKindQuery(s: AppState, kind: KindId, query: Option<string>): AppState {
    if query.Some? then s.(searchQueries := s.searchQueries[kind := query.value])
    else s.(searchQueries := s.searchQueries - {kind})
  }

  /** `search_query_for_kind` */
  function SearchQueryFor(s: AppState, kind: KindId): Option<string> {
    if kind in s.searchQueries then Some(s.searchQueries[kind]) else None
  }

  /** `workflow_tab_from_param`: a tab name from a deep link, in any case;
      a name it does not know opens the summary. */
  function WorkflowTabFromParam(tab: string): (r: nat)
    ensures r < WorkflowTabCount
  {
    var t := ToLower(tab);
    if t == "summary" then 0
    else if t == "io" || t == "input" || t == "output" || t == "input-output" || t == "input_output" then 1
    else if t == "history" then 2
    else if t == "pending" || t == "pending-activities" || t == "pending_activities" || t == "activities" then 3
    else if t == "task-queue" || t == "task_queue" || t == "taskqueue" then 4
    else 0
  }

  /** `escape_single_quotes`: each `'` becomes `\'`. */
  function EscapeSingleQuotes(s: string): string {
    ReplaceChar(s, '\'', "\\'")
  }

  /** `combine_schedule_workflow_query`: the filter listing the runs a
      schedule started, and-ed with an extra filter when there is one. */
  function CombineScheduleWorkflowQuery(scheduleId: string, extra: Option<string>): string {
    var base := "TemporalScheduledById = '" + EscapeSingleQuotes(scheduleId) + "'";
    if extra.None? || Trim(extra.value) == [] then base
    else "(" + base + ") AND (" + Trim(extra.value) + ")"
  }

  /** `format_uri_error` */
  function FormatUriError(e: U.UriError): string {
    match e
    case InvalidScheme => "invalid scheme"
    case InvalidAuthority => "invalid authority"
    case MissingNamespace => "missing namespace"
    case InvalidPath => "invalid path"
    case UnsupportedRoute => "unsupported route"
  }

  /** What `apply_location` forgets when the namespace changes. */
  function EnterNamespace(s: AppState, namespace: string): AppState {
    s.(namespace := namespace, workflows := NotLoaded, schedules := NotLoaded,
       workflowHistory := NotLoaded, taskQueueDetail := NotLoaded,
       workflowSelection := None, scheduleSelection := None,
       selectedWorkflow := None, selectedSchedule := None,
       workflowDetailTab := 0, detailScroll := 0, nextPageToken := [],
       loadingMore := false, searchQueries := map[])
  }

  /** The state `apply_location` starts from: the shown state, or a fresh
      one when the link names another namespace. */
  function Retarget(s: AppState, namespace: string): AppState {
    if s.namespace != namespace then EnterNamespace(s, namespace) else s
  }

  /** `apply_location`: shows the screen a deep link names. */
  function ApplyLocation(s: AppState, loc: Location, now: nat): Outcome {
    var t := Retarget(s, loc.namespace);
    match Leaf(loc)
    case None => Outcome(t.(lastError := Some(("invalid uri: missing route", now))), [])
    case Some(seg) => ShowRoute(t, seg)
  }

  /** The screen of one route segment, with its loads. */
  function ShowRoute(t: AppState, seg: RouteSegment): Outcome {
    match seg
    case Workflows(WorkflowCollection(query)) =>
      Outcome(SetKindQuery(t, WorkflowExecution, query).(activeTab := WorkflowsTab, view := Collection(WorkflowExecution)),
              [E.LoadWorkflows, E.LoadWorkflowCount])
    case Workflows(WorkflowDetail(workflowId, runId, tab)) =>
      Outcome(t.(activeTab := WorkflowsTab, view := Detail(WorkflowExecution),
                 workflowDetailTab := if tab.Some? then WorkflowTabFromParam(tab.value) else 0,
                 detailScroll := 0, workflowHistory := Loading, taskQueueDetail := NotLoaded),
              [E.LoadWorkflowDetail(workflowId, runId), E.LoadHistory(workflowId, runId)])
    case Workflows(WorkflowActivities(workflowId, _)) =>
      Outcome(t.(activeTab := WorkflowsTab, view := Detail(WorkflowExecution), workflowDetailTab := 3,
                 detailScroll := 0, workflowHistory := Loading, taskQueueDetail := NotLoaded),
              [E.LoadWorkflowDetail(workflowId, None), E.LoadHistory(workflowId, None)])
    case Schedules(ScheduleCollection(query)) =>
      Outcome(SetKindQuery(t, Schedule, query).(activeTab := SchedulesTab, view := Collection(Schedule)),
              [E.LoadSchedules])
    case Schedules(ScheduleDetail(scheduleId)) =>
      Outcome(t.(activeTab := SchedulesTab, view := Detail(Schedule), detailScroll := 0),
              [E.LoadScheduleDetail(scheduleId)])
    case Schedules(ScheduleWorkflows(scheduleId, query)) =>
      Outcome(SetKindQuery(t, WorkflowExecution, Some(CombineScheduleWorkflowQuery(scheduleId, query)))
                .(activeTab := WorkflowsTab, view := Collection(WorkflowExecution)),
              [E.LoadWorkflows, E.LoadWorkflowCount])
  }

  /** `App::location`: the deep link of the screen shown. */
  function CurrentLocation(s: AppState): Location {
    var workflowList := Workflows(WorkflowCollection(SearchQueryFor(s, WorkflowExecution)));
    var scheduleList := Schedules(ScheduleCollection(SearchQueryFor(s, Schedule)));
    var segment := match s.view
      case Collection(WorkflowExecution) => workflowList
      case Detail(WorkflowExecution) =>
        if s.selectedWorkflow.Some? then
          Workflows(WorkflowDetail(s.selectedWorkflow.value.summary.workflowId,
                                   Some(s.selectedWorkflow.value.summary.runId), None))
        else workflowList
      case Collection(Schedule) => scheduleList
      case Detail(Schedule) =>
        if s.selectedSchedule.Some? then Schedules(ScheduleDetail(s.selectedSchedule.value.scheduleId))
        else scheduleList;
    Location(s.namespace, [segment])
  }

  /** `Action::SwitchNamespace`: forget both lists, their selections, the
      shown items and every search, and show the current kind's list. */
  function ChangeNamespace(s: AppState, namespace: string): Outcome {
    var t := s.(namespace := namespace, overlay := NoOverlay, workflows := NotLoaded, schedules := NotLoaded,
                workflowSelection := None, scheduleSelection := None,
                selectedWorkflow := None, selectedSchedule := None, searchQueries := map[]);
    if s.view.kind == WorkflowExecution
    then Outcome(t.(view := Collection(WorkflowExecution)), [E.LoadWorkflows, E.LoadWorkflowCount])
    else Outcome(t.(view := Collection(Schedule)), [E.LoadSchedules])
  }

  // ---------------------------------------------------------------- operations

  /** The target `run_operation` builds from the selection, if any. */
  function OperationTargetOf(s: AppState, kind: KindId): Option<E.OperationTarget> {
    if kind == WorkflowExecution then
      (match SelectedWorkflowSummary(s)
       case Some(wf) => Some(E.WorkflowTarget(wf.workflowId, Some(wf.runId)))
       case None => None)
    else
      (match SelectedScheduleSummary(s)
       case Some(sch) => Some(E.ScheduleTarget(sch.scheduleId))
       case None => None)
  }

  /** `run_operation`, with the schedule the pause mapper reads passed in as
      `pauseSource`. */
  function OperateWith(s: AppState, op: OperationId, now: nat, pauseSource: Option<D.Schedule>): Outcome {
    var kind := s.view.kind;
    match OperationSpecOf(kind, op)
    case None => Outcome(s, [])
    case Some(spec) =>
      match OperationEffectSpecOf(op, kind)
      case None => Outcome(s, [])
      case Some(effectSpec) =>
        match OperationTargetOf(s, kind)
        case None =>
          var message := if kind == WorkflowExecution then "no workflow selected" else "no schedule selected";
          Outcome(s.(lastError := Some((message, now))), [])
        case Some(target) =>
          if spec.requiresConfirm then Outcome(s.(overlay := Confirm(OperationConfirm(kind, op, target))), [])
          else Outcome(s, ToEffects(effectSpec.toEffects, target, pauseSource))
  }

  /** `run_operation` as written: the pause mapper reads `selected_schedule`,
      which only the schedule detail view fills. */
  function OperateAsWritten(s: AppState, op: OperationId, now: nat): Outcome {
    OperateWith(s, op, now, s.selectedSchedule)
  }

  /** `run_operation` with the pause mapper reading the selected schedule of
      the view shown, as the list view's `p` hint offers. */
  function Operate(s: AppState, op: OperationId, now: nat): Outcome {
    OperateWith(s, op, now, SelectedScheduleSummary(s))
  }

  // ---------------------------------------------------------------- commands

  /** The command word of a command line: its first space-separated part,
      lower-cased. */
  function CommandWord(cmd: string): string {
    ToLower(SplitN2(Trim(cmd), ' ').0)
  }

  /** The rest of a command line after the first space, trimmed. */
  function CommandArgs(cmd: string): Option<string> {
    var rest := SplitN2(Trim(cmd), ' ').1;
    if rest.Some? then Some(Trim(rest.value)) else None
  }

  /** The commands `execute_command` tells apart by their word. */
  datatype Verb = ListWorkflows | ListSchedules | SendSignal | OpenLink | SetNamespace | QuitApp | ShowHelp | UnknownVerb

  /** Each command word and its short alias. */
  function VerbOf(word: string): Verb {
    if word == "workflows" || word == "wf" then ListWorkflows
    else if word == "schedules" || word == "sch" then ListSchedules
    else if word == "signal" || word == "sig" then SendSignal
    else if word == "open" || word == "goto" then OpenLink
    else if word == "namespace" || word == "ns" then SetNamespace
    else if word == "quit" || word == "q" then QuitApp
    else if word == "help" || word == "h" then ShowHelp
    else UnknownVerb
  }

  /** `execute_command`: the `:` command line. */
  function ExecuteCommand(s: AppState, cmd: string, now: nat): Outcome {
    RunCommand(s, CommandWord(cmd), CommandArgs(cmd), now)
  }

  /** The body of `execute_command` once the line is split. */
  function RunCommand(s: AppState, command: string, args: Option<string>, now: nat): Outcome {
    match VerbOf(command)
    case ListWorkflows =>
      Outcome(s.(activeTab := WorkflowsTab, view := Collection(WorkflowExecution)), [E.LoadWorkflows])
    case ListSchedules =>
      Outcome(s.(activeTab := SchedulesTab, view := Collection(Schedule)), [E.LoadSchedules])
    case SendSignal =>
      if args.None? then Outcome(s.(lastError := Some(("usage: :signal <name> [json-input]", now))), [])
      else
        var signal := SplitN2(args.value, ' ');
        (match SelectedWorkflowSummary(s)
         case Some(wf) => Outcome(s, [E.SignalWorkflow(wf.workflowId, Some(wf.runId), signal.0, signal.1)])
         case None => Outcome(s.(lastError := Some(("no workflow selected", now))), []))
    case OpenLink =>
      if args.None? then Outcome(s.(lastError := Some(("usage: :open temporal://tui/namespaces/<ns>/...", now))), [])
      else
        (match U.ParseDeepLink(args.value)
         case Ok(loc) => ApplyLocation(s, loc, now)
         case Err(e) => Outcome(s.(lastError := Some(("invalid uri: " + FormatUriError(e), now))), []))
    case SetNamespace =>
      if args.None? then Outcome(s.(overlay := NamespaceSelector), [E.LoadNamespaces])
      else
        var t := s.(namespace := args.value, workflows := NotLoaded, schedules := NotLoaded,
                    workflowSelection := None, scheduleSelection := None);
        Outcome(t, RefreshCurrentView(t))
    case QuitApp => Outcome(s.(shouldQuit := true), [E.Quit])
    case ShowHelp => Outcome(s.(overlay := Help), [])
    case UnknownVerb => Outcome(s.(lastError := Some(("unknown command: " + command, now))), [])
  }

  // ---------------------------------------------------------------- detail tabs

  /** `load_workflow_tab_data`: the history tab reloads the history, the task
      queue tab loads the queue. */
  function LoadWorkflowTabData(s: AppState): Outcome {
    match s.selectedWorkflow
    case None => Outcome(s, [])
    case Some(wf) =>
      if s.workflowDetailTab == 2 then
        Outcome(s, [E.LoadHistory(wf.summary.workflowId, Some(wf.summary.runId))])
      else if s.workflowDetailTab == 4 then
        Outcome(s.(taskQueueDetail := Loading), [E.LoadTaskQueueDetail(wf.summary.taskQueue)])
      else Outcome(s, [])
  }

  function NextTabIndex(tab: nat): nat { (tab + 1) % WorkflowTabCount }

  function PrevTabIndex(tab: nat): nat { if tab == 0 then WorkflowTabCount - 1 else tab - 1 }

  // ---------------------------------------------------------------- loaded data

  /** `WorkflowDetailLoaded`: the new detail, keeping what the history already
      gave for the fields the new detail lacks. */
  function MergeDetail(existing: Option<D.WorkflowDetail>, detail: D.WorkflowDetail): D.WorkflowDetail {
    match existing
    case None => detail
    case Some(e) =>
      detail.(input := if detail.input.None? then e.input else detail.input,
              output := if detail.output.None? then e.output else detail.output,
              failure := if detail.failure.None? then e.failure else detail.failure,
              historyLength := if detail.historyLength == 0 && e.historyLength > 0 then e.historyLength
                               else detail.historyLength)
  }

  /** A string field of a JSON object (`get(key).and_then(as_str)`). */
  function StrField(v: D.Json, key: string): Option<string> {
    match D.Get(v, key)
    case None => None
    case Some(x) => D.AsStr(x)
  }

  /** The failure a `WorkflowExecutionFailed` event's `failure` value holds. */
  function FailureOf(f: D.Json): D.FailureInfo {
    D.FailureInfo(StrField(f, "message").GetOr(""), StrField(f, "source").GetOr(""), StrField(f, "stack_trace"), None)
  }

  /** An event of the workflow itself with `marker` in its type, not of a child. */
  predicate IsOwnEvent(e: D.HistoryEvent, marker: string) {
    Contains(e.eventType, marker) && !Contains(e.eventType, "Child")
  }

  /** What one history event tells about the workflow's input, output and failure. */
  function ApplyEvent(d: D.WorkflowDetail, e: D.HistoryEvent): D.WorkflowDetail {
    var d1 := if IsOwnEvent(e, "WorkflowExecutionStarted") && D.Get(e.details, "input").Some?
              then d.(input := D.Get(e.details, "input")) else d;
    var d2 := if IsOwnEvent(e, "WorkflowExecutionCompleted") && D.Get(e.details, "result").Some?
              then d1.(output := D.Get(e.details, "result")) else d1;
    if IsOwnEvent(e, "WorkflowExecutionFailed") && D.Get(e.details, "failure").Some?
    then d2.(failure := Some(FailureOf(D.Get(e.details, "failure").value))) else d2
  }

  /** The events applied in order. */
  function ApplyEvents(d: D.WorkflowDetail, events: seq<D.HistoryEvent>): D.WorkflowDetail
    decreases |events|
  {
    if events == [] then d else ApplyEvent(ApplyEvents(d, events[..|events| - 1]), events[|events| - 1])
  }

  /** `HistoryLoaded` on the shown workflow. */
  function AbsorbHistory(d: D.WorkflowDetail, events: seq<D.HistoryEvent>): D.WorkflowDetail {
    ApplyEvents(d, events).(historyLength := |events|)
  }

  // ---------------------------------------------------------------- update

  /** The stale toast is cleared before every action. */
  function ClearStaleToast(s: AppState, now: nat): AppState {
    if s.lastError.Some? && Elapsed(now, s.lastError.value.1) > ToastSecs then s.(lastError := None) else s
  }

  /** `App::update`; `now` is the clock reading at the call. */
  function Update(s: AppState, a: Action, now: nat): Outcome {
    Step(ClearStaleToast(s, now), a, now)
  }

  /** `App::update` with the two corrections: `Back` and `NavigateTop` end a
      pending `g` chord in every view, and the pause mapper reads the
      selected schedule of the view shown. */
  function UpdateCorrected(s: AppState, a: Action, now: nat): Outcome {
    StepCorrected(ClearStaleToast(s, now), a, now)
  }

  /** `Step` with the three corrected arms; every other arm is `Step`'s. */
  function StepCorrected(s: AppState, a: Action, now: nat): Outcome {
    match a
    case Back => Outcome(HandleBack(EndChord(s)), [])
    case NavigateTop => Outcome(if IsDetail(s.view) then EndChord(s).(detailScroll := 0) else SelectTop(s), [])
    case RunOperation(op) => Operate(s, op, now)
    case _ => Step(s, a, now)
  }

  /** The arms of `App::update`'s match, in five groups. */
  predicate IsNavigation(a: Action) {
    a.NavigateUp? || a.NavigateDown? || a.NavigateTop? || a.NavigateBottom? || a.PageUp? || a.PageDown?
  }

  predicate IsScreenChange(a: Action) {
    a.Select? || a.Back? || a.SwitchView? || a.EnterPendingG? || a.SwitchNamespace? || a.NextTab? || a.PrevTab?
    || a.OpenScheduleWorkflows? || a.OpenWorkflowActivities?
  }

  predicate IsInput(a: Action) {
    a.RunOperation? || a.OpenCommandInput? || a.OpenSearch? || a.CloseOverlay? || a.SubmitCommandInput?
    || a.UpdateInputBuffer? || a.SubmitSearch? || a.ToggleHelp?
  }

  predicate IsDataLoad(a: Action) {
    a.WorkflowsLoaded? || a.MoreWorkflowsLoaded? || a.WorkflowDetailLoaded? || a.HistoryLoaded?
    || a.NamespacesLoaded? || a.SchedulesLoaded? || a.ScheduleDetailLoaded? || a.WorkflowCountLoaded?
    || a.TaskQueueDetailLoaded?
  }

  /** One action on the state whose stale toast is already cleared. */
  function Step(s: AppState, a: Action, now: nat): Outcome {
    if IsNavigation(a) then Navigate(s, a)
    else if IsScreenChange(a) then ChangeScreen(s, a, now)
    else if IsInput(a) then HandleInput(s, a, now)
    else if IsDataLoad(a) then AbsorbLoad(s, a, now)
    else Housekeep(s, a, now)
  }

  /** The moving arms: scrolling in a detail view, the selection in a list. */
  function Navigate(s: AppState, a: Action): Outcome {
    match a
    case NavigateUp =>
      Outcome(if IsDetail(s.view) then s.(detailScroll := SatSub(s.detailScroll, 1)) else SelectUp(s), [])
    case NavigateDown =>
      MaybeLoadMore(if IsDetail(s.view) then s.(detailScroll := SatAddU16(s.detailScroll, 1)) else SelectDown(s))
    case NavigateTop =>
      Outcome(if IsDetail(s.view) then s.(detailScroll := 0) else SelectTop(s), [])
    case NavigateBottom =>
      MaybeLoadMore(if IsDetail(s.view) then s.(detailScroll := U16Max) else SelectBottom(s))
    case PageUp =>
      Outcome(if IsDetail(s.view) then s.(detailScroll := SatSub(s.detailScroll, PageHeight))
              else SelectUpTimes(s, PageHeight), [])
    case PageDown =>
      MaybeLoadMore(if IsDetail(s.view) then s.(detailScroll := SatAddU16(s.detailScroll, PageHeight))
                    else SelectDownTimes(s, PageHeight))
    case _ => Outcome(s, [])
  }

  /** The arms that open, leave or switch a screen. */
  function ChangeScreen(s: AppState, a: Action, now: nat): Outcome {
    match a
    case Select => HandleSelect(s)
    case Back => Outcome(HandleBack(s), [])
    case SwitchView(viewType) =>
      (match viewType
       case WorkflowsTab =>
         Outcome(s.(activeTab := viewType, view := Collection(WorkflowExecution)), [E.LoadWorkflows])
       case SchedulesTab =>
         Outcome(s.(activeTab := viewType, view := Collection(Schedule)), [E.LoadSchedules])
       case TaskQueuesTab => Outcome(s.(activeTab := viewType), []))
    case EnterPendingG => Outcome(s.(inputMode := PendingG), [])
    case SwitchNamespace(namespace) => ChangeNamespace(s, namespace)
    case NextTab =>
      if s.view == Detail(WorkflowExecution)
      then LoadWorkflowTabData(s.(workflowDetailTab := NextTabIndex(s.workflowDetailTab), detailScroll := 0))
      else Outcome(s, [])
    case PrevTab =>
      if s.view == Detail(WorkflowExecution)
      then LoadWorkflowTabData(s.(workflowDetailTab := PrevTabIndex(s.workflowDetailTab), detailScroll := 0))
      else Outcome(s, [])
    case OpenScheduleWorkflows =>
      (match SelectedScheduleSummary(s)
       case Some(sch) => ApplyLocation(s, Location(s.namespace, [Schedules(ScheduleWorkflows(sch.scheduleId, None))]), now)
       case None => Outcome(s, []))
    case OpenWorkflowActivities =>
      (match SelectedWorkflowSummary(s)
       case Some(wf) => ApplyLocation(s, Location(s.namespace, [Workflows(WorkflowActivities(wf.workflowId, None))]), now)
       case None => Outcome(s, []))
    case _ => Outcome(s, [])
  }

  /** The arms of operations, the command line, the search box and help. */
  function HandleInput(s: AppState, a: Action, now: nat): Outcome {
    match a
    case RunOperation(op) => OperateAsWritten(s, op, now)
    case OpenCommandInput => Outcome(s.(inputMode := Command, inputBuffer := []), [])
    case OpenSearch =>
      Outcome(s.(inputMode := Search, inputBuffer := SearchQueryFor(s, s.view.kind).GetOr([])), [])
    case CloseOverlay =>
      Outcome(if s.overlay != NoOverlay then s.(overlay := NoOverlay)
              else if s.inputMode != Normal then s.(inputMode := Normal, inputBuffer := [])
              else s, [])
    case SubmitCommandInput(cmd) =>
      var o := ExecuteCommand(s.(inputMode := Normal), cmd, now);
      Outcome(o.state.(inputBuffer := []), o.effects)
    case UpdateInputBuffer(buffer) => Outcome(s.(inputBuffer := buffer), [])
    case SubmitSearch(query) =>
      var kind := s.view.kind;
      var t := SetKindQuery(s.(inputMode := Normal), kind, if query == [] then None else Some(query));
      Outcome(t.(inputBuffer := []),
              if kind == WorkflowExecution then [E.LoadWorkflows, E.LoadWorkflowCount] else [E.LoadSchedules])
    case ToggleHelp => Outcome(s.(overlay := if s.overlay == Help then NoOverlay else Help), [])
    case _ => Outcome(s, [])
  }

  /** The arms taking in what a request brought back. */
  function AbsorbLoad(s: AppState, a: Action, now: nat): Outcome {
    match a
    case WorkflowsLoaded(workflows, pageToken) =>
      Outcome(ResetBackoff(s.(workflows := Loaded(workflows), nextPageToken := pageToken, loadingMore := false,
                              connectionStatus := Connected, lastRefresh := Some(now),
                              workflowSelection := Fit(s.workflowSelection.GetOr(0), |workflows|))), [])
    case MoreWorkflowsLoaded(workflows, pageToken) =>
      Outcome(ResetBackoff(s.(workflows := if s.workflows.Loaded? then Loaded(s.workflows.data + workflows) else s.workflows,
                              nextPageToken := pageToken, loadingMore := false, connectionStatus := Connected)), [])
    case WorkflowDetailLoaded(detail) =>
      Outcome(s.(selectedWorkflow := Some(MergeDetail(s.selectedWorkflow, detail))), [])
    case HistoryLoaded(events) =>
      Outcome(s.(selectedWorkflow := if s.selectedWorkflow.Some? then Some(AbsorbHistory(s.selectedWorkflow.value, events)) else None,
                 workflowHistory := Loaded(events)), [])
    case NamespacesLoaded(namespaces) =>
      Outcome(s.(namespaces := namespaces, namespaceSelection := Fit(s.namespaceSelection.GetOr(0), |namespaces|)), [])
    case SchedulesLoaded(schedules) =>
      Outcome(s.(schedules := Loaded(schedules), lastRefresh := Some(now),
                 scheduleSelection := Fit(s.scheduleSelection.GetOr(0), |schedules|)), [])
    case ScheduleDetailLoaded(schedule) => Outcome(s.(selectedSchedule := Some(schedule)), [])
    case WorkflowCountLoaded(count) => Outcome(s.(workflowCount := Some(count)), [])
    case TaskQueueDetailLoaded(info) => Outcome(s.(taskQueueDetail := Loaded(info)), [])
    case _ => Outcome(s, [])
  }

  /** Refreshing, polling, errors and quitting. */
  function Housekeep(s: AppState, a: Action, now: nat): Outcome {
    match a
    case Refresh => Outcome(s, RefreshCurrentView(s))
    case Quit => Outcome(s.(shouldQuit := true), [E.Quit])
    case Tick =>
      if s.pollingEnabled && (s.lastRefresh.None? || Elapsed(now, s.lastRefresh.value) >= s.pollingInterval)
      then Outcome(s, RefreshCurrentView(s))
      else Outcome(s, [])
    case Error(message) => Outcome(RecordError(s, message, now), [])
    case ClearError => Outcome(s.(lastError := None), [])
    case TogglePolling => Outcome(s.(pollingEnabled := !s.pollingEnabled), [])
    case _ => Outcome(s, [])
  }
}
