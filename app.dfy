/** `App` itself: its fields, updated in place by `update`, and each arm
    proved to leave the state and ask for the effects the reducer functions
    describe. */
module AppMachine {
  import opened Wrappers
  import opened Kinds
  import opened AppTypes
  import opened Location
  import Text
  import R = Reducer
  import U = Uri
  import D = Domain
  import E = Effects

  class App {
    var view: View
    var inputMode: InputMode
    var overlay: Overlay
    var namespace: string
    var namespaces: seq<D.Namespace>
    var connectionStatus: ConnectionStatus
    var workflows: LoadState<seq<D.WorkflowSummary>>
    var workflowCount: Option<nat>
    var selectedWorkflow: Option<D.WorkflowDetail>
    var workflowHistory: LoadState<seq<D.HistoryEvent>>
    var workflowSelection: Option<nat>
    var workflowDetailTab: nat
    var schedules: LoadState<seq<D.Schedule>>
    var selectedSchedule: Option<D.Schedule>
    var scheduleSelection: Option<nat>
    var taskQueueDetail: LoadState<D.TaskQueueInfo>
    var namespaceSelection: Option<nat>
    var detailScroll: nat
    var inputBuffer: string
    var searchQueries: map<KindId, string>
    var pollingEnabled: bool
    var pollingInterval: nat
    var basePollingInterval: nat
    var lastRefresh: Option<nat>
    var errorCount: nat
    var loadingMore: bool
    var shouldQuit: bool
    var lastError: Option<(string, nat)>
    var activeTab: ViewType
    var pageSize: int
    var nextPageToken: seq<int>

    /** The fields as one value. */
    function State(): AppState
      reads this
    {
      AppState(view, inputMode, overlay, namespace, namespaces, connectionStatus, workflows, workflowCount,
               selectedWorkflow, workflowHistory, workflowSelection, workflowDetailTab, schedules,
               selectedSchedule, scheduleSelection, taskQueueDetail, namespaceSelection, detailScroll,
               inputBuffer, searchQueries, pollingEnabled, pollingInterval, basePollingInterval, lastRefresh,
               errorCount, loadingMore, shouldQuit, lastError, activeTab, pageSize, nextPageToken)
    }

    /** `App::new`: the workflow list of `namespace`, nothing loaded yet. */
    constructor(namespace: string)
      ensures State() == R.Initial(namespace)
    {
      view := Collection(WorkflowExecution);
      inputMode := Normal;
      overlay := NoOverlay;
      this.namespace := namespace;
      namespaces := [];
      connectionStatus := Connecting;
      workflows := NotLoaded;
      workflowCount := None;
      selectedWorkflow := None;
      workflowHistory := NotLoaded;
      workflowSelection := None;
      workflowDetailTab := 0;
      schedules := NotLoaded;
      selectedSchedule := None;
      scheduleSelection := None;
      taskQueueDetail := NotLoaded;
      namespaceSelection := None;
      detailScroll := 0;
      inputBuffer := [];
      searchQueries := map[];
      pollingEnabled := true;
      pollingInterval := 3;
      basePollingInterval := 3;
      lastRefresh := None;
      errorCount := 0;
      loadingMore := false;
      shouldQuit := false;
      lastError := None;
      activeTab := WorkflowsTab;
      pageSize := 50;
      nextPageToken := [];
    }

    // -------------------------------------------------------------- one field at a time

    method SetView(v: View)
      modifies this
      ensures State() == old(State()).(view := v)
    {
      view := v;
    }

    method SetInputMode(v: InputMode)
      modifies this
      ensures State() == old(State()).(inputMode := v)
    {
      inputMode := v;
    }

    method SetOverlay(v: Overlay)
      modifies this
      ensures State() == old(State()).(overlay := v)
    {
      overlay := v;
    }

    method SetNamespace(v: string)
      modifies this
      ensures State() == old(State()).(namespace := v)
    {
      namespace := v;
    }

    method SetNamespaces(v: seq<D.Namespace>)
      modifies this
      ensures State() == old(State()).(namespaces := v)
    {
      namespaces := v;
    }

    method SetConnectionStatus(v: ConnectionStatus)
      modifies this
      ensures State() == old(State()).(connectionStatus := v)
    {
      connectionStatus := v;
    }

    method SetWorkflows(v: LoadState<seq<D.WorkflowSummary>>)
      modifies this
      ensures State() == old(State()).(workflows := v)
    {
      workflows := v;
    }

    method SetWorkflowCount(v: Option<nat>)
      modifies this
      ensures State() == old(State()).(workflowCount := v)
    {
      workflowCount := v;
    }

    method SetSelectedWorkflow(v: Option<D.WorkflowDetail>)
      modifies this
      ensures State() == old(State()).(selectedWorkflow := v)
    {
      selectedWorkflow := v;
    }

    method SetWorkflowHistory(v: LoadState<seq<D.HistoryEvent>>)
      modifies this
      ensures State() == old(State()).(workflowHistory := v)
    {
      workflowHistory := v;
    }

    method SetWorkflowSelection(v: Option<nat>)
      modifies this
      ensures State() == old(State()).(workflowSelection := v)
    {
      workflowSelection := v;
    }

    method SetWorkflowDetailTab(v: nat)
      modifies this
      ensures State() == old(State()).(workflowDetailTab := v)
    {
      workflowDetailTab := v;
    }

    method SetSchedules(v: LoadState<seq<D.Schedule>>)
      modifies this
      ensures State() == old(State()).(schedules := v)
    {
      schedules := v;
    }

    method SetSelectedSchedule(v: Option<D.Schedule>)
      modifies this
      ensures State() == old(State()).(selectedSchedule := v)
    {
      selectedSchedule := v;
    }

    method SetScheduleSelection(v: Option<nat>)
      modifies this
      ensures State() == old(State()).(scheduleSelection := v)
    {
      scheduleSelection := v;
    }

    method SetTaskQueueDetail(v: LoadState<D.TaskQueueInfo>)
      modifies this
      ensures State() == old(State()).(taskQueueDetail := v)
    {
      taskQueueDetail := v;
    }

    method SetNamespaceSelection(v: Option<nat>)
      modifies this
      ensures State() == old(State()).(namespaceSelection := v)
    {
      namespaceSelection := v;
    }

    method SetDetailScroll(v: nat)
      modifies this
      ensures State() == old(State()).(detailScroll := v)
    {
      detailScroll := v;
    }

    method SetInputBuffer(v: string)
      modifies this
      ensures State() == old(State()).(inputBuffer := v)
    {
      inputBuffer := v;
    }

    method SetSearchQueries(v: map<KindId, string>)
      modifies this
      ensures State() == old(State()).(searchQueries := v)
    {
      searchQueries := v;
    }

    method SetPollingEnabled(v: bool)
      modifies this
      ensures State() == old(State()).(pollingEnabled := v)
    {
      pollingEnabled := v;
    }

    method SetPollingInterval(v: nat)
      modifies this
      ensures State() == old(State()).(pollingInterval := v)
    {
      pollingInterval := v;
    }

    method SetLastRefresh(v: Option<nat>)
      modifies this
      ensures State() == old(State()).(lastRefresh := v)
    {
      lastRefresh := v;
    }

    method SetErrorCount(v: nat)
      modifies this
      ensures State() == old(State()).(errorCount := v)
    {
      errorCount := v;
    }

    method SetLoadingMore(v: bool)
      modifies this
      ensures State() == old(State()).(loadingMore := v)
    {
      loadingMore := v;
    }

    method SetShouldQuit(v: bool)
      modifies this
      ensures State() == old(State()).(shouldQuit := v)
    {
      shouldQuit := v;
    }

    method SetLastError(v: Option<(string, nat)>)
      modifies this
      ensures State() == old(State()).(lastError := v)
    {
      lastError := v;
    }

    method SetActiveTab(v: ViewType)
      modifies this
      ensures State() == old(State()).(activeTab := v)
    {
      activeTab := v;
    }

    method SetNextPageToken(v: seq<int>)
      modifies this
      ensures State() == old(State()).(nextPageToken := v)
    {
      nextPageToken := v;
    }

    // -------------------------------------------------------------- the list selection

    /** `navigate_up` */
    method SelectUp()
      modifies this
      ensures State() == R.SelectUp(old(State()))
    {
      if view == Collection(WorkflowExecution) {
        SetWorkflowSelection(R.SelectPrevious(workflowSelection, |R.Rows(workflows)|));
      } else if view == Collection(Schedule) {
        SetScheduleSelection(R.SelectPrevious(scheduleSelection, |R.Rows(schedules)|));
      }
    }

    /** `navigate_down` */
    method SelectDown()
      modifies this
      ensures State() == R.SelectDown(old(State()))
    {
      if view == Collection(WorkflowExecution) {
        if |R.Rows(workflows)| > 0 {
          SetWorkflowSelection(R.SelectNext(workflowSelection, |R.Rows(workflows)|));
        }
      } else if view == Collection(Schedule) {
        if |R.Rows(schedules)| > 0 {
          SetScheduleSelection(R.SelectNext(scheduleSelection, |R.Rows(schedules)|));
        }
      }
    }

    /** `navigate_top`: also ends a pending `g` chord. */
    method SelectTop()
      modifies this
      ensures State() == R.SelectTop(old(State()))
    {
      if view == Collection(WorkflowExecution) {
        TopOfWorkflows();
      } else if view == Collection(Schedule) {
        TopOfSchedules();
      } else {
        SetInputMode(Normal);
      }
    }

    method TopOfWorkflows()
      requires view == Collection(WorkflowExecution)
      modifies this
      ensures State() == old(State()).(inputMode := Normal, workflowSelection := R.Fit(0, |R.Rows(old(workflows))|))
    {
      SetInputMode(Normal);
      SetWorkflowSelection(R.Fit(0, |R.Rows(workflows)|));
    }

    method TopOfSchedules()
      requires view == Collection(Schedule)
      modifies this
      ensures State() == old(State()).(inputMode := Normal, scheduleSelection := R.Fit(0, |R.Rows(old(schedules))|))
    {
      SetInputMode(Normal);
      SetScheduleSelection(R.Fit(0, |R.Rows(schedules)|));
    }

    /** `navigate_bottom` */
    method SelectBottom()
      modifies this
      ensures State() == R.SelectBottom(old(State()))
    {
      if view == Collection(WorkflowExecution) {
        SetWorkflowSelection(R.Fit(|R.Rows(workflows)|, |R.Rows(workflows)|));
      } else if view == Collection(Schedule) {
        SetScheduleSelection(R.Fit(|R.Rows(schedules)|, |R.Rows(schedules)|));
      }
    }

    /** The loop of `PageUp`: `navigate_up` once per row of a page. */
    method PageSelectUp()
      modifies this
      ensures State() == R.SelectUpTimes(old(State()), R.PageHeight)
    {
      var i := 0;
      while i < R.PageHeight
        invariant 0 <= i <= R.PageHeight
        invariant State() == R.SelectUpTimes(old(State()), i)
      {
        SelectUp();
        i := i + 1;
      }
    }

    /** The loop of `PageDown`: `navigate_down` once per row of a page. */
    method PageSelectDown()
      modifies this
      ensures State() == R.SelectDownTimes(old(State()), R.PageHeight)
    {
      var i := 0;
      while i < R.PageHeight
        invariant 0 <= i <= R.PageHeight
        invariant State() == R.SelectDownTimes(old(State()), i)
      {
        SelectDown();
        i := i + 1;
      }
    }

    /** `maybe_load_more` */
    method MaybeLoadMore() returns (effects: seq<E.Effect>)
      modifies this
      ensures Outcome(State(), effects) == R.MaybeLoadMore(old(State()))
    {
      effects := [];
      if view != Collection(WorkflowExecution) || loadingMore || nextPageToken == [] {
        return;
      }
      if workflows.Loaded? && workflowSelection.Some? && workflowSelection.value + R.LoadMoreMargin >= |workflows.data| {
        SetLoadingMore(true);
        effects := [E.LoadMoreWorkflows];
      }
    }

    // -------------------------------------------------------------- update, by group of arms

    /** The stale toast goes before every action. */
    method ClearStaleToast(now: nat)
      modifies this
      ensures State() == R.ClearStaleToast(old(State()), now)
    {
      if lastError.Some? && R.Elapsed(now, lastError.value.1) > R.ToastSecs {
        SetLastError(None);
      }
    }

    /** The moving arms. */
    method Navigate(a: Action) returns (effects: seq<E.Effect>)
      modifies this
      ensures Outcome(State(), effects) == R.Navigate(old(State()), a)
    {
      match a
      case NavigateUp => effects := NavigateUp();
      case NavigateDown => effects := NavigateDown();
      case NavigateTop => effects := NavigateTop();
      case NavigateBottom => effects := NavigateBottom();
      case PageUp => effects := PageUp();
      case PageDown => effects := PageDown();
      case _ => effects := [];
    }

    method NavigateUp() returns (effects: seq<E.Effect>)
      modifies this
      ensures Outcome(State(), effects) == R.Navigate(old(State()), Action.NavigateUp)
    {
      if view.Detail? { detailScroll := R.SatSub(detailScroll, 1); } else { SelectUp(); }
      effects := [];
    }

    method NavigateDown() returns (effects: seq<E.Effect>)
      modifies this
      ensures Outcome(State(), effects) == R.Navigate(old(State()), Action.NavigateDown)
    {
      if view.Detail? { detailScroll := R.SatAddU16(detailScroll, 1); } else { SelectDown(); }
      effects := MaybeLoadMore();
    }

    method NavigateTop() returns (effects: seq<E.Effect>)
      modifies this
      ensures Outcome(State(), effects) == R.Navigate(old(State()), Action.NavigateTop)
    {
      if view.Detail? {
        SetDetailScroll(0);
      } else {
        SelectTop();
      }
      effects := [];
    }

    method NavigateBottom() returns (effects: seq<E.Effect>)
      modifies this
      ensures Outcome(State(), effects) == R.Navigate(old(State()), Action.NavigateBottom)
    {
      if view.Detail? { detailScroll := R.U16Max; } else { SelectBottom(); }
      effects := MaybeLoadMore();
    }

    method PageUp() returns (effects: seq<E.Effect>)
      modifies this
      ensures Outcome(State(), effects) == R.Navigate(old(State()), Action.PageUp)
    {
      if view.Detail? { detailScroll := R.SatSub(detailScroll, R.PageHeight); } else { PageSelectUp(); }
      effects := [];
    }

    method PageDown() returns (effects: seq<E.Effect>)
      modifies this
      ensures Outcome(State(), effects) == R.Navigate(old(State()), Action.PageDown)
    {
      if view.Detail? { detailScroll := R.SatAddU16(detailScroll, R.PageHeight); } else { PageSelectDown(); }
      effects := MaybeLoadMore();
    }

    // -------------------------------------------------------------- screens

    /** The arms that open, leave or switch a screen. */
    method ChangeScreen(a: Action, now: nat) returns (effects: seq<E.Effect>)
      modifies this
      ensures Outcome(State(), effects) == R.ChangeScreen(old(State()), a, now)
    {
      ghost var s := State();
      if a.Select? {
        effects := Select();
        assert R.ChangeScreen(s, a, now) == R.HandleSelect(s);
      } else if a.Back? {
        effects := Back();
        assert R.ChangeScreen(s, a, now) == Outcome(R.HandleBack(s), []);
      } else if a.SwitchView? {
        effects := SwitchView(a.viewType);
        assert R.ChangeScreen(s, a, now) == R.ChangeScreen(s, Action.SwitchView(a.viewType), 0);
      } else if a.EnterPendingG? {
        SetInputMode(PendingG);
        effects := [];
        assert R.ChangeScreen(s, a, now) == Outcome(s.(inputMode := PendingG), []);
      } else if a.SwitchNamespace? {
        effects := ChangeNamespace(a.namespace);
        assert R.ChangeScreen(s, a, now) == R.ChangeNamespace(s, a.namespace);
      } else {
        effects := ChangeTab(a, now);
      }
    }

    /** The tab arms and the two sub-screens of a detail. */
    method ChangeTab(a: Action, now: nat) returns (effects: seq<E.Effect>)
      requires !(a.Select? || a.Back? || a.SwitchView? || a.EnterPendingG? || a.SwitchNamespace?)
      modifies this
      ensures Outcome(State(), effects) == R.ChangeScreen(old(State()), a, now)
    {
      ghost var s := State();
      if a.NextTab? {
        effects := NextTab(now);
      } else if a.PrevTab? {
        effects := PrevTab(now);
      } else if a.OpenScheduleWorkflows? {
        effects := OpenScheduleWorkflows(now);
      } else if a.OpenWorkflowActivities? {
        effects := OpenWorkflowActivities(now);
      } else {
        effects := [];
        assert R.ChangeScreen(s, a, now) == Outcome(s, []);
      }
    }

    /** `handle_select`: opens the selected row. */
    method Select() returns (effects: seq<E.Effect>)
      modifies this
      ensures Outcome(State(), effects) == R.HandleSelect(old(State()))
    {
      if view == Collection(WorkflowExecution) {
        effects := OpenSelectedWorkflow();
      } else if view == Collection(Schedule) {
        effects := OpenSelectedSchedule();
      } else {
        effects := [];
      }
    }

    method OpenSelectedWorkflow() returns (effects: seq<E.Effect>)
      requires view == Collection(WorkflowExecution)
      modifies this
      ensures Outcome(State(), effects) == R.HandleSelect(old(State()))
    {
      if workflowSelection.Some? && workflowSelection.value < |R.Rows(workflows)| {
        var wf := R.Rows(workflows)[workflowSelection.value];
        ShowWorkflowDetail(0);
        effects := [E.LoadWorkflowDetail(wf.workflowId, Some(wf.runId)), E.LoadHistory(wf.workflowId, Some(wf.runId))];
      } else {
        effects := [];
      }
    }

    method OpenSelectedSchedule() returns (effects: seq<E.Effect>)
      requires view == Collection(Schedule)
      modifies this
      ensures Outcome(State(), effects) == R.HandleSelect(old(State()))
    {
      if scheduleSelection.Some? && scheduleSelection.value < |R.Rows(schedules)| {
        var sch := R.Rows(schedules)[scheduleSelection.value];
        SetView(Detail(Schedule));
        SetDetailScroll(0);
        effects := [E.LoadScheduleDetail(sch.scheduleId)];
      } else {
        effects := [];
      }
    }

    /** The workflow detail screen on tab `tab`, its history on its way. */
    method ShowWorkflowDetail(tab: nat)
      modifies this
      ensures State() == old(State()).(view := Detail(WorkflowExecution), workflowDetailTab := tab,
                                       workflowHistory := Loading, taskQueueDetail := NotLoaded, detailScroll := 0)
    {
      SetView(Detail(WorkflowExecution));
      SetWorkflowDetailTab(tab);
      SetWorkflowHistory(Loading);
      SetTaskQueueDetail(NotLoaded);
      SetDetailScroll(0);
    }

    /** `handle_back`: a detail view goes back to its list and forgets the
        shown item; the input mode is left as it is. */
    method Back() returns (effects: seq<E.Effect>)
      modifies this
      ensures Outcome(State(), effects) == Outcome(R.HandleBack(old(State())), [])
    {
      if view == Detail(WorkflowExecution) {
        SetView(Collection(WorkflowExecution));
        SetSelectedWorkflow(None);
        SetWorkflowHistory(NotLoaded);
      } else if view == Detail(Schedule) {
        SetView(Collection(Schedule));
        SetSelectedSchedule(None);
      }
      effects := [];
    }

    method SwitchView(viewType: ViewType) returns (effects: seq<E.Effect>)
      modifies this
      ensures Outcome(State(), effects) == R.ChangeScreen(old(State()), Action.SwitchView(viewType), 0)
    {
      SetActiveTab(viewType);
      match viewType
      case WorkflowsTab =>
        SetView(Collection(WorkflowExecution));
        effects := [E.LoadWorkflows];
      case SchedulesTab =>
        SetView(Collection(Schedule));
        effects := [E.LoadSchedules];
      case TaskQueuesTab =>
        effects := [];
    }

    /** `SwitchNamespace`: a fresh start in `ns`, on the list of the kind shown. */
    method ChangeNamespace(ns: string) returns (effects: seq<E.Effect>)
      modifies this
      ensures Outcome(State(), effects) == R.ChangeNamespace(old(State()), ns)
    {
      var onWorkflows := view.kind == WorkflowExecution;
      SetNamespace(ns);
      SetOverlay(NoOverlay);
      ForgetLists();
      if onWorkflows {
        SetView(Collection(WorkflowExecution));
        effects := [E.LoadWorkflows, E.LoadWorkflowCount];
      } else {
        SetView(Collection(Schedule));
        effects := [E.LoadSchedules];
      }
    }

    method ForgetLists()
      modifies this
      ensures State() == old(State()).(workflows := NotLoaded, schedules := NotLoaded,
                                       workflowSelection := None, scheduleSelection := None,
                                       selectedWorkflow := None, selectedSchedule := None, searchQueries := map[])
    {
      SetWorkflows(NotLoaded);
      SetSchedules(NotLoaded);
      SetWorkflowSelection(None);
      SetScheduleSelection(None);
      SetSelectedWorkflow(None);
      SetSelectedSchedule(None);
      SetSearchQueries(map[]);
    }

    method NextTab(now: nat) returns (effects: seq<E.Effect>)
      modifies this
      ensures Outcome(State(), effects) == R.ChangeScreen(old(State()), Action.NextTab, now)
    {
      if view == Detail(WorkflowExecution) {
        SetWorkflowDetailTab(R.NextTabIndex(workflowDetailTab));
        SetDetailScroll(0);
        effects := LoadWorkflowTabData();
      } else {
        effects := [];
      }
    }

    method PrevTab(now: nat) returns (effects: seq<E.Effect>)
      modifies this
      ensures Outcome(State(), effects) == R.ChangeScreen(old(State()), Action.PrevTab, now)
    {
      if view == Detail(WorkflowExecution) {
        SetWorkflowDetailTab(R.PrevTabIndex(workflowDetailTab));
        SetDetailScroll(0);
        effects := LoadWorkflowTabData();
      } else {
        effects := [];
      }
    }

    /** `load_workflow_tab_data` */
    method LoadWorkflowTabData() returns (effects: seq<E.Effect>)
      modifies this
      ensures Outcome(State(), effects) == R.LoadWorkflowTabData(old(State()))
    {
      effects := [];
      if selectedWorkflow.Some? {
        var wf := selectedWorkflow.value;
        if workflowDetailTab == 2 {
          effects := [E.LoadHistory(wf.summary.workflowId, Some(wf.summary.runId))];
        } else if workflowDetailTab == 4 {
          SetTaskQueueDetail(Loading);
          effects := [E.LoadTaskQueueDetail(wf.summary.taskQueue)];
        }
      }
    }

    method OpenScheduleWorkflows(now: nat) returns (effects: seq<E.Effect>)
      modifies this
      ensures Outcome(State(), effects) == R.ChangeScreen(old(State()), Action.OpenScheduleWorkflows, now)
    {
      match R.SelectedScheduleSummary(State())
      case Some(sch) =>
        effects := ApplyLocation(Location(namespace, [Schedules(ScheduleWorkflows(sch.scheduleId, None))]), now);
      case None =>
        effects := [];
    }

    method OpenWorkflowActivities(now: nat) returns (effects: seq<E.Effect>)
      modifies this
      ensures Outcome(State(), effects) == R.ChangeScreen(old(State()), Action.OpenWorkflowActivities, now)
    {
      match R.SelectedWorkflowSummary(State())
      case Some(wf) =>
        effects := ApplyLocation(Location(namespace, [Workflows(WorkflowActivities(wf.workflowId, None))]), now);
      case None =>
        effects := [];
    }

    // -------------------------------------------------------------- apply_location

    /** `apply_location`: shows the screen a deep link names. */
    method ApplyLocation(loc: Location, now: nat) returns (effects: seq<E.Effect>)
      modifies this
      ensures Outcome(State(), effects) == R.ApplyLocation(old(State()), loc, now)
    {
      if namespace != loc.namespace {
        EnterNamespace(loc.namespace);
      }
      match Leaf(loc)
      case None =>
        SetLastError(Some(("invalid uri: missing route", now)));
        effects := [];
      case Some(seg) =>
        effects := ShowRoute(seg);
    }

    /** A fresh start in another namespace: nothing loaded, nothing selected. */
    method EnterNamespace(ns: string)
      modifies this
      ensures State() == R.EnterNamespace(old(State()), ns)
    {
      SetNamespace(ns);
      ForgetWorkflows();
      ForgetSchedules();
      ForgetDetail();
    }

    method ForgetWorkflows()
      modifies this
      ensures State() == old(State()).(workflows := NotLoaded, workflowHistory := NotLoaded, workflowSelection := None,
                                       selectedWorkflow := None, nextPageToken := [], loadingMore := false)
    {
      SetWorkflows(NotLoaded);
      SetWorkflowHistory(NotLoaded);
      SetWorkflowSelection(None);
      SetSelectedWorkflow(None);
      SetNextPageToken([]);
      SetLoadingMore(false);
    }

    method ForgetSchedules()
      modifies this
      ensures State() == old(State()).(schedules := NotLoaded, scheduleSelection := None, selectedSchedule := None)
    {
      SetSchedules(NotLoaded);
      SetScheduleSelection(None);
      SetSelectedSchedule(None);
    }

    method ForgetDetail()
      modifies this
      ensures State() == old(State()).(taskQueueDetail := NotLoaded, workflowDetailTab := 0, detailScroll := 0,
                                       searchQueries := map[])
    {
      SetTaskQueueDetail(NotLoaded);
      SetWorkflowDetailTab(0);
      SetDetailScroll(0);
      SetSearchQueries(map[]);
    }

    /** The screen of one route segment, with its loads. */
    method ShowRoute(seg: RouteSegment) returns (effects: seq<E.Effect>)
      modifies this
      ensures Outcome(State(), effects) == R.ShowRoute(old(State()), seg)
    {
      match seg
      case Workflows(WorkflowCollection(query)) => effects := ShowWorkflowList(query);
      case Workflows(WorkflowDetail(workflowId, runId, tab)) => effects := ShowWorkflow(workflowId, runId, tab);
      case Workflows(WorkflowActivities(workflowId, activityId)) => effects := ShowActivities(workflowId, activityId);
      case Schedules(ScheduleCollection(query)) => effects := ShowScheduleList(query);
      case Schedules(ScheduleDetail(scheduleId)) => effects := ShowSchedule(scheduleId);
      case Schedules(ScheduleWorkflows(scheduleId, query)) => effects := ShowScheduleRuns(scheduleId, query);
    }

    method ShowWorkflowList(query: Option<string>) returns (effects: seq<E.Effect>)
      modifies this
      ensures Outcome(State(), effects) == R.ShowRoute(old(State()), Workflows(WorkflowCollection(query)))
    {
      SetKindQuery(WorkflowExecution, query);
      SetActiveTab(WorkflowsTab);
      SetView(Collection(WorkflowExecution));
      effects := [E.LoadWorkflows, E.LoadWorkflowCount];
    }

    method ShowWorkflow(workflowId: string, runId: Option<string>, tab: Option<string>) returns (effects: seq<E.Effect>)
      modifies this
      ensures Outcome(State(), effects) == R.ShowRoute(old(State()), Workflows(WorkflowDetail(workflowId, runId, tab)))
    {
      SetActiveTab(WorkflowsTab);
      ShowWorkflowDetail(if tab.Some? then R.WorkflowTabFromParam(tab.value) else 0);
      effects := [E.LoadWorkflowDetail(workflowId, runId), E.LoadHistory(workflowId, runId)];
    }

    method ShowActivities(workflowId: string, activityId: Option<string>) returns (effects: seq<E.Effect>)
      modifies this
      ensures Outcome(State(), effects) == R.ShowRoute(old(State()), Workflows(WorkflowActivities(workflowId, activityId)))
    {
      SetActiveTab(WorkflowsTab);
      ShowWorkflowDetail(3);
      effects := [E.LoadWorkflowDetail(workflowId, None), E.LoadHistory(workflowId, None)];
    }

    method ShowScheduleList(query: Option<string>) returns (effects: seq<E.Effect>)
      modifies this
      ensures Outcome(State(), effects) == R.ShowRoute(old(State()), Schedules(ScheduleCollection(query)))
    {
      SetKindQuery(Schedule, query);
      SetActiveTab(SchedulesTab);
      SetView(Collection(Schedule));
      effects := [E.LoadSchedules];
    }

    method ShowSchedule(scheduleId: string) returns (effects: seq<E.Effect>)
      modifies this
      ensures Outcome(State(), effects) == R.ShowRoute(old(State()), Schedules(ScheduleDetail(scheduleId)))
    {
      SetActiveTab(SchedulesTab);
      SetView(Detail(Schedule));
      SetDetailScroll(0);
      effects := [E.LoadScheduleDetail(scheduleId)];
    }

    method ShowScheduleRuns(scheduleId: string, query: Option<string>) returns (effects: seq<E.Effect>)
      modifies this
      ensures Outcome(State(), effects) == R.ShowRoute(old(State()), Schedules(ScheduleWorkflows(scheduleId, query)))
    {
      SetKindQuery(WorkflowExecution, Some(R.CombineScheduleWorkflowQuery(scheduleId, query)));
      SetActiveTab(WorkflowsTab);
      SetView(Collection(WorkflowExecution));
      effects := [E.LoadWorkflows, E.LoadWorkflowCount];
    }

    /** `set_kind_query` */
    method SetKindQuery(kind: KindId, query: Option<string>)
      modifies this
      ensures State() == R.SetKindQuery(old(State()), kind, query)
    {
      if query.Some? {
        SetSearchQueries(searchQueries[kind := query.value]);
      } else {
        SetSearchQueries(searchQueries - {kind});
      }
    }

    // -------------------------------------------------------------- input

    /** The arms of operations, the command line, the search box and help. */
    method HandleInput(a: Action, now: nat) returns (effects: seq<E.Effect>)
      modifies this
      ensures Outcome(State(), effects) == R.HandleInput(old(State()), a, now)
    {
      ghost var s := State();
      if a.RunOperation? {
        effects := RunOperation(a.op, now);
        assert R.HandleInput(s, a, now) == R.OperateAsWritten(s, a.op, now);
      } else if a.CloseOverlay? {
        CloseOverlay();
        effects := [];
        assert R.HandleInput(s, a, now) == R.HandleInput(s, Action.CloseOverlay, 0);
      } else if a.SubmitCommandInput? {
        effects := SubmitCommandInput(a.command, now);
        ghost var o := R.ExecuteCommand(s.(inputMode := Normal), a.command, now);
        assert R.HandleInput(s, a, now) == Outcome(o.state.(inputBuffer := []), o.effects);
      } else if a.SubmitSearch? {
        effects := SubmitSearch(a.query);
        assert R.HandleInput(s, a, now) == R.HandleInput(s, Action.SubmitSearch(a.query), 0);
      } else {
        EditInput(a, now);
        effects := [];
      }
    }

    /** The arms that only open, edit or close the input line and help. */
    method EditInput(a: Action, now: nat)
      requires !(a.RunOperation? || a.CloseOverlay? || a.SubmitCommandInput? || a.SubmitSearch?)
      modifies this
      ensures Outcome(State(), []) == R.HandleInput(old(State()), a, now)
    {
      ghost var s := State();
      if a.OpenCommandInput? {
        SetInputMode(Command);
        SetInputBuffer([]);
        assert R.HandleInput(s, a, now) == Outcome(s.(inputMode := Command, inputBuffer := []), []);
      } else if a.OpenSearch? {
        SetInputMode(Search);
        SetInputBuffer(R.SearchQueryFor(State(), view.kind).GetOr([]));
        assert R.HandleInput(s, a, now)
            == Outcome(s.(inputMode := Search, inputBuffer := R.SearchQueryFor(s, s.view.kind).GetOr([])), []);
      } else if a.UpdateInputBuffer? {
        SetInputBuffer(a.buffer);
        assert R.HandleInput(s, a, now) == Outcome(s.(inputBuffer := a.buffer), []);
      } else if a.ToggleHelp? {
        SetOverlay(if overlay == Help then NoOverlay else Help);
        assert R.HandleInput(s, a, now) == Outcome(s.(overlay := if s.overlay == Help then NoOverlay else Help), []);
      } else {
        assert R.HandleInput(s, a, now) == Outcome(s, []);
      }
    }

    /** `run_operation`: a confirmation dialog, a toast when nothing is
        selected, or the effects at once; the pause mapper is handed
        `selected_schedule`, which only the schedule detail view fills. */
    method RunOperation(op: OperationId, now: nat) returns (effects: seq<E.Effect>)
      modifies this
      ensures Outcome(State(), effects) == R.OperateAsWritten(old(State()), op, now)
    {
      var kind := view.kind;
      var spec := OperationSpecOf(kind, op);
      var effectSpec := OperationEffectSpecOf(op, kind);
      effects := [];
      if spec.Some? && effectSpec.Some? {
        var target := R.OperationTargetOf(State(), kind);
        if target.None? {
          SetLastError(Some((if kind == WorkflowExecution then "no workflow selected" else "no schedule selected", now)));
        } else if spec.value.requiresConfirm {
          SetOverlay(Confirm(OperationConfirm(kind, op, target.value)));
        } else {
          effects := ToEffects(effectSpec.value.toEffects, target.value, selectedSchedule);
        }
      }
    }

    /** `Esc`: the overlay first, then the input mode. */
    method CloseOverlay()
      modifies this
      ensures State() == R.HandleInput(old(State()), Action.CloseOverlay, 0).state
    {
      if overlay != NoOverlay {
        SetOverlay(NoOverlay);
      } else if inputMode != Normal {
        SetInputMode(Normal);
        SetInputBuffer([]);
      }
    }

    method SubmitCommandInput(cmd: string, now: nat) returns (effects: seq<E.Effect>)
      modifies this
      ensures var o := R.ExecuteCommand(old(State()).(inputMode := Normal), cmd, now);
        State() == o.state.(inputBuffer := []) && effects == o.effects
    {
      SetInputMode(Normal);
      effects := ExecuteCommand(cmd, now);
      SetInputBuffer([]);
    }

    method SubmitSearch(query: string) returns (effects: seq<E.Effect>)
      modifies this
      ensures Outcome(State(), effects) == R.HandleInput(old(State()), Action.SubmitSearch(query), 0)
    {
      var kind := view.kind;
      SetInputMode(Normal);
      SetKindQuery(kind, if query == [] then None else Some(query));
      SetInputBuffer([]);
      effects := if kind == WorkflowExecution then [E.LoadWorkflows, E.LoadWorkflowCount] else [E.LoadSchedules];
    }

    // -------------------------------------------------------------- execute_command

    /** `execute_command` */
    method ExecuteCommand(cmd: string, now: nat) returns (effects: seq<E.Effect>)
      modifies this
      ensures Outcome(State(), effects) == R.ExecuteCommand(old(State()), cmd, now)
    {
      effects := RunCommand(R.CommandWord(cmd), R.CommandArgs(cmd), now);
    }

    method RunCommand(command: string, args: Option<string>, now: nat) returns (effects: seq<E.Effect>)
      modifies this
      ensures Outcome(State(), effects) == R.RunCommand(old(State()), command, args, now)
    {
      effects := [];
      match R.VerbOf(command)
      case ListWorkflows =>
        SetActiveTab(WorkflowsTab);
        SetView(Collection(WorkflowExecution));
        effects := [E.LoadWorkflows];
      case ListSchedules =>
        SetActiveTab(SchedulesTab);
        SetView(Collection(Schedule));
        effects := [E.LoadSchedules];
      case SendSignal => effects := SignalCommand(command, args, now);
      case OpenLink => effects := OpenCommand(command, args, now);
      case SetNamespace => effects := NamespaceCommand(command, args, now);
      case QuitApp =>
        SetShouldQuit(true);
        effects := [E.Quit];
      case ShowHelp => SetOverlay(Help);
      case UnknownVerb => SetLastError(Some(("unknown command: " + command, now)));
    }

    method SignalCommand(command: string, args: Option<string>, now: nat) returns (effects: seq<E.Effect>)
      requires R.VerbOf(command) == R.SendSignal
      modifies this
      ensures Outcome(State(), effects) == R.RunCommand(old(State()), command, args, now)
    {
      effects := [];
      if args.None? {
        SetLastError(Some(("usage: :signal <name> [json-input]", now)));
      } else {
        var signal := Text.SplitN2(args.value, ' ');
        match R.SelectedWorkflowSummary(State())
        case Some(wf) => effects := [E.SignalWorkflow(wf.workflowId, Some(wf.runId), signal.0, signal.1)];
        case None => SetLastError(Some(("no workflow selected", now)));
      }
    }

    method OpenCommand(command: string, args: Option<string>, now: nat) returns (effects: seq<E.Effect>)
      requires R.VerbOf(command) == R.OpenLink
      modifies this
      ensures Outcome(State(), effects) == R.RunCommand(old(State()), command, args, now)
    {
      effects := [];
      if args.None? {
        SetLastError(Some(("usage: :open temporal://tui/namespaces/<ns>/...", now)));
      } else {
        match U.ParseDeepLink(args.value)
        case Ok(loc) => effects := ApplyLocation(loc, now);
        case Err(e) => SetLastError(Some(("invalid uri: " + R.FormatUriError(e), now)));
      }
    }

    method NamespaceCommand(command: string, args: Option<string>, now: nat) returns (effects: seq<E.Effect>)
      requires R.VerbOf(command) == R.SetNamespace
      modifies this
      ensures Outcome(State(), effects) == R.RunCommand(old(State()), command, args, now)
    {
      if args.None? {
        SetOverlay(NamespaceSelector);
        effects := [E.LoadNamespaces];
      } else {
        SetNamespace(args.value);
        SetWorkflows(NotLoaded);
        SetSchedules(NotLoaded);
        SetWorkflowSelection(None);
        SetScheduleSelection(None);
        effects := R.RefreshCurrentView(State());
      }
    }

    // -------------------------------------------------------------- loaded data

    /** The arms taking in what a request brought back. */
    method AbsorbLoad(a: Action, now: nat) returns (effects: seq<E.Effect>)
      modifies this
      ensures Outcome(State(), effects) == R.AbsorbLoad(old(State()), a, now)
    {
      effects := [];
      if a.WorkflowsLoaded? || a.MoreWorkflowsLoaded? || a.NamespacesLoaded? || a.SchedulesLoaded? {
        ListLoaded(a, now);
      } else if a.WorkflowDetailLoaded? || a.HistoryLoaded? {
        WorkflowDataLoaded(a, now);
      } else if a.ScheduleDetailLoaded? || a.WorkflowCountLoaded? || a.TaskQueueDetailLoaded? {
        DetailLoaded(a, now);
      }
    }

    /** A page of workflows, the namespaces or the schedules. */
    method ListLoaded(a: Action, now: nat)
      requires a.WorkflowsLoaded? || a.MoreWorkflowsLoaded? || a.NamespacesLoaded? || a.SchedulesLoaded?
      modifies this
      ensures Outcome(State(), []) == R.AbsorbLoad(old(State()), a, now)
    {
      if a.WorkflowsLoaded? {
        WorkflowsLoaded(a.workflows, a.pageToken, now);
      } else if a.MoreWorkflowsLoaded? {
        MoreWorkflowsLoaded(a.workflows, a.pageToken, now);
      } else if a.NamespacesLoaded? {
        NamespacesLoaded(a.namespaces, now);
      } else {
        SchedulesLoaded(a.schedules, now);
      }
    }

    /** The detail or the history of the shown workflow. */
    method WorkflowDataLoaded(a: Action, now: nat)
      requires a.WorkflowDetailLoaded? || a.HistoryLoaded?
      modifies this
      ensures Outcome(State(), []) == R.AbsorbLoad(old(State()), a, now)
    {
      if a.WorkflowDetailLoaded? {
        WorkflowDetailLoaded(a.detail);
      } else {
        HistoryLoaded(a.events);
      }
    }

    /** A schedule's detail, the workflow count or a task queue. */
    method DetailLoaded(a: Action, now: nat)
      requires a.ScheduleDetailLoaded? || a.WorkflowCountLoaded? || a.TaskQueueDetailLoaded?
      modifies this
      ensures Outcome(State(), []) == R.AbsorbLoad(old(State()), a, now)
    {
      if a.ScheduleDetailLoaded? {
        SetSelectedSchedule(Some(a.schedule));
      } else if a.WorkflowCountLoaded? {
        SetWorkflowCount(Some(a.count));
      } else {
        SetTaskQueueDetail(Loaded(a.info));
      }
    }

    method WorkflowsLoaded(wfs: seq<D.WorkflowSummary>, pageToken: seq<int>, now: nat)
      modifies this
      ensures State() == R.AbsorbLoad(old(State()), Action.WorkflowsLoaded(wfs, pageToken), now).state
    {
      SetWorkflows(Loaded(wfs));
      SetNextPageToken(pageToken);
      SetLoadingMore(false);
      SetConnectionStatus(Connected);
      SetLastRefresh(Some(now));
      SetWorkflowSelection(R.Fit(workflowSelection.GetOr(0), |wfs|));
      ResetBackoff();
    }

    method MoreWorkflowsLoaded(wfs: seq<D.WorkflowSummary>, pageToken: seq<int>, now: nat)
      modifies this
      ensures State() == R.AbsorbLoad(old(State()), Action.MoreWorkflowsLoaded(wfs, pageToken), now).state
    {
      if workflows.Loaded? {
        SetWorkflows(Loaded(workflows.data + wfs));
      }
      SetNextPageToken(pageToken);
      SetLoadingMore(false);
      SetConnectionStatus(Connected);
      ResetBackoff();
    }

    /** The namespace list, the selection kept on it. */
    method NamespacesLoaded(nss: seq<D.Namespace>, now: nat)
      modifies this
      ensures State() == R.AbsorbLoad(old(State()), Action.NamespacesLoaded(nss), now).state
    {
      SetNamespaces(nss);
      SetNamespaceSelection(R.Fit(namespaceSelection.GetOr(0), |nss|));
    }

    /** The schedule list, the selection kept on it. */
    method SchedulesLoaded(schs: seq<D.Schedule>, now: nat)
      modifies this
      ensures State() == R.AbsorbLoad(old(State()), Action.SchedulesLoaded(schs), now).state
    {
      SetSchedules(Loaded(schs));
      SetLastRefresh(Some(now));
      SetScheduleSelection(R.Fit(scheduleSelection.GetOr(0), |schs|));
    }

    /** `reset_backoff` */
    method ResetBackoff()
      modifies this
      ensures State() == R.ResetBackoff(old(State()))
    {
      SetErrorCount(0);
      SetPollingInterval(basePollingInterval);
    }

    /** The loaded detail, keeping what the shown one already knows and the
        new one lacks. */
    method WorkflowDetailLoaded(detail: D.WorkflowDetail)
      modifies this
      ensures State() == old(State()).(selectedWorkflow := Some(R.MergeDetail(old(selectedWorkflow), detail)))
    {
      var merged := detail;
      if selectedWorkflow.Some? {
        var existing := selectedWorkflow.value;
        if merged.input.None? { merged := merged.(input := existing.input); }
        if merged.output.None? { merged := merged.(output := existing.output); }
        if merged.failure.None? { merged := merged.(failure := existing.failure); }
        if merged.historyLength == 0 && existing.historyLength > 0 { merged := merged.(historyLength := existing.historyLength); }
      }
      SetSelectedWorkflow(Some(merged));
    }

    /** `HistoryLoaded`: the events read in order into the shown workflow,
        whose history length becomes their number. */
    method HistoryLoaded(events: seq<D.HistoryEvent>)
      modifies this
      ensures State() == old(State()).(
        selectedWorkflow := if old(selectedWorkflow).Some? then Some(R.AbsorbHistory(old(selectedWorkflow).value, events)) else None,
        workflowHistory := Loaded(events))
    {
      if selectedWorkflow.Some? {
        var detail := selectedWorkflow.value;
        var i := 0;
        while i < |events|
          invariant 0 <= i <= |events|
          invariant detail == R.ApplyEvents(old(selectedWorkflow).value, events[..i])
        {
          var e := events[i];
          if R.IsOwnEvent(e, "WorkflowExecutionStarted") && D.Get(e.details, "input").Some? {
            detail := detail.(input := D.Get(e.details, "input"));
          }
          if R.IsOwnEvent(e, "WorkflowExecutionCompleted") && D.Get(e.details, "result").Some? {
            detail := detail.(output := D.Get(e.details, "result"));
          }
          if R.IsOwnEvent(e, "WorkflowExecutionFailed") && D.Get(e.details, "failure").Some? {
            detail := detail.(failure := Some(R.FailureOf(D.Get(e.details, "failure").value)));
          }
          assert events[..i + 1][..i] == events[..i];
          i := i + 1;
        }
        assert events[..|events|] == events;
        SetSelectedWorkflow(Some(detail.(historyLength := |events|)));
      }
      SetWorkflowHistory(Loaded(events));
    }

    // -------------------------------------------------------------- housekeeping

    /** Refreshing, polling, errors and quitting. */
    method Housekeep(a: Action, now: nat) returns (effects: seq<E.Effect>)
      modifies this
      ensures Outcome(State(), effects) == R.Housekeep(old(State()), a, now)
    {
      ghost var s := State();
      if a.Refresh? || a.Tick? {
        effects := Poll(a, now);
      } else if a.Error? {
        RecordError(a.message, now);
        effects := [];
        assert R.Housekeep(s, a, now) == Outcome(R.RecordError(s, a.message, now), []);
      } else {
        effects := Maintain(a, now);
      }
    }

    /** `Refresh`, and `Tick` once the polling interval has passed. */
    method Poll(a: Action, now: nat) returns (effects: seq<E.Effect>)
      requires a.Refresh? || a.Tick?
      ensures Outcome(State(), effects) == R.Housekeep(State(), a, now)
    {
      effects := [];
      if a.Refresh? || (pollingEnabled && (lastRefresh.None? || R.Elapsed(now, lastRefresh.value) >= pollingInterval)) {
        effects := R.RefreshCurrentView(State());
      }
    }

    /** `Quit`, `ClearError` and `TogglePolling`; other actions change nothing. */
    method Maintain(a: Action, now: nat) returns (effects: seq<E.Effect>)
      requires !(a.Refresh? || a.Tick? || a.Error?)
      modifies this
      ensures Outcome(State(), effects) == R.Housekeep(old(State()), a, now)
    {
      ghost var s := State();
      effects := [];
      if a.Quit? {
        SetShouldQuit(true);
        effects := [E.Quit];
        assert R.Housekeep(s, a, now) == Outcome(s.(shouldQuit := true), [E.Quit]);
      } else if a.ClearError? {
        SetLastError(None);
        assert R.Housekeep(s, a, now) == Outcome(s.(lastError := None), []);
      } else if a.TogglePolling? {
        SetPollingEnabled(!pollingEnabled);
        assert R.Housekeep(s, a, now) == Outcome(s.(pollingEnabled := !s.pollingEnabled), []);
      } else {
        assert R.Housekeep(s, a, now) == Outcome(s, []);
      }
    }

    /** `Action::Error` */
    method RecordError(message: string, now: nat)
      modifies this
      ensures State() == R.RecordError(old(State()), message, now)
    {
      SetLastError(Some((message, now)));
      SetErrorCount(errorCount + 1);
      ApplyBackoff();
      if connectionStatus == Connected {
        SetConnectionStatus(ConnectionError(message));
      }
    }

    /** `apply_backoff` */
    method ApplyBackoff()
      modifies this
      ensures State() == R.ApplyBackoff(old(State()))
    {
      SetPollingInterval(R.Min(basePollingInterval * R.Pow2(R.Min(errorCount, R.MaxBackoffExponent)), R.MaxBackoffSecs));
    }

    // -------------------------------------------------------------- update

    /** `App::update`: clears a stale toast, then runs the action's arm. */
    method Update(a: Action, now: nat) returns (effects: seq<E.Effect>)
      modifies this
      ensures Outcome(State(), effects) == R.Update(old(State()), a, now)
    {
      ClearStaleToast(now);
      effects := Step(a, now);
    }

    /** The arm of `a`, by its group. */
    method Step(a: Action, now: nat) returns (effects: seq<E.Effect>)
      modifies this
      ensures Outcome(State(), effects) == R.Step(old(State()), a, now)
    {
      ghost var s := State();
      if R.IsNavigation(a) {
        assert R.Step(s, a, now) == R.Navigate(s, a);
        effects := Navigate(a);
      } else if R.IsScreenChange(a) {
        assert R.Step(s, a, now) == R.ChangeScreen(s, a, now);
        effects := ChangeScreen(a, now);
      } else if R.IsInput(a) {
        assert R.Step(s, a, now) == R.HandleInput(s, a, now);
        effects := HandleInput(a, now);
      } else if R.IsDataLoad(a) {
        assert R.Step(s, a, now) == R.AbsorbLoad(s, a, now);
        effects := AbsorbLoad(a, now);
      } else {
        assert R.Step(s, a, now) == R.Housekeep(s, a, now);
        effects := Housekeep(a, now);
      }
    }
  }
}
