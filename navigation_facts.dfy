/** What the navigation, namespace, overlay, search and command actions of
    `App::update` promise, and the invariant every action keeps. */
module NavigationFacts {
  import opened Wrappers
  import Text
  import opened Location
  import opened Kinds
  import opened AppTypes
  import opened Reducer
  import D = Domain
  import E = Effects
  import U = Uri

  // ---------------------------------------------------------------- the invariant

  lemma ValidInitial(namespace: string)
    ensures Valid(Initial(namespace))
    ensures CurrentLocation(Initial(namespace)) == Location(namespace, [Workflows(WorkflowCollection(None))])
  {
  }

  lemma {:induction false} SelectDownTimesValid(s: AppState, n: nat)
    requires Valid(s)
    ensures Valid(SelectDownTimes(s, n))
  {
    if n > 0 {
      SelectDownTimesValid(s, n - 1);
      SelectDownValid(SelectDownTimes(s, n - 1));
    }
  }

  lemma {:induction false} SelectUpTimesValid(s: AppState, n: nat)
    requires Valid(s)
    ensures Valid(SelectUpTimes(s, n))
  {
    if n > 0 {
      SelectUpTimesValid(s, n - 1);
      SelectUpValid(SelectUpTimes(s, n - 1));
    }
  }

  lemma {:induction false} SelectDownTimesKeepsLists(s: AppState, n: nat)
    ensures var t := SelectDownTimes(s, n);
      t.view == s.view && t.workflows == s.workflows && t.schedules == s.schedules
  {
    if n > 0 {
      SelectDownTimesKeepsLists(s, n - 1);
    }
  }

  lemma {:induction false} SelectUpTimesKeepsLists(s: AppState, n: nat)
    ensures var t := SelectUpTimes(s, n);
      t.view == s.view && t.workflows == s.workflows && t.schedules == s.schedules
  {
    if n > 0 {
      SelectUpTimesKeepsLists(s, n - 1);
    }
  }

  /** What showing a route leaves alone: the namespace, the lists, their
      selections and the shown items, and the paging; the tab it sets is one
      of the five, it never scrolls further down, and the only search it
      stores is for the list it shows. */
  predicate RouteFrame(t: AppState, u: AppState) {
    u.namespace == t.namespace && u.namespaces == t.namespaces && u.namespaceSelection == t.namespaceSelection
    && u.workflows == t.workflows && u.schedules == t.schedules
    && u.workflowSelection == t.workflowSelection && u.scheduleSelection == t.scheduleSelection
    && u.selectedWorkflow == t.selectedWorkflow && u.selectedSchedule == t.selectedSchedule
    && u.nextPageToken == t.nextPageToken && u.loadingMore == t.loadingMore
    && (u.workflowDetailTab == t.workflowDetailTab || u.workflowDetailTab < WorkflowTabCount)
    && u.detailScroll <= t.detailScroll
    && (forall k :: k in u.searchQueries ==> k in t.searchQueries || u.view == Collection(k))
  }

  lemma WorkflowListFrame(t: AppState, query: Option<string>)
    ensures RouteFrame(t, ShowRoute(t, Workflows(WorkflowCollection(query))).state)
  {
  }

  lemma WorkflowDetailFrame(t: AppState, workflowId: string, runId: Option<string>, tab: Option<string>)
    ensures RouteFrame(t, ShowRoute(t, Workflows(WorkflowDetail(workflowId, runId, tab))).state)
  {
  }

  lemma WorkflowActivitiesFrame(t: AppState, workflowId: string, activityId: Option<string>)
    ensures RouteFrame(t, ShowRoute(t, Workflows(WorkflowActivities(workflowId, activityId))).state)
  {
  }

  lemma ScheduleListFrame(t: AppState, query: Option<string>)
    ensures RouteFrame(t, ShowRoute(t, Schedules(ScheduleCollection(query))).state)
  {
  }

  lemma ScheduleDetailFrame(t: AppState, scheduleId: string)
    ensures RouteFrame(t, ShowRoute(t, Schedules(ScheduleDetail(scheduleId))).state)
  {
  }

  lemma ScheduleWorkflowsFrame(t: AppState, scheduleId: string, query: Option<string>)
    ensures RouteFrame(t, ShowRoute(t, Schedules(ScheduleWorkflows(scheduleId, query))).state)
  {
  }

  /** Every route keeps the frame. */
  lemma ShowRouteFrame(t: AppState, seg: RouteSegment)
    ensures RouteFrame(t, ShowRoute(t, seg).state)
  {
    match seg {
      case Workflows(WorkflowCollection(query)) => WorkflowListFrame(t, query);
      case Workflows(WorkflowDetail(workflowId, runId, tab)) => WorkflowDetailFrame(t, workflowId, runId, tab);
      case Workflows(WorkflowActivities(workflowId, activityId)) => WorkflowActivitiesFrame(t, workflowId, activityId);
      case Schedules(ScheduleCollection(query)) => ScheduleListFrame(t, query);
      case Schedules(ScheduleDetail(scheduleId)) => ScheduleDetailFrame(t, scheduleId);
      case Schedules(ScheduleWorkflows(scheduleId, query)) => ScheduleWorkflowsFrame(t, scheduleId, query);
    }
  }

  /** Opening a link keeps the invariant. */
  lemma ApplyLocationValid(s: AppState, loc: Location, now: nat)
    requires Valid(s)
    ensures Valid(ApplyLocation(s, loc, now).state)
  {
    var t := Retarget(s, loc.namespace);
    assert Valid(t);
    if Leaf(loc).Some? {
      ShowRouteFrame(t, Leaf(loc).value);
    }
  }

  lemma OpenLinkValid(s: AppState, command: string, args: Option<string>, now: nat)
    requires Valid(s) && VerbOf(command) == OpenLink
    ensures Valid(RunCommand(s, command, args, now).state)
  {
    if args.Some? && U.ParseDeepLink(args.value).Ok? {
      ApplyLocationValid(s, U.ParseDeepLink(args.value).value, now);
    }
  }

  lemma SignalValid(s: AppState, command: string, args: Option<string>, now: nat)
    requires Valid(s) && VerbOf(command) == SendSignal
    ensures Valid(RunCommand(s, command, args, now).state)
  {
    var t := RunCommand(s, command, args, now).state;
    assert KeepsLists(s, t) && t.detailScroll == s.detailScroll;
    KeepsListsValid(s, t);
  }

  lemma OtherCommandValid(s: AppState, command: string, args: Option<string>, now: nat)
    requires Valid(s) && VerbOf(command) != SendSignal && VerbOf(command) != OpenLink
    ensures Valid(RunCommand(s, command, args, now).state)
  {
  }

  /** Every command keeps the invariant. */
  lemma RunCommandValid(s: AppState, command: string, args: Option<string>, now: nat)
    requires Valid(s)
    ensures Valid(RunCommand(s, command, args, now).state)
  {
    if VerbOf(command) == OpenLink {
      OpenLinkValid(s, command, args, now);
    } else if VerbOf(command) == SendSignal {
      SignalValid(s, command, args, now);
    } else {
      OtherCommandValid(s, command, args, now);
    }
  }

  lemma SelectUpValid(s: AppState)
    requires Valid(s)
    ensures Valid(SelectUp(s)) && SelectUp(s).view == s.view
  {
    if s.view.Detail? {
    } else if s.view.kind == WorkflowExecution {
    } else {
    }
  }

  lemma SelectDownValid(s: AppState)
    requires Valid(s)
    ensures Valid(SelectDown(s)) && SelectDown(s).view == s.view
  {
    if s.view.Detail? {
    } else if s.view.kind == WorkflowExecution {
    } else {
    }
  }

  /** `t` has the lists, the selections and the detail tab of `s`. */
  predicate KeepsLists(s: AppState, t: AppState) {
    t.workflows == s.workflows && t.schedules == s.schedules && t.namespaces == s.namespaces
    && t.workflowSelection == s.workflowSelection && t.scheduleSelection == s.scheduleSelection
    && t.namespaceSelection == s.namespaceSelection && t.workflowDetailTab == s.workflowDetailTab
  }

  lemma KeepsListsValid(s: AppState, t: AppState)
    requires Valid(s) && KeepsLists(s, t) && t.detailScroll <= U16Max
    ensures Valid(t)
  {
  }

  /** The moving arms keep the invariant. */
  lemma {:induction false} NavigateValid(s: AppState, a: Action)
    requires Valid(s) && IsNavigation(a)
    ensures Valid(Navigate(s, a).state)
  {
    if IsDetail(s.view) {
      DetailMoveKeepsLists(s, a);
      KeepsListsValid(s, Navigate(s, a).state);
    } else {
      ListMoveValid(s, a);
    }
  }

  /** In a detail view the moving arms only scroll, within a `u16`. */
  lemma {:induction false} DetailMoveKeepsLists(s: AppState, a: Action)
    requires IsDetail(s.view) && IsNavigation(a) && s.detailScroll <= U16Max
    ensures KeepsLists(s, Navigate(s, a).state) && Navigate(s, a).state.detailScroll <= U16Max
  {
    var t := Navigate(s, a).state;
    if a.NavigateUp? || a.NavigateTop? || a.PageUp? {
      assert t.detailScroll <= s.detailScroll;
      assert KeepsLists(s, t);
    } else {
      assert Navigate(s, a) == MaybeLoadMore(s.(detailScroll := t.detailScroll));
    }
  }

  lemma {:induction false} ListMoveValid(s: AppState, a: Action)
    requires Valid(s) && !IsDetail(s.view) && IsNavigation(a)
    ensures Valid(Navigate(s, a).state)
  {
    if a == NavigateUp || a == NavigateDown {
      StepMoveValid(s, a);
    } else if a == NavigateTop || a == NavigateBottom {
      EndMoveValid(s, a);
    } else {
      PageMoveValid(s, a);
    }
  }

  lemma {:induction false} StepMoveValid(s: AppState, a: Action)
    requires Valid(s) && !IsDetail(s.view) && (a == NavigateUp || a == NavigateDown)
    ensures Valid(Navigate(s, a).state)
  {
    if a == NavigateUp {
      SelectUpValid(s);
    } else {
      SelectDownValid(s);
    }
  }

  lemma {:induction false} EndMoveValid(s: AppState, a: Action)
    requires Valid(s) && !IsDetail(s.view) && (a == NavigateTop || a == NavigateBottom)
    ensures Valid(Navigate(s, a).state)
  {
    if s.view.kind == WorkflowExecution {
    } else {
    }
  }

  lemma {:induction false} PageMoveValid(s: AppState, a: Action)
    requires Valid(s) && !IsDetail(s.view) && (a == PageUp || a == PageDown)
    ensures Valid(Navigate(s, a).state)
  {
    if a == PageUp {
      SelectUpTimesValid(s, PageHeight);
    } else {
      SelectDownTimesValid(s, PageHeight);
    }
  }

  /** The arms that open, leave or switch a screen keep the invariant. */
  lemma {:induction false} ChangeScreenValid(s: AppState, a: Action, now: nat)
    requires Valid(s) && IsScreenChange(a)
    ensures Valid(ChangeScreen(s, a, now).state)
  {
    if a.Select? || a.Back? || a.SwitchView? || a.EnterPendingG? || a.SwitchNamespace? {
      OpenOrLeaveValid(s, a, now);
    } else if a.NextTab? || a.PrevTab? {
      TabChangeValid(s, a, now);
    } else {
      JumpValid(s, a, now);
    }
  }

  lemma {:induction false} OpenOrLeaveValid(s: AppState, a: Action, now: nat)
    requires Valid(s)
    requires a.Select? || a.Back? || a.SwitchView? || a.EnterPendingG? || a.SwitchNamespace?
    ensures Valid(ChangeScreen(s, a, now).state)
  {
    if a == Select || a == Back {
      SelectOrBackValid(s, a, now);
    } else if a == EnterPendingG || a.SwitchNamespace? {
      ModeOrNamespaceValid(s, a, now);
    } else {
      SwitchViewValid(s, a.viewType, now);
    }
  }

  lemma {:induction false} SelectOrBackValid(s: AppState, a: Action, now: nat)
    requires Valid(s) && (a == Select || a == Back)
    ensures Valid(ChangeScreen(s, a, now).state)
  {
    if s.view.kind == WorkflowExecution {
    } else {
    }
  }

  lemma {:induction false} ModeOrNamespaceValid(s: AppState, a: Action, now: nat)
    requires Valid(s) && (a == EnterPendingG || a.SwitchNamespace?)
    ensures Valid(ChangeScreen(s, a, now).state)
  {
    if a == EnterPendingG {
      KeepsListsValid(s, ChangeScreen(s, EnterPendingG, now).state);
    } else {
      NamespaceSwitchValid(s, a.namespace, now);
    }
  }

  lemma {:induction false} NamespaceSwitchValid(s: AppState, namespace: string, now: nat)
    requires Valid(s)
    ensures Valid(ChangeScreen(s, SwitchNamespace(namespace), now).state)
  {
    assert ChangeScreen(s, SwitchNamespace(namespace), now) == ChangeNamespace(s, namespace);
  }

  lemma {:induction false} SwitchViewValid(s: AppState, viewType: ViewType, now: nat)
    requires Valid(s)
    ensures Valid(ChangeScreen(s, SwitchView(viewType), now).state)
  {
    KeepsListsValid(s, ChangeScreen(s, SwitchView(viewType), now).state);
  }

  lemma {:induction false} TabChangeValid(s: AppState, a: Action, now: nat)
    requires Valid(s) && (a.NextTab? || a.PrevTab?)
    ensures Valid(ChangeScreen(s, a, now).state)
  {
    var t := ChangeScreen(s, a, now).state;
    if s.view == Detail(WorkflowExecution) {
      var tab := if a.NextTab? then NextTabIndex(s.workflowDetailTab) else PrevTabIndex(s.workflowDetailTab);
      assert ChangeScreen(s, a, now) == LoadWorkflowTabData(s.(workflowDetailTab := tab, detailScroll := 0));
    } else {
      assert t == s;
    }
  }

  lemma {:induction false} JumpValid(s: AppState, a: Action, now: nat)
    requires Valid(s) && (a.OpenScheduleWorkflows? || a.OpenWorkflowActivities?)
    ensures Valid(ChangeScreen(s, a, now).state)
  {
    if a.OpenScheduleWorkflows? {
      if SelectedScheduleSummary(s).Some? {
        var loc := Location(s.namespace, [Schedules(ScheduleWorkflows(SelectedScheduleSummary(s).value.scheduleId, None))]);
        assert ChangeScreen(s, a, now) == ApplyLocation(s, loc, now);
        ApplyLocationValid(s, loc, now);
      }
    } else {
      if SelectedWorkflowSummary(s).Some? {
        var loc := Location(s.namespace, [Workflows(WorkflowActivities(SelectedWorkflowSummary(s).value.workflowId, None))]);
        assert ChangeScreen(s, a, now) == ApplyLocation(s, loc, now);
        ApplyLocationValid(s, loc, now);
      }
    }
  }

  /** The operation, command-line, search and help arms keep the invariant:
      only a command touches a list, a selection, the tab or the scroll. */
  lemma {:induction false} HandleInputValid(s: AppState, a: Action, now: nat)
    requires Valid(s) && IsInput(a)
    ensures Valid(HandleInput(s, a, now).state)
  {
    if a.SubmitCommandInput? {
      CommandInputValid(s, a.command, now);
    } else if a.RunOperation? {
      OperationValid(s, a.op, now);
    } else if a == OpenCommandInput || a == OpenSearch || a == ToggleHelp {
      OpenInputValid(s, a, now);
    } else {
      EditInputValid(s, a, now);
    }
  }

  lemma {:induction false} CommandInputValid(s: AppState, command: string, now: nat)
    requires Valid(s)
    ensures Valid(HandleInput(s, SubmitCommandInput(command), now).state)
  {
    RunCommandValid(s.(inputMode := Normal), CommandWord(command), CommandArgs(command), now);
  }

  lemma {:induction false} OperationValid(s: AppState, op: OperationId, now: nat)
    requires Valid(s)
    ensures Valid(HandleInput(s, RunOperation(op), now).state)
  {
    OperateKeepsLists(s, op, now, s.selectedSchedule);
    KeepsListsValid(s, HandleInput(s, RunOperation(op), now).state);
  }

  /** `run_operation` only opens a dialog or sets the toast. */
  lemma {:induction false} OperateKeepsLists(s: AppState, op: OperationId, now: nat, pauseSource: Option<D.Schedule>)
    ensures var t := OperateWith(s, op, now, pauseSource).state;
      KeepsLists(s, t) && t.detailScroll == s.detailScroll
  {
    var kind := s.view.kind;
    var t := OperateWith(s, op, now, pauseSource).state;
    if OperationSpecOf(kind, op).None? || OperationEffectSpecOf(op, kind).None? {
      assert t == s;
    } else if OperationTargetOf(s, kind).None? {
      assert t.workflows == s.workflows && t.schedules == s.schedules;
    } else if OperationSpecOf(kind, op).value.requiresConfirm {
      assert t == s.(overlay := t.overlay);
    } else {
      assert t == s;
    }
  }

  lemma {:induction false} OpenInputValid(s: AppState, a: Action, now: nat)
    requires Valid(s) && (a == OpenCommandInput || a == OpenSearch || a == ToggleHelp)
    ensures Valid(HandleInput(s, a, now).state)
  {
  }

  lemma {:induction false} EditInputValid(s: AppState, a: Action, now: nat)
    requires Valid(s) && (a == CloseOverlay || a.UpdateInputBuffer? || a.SubmitSearch?)
    ensures Valid(HandleInput(s, a, now).state)
  {
    if a == CloseOverlay {
      CloseOverlayValid(s, now);
    } else if a.UpdateInputBuffer? {
      BufferValid(s, a.buffer, now);
    } else {
      SearchValid(s, a.query, now);
    }
  }

  lemma {:induction false} CloseOverlayValid(s: AppState, now: nat)
    requires Valid(s)
    ensures Valid(HandleInput(s, CloseOverlay, now).state)
  {
    KeepsListsValid(s, HandleInput(s, CloseOverlay, now).state);
  }

  lemma {:induction false} BufferValid(s: AppState, buffer: string, now: nat)
    requires Valid(s)
    ensures Valid(HandleInput(s, UpdateInputBuffer(buffer), now).state)
  {
    assert HandleInput(s, UpdateInputBuffer(buffer), now).state == s.(inputBuffer := buffer);
  }

  lemma {:induction false} SearchValid(s: AppState, query: string, now: nat)
    requires Valid(s)
    ensures Valid(HandleInput(s, SubmitSearch(query), now).state)
  {
    var t := SetKindQuery(s.(inputMode := Normal), s.view.kind, if query == [] then None else Some(query));
    assert HandleInput(s, SubmitSearch(query), now).state == t.(inputBuffer := []);
    KeepsListsValid(s, t.(inputBuffer := []));
  }

  /** What a request brings back keeps the invariant: a fresh list refits
      its selection, and a further page only makes the list longer. */
  lemma AbsorbLoadValid(s: AppState, a: Action, now: nat)
    requires Valid(s) && IsDataLoad(a)
    ensures Valid(AbsorbLoad(s, a, now).state)
  {
  }

  /** Every action keeps the invariant. */
  lemma {:induction false} UpdateValid(s: AppState, a: Action, now: nat)
    requires Valid(s)
    ensures Valid(Update(s, a, now).state)
  {
    var p := ClearStaleToast(s, now);
    assert Valid(p);
    if IsNavigation(a) {
      assert Update(s, a, now) == Navigate(p, a);
      NavigateValid(p, a);
    } else if IsScreenChange(a) {
      assert Update(s, a, now) == ChangeScreen(p, a, now);
      ChangeScreenValid(p, a, now);
    } else if IsInput(a) {
      assert Update(s, a, now) == HandleInput(p, a, now);
      HandleInputValid(p, a, now);
    } else if IsDataLoad(a) {
      assert Update(s, a, now) == AbsorbLoad(p, a, now);
      AbsorbLoadValid(p, a, now);
    } else {
      assert Update(s, a, now) == Housekeep(p, a, now);
      HousekeepValid(p, a, now);
    }
  }

  /** Refreshing, polling, errors and quitting keep the invariant. */
  lemma {:induction false} HousekeepValid(s: AppState, a: Action, now: nat)
    requires Valid(s)
    ensures Valid(Housekeep(s, a, now).state)
  {
    KeepsListsValid(s, Housekeep(s, a, now).state);
  }

  // ---------------------------------------------------------------- select and back

  /** On a list with the selection on a row, `Select` opens that row's
      detail and asks for it (and for its history, for a workflow); `Back`
      from there returns to the list as it was, with the same rows and the
      same selection. */
  lemma SelectThenBack(s: AppState)
    requires s.view.Collection?
    requires s.view.kind == WorkflowExecution ==> s.workflowSelection.Some? && s.workflowSelection.value < |Rows(s.workflows)|
    requires s.view.kind == Schedule ==> s.scheduleSelection.Some? && s.scheduleSelection.value < |Rows(s.schedules)|
    ensures var o := HandleSelect(s);
      o.state.view == Detail(s.view.kind) && o.state.detailScroll == 0
      && (s.view.kind == WorkflowExecution ==>
            var wf := Rows(s.workflows)[s.workflowSelection.value];
            o.effects == [E.LoadWorkflowDetail(wf.workflowId, Some(wf.runId)), E.LoadHistory(wf.workflowId, Some(wf.runId))]
            && o.state.workflowDetailTab == 0)
      && (s.view.kind == Schedule ==>
            o.effects == [E.LoadScheduleDetail(Rows(s.schedules)[s.scheduleSelection.value].scheduleId)])
    ensures var t := HandleBack(HandleSelect(s).state);
      t.view == s.view && t.workflows == s.workflows && t.schedules == s.schedules
      && t.workflowSelection == s.workflowSelection && t.scheduleSelection == s.scheduleSelection
      && t.namespace == s.namespace && t.searchQueries == s.searchQueries
  {
    if s.view.kind == WorkflowExecution {
    } else {
    }
  }

  /** Outside a list with the selection on a row, `Select` does nothing. */
  lemma SelectWithoutRowIgnored(s: AppState)
    requires s.view.Detail?
      || (s.view.kind == WorkflowExecution && !(s.workflowSelection.Some? && s.workflowSelection.value < |Rows(s.workflows)|))
      || (s.view.kind == Schedule && !(s.scheduleSelection.Some? && s.scheduleSelection.value < |Rows(s.schedules)|))
    ensures HandleSelect(s) == Outcome(s, [])
  {
  }

  // ---------------------------------------------------------------- paging

  /** `n` steps down a list land `n` rows further, stopping on the last row;
      from no selection the first step lands on the first row. */
  lemma {:induction false} DownTimesLands(sel: Option<nat>, len: nat, n: nat)
    requires len > 0 && n > 0
    ensures StepsDown(sel, len, n) == Fit(if sel.None? then n - 1 else sel.value + n, len)
  {
    if n > 1 {
      DownTimesLands(sel, len, n - 1);
    }
  }

  /** `n` steps up a list from a row of it land `n` rows higher, stopping on
      the first row; from no selection the first step lands on the last row. */
  lemma {:induction false} UpTimesLands(sel: Option<nat>, len: nat, n: nat)
    requires len > 0 && n > 0 && Fits(sel, len)
    ensures StepsUp(sel, len, n) == Fit(if sel.None? then SatSub(len - 1, n - 1) else SatSub(sel.value, n), len)
  {
    if n > 1 {
      UpTimesLands(sel, len, n - 1);
    }
  }

  /** `SelectNext` repeated. */
  function StepsDown(sel: Option<nat>, len: nat, n: nat): Option<nat> {
    if n == 0 then sel else SelectNext(StepsDown(sel, len, n - 1), len)
  }

  /** `SelectPrevious` repeated. */
  function StepsUp(sel: Option<nat>, len: nat, n: nat): Option<nat> {
    if n == 0 then sel else SelectPrevious(StepsUp(sel, len, n - 1), len)
  }

  lemma {:induction false} SelectDownTimesIsSteps(s: AppState, n: nat)
    requires s.view == Collection(WorkflowExecution) && |Rows(s.workflows)| > 0
    ensures SelectDownTimes(s, n).workflowSelection == StepsDown(s.workflowSelection, |Rows(s.workflows)|, n)
  {
    if n > 0 {
      SelectDownTimesIsSteps(s, n - 1);
      SelectDownTimesKeepsLists(s, n - 1);
    }
  }

  lemma {:induction false} SelectUpTimesIsSteps(s: AppState, n: nat)
    requires s.view == Collection(WorkflowExecution)
    ensures SelectUpTimes(s, n).workflowSelection == StepsUp(s.workflowSelection, |Rows(s.workflows)|, n)
  {
    if n > 0 {
      SelectUpTimesIsSteps(s, n - 1);
      SelectUpTimesKeepsLists(s, n - 1);
    }
  }

  /** Twenty steps down the workflow list. */
  lemma PageDownLands(s: AppState)
    requires s.view == Collection(WorkflowExecution) && |Rows(s.workflows)| > 0
    ensures var sel := s.workflowSelection;
      SelectDownTimes(s, PageHeight).workflowSelection
        == Fit(if sel.None? then PageHeight - 1 else sel.value + PageHeight, |Rows(s.workflows)|)
  {
    SelectDownTimesIsSteps(s, PageHeight);
    DownTimesLands(s.workflowSelection, |Rows(s.workflows)|, PageHeight);
  }

  /** Twenty steps up the workflow list. */
  lemma PageUpLands(s: AppState)
    requires s.view == Collection(WorkflowExecution) && |Rows(s.workflows)| > 0 && Valid(s)
    ensures var sel := s.workflowSelection;
      SelectUpTimes(s, PageHeight).workflowSelection
        == Fit(if sel.None? then SatSub(|Rows(s.workflows)| - 1, PageHeight - 1) else SatSub(sel.value, PageHeight),
               |Rows(s.workflows)|)
  {
    SelectUpTimesIsSteps(s, PageHeight);
    UpTimesLands(s.workflowSelection, |Rows(s.workflows)|, PageHeight);
  }

  /** Page down in the workflow list moves the selection twenty rows down,
      stopping on the last row. */
  lemma PageDownMoves(s: AppState, now: nat)
    requires s.view == Collection(WorkflowExecution) && |Rows(s.workflows)| > 0
    ensures var sel := s.workflowSelection;
      Update(s, PageDown, now).state.workflowSelection
        == Fit(if sel.None? then PageHeight - 1 else sel.value + PageHeight, |Rows(s.workflows)|)
  {
    PageDownLands(ClearStaleToast(s, now));
  }

  /** Page up in the workflow list moves the selection twenty rows up,
      stopping on the first row. */
  lemma PageUpMoves(s: AppState, now: nat)
    requires s.view == Collection(WorkflowExecution) && |Rows(s.workflows)| > 0 && Valid(s)
    ensures var sel := s.workflowSelection;
      Update(s, PageUp, now).state.workflowSelection
        == Fit(if sel.None? then SatSub(|Rows(s.workflows)| - 1, PageHeight - 1) else SatSub(sel.value, PageHeight),
               |Rows(s.workflows)|)
  {
    PageUpLands(ClearStaleToast(s, now));
  }

  /** In a detail view page up scrolls twenty lines up, stopping at the top. */
  lemma PageUpScrolls(s: AppState, now: nat)
    requires IsDetail(s.view)
    ensures Update(s, PageUp, now).state.detailScroll == if s.detailScroll >= PageHeight then s.detailScroll - PageHeight else 0
  {
  }

  /** In a detail view page down scrolls twenty lines down, stopping at the
      `u16` maximum, and asks for nothing. */
  lemma PageDownScrolls(s: AppState, now: nat)
    requires IsDetail(s.view)
    ensures Update(s, PageDown, now) == Outcome(ClearStaleToast(s, now).(detailScroll := Min(s.detailScroll + PageHeight, U16Max)), [])
  {
  }

  // ---------------------------------------------------------------- namespaces

  /** The list screen of a kind, with no filter. */
  function ListOf(kind: KindId, namespace: string): Location {
    if kind == WorkflowExecution then Location(namespace, [Workflows(WorkflowCollection(None))])
    else Location(namespace, [Schedules(ScheduleCollection(None))])
  }

  /** Switching namespace closes the selector and shows the new namespace's
      list of the kind shown before, with no filter and nothing selected, and
      loads exactly what a refresh of that list loads. */
  lemma SwitchNamespaceShowsList(s: AppState, namespace: string)
    ensures var o := ChangeNamespace(s, namespace);
      CurrentLocation(o.state) == ListOf(s.view.kind, namespace)
      && o.state.overlay == NoOverlay
      && o.state.workflowSelection.None? && o.state.scheduleSelection.None?
      && o.state.selectedWorkflow.None? && o.state.selectedSchedule.None?
      && o.effects == RefreshCurrentView(o.state)
  {
  }

  /** A link into another namespace forgets everything of the old one: lists,
      selections, shown items, paging and every stored search but the one the
      link itself brings. */
  lemma NewNamespaceForgets(s: AppState, loc: Location, now: nat)
    requires loc.namespace != s.namespace
    ensures var u := ApplyLocation(s, loc, now).state;
      u.namespace == loc.namespace
      && u.workflows == NotLoaded && u.schedules == NotLoaded
      && u.workflowSelection.None? && u.scheduleSelection.None?
      && u.selectedWorkflow.None? && u.selectedSchedule.None?
      && u.nextPageToken == [] && !u.loadingMore
      && (forall k :: k in u.searchQueries ==> u.view == Collection(k))
  {
    var t := Retarget(s, loc.namespace);
    assert t.searchQueries == map[];
    if Leaf(loc).Some? {
      ShowRouteFrame(t, Leaf(loc).value);
    }
  }

  /** A link into the shown namespace keeps the loaded lists and selections. */
  lemma SameNamespaceKeepsLists(s: AppState, loc: Location, now: nat)
    requires loc.namespace == s.namespace
    ensures var u := ApplyLocation(s, loc, now).state;
      u.workflows == s.workflows && u.schedules == s.schedules
      && u.workflowSelection == s.workflowSelection && u.scheduleSelection == s.scheduleSelection
      && u.selectedWorkflow == s.selectedWorkflow && u.selectedSchedule == s.selectedSchedule
      && u.namespace == s.namespace
  {
    if Leaf(loc).Some? {
      ShowRouteFrame(s, Leaf(loc).value);
    }
  }

  /** A link without a route shows nothing new and reports it. */
  lemma MissingRouteReported(s: AppState, namespace: string, now: nat)
    ensures var o := ApplyLocation(s, Location(namespace, []), now);
      o.effects == [] && o.state.view == s.view
      && o.state.lastError == Some(("invalid uri: missing route", now))
  {
  }

  // ---------------------------------------------------------------- links of the shown screen

  /** Opening the link of the workflow list shows that list with that
      filter: the screen's own link is then the link opened, and the loads
      are those of a refresh. */
  lemma WorkflowListLinkRoundTrip(s: AppState, namespace: string, query: Option<string>, now: nat)
    ensures var loc := Location(namespace, [Workflows(WorkflowCollection(query))]);
      var o := ApplyLocation(s, loc, now);
      CurrentLocation(o.state) == loc && o.effects == RefreshCurrentView(o.state)
  {
    var t := Retarget(s, namespace);
    KindQueryStored(t, WorkflowExecution, query, Schedule);
  }

  /** The same for the schedule list. */
  lemma ScheduleListLinkRoundTrip(s: AppState, namespace: string, query: Option<string>, now: nat)
    ensures var loc := Location(namespace, [Schedules(ScheduleCollection(query))]);
      var o := ApplyLocation(s, loc, now);
      CurrentLocation(o.state) == loc && o.effects == RefreshCurrentView(o.state)
  {
    var t := Retarget(s, namespace);
    KindQueryStored(t, Schedule, query, WorkflowExecution);
  }

  /** Reopening a list screen's own link keeps the view, the namespace and
      every stored search. */
  lemma OwnLinkKeepsList(s: AppState, now: nat)
    requires s.view.Collection?
    ensures var t := ApplyLocation(s, CurrentLocation(s), now).state;
      t.view == s.view && t.namespace == s.namespace && t.searchQueries == s.searchQueries
      && t.workflowSelection == s.workflowSelection && t.scheduleSelection == s.scheduleSelection
  {
    var k := s.view.kind;
    var q := SearchQueryFor(s, k);
    assert CurrentLocation(s) == Location(s.namespace, [if k == WorkflowExecution then Workflows(WorkflowCollection(q)) else Schedules(ScheduleCollection(q))]);
    if q.Some? {
      assert s.searchQueries[k := q.value] == s.searchQueries;
    } else {
      assert s.searchQueries - {k} == s.searchQueries;
    }
  }

  /** Reopening a workflow detail's own link shows the detail of the same
      run on its first tab and reloads the detail and its history. */
  lemma OwnLinkReloadsDetail(s: AppState, now: nat)
    requires s.view == Detail(WorkflowExecution) && s.selectedWorkflow.Some?
    ensures var wf := s.selectedWorkflow.value.summary;
      var o := ApplyLocation(s, CurrentLocation(s), now);
      o.state.view == s.view && o.state.workflowDetailTab == 0 && o.state.selectedWorkflow == s.selectedWorkflow
      && o.effects == [E.LoadWorkflowDetail(wf.workflowId, Some(wf.runId)), E.LoadHistory(wf.workflowId, Some(wf.runId))]
  {
  }

  // ---------------------------------------------------------------- search

  /** A stored search is the one found for its kind; the other kind's
      search is left alone; storing none removes it. */
  lemma KindQueryStored(s: AppState, kind: KindId, query: Option<string>, other: KindId)
    ensures SearchQueryFor(SetKindQuery(s, kind, query), kind) == query
    ensures other != kind ==> SearchQueryFor(SetKindQuery(s, kind, query), other) == SearchQueryFor(s, other)
  {
  }

  /** Submitting a search stores it for the kind shown (an empty one clears
      it), keeps the other kind's search, and reloads the list. */
  lemma SearchStored(s: AppState, query: string, now: nat, other: KindId)
    ensures var o := Update(s, SubmitSearch(query), now);
      o.state.view == s.view && o.state.inputMode == Normal && o.state.inputBuffer == []
      && SearchQueryFor(o.state, s.view.kind) == (if query == [] then None else Some(query))
      && (other != s.view.kind ==> SearchQueryFor(o.state, other) == SearchQueryFor(s, other))
      && o.effects == (if s.view.kind == WorkflowExecution then [E.LoadWorkflows, E.LoadWorkflowCount] else [E.LoadSchedules])
  {
    var p := ClearStaleToast(s, now);
    KindQueryStored(p.(inputMode := Normal), s.view.kind, if query == [] then None else Some(query), other);
  }

  /** Opening the search line offers the stored search of the kind shown. */
  lemma SearchOffered(s: AppState, now: nat)
    ensures var t := Update(s, OpenSearch, now).state;
      t.inputMode == Search && t.inputBuffer == SearchQueryFor(s, s.view.kind).GetOr([])
  {
  }

  /** A submitted search is offered again when the search line is reopened
      on the same list. */
  lemma SearchRemembered(s: AppState, query: string, now: nat, later: nat)
    ensures Update(Update(s, SubmitSearch(query), now).state, OpenSearch, later).state.inputBuffer == query
  {
    var t := Update(s, SubmitSearch(query), now).state;
    SearchStored(s, query, now, s.view.kind);
    SearchOffered(t, later);
  }

  // ---------------------------------------------------------------- overlays and modes

  /** The help key opens help over anything and closes it when it is open. */
  lemma HelpToggles(s: AppState, now: nat)
    ensures Update(s, ToggleHelp, now).state.overlay == if s.overlay == Help then NoOverlay else Help
  {
  }

  /** Pressing the help key twice returns to no overlay, or to help. */
  lemma HelpTwice(s: AppState, now: nat, later: nat)
    requires s.overlay == NoOverlay || s.overlay == Help
    ensures Update(Update(s, ToggleHelp, now).state, ToggleHelp, later).state.overlay == s.overlay
  {
    HelpToggles(s, now);
    HelpToggles(Update(s, ToggleHelp, now).state, later);
  }

  /** Escape closes an open overlay first and leaves the input mode; only
      with no overlay does it drop back to normal mode and clear the line. */
  lemma EscapeOrder(s: AppState, now: nat)
    ensures var t := Update(s, CloseOverlay, now).state;
      (s.overlay != NoOverlay ==> t.overlay == NoOverlay && t.inputMode == s.inputMode && t.inputBuffer == s.inputBuffer)
      && (s.overlay == NoOverlay ==> t.overlay == NoOverlay && t.inputMode == Normal
                                     && t.inputBuffer == (if s.inputMode != Normal then [] else s.inputBuffer))
  {
  }

  /** Twice is always enough to reach normal mode with no overlay. */
  lemma EscapeTwice(s: AppState, now: nat, later: nat)
    ensures var u := Update(Update(s, CloseOverlay, now).state, CloseOverlay, later).state;
      u.overlay == NoOverlay && u.inputMode == Normal
  {
    EscapeOrder(s, now);
    EscapeOrder(Update(s, CloseOverlay, now).state, later);
  }

  // ---------------------------------------------------------------- the `g` chord

  /** As written, `Back` during a pending `g` chord leaves the chord
      pending, in a detail view and in a list alike. */
  lemma BackKeepsChordAsWritten(s: AppState, now: nat)
    requires s.inputMode == PendingG
    ensures var t := Update(s, Back, now);
      t == Outcome(HandleBack(ClearStaleToast(s, now)), []) && t.state.inputMode == PendingG
  {
  }

  /** As written, `NavigateTop` in a detail view scrolls to the top and
      leaves the chord pending; in a list it ends the chord. */
  lemma TopKeepsChordAsWritten(s: AppState, now: nat)
    requires s.inputMode == PendingG
    ensures var t := Update(s, NavigateTop, now).state;
      (s.view.Detail? ==> t.inputMode == PendingG && t.detailScroll == 0)
      && (s.view.Collection? ==> t.inputMode == Normal)
  {
    if s.view.Detail? {
    } else if s.view.kind == WorkflowExecution {
    } else {
    }
  }

  /** Corrected, `Back` and `NavigateTop`, the two actions a key can produce
      while the chord is pending, both end it, and otherwise do what the
      code as written does. */
  lemma BackEndsChord(s: AppState, now: nat)
    requires s.inputMode == PendingG
    ensures var t := UpdateCorrected(s, Back, now);
      t.state.inputMode == Normal && t.state == Update(s, Back, now).state.(inputMode := Normal) && t.effects == []
  {
    var p := ClearStaleToast(s, now);
    assert UpdateCorrected(s, Back, now) == Outcome(HandleBack(EndChord(p)), []);
    assert Update(s, Back, now) == Outcome(HandleBack(p), []);
    BackIgnoresMode(p, Normal);
  }

  /** `handle_back` neither reads nor writes the input mode. */
  lemma BackIgnoresMode(s: AppState, mode: InputMode)
    ensures HandleBack(s.(inputMode := mode)) == HandleBack(s).(inputMode := mode)
  {
    match s.view
    case Detail(WorkflowExecution) =>
    case Detail(Schedule) =>
    case Collection(_) =>
  }

  lemma TopEndsChord(s: AppState, now: nat)
    requires s.inputMode == PendingG
    ensures var t := UpdateCorrected(s, NavigateTop, now);
      t.state.inputMode == Normal && t.state == Update(s, NavigateTop, now).state.(inputMode := Normal) && t.effects == []
  {
    var p := ClearStaleToast(s, now);
    if p.view.Detail? {
      assert UpdateCorrected(s, NavigateTop, now) == Outcome(p.(inputMode := Normal, detailScroll := 0), []);
      assert Update(s, NavigateTop, now) == Outcome(p.(detailScroll := 0), []);
    } else {
      assert UpdateCorrected(s, NavigateTop, now) == Outcome(SelectTop(p), []);
      assert Update(s, NavigateTop, now) == Outcome(SelectTop(p), []);
      TopEndsChordInList(p);
    }
  }

  lemma TopEndsChordInList(s: AppState)
    requires s.view.Collection?
    ensures SelectTop(s).inputMode == Normal && SelectTop(s).(inputMode := Normal) == SelectTop(s)
  {
    if s.view.kind == WorkflowExecution {
    } else {
    }
  }

  // ---------------------------------------------------------------- commands

  /** The words `execute_command` knows are the names and aliases of the
      command table and `open` and `goto`. */
  lemma KnownWords(word: string)
    ensures VerbOf(word) != UnknownVerb <==>
      word in ["workflows", "wf", "schedules", "sch", "signal", "sig", "open", "goto",
               "namespace", "ns", "quit", "q", "help", "h"]
  {
  }

  /** An unknown command word changes nothing but the toast, which names it. */
  lemma UnknownCommandReported(s: AppState, command: string, args: Option<string>, now: nat)
    requires VerbOf(command) == UnknownVerb
    ensures RunCommand(s, command, args, now) == Outcome(s.(lastError := Some(("unknown command: " + command, now))), [])
  {
  }

  /** A link that does not parse leaves the screen as it was and reports the
      parse error; one that parses is opened like any deep link. */
  lemma OpenCommand(s: AppState, command: string, link: string, now: nat)
    requires VerbOf(command) == OpenLink
    ensures var o := RunCommand(s, command, Some(link), now);
      match U.ParseDeepLink(link)
      case Ok(loc) => o == ApplyLocation(s, loc, now)
      case Err(e) => o.effects == [] && o.state == s.(lastError := Some(("invalid uri: " + FormatUriError(e), now)))
  {
  }

  /** `:namespace` with a name moves to it and refreshes the screen shown,
      keeping the stored searches; without one it opens the selector and
      loads the namespaces. */
  lemma NamespaceCommand(s: AppState, command: string, args: Option<string>, now: nat)
    requires VerbOf(command) == SetNamespace
    ensures var o := RunCommand(s, command, args, now);
      (args.Some? ==> o.state.namespace == args.value && o.state.searchQueries == s.searchQueries
                      && o.state.view == s.view && o.effects == RefreshCurrentView(o.state))
      && (args.None? ==> o.state == s.(overlay := NamespaceSelector) && o.effects == [E.LoadNamespaces])
  {
  }

  /** `:signal` sends the named signal, with the rest of the line as its
      input, to the selected workflow. */
  lemma SignalCommand(s: AppState, command: string, name: string, input: string, now: nat)
    requires VerbOf(command) == SendSignal && ' ' !in name
    requires SelectedWorkflowSummary(s).Some?
    ensures var wf := SelectedWorkflowSummary(s).value;
      RunCommand(s, command, Some(name + [' '] + input), now)
        == Outcome(s, [E.SignalWorkflow(wf.workflowId, Some(wf.runId), name, Some(input))])
  {
    Text.SplitOnceUnique(name, ' ', input);
  }
}
