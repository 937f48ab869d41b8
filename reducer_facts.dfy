/** What `App::update` promises, stated over the reducer functions. */
module ReducerFacts {
  import opened Wrappers
  import opened Text
  import opened Location
  import opened Kinds
  import opened AppTypes
  import opened Reducer
  import D = Domain
  import E = Effects
  import U = Uri
  import C = Commands

  // ---------------------------------------------------------------- backoff

  /** An error counts one more failure and stretches the polling interval to
      the base interval times `2^min(errors, 5)`, never above a minute. */
  lemma ErrorBacksOff(s: AppState, message: string, now: nat)
    ensures var t := RecordError(s, message, now);
      t.errorCount == s.errorCount + 1
      && t.pollingInterval == Min(s.basePollingInterval * Pow2(Min(s.errorCount + 1, MaxBackoffExponent)), MaxBackoffSecs)
      && t.pollingInterval <= MaxBackoffSecs
      && t.basePollingInterval == s.basePollingInterval
      && t.lastError == Some((message, now))
  {
  }

  /** The connection status turns into an error only from `Connected`. */
  lemma ErrorStatus(s: AppState, message: string, now: nat)
    ensures RecordError(s, message, now).connectionStatus
      == (if s.connectionStatus == Connected then ConnectionError(message) else s.connectionStatus)
  {
  }

  /** `Error` is recorded on the state whose stale toast is cleared, and asks
      for nothing. */
  lemma ErrorAction(s: AppState, message: string, now: nat)
    ensures Update(s, Error(message), now) == Outcome(RecordError(ClearStaleToast(s, now), message, now), [])
  {
  }

  /** The state after one recorded error per message. */
  function AfterErrors(s: AppState, messages: seq<string>, now: nat): AppState
    decreases |messages|
  {
    if messages == [] then s
    else RecordError(AfterErrors(s, messages[..|messages| - 1], now), messages[|messages| - 1], now)
  }

  /** From a reset state, `n` consecutive errors give the interval
      `min(base * 2^min(n, 5), 60)`. */
  lemma {:induction false} BackoffAfterErrors(s: AppState, messages: seq<string>, now: nat)
    requires s.errorCount == 0 && s.pollingInterval == s.basePollingInterval
    ensures var t := AfterErrors(s, messages, now);
      t.errorCount == |messages|
      && t.basePollingInterval == s.basePollingInterval
      && t.pollingInterval
         == (if messages == [] then s.basePollingInterval
             else Min(s.basePollingInterval * Pow2(Min(|messages|, MaxBackoffExponent)), MaxBackoffSecs))
    decreases |messages|
  {
    if messages != [] {
      var prefix := messages[..|messages| - 1];
      BackoffAfterErrors(s, prefix, now);
      ErrorBacksOff(AfterErrors(s, prefix, now), messages[|messages| - 1], now);
    }
  }

  /** A successful workflow list load resets the backoff and marks the
      connection up. */
  lemma LoadedResetsBackoff(s: AppState, workflows: seq<D.WorkflowSummary>, token: seq<int>, now: nat)
    ensures var t := Update(s, WorkflowsLoaded(workflows, token), now).state;
      t.errorCount == 0 && t.pollingInterval == s.basePollingInterval
      && t.connectionStatus == Connected && !t.loadingMore
      && t.workflows == Loaded(workflows) && t.nextPageToken == token && t.lastRefresh == Some(now)
  {
  }

  /** So does the next page, which is appended to a loaded list. */
  lemma MoreLoadedResetsBackoff(s: AppState, workflows: seq<D.WorkflowSummary>, token: seq<int>, now: nat)
    ensures var t := Update(s, MoreWorkflowsLoaded(workflows, token), now).state;
      t.errorCount == 0 && t.pollingInterval == s.basePollingInterval
      && t.connectionStatus == Connected && !t.loadingMore && t.nextPageToken == token
      && (s.workflows.Loaded? ==> t.workflows == Loaded(s.workflows.data + workflows))
      && (!s.workflows.Loaded? ==> t.workflows == s.workflows)
  {
  }

  /** A schedule list load leaves the backoff and the connection status alone. */
  lemma SchedulesLoadedKeepsBackoff(s: AppState, schedules: seq<D.Schedule>, now: nat)
    ensures var t := Update(s, SchedulesLoaded(schedules), now).state;
      t.errorCount == s.errorCount && t.pollingInterval == s.pollingInterval
      && t.connectionStatus == s.connectionStatus && t.schedules == Loaded(schedules)
  {
  }

  /** With the default three-second base, the first three errors give 6, 12
      and 24 seconds, the fifth reaches the one-minute cap, and a list load
      brings back three seconds. */
  lemma {:induction false} BackoffFromThreeSeconds(messages: seq<string>, workflows: seq<D.WorkflowSummary>, now: nat)
    requires |messages| == 5
    ensures AfterErrors(Initial("default"), messages[..1], now).pollingInterval == 6
    ensures AfterErrors(Initial("default"), messages[..2], now).pollingInterval == 12
    ensures AfterErrors(Initial("default"), messages[..3], now).pollingInterval == 24
    ensures AfterErrors(Initial("default"), messages, now).pollingInterval == 60
    ensures Update(AfterErrors(Initial("default"), messages, now), WorkflowsLoaded(workflows, []), now)
              .state.pollingInterval == 3
  {
    var s := Initial("default");
    LoadedResetsBackoff(AfterErrors(s, messages, now), workflows, [], now);
    BackoffAfterErrors(s, messages[..1], now);
    BackoffAfterErrors(s, messages[..2], now);
    BackoffAfterErrors(s, messages[..3], now);
    BackoffAfterErrors(s, messages, now);
    assert Pow2(1) == 2 && Pow2(2) == 4 && Pow2(3) == 8 && Pow2(5) == 32;
  }

  // ---------------------------------------------------------------- toast and polling

  /** A toast older than five seconds is gone before the action runs; a
      younger one stays. */
  lemma StaleToastCleared(s: AppState, now: nat)
    requires s.lastError.Some?
    ensures ClearStaleToast(s, now).lastError.None? <==> Elapsed(now, s.lastError.value.1) > ToastSecs
  {
  }

  /** A tick reloads the screen shown exactly when polling is on and the
      interval has passed since the last list load (or there was none), and
      changes nothing but the stale toast. */
  lemma TickPolls(s: AppState, now: nat)
    ensures var o := Update(s, Tick, now);
      var due := s.pollingEnabled && (s.lastRefresh.None? || Elapsed(now, s.lastRefresh.value) >= s.pollingInterval);
      o.state == ClearStaleToast(s, now)
      && o.effects == (if due then RefreshCurrentView(ClearStaleToast(s, now)) else [])
    ensures RefreshCurrentView(ClearStaleToast(s, now)) == RefreshCurrentView(s)
  {
    var p := ClearStaleToast(s, now);
    assert Update(s, Tick, now) == Housekeep(p, Tick, now);
  }

  // ---------------------------------------------------------------- escaping and the schedule filter

  /** Reads `\'` back as `'`. */
  function Unescape(s: string): string {
    if |s| >= 2 && s[0] == '\\' && s[1] == '\'' then "'" + Unescape(s[2..])
    else if s == [] then []
    else [s[0]] + Unescape(s[1..])
  }

  lemma EscapeCons(c: char, rest: string)
    ensures EscapeSingleQuotes([c] + rest) == (if c == '\'' then "\\'" else [c]) + EscapeSingleQuotes(rest)
  {
    assert ([c] + rest)[1..] == rest;
  }

  /** An escaped string never starts with a quote. */
  lemma EscapeNoLeadingQuote(s: string)
    ensures EscapeSingleQuotes(s) == [] || EscapeSingleQuotes(s)[0] != '\''
  {
    if s != [] {
      EscapeCons(s[0], s[1..]);
      assert [s[0]] + s[1..] == s;
    }
  }

  /** Escaping loses nothing: reading `\'` back as `'` gives the id back. */
  lemma {:induction false} UnescapeEscape(s: string)
    ensures Unescape(EscapeSingleQuotes(s)) == s
  {
    if s != [] {
      var rest := EscapeSingleQuotes(s[1..]);
      EscapeCons(s[0], s[1..]);
      assert [s[0]] + s[1..] == s;
      UnescapeEscape(s[1..]);
      if s[0] == '\'' {
        assert EscapeSingleQuotes(s) == "\\'" + rest;
        assert (("\\'" + rest)[2..]) == rest;
      } else {
        EscapeNoLeadingQuote(s[1..]);
        assert EscapeSingleQuotes(s) == [s[0]] + rest;
        assert ([s[0]] + rest)[1..] == rest;
      }
    }
  }

  /** Every quote in an escaped string follows a backslash, so it cannot end
      the quoted id. */
  lemma {:induction false} EscapedQuotesFollowBackslash(s: string)
    ensures var r := EscapeSingleQuotes(s);
      forall i :: 0 <= i < |r| && r[i] == '\'' ==> i > 0 && r[i - 1] == '\\'
  {
    if s != [] {
      var rest := EscapeSingleQuotes(s[1..]);
      EscapeCons(s[0], s[1..]);
      assert [s[0]] + s[1..] == s;
      EscapedQuotesFollowBackslash(s[1..]);
      EscapeNoLeadingQuote(s[1..]);
    }
  }

  /** Trimming a string whose ends are not whitespace changes nothing. */
  lemma TrimKeeps(s: string)
    requires s != [] && !IsWhitespace(s[0]) && !IsWhitespace(s[|s| - 1])
    ensures Trim(s) == s
  {
  }

  /** The schedule's own filter stands alone when the extra filter is
      missing or blank, and is and-ed with the trimmed extra filter
      otherwise; the id is quoted with its quotes escaped. */
  lemma CombineCases(scheduleId: string, extra: Option<string>)
    ensures var base := "TemporalScheduledById = '" + EscapeSingleQuotes(scheduleId) + "'";
      CombineScheduleWorkflowQuery(scheduleId, extra)
        == if extra.None? || Trim(extra.value) == [] then base
           else "(" + base + ") AND (" + Trim(extra.value) + ")"
    ensures '\'' !in scheduleId ==> EscapeSingleQuotes(scheduleId) == scheduleId
  {
  }

  /** Opening a schedule's runs lists the workflows filtered by the combined
      query, in the same namespace. */
  lemma ScheduleWorkflowsApplied(s: AppState, scheduleId: string, query: Option<string>, now: nat)
    ensures var o := ApplyLocation(s, Location(s.namespace, [Schedules(ScheduleWorkflows(scheduleId, query))]), now);
      o.state.view == Collection(WorkflowExecution) && o.state.activeTab == WorkflowsTab
      && o.effects == [E.LoadWorkflows, E.LoadWorkflowCount]
      && SearchQueryFor(o.state, WorkflowExecution) == Some(CombineScheduleWorkflowQuery(scheduleId, query))
      && o.state.workflows == s.workflows && o.state.schedules == s.schedules
  {
  }

  lemma TrimFailedFilter()
    ensures Trim("ExecutionStatus = 'Failed'") == "ExecutionStatus = 'Failed'"
  {
    TrimKeeps("ExecutionStatus = 'Failed'");
  }

  lemma EscapeNightly()
    ensures EscapeSingleQuotes("nightly") == "nightly"
  {
    assert '\'' !in "nightly";
  }

  lemma CombineWith(id: string, escaped: string, extra: string, trimmed: string)
    requires EscapeSingleQuotes(id) == escaped && Trim(extra) == trimmed && trimmed != []
    ensures CombineScheduleWorkflowQuery(id, Some(extra))
      == "(TemporalScheduledById = '" + escaped + "') AND (" + trimmed + ")"
  {
    CombineCases(id, Some(extra));
    CombinedShape(escaped, trimmed);
  }

  lemma CombinedShape(id: string, extra: string)
    ensures "(" + ("TemporalScheduledById = '" + id + "'") + ") AND (" + extra + ")"
      == "(TemporalScheduledById = '" + id + "') AND (" + extra + ")"
  {
  }

  lemma CombineNightly(id: string, extra: string)
    requires id == "nightly" && extra == "ExecutionStatus = 'Failed'"
    ensures CombineScheduleWorkflowQuery(id, Some(extra))
      == "(TemporalScheduledById = 'nightly') AND (ExecutionStatus = 'Failed')"
  {
    TrimFailedFilter();
    EscapeNightly();
    CombineWith(id, id, extra, extra);
    NightlyText(id, extra);
  }

  lemma NightlyText(id: string, extra: string)
    requires id == "nightly" && extra == "ExecutionStatus = 'Failed'"
    ensures "(TemporalScheduledById = '" + id + "') AND (" + extra + ")"
      == "(TemporalScheduledById = 'nightly') AND (ExecutionStatus = 'Failed')"
  {
  }

  /** The test of `apply_location` for `schedules/nightly/workflows` with the
      filter `ExecutionStatus = 'Failed'`. */
  lemma ScheduleWorkflowsLocation(now: nat)
    ensures var s := Initial("default").(selectedSchedule := Some(D.Schedule("nightly", "SyncWorkflow", D.Active, "", 0, "")));
      var o := ApplyLocation(s, Location("default", [Schedules(ScheduleWorkflows("nightly", Some("ExecutionStatus = 'Failed'")))]), now);
      o.state.view == Collection(WorkflowExecution)
      && E.LoadWorkflows in o.effects && E.LoadWorkflowCount in o.effects
      && SearchQueryFor(o.state, WorkflowExecution)
         == Some("(TemporalScheduledById = 'nightly') AND (ExecutionStatus = 'Failed')")
  {
    var s := Initial("default").(selectedSchedule := Some(D.Schedule("nightly", "SyncWorkflow", D.Active, "", 0, "")));
    ScheduleWorkflowsApplied(s, "nightly", Some("ExecutionStatus = 'Failed'"), now);
    CombineNightly("nightly", "ExecutionStatus = 'Failed'");
  }

  // ---------------------------------------------------------------- detail tabs

  /** The canonical deep-link name of each tab. */
  function TabParam(tab: nat): string
    requires tab < WorkflowTabCount
  {
    ["summary", "io", "history", "pending", "task-queue"][tab]
  }

  /** The tab names a deep link may use, lower-cased, with the tab each names. */
  const WorkflowTabNames: map<string, nat> := map[
    "summary" := 0,
    "io" := 1, "input" := 1, "output" := 1, "input-output" := 1, "input_output" := 1,
    "history" := 2,
    "pending" := 3, "pending-activities" := 3, "pending_activities" := 3, "activities" := 3,
    "task-queue" := 4, "task_queue" := 4, "taskqueue" := 4]

  /** A tab name is read in any case as the tab the table gives it; a name
      the table lacks opens the summary. */
  lemma TabNamesRead(tab: string)
    ensures WorkflowTabFromParam(tab) == if ToLower(tab) in WorkflowTabNames then WorkflowTabNames[ToLower(tab)] else 0
  {
  }

  /** The tab names in a deep link read back as the tab they name. */
  lemma TabParamRoundTrip(tab: nat)
    requires tab < WorkflowTabCount
    ensures WorkflowTabFromParam(TabParam(tab)) == tab
  {
    C.LowerUnchanged(TabParam(tab));
    TabNamesRead(TabParam(tab));
  }

  /** Tab names are read in any case. */
  lemma TabParamIgnoresCase(tab: string)
    ensures WorkflowTabFromParam(ToLower(tab)) == WorkflowTabFromParam(tab)
  {
    ToLowerIdempotent(tab);
  }

  /** Loading a tab's data changes neither the tab, the scroll nor the view. */
  lemma TabDataKeeps(s: AppState)
    ensures var t := LoadWorkflowTabData(s).state;
      t.workflowDetailTab == s.workflowDetailTab && t.detailScroll == s.detailScroll && t.view == s.view
  {
  }

  /** One tab step in a workflow detail: the tab moves, the scroll resets,
      the view stays. */
  lemma TabStep(s: AppState, now: nat)
    requires s.view == Detail(WorkflowExecution)
    ensures var t := Update(s, NextTab, now).state;
      t.workflowDetailTab == NextTabIndex(s.workflowDetailTab) && t.detailScroll == 0 && t.view == s.view
    ensures var t := Update(s, PrevTab, now).state;
      t.workflowDetailTab == PrevTabIndex(s.workflowDetailTab) && t.detailScroll == 0 && t.view == s.view
  {
    var p := ClearStaleToast(s, now);
    assert p.view == s.view && p.workflowDetailTab == s.workflowDetailTab;
    var n := p.(workflowDetailTab := NextTabIndex(p.workflowDetailTab), detailScroll := 0);
    var q := p.(workflowDetailTab := PrevTabIndex(p.workflowDetailTab), detailScroll := 0);
    assert Update(s, NextTab, now) == LoadWorkflowTabData(n);
    assert Update(s, PrevTab, now) == LoadWorkflowTabData(q);
    TabDataKeeps(n);
    TabDataKeeps(q);
  }

  /** In a workflow detail, `NextTab` and `PrevTab` cycle through the five
      tabs, reset the scroll and undo each other. */
  lemma TabsCycle(s: AppState, now: nat)
    requires s.view == Detail(WorkflowExecution) && s.workflowDetailTab < WorkflowTabCount
    ensures var t := Update(s, NextTab, now).state;
      t.workflowDetailTab == (s.workflowDetailTab + 1) % WorkflowTabCount && t.detailScroll == 0
      && t.view == s.view
      && Update(t, PrevTab, now).state.workflowDetailTab == s.workflowDetailTab
    ensures var t := Update(s, PrevTab, now).state;
      t.workflowDetailTab < WorkflowTabCount && t.detailScroll == 0 && t.view == s.view
      && Update(t, NextTab, now).state.workflowDetailTab == s.workflowDetailTab
  {
    var next := Update(s, NextTab, now).state;
    var prev := Update(s, PrevTab, now).state;
    TabStep(s, now);
    TabStep(next, now);
    TabStep(prev, now);
    TabIndexInverse(s.workflowDetailTab);
  }

  lemma TabIndexInverse(tab: nat)
    requires tab < WorkflowTabCount
    ensures NextTabIndex(tab) < WorkflowTabCount && PrevTabIndex(tab) < WorkflowTabCount
    ensures PrevTabIndex(NextTabIndex(tab)) == tab && NextTabIndex(PrevTabIndex(tab)) == tab
  {
  }

  /** Outside a workflow detail the tab keys do nothing. */
  lemma TabsOnlyInWorkflowDetail(s: AppState, now: nat)
    requires s.view != Detail(WorkflowExecution)
    ensures Update(s, NextTab, now) == Outcome(ClearStaleToast(s, now), [])
    ensures Update(s, PrevTab, now) == Outcome(ClearStaleToast(s, now), [])
  {
  }

  /** Entering the history tab reloads the history; entering the task queue
      tab marks it loading and loads it. */
  lemma TabLoads(s: AppState)
    requires s.selectedWorkflow.Some?
    ensures var wf := s.selectedWorkflow.value.summary;
      (s.workflowDetailTab == 2 ==>
         LoadWorkflowTabData(s) == Outcome(s, [E.LoadHistory(wf.workflowId, Some(wf.runId))]))
      && (s.workflowDetailTab == 4 ==>
         LoadWorkflowTabData(s) == Outcome(s.(taskQueueDetail := Loading), [E.LoadTaskQueueDetail(wf.taskQueue)]))
      && (s.workflowDetailTab != 2 && s.workflowDetailTab != 4 ==> LoadWorkflowTabData(s) == Outcome(s, []))
  {
  }

  // ---------------------------------------------------------------- pagination

  /** `maybe_load_more` asks for a page exactly when the workflow list is
      shown, no page is on its way, there is a next page and the selection is
      within five rows of the end; asking marks a page on its way, so a second
      call asks for nothing. */
  lemma LoadMoreGuard(s: AppState)
    ensures MaybeLoadMore(s).effects != [] <==>
      (s.view == Collection(WorkflowExecution) && !s.loadingMore && s.nextPageToken != []
       && s.workflows.Loaded? && s.workflowSelection.Some?
       && s.workflowSelection.value + LoadMoreMargin >= |s.workflows.data|)
    ensures MaybeLoadMore(s).effects != [] ==>
      MaybeLoadMore(s) == Outcome(s.(loadingMore := true), [E.LoadMoreWorkflows])
    ensures MaybeLoadMore(s).effects == [] ==> MaybeLoadMore(s).state == s
    ensures MaybeLoadMore(MaybeLoadMore(s).state).effects == []
  {
  }

  /** Of the moving arms only `NavigateDown`, `NavigateBottom` and `PageDown`
      end in `maybe_load_more`, and they are guarded by it. */
  lemma NavigationGuarded(p: AppState, a: Action)
    ensures E.LoadMoreWorkflows in Navigate(p, a).effects ==> !p.loadingMore && Navigate(p, a).state.loadingMore
  {
    match a {
      case NavigateDown =>
        var t := if IsDetail(p.view) then p.(detailScroll := SatAddU16(p.detailScroll, 1)) else SelectDown(p);
        assert Navigate(p, a) == MaybeLoadMore(t);
        LoadMoreGuard(t);
      case NavigateBottom =>
        var t := if IsDetail(p.view) then p.(detailScroll := U16Max) else SelectBottom(p);
        assert Navigate(p, a) == MaybeLoadMore(t);
        LoadMoreGuard(t);
      case PageDown =>
        SelectDownTimesKeeps(p, PageHeight);
        var t := if IsDetail(p.view) then p.(detailScroll := SatAddU16(p.detailScroll, PageHeight)) else SelectDownTimes(p, PageHeight);
        assert Navigate(p, a) == MaybeLoadMore(t);
        LoadMoreGuard(t);
      case _ =>
    }
  }

  lemma ScreenChangeNeverLoadsMore(p: AppState, a: Action, now: nat)
    ensures E.LoadMoreWorkflows !in ChangeScreen(p, a, now).effects
  {
  }

  lemma InputNeverLoadsMore(p: AppState, a: Action, now: nat)
    ensures E.LoadMoreWorkflows !in HandleInput(p, a, now).effects
  {
    match a {
      case RunOperation(op) => OperateNeverLoadsMore(p, op, now, p.selectedSchedule);
      case SubmitCommandInput(cmd) => CommandNeverLoadsMore(p.(inputMode := Normal), cmd, now);
      case _ =>
    }
  }

  /** `RunOperation` does what `run_operation` does on the state whose stale
      toast is cleared. */
  lemma RunOperationAction(s: AppState, op: OperationId, now: nat)
    ensures Update(s, RunOperation(op), now) == OperateAsWritten(ClearStaleToast(s, now), op, now)
  {
    var p := ClearStaleToast(s, now);
    assert Update(s, RunOperation(op), now) == HandleInput(p, RunOperation(op), now);
  }

  /** Corrected, the same with the pause mapper reading the selected row. */
  lemma RunOperationActionCorrected(s: AppState, op: OperationId, now: nat)
    ensures UpdateCorrected(s, RunOperation(op), now) == Operate(ClearStaleToast(s, now), op, now)
  {
    var p := ClearStaleToast(s, now);
    assert UpdateCorrected(s, RunOperation(op), now) == StepCorrected(p, RunOperation(op), now);
  }

  /** No action asks for a further page while one is on its way, and an
      action that asks for one marks it on its way. */
  lemma AtMostOnePageInFlight(s: AppState, a: Action, now: nat)
    ensures E.LoadMoreWorkflows in Update(s, a, now).effects ==> !s.loadingMore && Update(s, a, now).state.loadingMore
  {
    var p := ClearStaleToast(s, now);
    if IsNavigation(a) {
      NavigationGuarded(p, a);
    } else if IsScreenChange(a) {
      ScreenChangeNeverLoadsMore(p, a, now);
    } else if IsInput(a) {
      InputNeverLoadsMore(p, a, now);
    }
  }

  /** One move leaves everything but the selection as it was. */
  lemma SelectDownKeeps(s: AppState)
    ensures SelectDown(s) == s.(workflowSelection := SelectDown(s).workflowSelection,
                                scheduleSelection := SelectDown(s).scheduleSelection)
  {
    if s.view.Detail? {
    } else if s.view.kind == WorkflowExecution {
    } else {
    }
  }

  lemma SelectUpKeeps(s: AppState)
    ensures SelectUp(s) == s.(workflowSelection := SelectUp(s).workflowSelection,
                              scheduleSelection := SelectUp(s).scheduleSelection)
  {
    if s.view.Detail? {
    } else if s.view.kind == WorkflowExecution {
    } else {
    }
  }

  /** The list loops leave everything but the selection as it was. */
  lemma {:induction false} SelectDownTimesKeeps(s: AppState, n: nat)
    ensures SelectDownTimes(s, n) == s.(workflowSelection := SelectDownTimes(s, n).workflowSelection,
                                        scheduleSelection := SelectDownTimes(s, n).scheduleSelection)
  {
    if n > 0 {
      SelectDownTimesKeeps(s, n - 1);
      SelectDownKeeps(SelectDownTimes(s, n - 1));
    }
  }

  lemma {:induction false} SelectUpTimesKeeps(s: AppState, n: nat)
    ensures SelectUpTimes(s, n) == s.(workflowSelection := SelectUpTimes(s, n).workflowSelection,
                                      scheduleSelection := SelectUpTimes(s, n).scheduleSelection)
  {
    if n > 0 {
      SelectUpTimesKeeps(s, n - 1);
      SelectUpKeeps(SelectUpTimes(s, n - 1));
    }
  }

  lemma OperateNeverLoadsMore(s: AppState, op: OperationId, now: nat, pauseSource: Option<D.Schedule>)
    ensures E.LoadMoreWorkflows !in OperateWith(s, op, now, pauseSource).effects
  {
    var es := OperationEffectSpecOf(op, s.view.kind);
    var target := OperationTargetOf(s, s.view.kind);
    if es.Some? && target.Some? {
      MapperNeverLoadsMore(es.value.toEffects, target.value, pauseSource);
    }
  }

  /** An effect mapper only ever asks for its operation. */
  lemma MapperNeverLoadsMore(m: EffectMapper, target: E.OperationTarget, selected: Option<D.Schedule>)
    ensures E.LoadMoreWorkflows !in ToEffects(m, target, selected)
  {
  }

  lemma ApplyLocationNeverLoadsMore(s: AppState, loc: Location, now: nat)
    ensures E.LoadMoreWorkflows !in ApplyLocation(s, loc, now).effects
  {
  }

  lemma RefreshNeverLoadsMore(s: AppState)
    ensures E.LoadMoreWorkflows !in RefreshCurrentView(s)
  {
  }

  lemma CommandNeverLoadsMore(s: AppState, cmd: string, now: nat)
    ensures E.LoadMoreWorkflows !in ExecuteCommand(s, cmd, now).effects
  {
    RunCommandNeverLoadsMore(s, CommandWord(cmd), CommandArgs(cmd), now);
  }

  lemma RunCommandNeverLoadsMore(s: AppState, command: string, args: Option<string>, now: nat)
    ensures E.LoadMoreWorkflows !in RunCommand(s, command, args, now).effects
  {
    match VerbOf(command) {
      case SetNamespace =>
        if args.Some? {
          RefreshNeverLoadsMore(s.(namespace := args.value, workflows := NotLoaded, schedules := NotLoaded,
                                   workflowSelection := None, scheduleSelection := None));
        }
      case OpenLink =>
        if args.Some? && U.ParseDeepLink(args.value).Ok? {
          ApplyLocationNeverLoadsMore(s, U.ParseDeepLink(args.value).value, now);
        }
      case _ =>
    }
  }

}
