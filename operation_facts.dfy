/** What `run_operation` and the detail and history loads promise. */
module OperationFacts {
  import opened Wrappers
  import opened Text
  import opened Kinds
  import opened AppTypes
  import opened Reducer
  import opened ReducerFacts
  import D = Domain
  import E = Effects

  // ---------------------------------------------------------------- run_operation

  /** An operation of another kind than the one shown does nothing, whatever
      schedule the pause mapper reads. */
  lemma OperationOfOtherKindIgnored(s: AppState, op: OperationId, now: nat, pauseSource: Option<D.Schedule>)
    requires OperationKind(op) != s.view.kind
    ensures OperateWith(s, op, now, pauseSource) == Outcome(s, [])
  {
    OperationListedForItsKind(s.view.kind, op);
  }

  /** Without a selected item an operation only reports that nothing is
      selected. */
  lemma OperationNeedsSelection(s: AppState, op: OperationId, now: nat, pauseSource: Option<D.Schedule>)
    requires OperationKind(op) == s.view.kind && OperationTargetOf(s, s.view.kind).None?
    ensures OperateWith(s, op, now, pauseSource) == Outcome(
      s.(lastError := Some((if s.view.kind == WorkflowExecution then "no workflow selected" else "no schedule selected", now))),
      [])
  {
    OperationListedForItsKind(s.view.kind, op);
    EffectsCoverOperations(s.view.kind, op);
  }

  /** Every operation but pausing waits behind the confirmation dialog, which
      records the kind, the operation and the target; nothing is sent yet. */
  lemma OperationAwaitsConfirmation(s: AppState, op: OperationId, now: nat, pauseSource: Option<D.Schedule>)
    requires OperationKind(op) == s.view.kind && OperationTargetOf(s, s.view.kind).Some?
    requires op != PauseSchedule
    ensures OperateWith(s, op, now, pauseSource) == Outcome(
      s.(overlay := Confirm(OperationConfirm(s.view.kind, op, OperationTargetOf(s, s.view.kind).value))), [])
  {
    OperationListedForItsKind(s.view.kind, op);
    EffectsCoverOperations(s.view.kind, op);
    ConfirmationPolicy(s.view.kind, op);
  }

  /** Pausing runs at once: in the schedule detail view it flips the shown
      schedule between paused and active and changes nothing in the
      application. */
  lemma PauseInDetailRunsAtOnce(s: AppState, now: nat)
    requires s.view == Detail(Schedule) && s.selectedSchedule.Some?
    ensures var sch := s.selectedSchedule.value;
      OperateAsWritten(s, PauseSchedule, now) == Outcome(s, [E.PauseSchedule(sch.scheduleId, sch.state == D.Active)])
  {
    PauseRunsAtOnce(s, now);
  }

  /** Corrected, pausing runs at once wherever a schedule is selected, in the
      list as in the detail view. */
  lemma PauseRunsAtOnce(s: AppState, now: nat)
    requires s.view.kind == Schedule && SelectedScheduleSummary(s).Some?
    ensures var sch := SelectedScheduleSummary(s).value;
      Operate(s, PauseSchedule, now) == Outcome(s, [E.PauseSchedule(sch.scheduleId, sch.state == D.Active)])
  {
    var sch := SelectedScheduleSummary(s).value;
    var target := E.ScheduleTarget(sch.scheduleId);
    assert OperationTargetOf(s, Schedule) == Some(target);
    OperationListedForItsKind(Schedule, PauseSchedule);
    EffectsCoverOperations(Schedule, PauseSchedule);
    ConfirmationPolicy(Schedule, PauseSchedule);
    PauseEffects(target, Some(sch));
  }

  /** The dialog's target is the item the operation was asked on. */
  lemma ConfirmTargetsSelection(s: AppState, op: OperationId, now: nat, pauseSource: Option<D.Schedule>)
    requires OperateWith(s, op, now, pauseSource).state.overlay.Confirm?
    requires !s.overlay.Confirm?
    ensures var c := OperateWith(s, op, now, pauseSource).state.overlay.confirm;
      c.kind == s.view.kind && c.op == op && TargetKind(c.target) == c.kind
      && (c.kind == WorkflowExecution ==>
            c.target == E.WorkflowTarget(SelectedWorkflowSummary(s).value.workflowId, Some(SelectedWorkflowSummary(s).value.runId)))
      && (c.kind == Schedule ==> c.target == E.ScheduleTarget(SelectedScheduleSummary(s).value.scheduleId))
  {
  }

  // ---------------------------------------------------------------- the pause key in the schedule list

  /** A schedule list with a row selected and no schedule detail loaded. */
  predicate ScheduleRowSelected(s: AppState) {
    s.view == Collection(Schedule) && s.selectedSchedule.None?
    && s.scheduleSelection.Some? && s.scheduleSelection.value < |Rows(s.schedules)|
  }

  /** As written, `p` on a selected row of the schedule list sends nothing and
      reports nothing: the pause mapper looks for `selected_schedule`, which
      only the detail view fills. */
  lemma PauseInListIgnoredAsWritten(s: AppState, now: nat)
    requires ScheduleRowSelected(s)
    ensures Update(s, RunOperation(PauseSchedule), now) == Outcome(ClearStaleToast(s, now), [])
  {
    RunOperationAction(s, PauseSchedule, now);
    var p := ClearStaleToast(s, now);
    assert ScheduleRowSelected(p);
    var sch := SelectedScheduleSummary(p).value;
    assert OperationTargetOf(p, Schedule) == Some(E.ScheduleTarget(sch.scheduleId));
    OperationListedForItsKind(Schedule, PauseSchedule);
    EffectsCoverOperations(Schedule, PauseSchedule);
    ConfirmationPolicy(Schedule, PauseSchedule);
    PauseEffects(E.ScheduleTarget(sch.scheduleId), None);
  }

  /** Corrected, with the mapper reading the selected row, `p` in the list
      pauses or resumes that row's schedule. */
  lemma PauseInListActs(s: AppState, now: nat)
    requires ScheduleRowSelected(s)
    ensures var row := Rows(s.schedules)[s.scheduleSelection.value];
      UpdateCorrected(s, RunOperation(PauseSchedule), now).effects == [E.PauseSchedule(row.scheduleId, row.state == D.Active)]
  {
    var p := ClearStaleToast(s, now);
    assert ScheduleRowSelected(p);
    RunOperationActionCorrected(s, PauseSchedule, now);
    PauseRunsAtOnce(p, now);
  }

  // ---------------------------------------------------------------- detail and history

  /** A loaded detail replaces the shown one, except that input, output and
      failure the new detail lacks, and a history length it reports as zero,
      are kept from the shown one. */
  lemma MergeKeepsHistoryFacts(existing: D.WorkflowDetail, detail: D.WorkflowDetail)
    ensures var m := MergeDetail(Some(existing), detail);
      m.summary == detail.summary
      && m.input == (if detail.input.Some? then detail.input else existing.input)
      && m.output == (if detail.output.Some? then detail.output else existing.output)
      && m.failure == (if detail.failure.Some? then detail.failure else existing.failure)
      && m.historyLength == (if detail.historyLength > 0 then detail.historyLength else existing.historyLength)
    ensures MergeDetail(None, detail) == detail
  {
  }

  /** Merging the same detail again changes nothing. */
  lemma MergeIdempotent(existing: Option<D.WorkflowDetail>, detail: D.WorkflowDetail)
    ensures MergeDetail(Some(MergeDetail(existing, detail)), detail) == MergeDetail(existing, detail)
  {
  }

  /** The input of the last own `WorkflowExecutionStarted` event carrying one. */
  function LastStartedInput(events: seq<D.HistoryEvent>): Option<D.Json>
    decreases |events|
  {
    if events == [] then None
    else
      var e := events[|events| - 1];
      if IsOwnEvent(e, "WorkflowExecutionStarted") && D.Get(e.details, "input").Some? then D.Get(e.details, "input")
      else LastStartedInput(events[..|events| - 1])
  }

  /** The result of the last own `WorkflowExecutionCompleted` event carrying one. */
  function LastCompletedResult(events: seq<D.HistoryEvent>): Option<D.Json>
    decreases |events|
  {
    if events == [] then None
    else
      var e := events[|events| - 1];
      if IsOwnEvent(e, "WorkflowExecutionCompleted") && D.Get(e.details, "result").Some? then D.Get(e.details, "result")
      else LastCompletedResult(events[..|events| - 1])
  }

  /** Reading a history keeps the workflow's summary, takes its input and
      output from the last own start and completion events that carry them,
      and keeps the earlier ones when there are none. */
  lemma {:induction false} HistoryInputOutput(d: D.WorkflowDetail, events: seq<D.HistoryEvent>)
    ensures var r := ApplyEvents(d, events);
      r.summary == d.summary && r.historyLength == d.historyLength
      && r.input == (if LastStartedInput(events).Some? then LastStartedInput(events) else d.input)
      && r.output == (if LastCompletedResult(events).Some? then LastCompletedResult(events) else d.output)
    decreases |events|
  {
    if events != [] {
      HistoryInputOutput(d, events[..|events| - 1]);
    }
  }

  /** Events of child workflows never change what the detail shows. */
  lemma {:induction false} ChildEventsIgnored(d: D.WorkflowDetail, events: seq<D.HistoryEvent>)
    requires forall i :: 0 <= i < |events| ==> Contains(events[i].eventType, "Child")
    ensures ApplyEvents(d, events) == d
    decreases |events|
  {
    if events != [] {
      ChildEventsIgnored(d, events[..|events| - 1]);
    }
  }

  /** `HistoryLoaded` stores the events and sets the shown workflow's history
      length to their number. */
  lemma HistoryLoadedCounts(s: AppState, events: seq<D.HistoryEvent>, now: nat)
    ensures var t := Update(s, HistoryLoaded(events), now).state;
      t.workflowHistory == Loaded(events)
      && (s.selectedWorkflow.Some? ==>
            t.selectedWorkflow.Some? && t.selectedWorkflow.value.historyLength == |events|
            && t.selectedWorkflow.value.summary == s.selectedWorkflow.value.summary)
      && (s.selectedWorkflow.None? ==> t.selectedWorkflow.None?)
  {
    var p := ClearStaleToast(s, now);
    assert p.selectedWorkflow == s.selectedWorkflow;
    assert Update(s, HistoryLoaded(events), now) == AbsorbLoad(p, HistoryLoaded(events), now);
    if s.selectedWorkflow.Some? {
      var w := AbsorbHistory(s.selectedWorkflow.value, events);
      assert AbsorbLoad(p, HistoryLoaded(events), now).state == p.(selectedWorkflow := Some(w), workflowHistory := Loaded(events));
      HistoryInputOutput(s.selectedWorkflow.value, events);
    }
  }
}
