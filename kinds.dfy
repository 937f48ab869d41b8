/** The registry of resource kinds: for each kind its label, whether it has a
    detail view, and the operations the user may run on it (with their key
    and whether they ask for confirmation); the table wiring each operation
    to the function that turns a target into effects; the workflow detail
    tabs. Rendering parts of the registry (column headers, widths, row
    builders) are not part of this model. */
module Kinds {
  import opened Wrappers
  import D = Domain
  import E = Effects

  datatype KindId = WorkflowExecution | Schedule

  function KindLabel(kind: KindId): string {
    match kind
    case WorkflowExecution => "Workflows"
    case Schedule => "Schedules"
  }

  datatype OperationId =
    | CancelWorkflow
    | TerminateWorkflow
    | PauseSchedule
    | TriggerSchedule
    | DeleteSchedule

  datatype OperationSpec = OperationSpec(id: OperationId, title: string, key: char, requiresConfirm: bool)

  datatype KindSpec = KindSpec(id: KindId, title: string, hasDetail: bool, operations: seq<OperationSpec>)

  const WorkflowOps: seq<OperationSpec> := [
    OperationSpec(CancelWorkflow, "Cancel workflow", 'c', true),
    OperationSpec(TerminateWorkflow, "Terminate workflow", 't', true)
  ]

  const ScheduleOps: seq<OperationSpec> := [
    OperationSpec(PauseSchedule, "Pause/unpause schedule", 'p', false),
    OperationSpec(TriggerSchedule, "Trigger schedule", 'T', true),
    OperationSpec(DeleteSchedule, "Delete schedule", 'd', true)
  ]

  const KindSpecs: seq<KindSpec> := [
    KindSpec(WorkflowExecution, "Workflows", true, WorkflowOps),
    KindSpec(Schedule, "Schedules", true, ScheduleOps)
  ]

  const WorkflowDetailTabs: seq<string> := ["Summary", "Input/Output", "History", "Pending Activities", "Task Queue"]

  /** The function an operation's effects come from. */
  datatype EffectMapper =
    | WorkflowCancelEffects
    | WorkflowTerminateEffects
    | ScheduleTriggerEffects
    | ScheduleDeleteEffects
    | SchedulePauseEffects

  datatype OperationEffectSpec = OperationEffectSpec(op: OperationId, kind: KindId, toEffects: EffectMapper)

  const OperationEffects: seq<OperationEffectSpec> := [
    OperationEffectSpec(CancelWorkflow, WorkflowExecution, WorkflowCancelEffects),
    OperationEffectSpec(TerminateWorkflow, WorkflowExecution, WorkflowTerminateEffects),
    OperationEffectSpec(TriggerSchedule, Schedule, ScheduleTriggerEffects),
    OperationEffectSpec(DeleteSchedule, Schedule, ScheduleDeleteEffects),
    OperationEffectSpec(PauseSchedule, Schedule, SchedulePauseEffects)
  ]

  // ---------------------------------------------------------------- lookups (`iter().find`)

  function FindKind(specs: seq<KindSpec>, kind: KindId): (r: Option<nat>)
    ensures r.Some? ==> r.value < |specs| && specs[r.value].id == kind
    ensures r.Some? ==> forall j :: 0 <= j < r.value ==> specs[j].id != kind
    ensures r.None? ==> forall j :: 0 <= j < |specs| ==> specs[j].id != kind
  {
    if specs == [] then None
    else if specs[0].id == kind then Some(0)
    else match FindKind(specs[1..], kind)
      case None => None
      case Some(i) => Some(i + 1)
  }

  function FindOpByKey(ops: seq<OperationSpec>, key: char): (r: Option<nat>)
    ensures r.Some? ==> r.value < |ops| && ops[r.value].key == key
    ensures r.Some? ==> forall j :: 0 <= j < r.value ==> ops[j].key != key
    ensures r.None? ==> forall j :: 0 <= j < |ops| ==> ops[j].key != key
  {
    if ops == [] then None
    else if ops[0].key == key then Some(0)
    else match FindOpByKey(ops[1..], key)
      case None => None
      case Some(i) => Some(i + 1)
  }

  function FindOpById(ops: seq<OperationSpec>, op: OperationId): (r: Option<nat>)
    ensures r.Some? ==> r.value < |ops| && ops[r.value].id == op
    ensures r.Some? ==> forall j :: 0 <= j < r.value ==> ops[j].id != op
    ensures r.None? ==> forall j :: 0 <= j < |ops| ==> ops[j].id != op
  {
    if ops == [] then None
    else if ops[0].id == op then Some(0)
    else match FindOpById(ops[1..], op)
      case None => None
      case Some(i) => Some(i + 1)
  }

  function FindEffect(specs: seq<OperationEffectSpec>, op: OperationId, kind: KindId): (r: Option<nat>)
    ensures r.Some? ==> r.value < |specs| && specs[r.value].op == op && specs[r.value].kind == kind
    ensures r.None? ==> forall j :: 0 <= j < |specs| ==> !(specs[j].op == op && specs[j].kind == kind)
  {
    if specs == [] then None
    else if specs[0].op == op && specs[0].kind == kind then Some(0)
    else match FindEffect(specs[1..], op, kind)
      case None => None
      case Some(i) => Some(i + 1)
  }

  /** Every kind has an entry in the registry, so the lookup never fails. */
  lemma KindSpecPresent(kind: KindId)
    ensures FindKind(KindSpecs, kind).Some?
  {
    assert KindSpecs[0].id == WorkflowExecution && KindSpecs[1].id == Schedule;
  }

  /** `kind_spec`: the registry entry of a kind. */
  function KindSpecOf(kind: KindId): (r: KindSpec)
    ensures r in KindSpecs && r.id == kind
  {
    KindSpecPresent(kind);
    KindSpecs[FindKind(KindSpecs, kind).value]
  }

  function OperationsOf(kind: KindId): seq<OperationSpec> {
    KindSpecOf(kind).operations
  }

  /** `operation_for_key` */
  function OperationForKey(kind: KindId, key: char): (r: Option<OperationId>)
    ensures r.None? <==> forall j :: 0 <= j < |OperationsOf(kind)| ==> OperationsOf(kind)[j].key != key
  {
    match FindOpByKey(OperationsOf(kind), key)
    case None => None
    case Some(i) => Some(OperationsOf(kind)[i].id)
  }

  /** `operation_spec` */
  function OperationSpecOf(kind: KindId, op: OperationId): (r: Option<OperationSpec>)
    ensures r.Some? ==> r.value in OperationsOf(kind) && r.value.id == op
    ensures r.None? <==> forall j :: 0 <= j < |OperationsOf(kind)| ==> OperationsOf(kind)[j].id != op
  {
    match FindOpById(OperationsOf(kind), op)
    case None => None
    case Some(i) => Some(OperationsOf(kind)[i])
  }

  /** `operation_effect_spec` */
  function OperationEffectSpecOf(op: OperationId, kind: KindId): (r: Option<OperationEffectSpec>)
    ensures r.Some? ==> r.value in OperationEffects && r.value.op == op && r.value.kind == kind
    ensures r.None? ==> forall e :: e in OperationEffects ==> !(e.op == op && e.kind == kind)
  {
    match FindEffect(OperationEffects, op, kind)
    case None => None
    case Some(i) => Some(OperationEffects[i])
  }

  /** `detail_tabs_for_kind` */
  function DetailTabsForKind(kind: KindId): Option<seq<string>> {
    match kind
    case WorkflowExecution => Some(WorkflowDetailTabs)
    case Schedule => None
  }

  /** `detail_tab_count` */
  function DetailTabCount(kind: KindId): nat {
    match DetailTabsForKind(kind)
    case None => 0
    case Some(tabs) => |tabs|
  }

  // ---------------------------------------------------------------- effect mappers

  /** The kind an operation belongs to, read off its name. */
  function OperationKind(op: OperationId): KindId {
    match op
    case CancelWorkflow => WorkflowExecution
    case TerminateWorkflow => WorkflowExecution
    case _ => Schedule
  }

  function MapperOp(m: EffectMapper): OperationId {
    match m
    case WorkflowCancelEffects => CancelWorkflow
    case WorkflowTerminateEffects => TerminateWorkflow
    case ScheduleTriggerEffects => TriggerSchedule
    case ScheduleDeleteEffects => DeleteSchedule
    case SchedulePauseEffects => PauseSchedule
  }

  function TargetKind(target: E.OperationTarget): KindId {
    if target.WorkflowTarget? then WorkflowExecution else Schedule
  }

  function TargetId(target: E.OperationTarget): string {
    if target.WorkflowTarget? then target.workflowId else target.scheduleId
  }

  /** The operation an effect performs, if it is one. */
  function EffectOp(e: E.Effect): Option<OperationId> {
    match e
    case CancelWorkflow(_, _) => Some(CancelWorkflow)
    case TerminateWorkflow(_, _) => Some(TerminateWorkflow)
    case PauseSchedule(_, _) => Some(PauseSchedule)
    case TriggerSchedule(_) => Some(TriggerSchedule)
    case DeleteSchedule(_) => Some(DeleteSchedule)
    case _ => None
  }

  /** The id of the workflow or schedule an effect is about, if any. */
  function EffectSubject(e: E.Effect): Option<string> {
    match e
    case LoadWorkflowDetail(w, _) => Some(w)
    case LoadHistory(w, _) => Some(w)
    case LoadScheduleDetail(s) => Some(s)
    case CancelWorkflow(w, _) => Some(w)
    case TerminateWorkflow(w, _) => Some(w)
    case PauseSchedule(s, _) => Some(s)
    case TriggerSchedule(s) => Some(s)
    case DeleteSchedule(s) => Some(s)
    case SignalWorkflow(w, _, _, _) => Some(w)
    case _ => None
  }

  /** `to_effects` of each mapper. `selected` is the application's
      `selected_schedule`, the only application state a mapper reads. */
  function ToEffects(m: EffectMapper, target: E.OperationTarget, selected: Option<D.Schedule>): (r: seq<E.Effect>)
    ensures |r| <= 1
  {
    match m
    case WorkflowCancelEffects =>
      if target.WorkflowTarget? then [E.CancelWorkflow(target.workflowId, target.runId)] else []
    case WorkflowTerminateEffects =>
      if target.WorkflowTarget? then [E.TerminateWorkflow(target.workflowId, target.runId)] else []
    case ScheduleTriggerEffects =>
      if target.ScheduleTarget? then [E.TriggerSchedule(target.scheduleId)] else []
    case ScheduleDeleteEffects =>
      if target.ScheduleTarget? then [E.DeleteSchedule(target.scheduleId)] else []
    case SchedulePauseEffects =>
      if !target.ScheduleTarget? then []
      else if selected.None? then []
      else if selected.value.scheduleId != target.scheduleId then []
      else [E.PauseSchedule(target.scheduleId, selected.value.state != D.Paused)]
  }

  /** A mapper emits at most one effect: the mapper's own operation, on the
      target's id; every mapper but the pause mapper emits it exactly when
      the target is of the mapper's kind. */
  lemma MapperEffects(m: EffectMapper, target: E.OperationTarget, selected: Option<D.Schedule>)
    ensures var r := ToEffects(m, target, selected);
      r != [] ==>
        (r == [r[0]] && TargetKind(target) == OperationKind(MapperOp(m))
         && EffectOp(r[0]) == Some(MapperOp(m)) && EffectSubject(r[0]) == Some(TargetId(target)))
    ensures m != SchedulePauseEffects ==>
      (ToEffects(m, target, selected) != [] <==> TargetKind(target) == OperationKind(MapperOp(m)))
    ensures target.WorkflowTarget? && ToEffects(m, target, selected) != [] ==>
      ToEffects(m, target, selected)[0].runId == target.runId
  {
  }

  /** `schedule_pause_effects` pauses an active schedule and unpauses a
      paused one, and only when the selected schedule is the target. */
  lemma PauseEffects(target: E.OperationTarget, selected: Option<D.Schedule>)
    ensures ToEffects(SchedulePauseEffects, target, selected) != [] <==>
      target.ScheduleTarget? && selected.Some? && selected.value.scheduleId == target.scheduleId
    ensures ToEffects(SchedulePauseEffects, target, selected) != [] ==>
      ToEffects(SchedulePauseEffects, target, selected)[0].pause == (selected.value.state == D.Active)
  {
  }

  // ---------------------------------------------------------------- registry facts

  predicate UniqueIds(ops: seq<OperationSpec>) {
    forall i, j :: 0 <= i < j < |ops| ==> ops[i].id != ops[j].id
  }

  predicate UniqueKeys(ops: seq<OperationSpec>) {
    forall i, j :: 0 <= i < j < |ops| ==> ops[i].key != ops[j].key
  }

  /** Each kind has exactly one registry entry. */
  lemma KindSpecsUnique()
    ensures forall i, j :: 0 <= i < j < |KindSpecs| ==> KindSpecs[i].id != KindSpecs[j].id
    ensures forall kind: KindId :: FindKind(KindSpecs, kind).Some?
  {
    assert KindSpecs[0].id == WorkflowExecution && KindSpecs[1].id == Schedule;
  }

  /** Within a kind, operations have distinct ids and distinct keys. */
  lemma OperationsUnique(kind: KindId)
    ensures UniqueIds(OperationsOf(kind)) && UniqueKeys(OperationsOf(kind))
  {
  }

  lemma {:induction false} FoundKeyFoundById(ops: seq<OperationSpec>, i: nat)
    requires UniqueIds(ops) && i < |ops|
    ensures FindOpById(ops, ops[i].id) == Some(i)
  {
    var r := FindOpById(ops, ops[i].id);
    assert r.Some?;
  }

  lemma {:induction false} KeyFindsIndex(ops: seq<OperationSpec>, i: nat)
    requires UniqueKeys(ops) && i < |ops|
    ensures FindOpByKey(ops, ops[i].key) == Some(i)
  {
    var r := FindOpByKey(ops, ops[i].key);
    assert r.Some?;
  }

  /** The operation bound to a key has that key in its own spec. */
  lemma OperationForKeyConsistent(kind: KindId, key: char)
    ensures OperationForKey(kind, key).Some? ==>
      OperationSpecOf(kind, OperationForKey(kind, key).value).Some? &&
      OperationSpecOf(kind, OperationForKey(kind, key).value).value.key == key
  {
    var ops := OperationsOf(kind);
    OperationsUnique(kind);
    var r := FindOpByKey(ops, key);
    if r.Some? {
      FoundKeyFoundById(ops, r.value);
    }
  }

  /** Every listed operation is reached through its own key. */
  lemma KeyReachesOperation(kind: KindId, i: nat)
    requires i < |OperationsOf(kind)|
    ensures OperationForKey(kind, OperationsOf(kind)[i].key) == Some(OperationsOf(kind)[i].id)
  {
    OperationsUnique(kind);
    KeyFindsIndex(OperationsOf(kind), i);
  }

  /** An operation is listed for a kind exactly when its name says it is of
      that kind. */
  lemma OperationListedForItsKind(kind: KindId, op: OperationId)
    ensures OperationSpecOf(kind, op).Some? <==> OperationKind(op) == kind
  {
    var ops := OperationsOf(kind);
    if OperationKind(op) == kind {
      assert exists j :: 0 <= j < |ops| && ops[j].id == op by {
        match op
        case CancelWorkflow => assert ops[0].id == op;
        case TerminateWorkflow => assert ops[1].id == op;
        case PauseSchedule => assert ops[0].id == op;
        case TriggerSchedule => assert ops[1].id == op;
        case DeleteSchedule => assert ops[2].id == op;
      }
    }
  }

  /** Every listed operation has an effect mapper registered for its
      operation and kind, and no mapper is registered for an unlisted one;
      each mapper is the one named after its operation. */
  lemma EffectsCoverOperations(kind: KindId, op: OperationId)
    ensures OperationEffectSpecOf(op, kind).Some? <==> OperationSpecOf(kind, op).Some?
    ensures OperationEffectSpecOf(op, kind).Some? ==> MapperOp(OperationEffectSpecOf(op, kind).value.toEffects) == op
  {
    OperationListedForItsKind(kind, op);
    if OperationKind(op) == kind {
      EffectSpecFound(op);
    } else {
      EffectSpecAbsent(kind, op);
    }
  }

  /** Each operation has the mapper named after it, under its own kind. */
  lemma EffectSpecFound(op: OperationId)
    ensures OperationEffectSpecOf(op, OperationKind(op)).Some?
    ensures MapperOp(OperationEffectSpecOf(op, OperationKind(op)).value.toEffects) == op
  {
    var kind := OperationKind(op);
    match op
    case CancelWorkflow => assert OperationEffects[0].op == op && OperationEffects[0].kind == kind;
    case TerminateWorkflow => assert OperationEffects[1].op == op && OperationEffects[1].kind == kind;
    case TriggerSchedule => assert OperationEffects[2].op == op && OperationEffects[2].kind == kind;
    case DeleteSchedule => assert OperationEffects[3].op == op && OperationEffects[3].kind == kind;
    case PauseSchedule => assert OperationEffects[4].op == op && OperationEffects[4].kind == kind;
  }

  /** No mapper is registered for an operation under another kind. */
  lemma EffectSpecAbsent(kind: KindId, op: OperationId)
    requires OperationKind(op) != kind
    ensures OperationEffectSpecOf(op, kind).None?
  {
  }

  /** Every operation but pausing a schedule asks for confirmation. */
  lemma ConfirmationPolicy(kind: KindId, op: OperationId)
    requires OperationSpecOf(kind, op).Some?
    ensures OperationSpecOf(kind, op).value.requiresConfirm <==> op != PauseSchedule
  {
  }

  /** Workflows have five detail tabs; schedules none. */
  lemma DetailTabCounts()
    ensures DetailTabCount(WorkflowExecution) == 5
    ensures DetailTabCount(Schedule) == 0
  {
  }
}
