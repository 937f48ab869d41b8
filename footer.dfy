/** The footer's key hints: the list `render` picks by input mode and view,
    and the builders that assemble it from the registry. */
module Footer {
  import opened Wrappers
  import opened Kinds
  import opened AppTypes
  import Event

  /** A key and what it does, as `(key, description)`. */
  type Hint = (string, string)

  const CollectionLead: seq<Hint> := [("j/k", "nav"), ("Enter", "select"), ("/", "search"), (":", "cmd")]
  const DetailLead: seq<Hint> := [("j/k", "scroll"), ("Esc", "back")]
  const WorkflowDetailLead: seq<Hint> := [("h/l", "tabs"), ("a", "activities")]
  const WorkflowsHint: Hint := ("w", "workflows")
  const HelpHint: Hint := ("?", "help")
  const QuitHint: Hint := ("q", "quit")

  /** One hint per operation, its key and its title, in the given order. */
  function {:induction false} OpHints(ops: seq<OperationSpec>): (r: seq<Hint>)
    ensures |r| == |ops|
    ensures forall i :: 0 <= i < |ops| ==> r[i] == ([ops[i].key], ops[i].title)
  {
    if ops == [] then [] else [([ops[0].key], ops[0].title)] + OpHints(ops[1..])
  }

  /** `operation_hints`: the registry's operations of `kind`, in registry order. */
  function OperationHints(kind: KindId): (r: seq<Hint>)
    ensures |r| == |OperationsOf(kind)|
    ensures forall i :: 0 <= i < |r| ==> r[i] == ([OperationsOf(kind)[i].key], OperationsOf(kind)[i].title)
  {
    OpHints(OperationsOf(kind))
  }

  function SchedulePart(kind: KindId): seq<Hint> {
    if kind == Schedule then [WorkflowsHint] else []
  }

  /** What `build_collection_hints` yields. */
  function CollectionHints(kind: KindId): seq<Hint> {
    CollectionLead + OperationHints(kind) + SchedulePart(kind) + [HelpHint, QuitHint]
  }

  /** What `build_detail_hints` yields. */
  function DetailHints(kind: KindId): seq<Hint> {
    (if kind == WorkflowExecution then WorkflowDetailLead else []) + DetailLead + OperationHints(kind)
      + SchedulePart(kind) + [HelpHint]
  }

  /** The hints `render` shows. */
  function HintsFor(mode: InputMode, view: View): seq<Hint> {
    match mode
    case Command => [("Esc", "cancel"), ("Enter", "execute")]
    case Search => [("Esc", "cancel"), ("Enter", "apply")]
    case PendingG => [("g", "top")]
    case Normal =>
      (match view
       case Collection(kind) => CollectionHints(kind)
       case Detail(kind) => DetailHints(kind))
  }

  /** `Vec::insert` */
  function Insert(s: seq<Hint>, i: nat, h: Hint): (r: seq<Hint>)
    requires i <= |s|
    ensures |r| == |s| + 1 && r[i] == h && r[..i] == s[..i] && r[i + 1..] == s[i..]
  {
    s[..i] + [h] + s[i..]
  }

  // ---------------------------------------------------------------- the builders

  /** `build_collection_hints` */
  method BuildCollectionHints(kind: KindId) returns (hints: seq<Hint>)
    ensures hints == CollectionHints(kind)
  {
    hints := CollectionLead;
    hints := hints + OperationHints(kind);
    if kind == Schedule {
      hints := hints + [WorkflowsHint];
    }
    hints := hints + [HelpHint];
    hints := hints + [QuitHint];
  }

  /** `build_detail_hints`: the workflow detail puts its two hints in front. */
  method BuildDetailHints(kind: KindId) returns (hints: seq<Hint>)
    ensures hints == DetailHints(kind)
  {
    hints := DetailLead;
    if kind == WorkflowExecution {
      hints := Insert(hints, 0, WorkflowDetailLead[0]);
      hints := Insert(hints, 1, WorkflowDetailLead[1]);
      assert hints == WorkflowDetailLead + DetailLead;
    }
    hints := hints + OperationHints(kind);
    if kind == Schedule {
      hints := hints + [WorkflowsHint];
    }
    hints := hints + [HelpHint];
  }

  /** The hint list `render` picks by input mode, then by view. */
  method FooterHints(mode: InputMode, view: View) returns (hints: seq<Hint>)
    ensures hints == HintsFor(mode, view)
  {
    match mode
    case Command => hints := [("Esc", "cancel"), ("Enter", "execute")];
    case Search => hints := [("Esc", "cancel"), ("Enter", "apply")];
    case PendingG => hints := [("g", "top")];
    case Normal =>
      if view.Collection? {
        hints := BuildCollectionHints(view.kind);
      } else {
        hints := BuildDetailHints(view.kind);
      }
  }

  // ---------------------------------------------------------------- what the lists hold

  /** No operation's hint reads like one of the fixed hints. */
  lemma OperationHintsDistinct(kind: KindId, h: Hint)
    requires h in OperationHints(kind)
    ensures h != WorkflowsHint && h != HelpHint && h != QuitHint
  {
    var ops := OperationsOf(kind);
    var i :| 0 <= i < |OperationHints(kind)| && OperationHints(kind)[i] == h;
    if kind == WorkflowExecution {
      assert ops == WorkflowOps;
    } else {
      assert ops == ScheduleOps;
    }
    assert h.0 == [ops[i].key];
  }

  /** A list: the four lead hints, the kind's operations in registry order,
      `w workflows` for schedules only, then help and quit. */
  lemma CollectionHintsOrder(kind: KindId)
    ensures var h := CollectionHints(kind);
      var n := |OperationsOf(kind)|;
      var w := if kind == Schedule then 1 else 0;
      |h| == 6 + n + w &&
      h[..4] == CollectionLead &&
      h[4..4 + n] == OperationHints(kind) &&
      (kind == Schedule ==> h[4 + n] == WorkflowsHint) &&
      h[|h| - 2..] == [HelpHint, QuitHint]
  {
    var h := CollectionHints(kind);
    var n := |OperationsOf(kind)|;
    assert h == CollectionLead + OperationHints(kind) + SchedulePart(kind) + [HelpHint, QuitHint];
  }

  /** `w workflows` is offered in a list exactly when it is the schedule list. */
  lemma WorkflowsHintOnlyForSchedules(kind: KindId)
    ensures WorkflowsHint in CollectionHints(kind) <==> kind == Schedule
  {
    if WorkflowsHint in OperationHints(kind) {
      OperationHintsDistinct(kind, WorkflowsHint);
    }
  }

  /** A detail view ends with help and offers no quit. */
  lemma DetailHintsEndWithHelp(kind: KindId)
    ensures var h := DetailHints(kind);
      h[|h| - 1] == HelpHint && QuitHint !in h
  {
    if QuitHint in OperationHints(kind) {
      OperationHintsDistinct(kind, QuitHint);
    }
  }

  /** The workflow detail starts with tabs, activities, scroll and back. */
  lemma WorkflowDetailStarts()
    ensures DetailHints(WorkflowExecution)[..4] == [("h/l", "tabs"), ("a", "activities"), ("j/k", "scroll"), ("Esc", "back")]
  {
  }

  /** The command line and the search box name their two keys; the chord its one. */
  lemma ModeHints(view: View)
    ensures HintsFor(Command, view) == [("Esc", "cancel"), ("Enter", "execute")]
    ensures HintsFor(Search, view) == [("Esc", "cancel"), ("Enter", "apply")]
    ensures HintsFor(PendingG, view) == [("g", "top")]
    ensures HintsFor(Normal, view) == if view.Collection? then CollectionHints(view.kind) else DetailHints(view.kind)
  {
  }

  /** Every operation hint names a key that runs that very operation in the
      views of its kind. */
  lemma HintedOperationKeysWork(view: View, i: nat, buffer: string)
    requires i < |OperationHints(view.kind)|
    ensures var op := OperationsOf(view.kind)[i];
      OperationHints(view.kind)[i] == ([op.key], op.title) &&
      Event.KeyToAction(Event.KeyEvent(Event.Char(op.key), false), view, Normal, NoOverlay, buffer) == Some(RunOperation(op.id))
  {
    Event.RegisteredKeyRuns(view, i, buffer);
  }

  /** Two hints name keys that nothing reads: `w` in the schedule screens and
      `a` in the workflow detail. */
  lemma UnboundHints(view: View, buffer: string)
    ensures view.kind == Schedule ==> WorkflowsHint in HintsFor(Normal, view)
    ensures view == Detail(WorkflowExecution) ==> WorkflowDetailLead[1] in HintsFor(Normal, view)
    ensures Event.KeyToAction(Event.KeyEvent(Event.Char('w'), false), view, Normal, NoOverlay, buffer).None?
    ensures Event.KeyToAction(Event.KeyEvent(Event.Char('a'), false), view, Normal, NoOverlay, buffer).None?
  {
    Event.AdvertisedKeysUnbound('w', view, buffer);
    Event.AdvertisedKeysUnbound('a', view, buffer);
    if view.kind == Schedule {
      if view.Collection? {
        assert CollectionHints(Schedule)[4 + |OperationsOf(Schedule)|] == WorkflowsHint;
      } else {
        assert DetailHints(Schedule)[2 + |OperationsOf(Schedule)|] == WorkflowsHint;
      }
    }
    if view == Detail(WorkflowExecution) {
      assert DetailHints(WorkflowExecution)[1] == WorkflowDetailLead[1];
    }
  }
}
