/** `key_to_action`: the key pressed, read against the overlay, the input
    mode, the Ctrl modifier and the view, in that order of precedence. */
module Event {
  import opened Wrappers
  import opened Text
  import opened Kinds
  import opened AppTypes
  import Commands

  /** The keys the table tells apart; every other key is `OtherKey`. */
  datatype KeyCode = Char(c: char) | Esc | Enter | Tab | BackTab | Backspace | Up | Down | OtherKey

  /** A key and whether Ctrl was held. No other modifier is read. */
  datatype KeyEvent = KeyEvent(code: KeyCode, ctrl: bool)

  /** `String::pop` on a copy of the buffer: the last character goes, an
      empty buffer stays empty. */
  function DropLast(s: string): (r: string)
    ensures s == [] ==> r == []
    ensures s != [] ==> r + [s[|s| - 1]] == s
  {
    if s == [] then [] else s[..|s| - 1]
  }

  /** Tab in the command line: the first command offered for the buffer's
      first word, followed by a space. */
  function Complete(buffer: string): Option<string> {
    var matches := Commands.MatchingCommands(FirstWord(buffer));
    if matches == [] then None else Some(matches[0].name + " ")
  }

  /** The keys an open overlay takes; it takes every key. */
  function OverlayKey(code: KeyCode, overlay: Overlay): Option<Action>
    requires overlay != NoOverlay
  {
    match overlay
    case Help => if code == Esc || code == Char('?') || code == Char('q') then Some(ToggleHelp) else None
    case Confirm(_) =>
      if code == Char('y') || code == Enter then Some(CloseOverlay)
      else if code == Char('n') || code == Esc then Some(CloseOverlay)
      else None
    case NamespaceSelector => if code == Esc then Some(CloseOverlay) else None
  }

  /** The command line. */
  function CommandKey(code: KeyCode, buffer: string): Option<Action> {
    match code
    case Esc => Some(CloseOverlay)
    case Enter => Some(SubmitCommandInput(buffer))
    case Tab => (match Complete(buffer) case Some(completed) => Some(UpdateInputBuffer(completed)) case None => None)
    case Backspace => Some(UpdateInputBuffer(DropLast(buffer)))
    case Char(c) => Some(UpdateInputBuffer(buffer + [c]))
    case _ => None
  }

  /** The search box. */
  function SearchKey(code: KeyCode, buffer: string): Option<Action> {
    match code
    case Esc => Some(CloseOverlay)
    case Enter => Some(SubmitSearch(buffer))
    case Backspace => Some(UpdateInputBuffer(DropLast(buffer)))
    case Char(c) => Some(UpdateInputBuffer(buffer + [c]))
    case _ => None
  }

  /** The key after `g`: a second `g` goes to the top, anything else cancels. */
  function ChordKey(code: KeyCode): Option<Action> {
    if code == Char('g') then Some(NavigateTop) else Some(Back)
  }

  /** Ctrl held in normal mode. */
  function CtrlKey(code: KeyCode): Option<Action> {
    if code == Char('c') then Some(Quit)
    else if code == Char('r') then Some(Refresh)
    else if code == Char('d') then Some(PageDown)
    else if code == Char('u') then Some(PageUp)
    else None
  }

  /** Normal mode without Ctrl: the global keys, then the keys of the view. */
  function NormalKey(code: KeyCode, view: View): Option<Action> {
    if code == Char('q') then Some(Quit)
    else if code == Char(':') then Some(OpenCommandInput)
    else if code == Char('/') && view.Collection? then Some(OpenSearch)
    else if code == Char('?') then Some(ToggleHelp)
    else if code == Char('j') || code == Down then Some(NavigateDown)
    else if code == Char('k') || code == Up then Some(NavigateUp)
    else if code == Char('g') then Some(EnterPendingG)
    else if code == Char('G') then Some(NavigateBottom)
    else if code == Enter then Some(Select)
    else if code == Esc then Some(Back)
    else if code == Tab then Some(NextTab)
    else if code == BackTab then Some(PrevTab)
    else if code == Char('c') && view.kind == WorkflowExecution then Some(RunOperation(CancelWorkflow))
    else if code == Char('t') && view.kind == WorkflowExecution then Some(RunOperation(TerminateWorkflow))
    else if code == Char('l') && view == Detail(WorkflowExecution) then Some(NextTab)
    else if code == Char('h') && view == Detail(WorkflowExecution) then Some(PrevTab)
    else if code == Char('p') && view.kind == Schedule then Some(RunOperation(PauseSchedule))
    else if code == Char('T') && view.kind == Schedule then Some(RunOperation(TriggerSchedule))
    else if code == Char('d') && view.kind == Schedule then Some(RunOperation(DeleteSchedule))
    else None
  }

  /** `key_to_action` */
  function KeyToAction(key: KeyEvent, view: View, mode: InputMode, overlay: Overlay, buffer: string): Option<Action> {
    if overlay != NoOverlay then OverlayKey(key.code, overlay)
    else match mode
      case Command => CommandKey(key.code, buffer)
      case Search => SearchKey(key.code, buffer)
      case PendingG => ChordKey(key.code)
      case Normal => if key.ctrl then CtrlKey(key.code) else NormalKey(key.code, view)
  }

  // ---------------------------------------------------------------- overlays first

  /** An open overlay decides alone: the mode, the view and the buffer do not
      matter. */
  lemma OverlayDecides(key: KeyEvent, overlay: Overlay, v1: View, m1: InputMode, b1: string,
                       v2: View, m2: InputMode, b2: string)
    requires overlay != NoOverlay
    ensures KeyToAction(key, v1, m1, overlay, b1) == KeyToAction(key, v2, m2, overlay, b2)
  {
  }

  /** Help closes on Esc, `?` and `q`; every other key is ignored. */
  lemma HelpKeys(key: KeyEvent, view: View, mode: InputMode, buffer: string)
    ensures var r := KeyToAction(key, view, mode, Help, buffer);
      (r.Some? <==> key.code in {Esc, Char('?'), Char('q')}) && (r.Some? ==> r.value == ToggleHelp)
  {
  }

  /** The namespace selector answers Esc only. */
  lemma NamespaceSelectorKeys(key: KeyEvent, view: View, mode: InputMode, buffer: string)
    ensures var r := KeyToAction(key, view, mode, NamespaceSelector, buffer);
      (r.Some? <==> key.code == Esc) && (r.Some? ==> r.value == CloseOverlay)
  {
  }

  /** The confirmation dialog closes on `y`, Enter, `n` and Esc alike. */
  lemma ConfirmKeys(key: KeyEvent, view: View, mode: InputMode, c: OperationConfirm, buffer: string)
    ensures var r := KeyToAction(key, view, mode, Confirm(c), buffer);
      (r.Some? <==> key.code in {Char('y'), Enter, Char('n'), Esc}) && (r.Some? ==> r.value == CloseOverlay)
  {
  }

  // ---------------------------------------------------------------- the command line and the search box

  predicate Editing(mode: InputMode) {
    mode == Command || mode == Search
  }

  /** A character typed goes to the end of the buffer, Ctrl or not. */
  lemma TypingAppends(key: KeyEvent, view: View, mode: InputMode, buffer: string)
    requires Editing(mode) && key.code.Char?
    ensures KeyToAction(key, view, mode, NoOverlay, buffer) == Some(UpdateInputBuffer(buffer + [key.code.c]))
  {
  }

  /** Backspace drops the last character; an empty buffer stays empty. */
  lemma BackspaceDrops(key: KeyEvent, view: View, mode: InputMode, buffer: string)
    requires Editing(mode) && key.code == Backspace
    ensures var r := KeyToAction(key, view, mode, NoOverlay, buffer);
      r.Some? && r.value.UpdateInputBuffer? &&
      (buffer == [] ==> r.value.buffer == []) &&
      (buffer != [] ==> r.value.buffer + [buffer[|buffer| - 1]] == buffer)
  {
  }

  /** Backspace takes back the character just typed. */
  lemma BackspaceUndoesTyping(view: View, mode: InputMode, buffer: string, c: char, ctrl: bool)
    requires Editing(mode)
    ensures var typed := KeyToAction(KeyEvent(Char(c), ctrl), view, mode, NoOverlay, buffer);
      typed.Some? && typed.value.UpdateInputBuffer? &&
      KeyToAction(KeyEvent(Backspace, ctrl), view, mode, NoOverlay, typed.value.buffer) == Some(UpdateInputBuffer(buffer))
  {
    assert (buffer + [c])[..|buffer + [c]| - 1] == buffer;
  }

  /** Enter hands the buffer over: as a command line or as a search. */
  lemma EnterSubmits(key: KeyEvent, view: View, mode: InputMode, buffer: string)
    requires Editing(mode) && key.code == Enter
    ensures KeyToAction(key, view, mode, NoOverlay, buffer) ==
      Some(if mode == Command then SubmitCommandInput(buffer) else SubmitSearch(buffer))
  {
  }

  /** Tab completes to the first command of the table offered for the
      buffer's first word, and does nothing when none is. */
  lemma {:induction false} TabCompletes(key: KeyEvent, view: View, buffer: string)
    requires key.code == Tab
    ensures var r := KeyToAction(key, view, Command, NoOverlay, buffer);
      var word := ToLower(FirstWord(buffer));
      (r.None? <==> forall c :: c in Commands.CommandTable ==> !Commands.Offers(c, word)) &&
      (r.Some? ==> exists i :: 0 <= i < |Commands.CommandTable| && Commands.Offers(Commands.CommandTable[i], word) &&
                              r == Some(UpdateInputBuffer(Commands.CommandTable[i].name + " ")) &&
                              forall j :: 0 <= j < i ==> !Commands.Offers(Commands.CommandTable[j], word))
  {
    var word := ToLower(FirstWord(buffer));
    var matches := Commands.MatchingCommands(FirstWord(buffer));
    if matches != [] {
      Commands.FilterHead(Commands.CommandTable, word);
      assert matches[0] in matches;
    } else {
      forall c | c in Commands.CommandTable
        ensures !Commands.Offers(c, word)
      {
        assert c !in matches;
      }
    }
  }

  /** Completing a single word reads the commands offered for it. */
  lemma CompleteWord(w: string, offered: seq<Commands.CommandDef>)
    requires forall i :: 0 <= i < |w| ==> !IsWhitespace(w[i])
    requires Commands.MatchingCommands(w) == offered
    ensures Complete(w) == if offered == [] then None else Some(offered[0].name + " ")
  {
    FirstWordOfWord(w);
  }

  lemma TabReadsCompletion(ctrl: bool, view: View, buffer: string)
    ensures KeyToAction(KeyEvent(Tab, ctrl), view, Command, NoOverlay, buffer)
         == if Complete(buffer).Some? then Some(UpdateInputBuffer(Complete(buffer).value)) else None
  {
  }

  /** `sig` completes to `signal `. */
  lemma CompleteSig()
    ensures Complete("sig") == Some("signal ")
  {
    Commands.MatchSig();
    CompleteWord("sig", [Commands.CommandTable[3]]);
    assert Commands.CommandTable[3].name + " " == "signal ";
  }

  /** Tab on `sig` writes `signal `. */
  lemma TabCompletesSignal(view: View, ctrl: bool)
    ensures KeyToAction(KeyEvent(Tab, ctrl), view, Command, NoOverlay, "sig") == Some(UpdateInputBuffer("signal "))
  {
    CompleteSig();
    TabReadsCompletion(ctrl, view, "sig");
  }

  /** Tab on `xyz` leaves the line alone. */
  lemma TabIgnoresUnknown(view: View, ctrl: bool)
    ensures KeyToAction(KeyEvent(Tab, ctrl), view, Command, NoOverlay, "xyz") == None
  {
    assert Complete("xyz") == None by {
      Commands.MatchXyz();
      CompleteWord("xyz", []);
    }
    TabReadsCompletion(ctrl, view, "xyz");
  }

  // ---------------------------------------------------------------- the `g` chord

  /** While the chord is pending every key produces an action: `g` the top,
      anything else `Back`. */
  lemma ChordKeys(key: KeyEvent, view: View, buffer: string)
    ensures KeyToAction(key, view, PendingG, NoOverlay, buffer) ==
      Some(if key.code == Char('g') then NavigateTop else Back)
  {
  }

  // ---------------------------------------------------------------- normal mode

  /** With Ctrl held only `c`, `r`, `d` and `u` mean anything; no Ctrl chord
      reaches the plain keys. */
  lemma CtrlKeys(key: KeyEvent, view: View, buffer: string)
    requires key.ctrl
    ensures var r := KeyToAction(key, view, Normal, NoOverlay, buffer);
      (r == Some(Quit) <==> key.code == Char('c')) &&
      (r == Some(Refresh) <==> key.code == Char('r')) &&
      (r == Some(PageDown) <==> key.code == Char('d')) &&
      (r == Some(PageUp) <==> key.code == Char('u')) &&
      (r.None? <==> key.code !in {Char('c'), Char('r'), Char('d'), Char('u')})
  {
  }

  /** `/` opens the search box in the lists and nowhere else. */
  lemma SearchOnlyInLists(view: View, buffer: string)
    ensures var r := KeyToAction(KeyEvent(Char('/'), false), view, Normal, NoOverlay, buffer);
      (r.Some? <==> view.Collection?) && (r.Some? ==> r.value == OpenSearch)
  {
  }

  /** `l` and `h` move between tabs only in the workflow detail. */
  lemma TabKeysOnlyInWorkflowDetail(c: char, view: View, buffer: string)
    requires c == 'l' || c == 'h'
    ensures var r := KeyToAction(KeyEvent(Char(c), false), view, Normal, NoOverlay, buffer);
      (r.Some? <==> view == Detail(WorkflowExecution)) &&
      (r.Some? ==> r.value == (if c == 'l' then NextTab else PrevTab))
  {
  }

  /** Every operation the registry lists for the kind on screen runs on its
      key. */
  lemma {:induction false} RegisteredKeyRuns(view: View, i: nat, buffer: string)
    requires i < |OperationsOf(view.kind)|
    ensures KeyToAction(KeyEvent(Char(OperationsOf(view.kind)[i].key), false), view, Normal, NoOverlay, buffer) ==
      Some(RunOperation(OperationsOf(view.kind)[i].id))
  {
    if view.kind == WorkflowExecution {
      assert OperationsOf(view.kind) == WorkflowOps;
    } else {
      assert OperationsOf(view.kind) == ScheduleOps;
    }
  }

  /** A key of the other kind's operations does nothing. */
  lemma ForeignOperationKey(c: char, view: View, buffer: string)
    requires c in {'c', 't', 'p', 'T', 'd'} && OperationForKey(view.kind, c).None?
    ensures KeyToAction(KeyEvent(Char(c), false), view, Normal, NoOverlay, buffer).None?
  {
    var ops := OperationsOf(view.kind);
    if view.kind == WorkflowExecution {
      assert ops == WorkflowOps && ops[0].key == 'c' && ops[1].key == 't';
    } else {
      assert ops == ScheduleOps && ops[0].key == 'p' && ops[1].key == 'T' && ops[2].key == 'd';
    }
  }

  /** An operation key runs the operation the registry binds to it for the
      kind on screen, and does nothing where the registry binds none. */
  lemma OperationKeysFollowRegistry(c: char, view: View, buffer: string)
    requires c in {'c', 't', 'p', 'T', 'd'}
    ensures KeyToAction(KeyEvent(Char(c), false), view, Normal, NoOverlay, buffer) ==
      (match OperationForKey(view.kind, c) case Some(op) => Some(RunOperation(op)) case None => None)
  {
    var ops := OperationsOf(view.kind);
    match FindOpByKey(ops, c)
    case Some(i) =>
      RegisteredKeyRuns(view, i, buffer);
    case None =>
      ForeignOperationKey(c, view, buffer);
  }

  /** The `w` the schedule footer advertises and the `a` the workflow detail
      footer advertises have no binding here. */
  lemma AdvertisedKeysUnbound(c: char, view: View, buffer: string)
    requires c == 'w' || c == 'a'
    ensures KeyToAction(KeyEvent(Char(c), false), view, Normal, NoOverlay, buffer).None?
  {
  }
}
