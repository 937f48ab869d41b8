/** A key read by `key_to_action` and the action it yields run through
    `App::update`: what a keystroke does to the application. */
module KeyFlow {
  import opened Wrappers
  import opened AppTypes
  import opened Reducer
  import opened Event
  import NavigationFacts

  /** Corrected, the very next key ends a pending `g` chord: `g` by going to
      the top, any other key by `Back`. */
  lemma ChordEndsAfterOneKey(s: AppState, key: KeyEvent, now: nat)
    requires s.inputMode == PendingG && s.overlay == NoOverlay
    ensures var r := KeyToAction(key, s.view, s.inputMode, s.overlay, s.inputBuffer);
      r.Some? && (r.value == NavigateTop || r.value == Back) && UpdateCorrected(s, r.value, now).state.inputMode == Normal
  {
    ChordKeys(key, s.view, s.inputBuffer);
    if key.code == Char('g') {
      NavigationFacts.TopEndsChord(s, now);
    } else {
      NavigationFacts.BackEndsChord(s, now);
    }
  }

  /** As written, `Back` leaves the chord pending, so every later key but
      `g` is read as `Back` again: the chord never ends. */
  lemma ChordStuckAsWritten(s: AppState, key: KeyEvent, next: KeyEvent, now: nat)
    requires s.inputMode == PendingG && s.overlay == NoOverlay
    requires key.code != Char('g') && next.code != Char('g')
    ensures KeyToAction(key, s.view, s.inputMode, s.overlay, s.inputBuffer) == Some(Back)
    ensures var t := Update(s, Back, now).state;
      t.inputMode == PendingG && KeyToAction(next, t.view, t.inputMode, t.overlay, t.inputBuffer) == Some(Back)
  {
    ChordKeys(key, s.view, s.inputBuffer);
    NavigationFacts.BackKeepsChordAsWritten(s, now);
    var t := Update(s, Back, now).state;
    ChordKeys(next, t.view, t.inputBuffer);
  }

  /** A character typed into the command line or the search box lands at the
      end of the application's buffer. */
  lemma TypedCharReachesBuffer(s: AppState, c: char, ctrl: bool, now: nat)
    requires (s.inputMode == Command || s.inputMode == Search) && s.overlay == NoOverlay
    ensures var r := KeyToAction(KeyEvent(Char(c), ctrl), s.view, s.inputMode, s.overlay, s.inputBuffer);
      r.Some? && Update(s, r.value, now).state.inputBuffer == s.inputBuffer + [c]
  {
    var a := UpdateInputBuffer(s.inputBuffer + [c]);
    TypingAppends(KeyEvent(Char(c), ctrl), s.view, s.inputMode, s.inputBuffer);
    assert Update(s, a, now) == HandleInput(ClearStaleToast(s, now), a, now);
  }

  /** Esc in the command line or the search box goes back to normal mode
      with an empty line. */
  lemma EscLeavesInput(s: AppState, now: nat)
    requires (s.inputMode == Command || s.inputMode == Search) && s.overlay == NoOverlay
    ensures var r := KeyToAction(KeyEvent(Esc, false), s.view, s.inputMode, s.overlay, s.inputBuffer);
      r == Some(CloseOverlay) &&
      Update(s, r.value, now).state.inputMode == Normal && Update(s, r.value, now).state.inputBuffer == []
  {
    NavigationFacts.EscapeOrder(s, now);
  }
}
