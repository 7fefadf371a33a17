/** The input edge detector of the main loop: which note key the buttons
    select this tick, and the level-sensitive octave and semitone modifiers. */
module Buttons {
  import opened Tables

  /** The controller buttons the loop reads, captured once per tick. */
  datatype Snapshot = Snapshot(
    down: bool, left: bool, right: bool, up: bool,
    cross: bool, square: bool, circle: bool, triangle: bool,
    options: bool, l1: bool, r1: bool, l3: bool, r3: bool)

  /** The zero-initialised `button_prev` before the first reading. */
  const Released := Snapshot(false, false, false, false, false, false, false, false,
                             false, false, false, false, false)

  /** `key` when no note button rose. */
  const NO_KEY := -1
  /** `key` while options is held: all notes off. */
  const PANIC := -2

  /** The `i`-th trigger button, in the order the loop tests them:
      down, left, right, up, cross, square, circle, triangle. */
  predicate Trigger(s: Snapshot, i: int)
  {
    if i == 0 then s.down else if i == 1 then s.left else if i == 2 then s.right
    else if i == 3 then s.up else if i == 4 then s.cross else if i == 5 then s.square
    else if i == 6 then s.circle else i == 7 && s.triangle
  }

  /** Trigger button `i` went from released to pressed. */
  predicate Rose(prev: Snapshot, curr: Snapshot, i: int)
  {
    !Trigger(prev, i) && Trigger(curr, i)
  }

  /** The last of the first `n` trigger buttons that rose, or -1. */
  function LastRise(prev: Snapshot, curr: Snapshot, n: nat): (r: int)
    ensures -1 <= r < n
  {
    if n == 0 then -1
    else if Rose(prev, curr, n - 1) then n - 1
    else LastRise(prev, curr, n - 1)
  }

  function NoteAt(i: int): int
  {
    if 0 <= i < |Notes| then Notes[i] else NO_KEY
  }

  /** The key the buttons select: panic while options is held, otherwise the
      pitch of the last trigger button (in test order) that rose, if any. */
  function SelectedKey(prev: Snapshot, curr: Snapshot): (key: int)
    ensures key == PANIC || key == NO_KEY || key in Notes
  {
    if curr.options then PANIC
    else NoteAt(LastRise(prev, curr, |Notes|))
  }

  /** r1 raises an octave and wins over l1, which lowers one. */
  function OctaveShift(curr: Snapshot): int
  {
    if curr.r1 then 1 else if curr.l1 then -1 else 0
  }

  /** r3 raises a semitone and wins over l3, which lowers one. */
  function SemitoneShift(curr: Snapshot): int
  {
    if curr.r3 then 1 else if curr.l3 then -1 else 0
  }

  /** The button tests at the top of `loop`, as the sequence of overwriting
      `if` statements that the source uses. */
  method ReadButtons(prev: Snapshot, button: Snapshot) returns (key: int, octaveUpDown: int, semitone: int)
    ensures key == SelectedKey(prev, button)
    ensures octaveUpDown == OctaveShift(button)
    ensures semitone == SemitoneShift(button)
  {
    key := -1;
    semitone := 0;
    if !prev.down && button.down { key := NOTE_C4; }
    assert key == NoteAt(LastRise(prev, button, 1));
    if !prev.left && button.left { key := NOTE_D4; }
    assert key == NoteAt(LastRise(prev, button, 2));
    if !prev.right && button.right { key := NOTE_E4; }
    assert key == NoteAt(LastRise(prev, button, 3));
    if !prev.up && button.up { key := NOTE_F4; }
    assert key == NoteAt(LastRise(prev, button, 4));
    if !prev.cross && button.cross { key := NOTE_G4; }
    assert key == NoteAt(LastRise(prev, button, 5));
    if !prev.square && button.square { key := NOTE_A4; }
    assert key == NoteAt(LastRise(prev, button, 6));
    if !prev.circle && button.circle { key := NOTE_B4; }
    assert key == NoteAt(LastRise(prev, button, 7));
    if !prev.triangle && button.triangle { key := NOTE_C5; }
    assert key == NoteAt(LastRise(prev, button, 8));
    if button.options { key := -2; }
    octaveUpDown := 0;
    if button.l1 { octaveUpDown := -1; }
    if button.r1 { octaveUpDown := 1; }
    if button.l3 { semitone := -1; }
    if button.r3 { semitone := 1; }
  }

  // ---------------------------------------------------------------------
  // Properties of the key selection

  /** LastRise finds the last rising edge among the first `n` buttons. */
  lemma {:induction false} LastRiseIsLast(prev: Snapshot, curr: Snapshot, n: nat)
    ensures var r := LastRise(prev, curr, n);
      (r >= 0 ==> Rose(prev, curr, r)) &&
      (forall j | r < j < n :: !Rose(prev, curr, j))
  {
    if n > 0 && !Rose(prev, curr, n - 1) {
      LastRiseIsLast(prev, curr, n - 1);
    }
  }

  /** A note is selected exactly when its button rose this tick, options is
      not held, and no button tested after it rose too. */
  lemma KeyIsLastRisingEdge(prev: Snapshot, curr: Snapshot, i: int)
    requires 0 <= i < |Notes|
    ensures SelectedKey(prev, curr) == Notes[i] <==>
      !curr.options && Rose(prev, curr, i) &&
      forall j | i < j < |Notes| :: !Rose(prev, curr, j)
  {
    NotesAscending();
    LastRiseIsLast(prev, curr, |Notes|);
  }

  /** No key is selected exactly when no trigger button rose and options is not held. */
  lemma NoKeyWithoutEdge(prev: Snapshot, curr: Snapshot)
    ensures SelectedKey(prev, curr) == NO_KEY <==>
      !curr.options && forall j | 0 <= j < |Notes| :: !Rose(prev, curr, j)
  {
    LastRiseIsLast(prev, curr, |Notes|);
  }

  /** Options is level-sensitive: while held it forces panic whatever rose. */
  lemma PanicWhileOptionsHeld(prev: Snapshot, curr: Snapshot)
    ensures SelectedKey(prev, curr) == PANIC <==> curr.options
  {
    NotesAscending();
  }

  /** Holding buttons, or releasing some, never selects a note: only a
      released-to-pressed edge does. */
  lemma NoRetriggerWithoutPress(prev: Snapshot, curr: Snapshot)
    requires forall j | 0 <= j < |Notes| :: Trigger(curr, j) ==> Trigger(prev, j)
    ensures SelectedKey(prev, curr) < 0
  {
    NoKeyWithoutEdge(prev, curr);
  }

  /** The modifiers read levels, with r1 over l1 and r3 over l3. */
  lemma ModifierPriority(curr: Snapshot)
    ensures OctaveShift(curr) == 1 <==> curr.r1
    ensures OctaveShift(curr) == -1 <==> curr.l1 && !curr.r1
    ensures SemitoneShift(curr) == 1 <==> curr.r3
    ensures SemitoneShift(curr) == -1 <==> curr.l3 && !curr.r3
    ensures -1 <= OctaveShift(curr) <= 1 && -1 <= SemitoneShift(curr) <= 1
  {
  }
}
