/** The settings controller of `DisplayUI_loop`: button A moves the cursor
    through normal, tone, scale and volume; B and C step the selected
    setting up or down within its bounds; a counter lets the note
    indicator be redrawn on every tenth call only. */
module DisplayUI {

  const TONE_MAX := 5
  const SCALE_MIN := -12
  const SCALE_MAX := 12
  const VOLUME_MAX := 32

  const POS_NORMAL := 0
  const POS_TONE := 1
  const POS_SCALE := 2
  const POS_VOLUME := 3
  const POS_MAX := POS_VOLUME

  /** The note indicator is redrawn once per this many calls. */
  const RENDER_PERIOD := 10

  /** The globals `tone_no`, `scale` and `master_vol`. */
  datatype Settings = Settings(toneNo: int, scale: int, masterVol: int)

  /** Their start-up values. */
  const Defaults := Settings(0, 0, 32)

  predicate InBounds(s: Settings)
  {
    0 <= s.toneNo <= TONE_MAX && SCALE_MIN <= s.scale <= SCALE_MAX && 0 <= s.masterVol <= VOLUME_MAX
  }

  /** The settings together with the statics `cursol_pos` and `cnt`. */
  datatype UiState = UiState(settings: Settings, cursorPos: int, cnt: int)

  const Start := UiState(Defaults, POS_NORMAL, 0)

  predicate UiValid(u: UiState)
  {
    InBounds(u.settings) && POS_NORMAL <= u.cursorPos <= POS_MAX && 0 <= u.cnt < RENDER_PERIOD
  }

  /** The three button flags read by one call (`wasPressed` of A, B and C). */
  datatype Presses = Presses(btnA: bool, btnB: bool, btnC: bool)

  /** The cursor after a press of A. */
  function CursorNext(pos: int): int
  {
    if pos + 1 > POS_MAX then POS_NORMAL else pos + 1
  }

  /** `change_val`: B steps up, otherwise C steps down. */
  function ChangeVal(btnB: bool, btnC: bool): int
  {
    if btnB then 1 else if btnC then -1 else 0
  }

  /** The `switch` on the cursor: add `change` to the selected setting and
      pull it back inside its bounds, in the order the source tests them. */
  function Edit(s: Settings, pos: int, change: int): Settings
  {
    if change == 0 then s
    else if pos == POS_TONE then
      var t := s.toneNo + change;
      var t1 := if t < 0 then 0 else t;
      s.(toneNo := if t1 > TONE_MAX then TONE_MAX else t1)
    else if pos == POS_SCALE then
      var k := s.scale + change;
      var k1 := if k < SCALE_MIN then SCALE_MIN else k;
      s.(scale := if k1 > SCALE_MAX then SCALE_MAX else k1)
    else if pos == POS_VOLUME then
      var v := s.masterVol + change;
      var v1 := if v > VOLUME_MAX then VOLUME_MAX else v;
      s.(masterVol := if v1 < 0 then 0 else v1)
    else s
  }

  /** The counter after `cnt++` and its wrap-around. */
  function CountNext(cnt: int): int
  {
    if cnt + 1 >= RENDER_PERIOD then 0 else cnt + 1
  }

  /** This call redraws the note indicator (`DisplayUI_sound`). */
  predicate Renders(u: UiState)
  {
    u.cnt + 1 >= RENDER_PERIOD
  }

  /** One call of `DisplayUI_loop`: the cursor moves first, then the edit
      applies to the field the cursor now selects, then the counter ticks. */
  function Next(u: UiState, p: Presses): UiState
  {
    var pos := if p.btnA then CursorNext(u.cursorPos) else u.cursorPos;
    var s := if pos != POS_NORMAL then Edit(u.settings, pos, ChangeVal(p.btnB, p.btnC)) else u.settings;
    UiState(s, pos, CountNext(u.cnt))
  }

  /** Successive calls. */
  function Run(u: UiState, ps: seq<Presses>): UiState
    decreases |ps|
  {
    if ps == [] then u else Run(Next(u, ps[0]), ps[1..])
  }

  /** How many of those calls redraw the note indicator. */
  function RenderCount(u: UiState, ps: seq<Presses>): nat
    decreases |ps|
  {
    if ps == [] then 0
    else (if Renders(u) then 1 else 0) + RenderCount(Next(u, ps[0]), ps[1..])
  }

  /** The cursor after `n` presses of A. */
  function Advance(pos: int, n: nat): int
    decreases n
  {
    if n == 0 then pos else Advance(CursorNext(pos), n - 1)
  }

  /** A reference clamp into `[lo, hi]`. */
  function Clamp(x: int, lo: int, hi: int): (r: int)
    requires lo <= hi
    ensures lo <= r <= hi
    ensures lo <= x <= hi ==> r == x
    ensures x < lo ==> r == lo
    ensures x > hi ==> r == hi
  {
    if x < lo then lo else if x > hi then hi else x
  }

  // ---------------------------------------------------------------------
  // The cursor

  /** A moves the cursor one place round the cycle 0, 1, 2, 3 and stays in it. */
  lemma CursorCycles(pos: int)
    requires POS_NORMAL <= pos <= POS_MAX
    ensures POS_NORMAL <= CursorNext(pos) <= POS_MAX
    ensures CursorNext(pos) == (pos + 1) % 4
  {
  }

  /** From any position on the cycle, `n` presses of A move the cursor `n`
      places round it. */
  lemma {:induction false} AdvanceCycles(pos: int, n: nat)
    requires POS_NORMAL <= pos <= POS_MAX
    ensures Advance(pos, n) == (pos + n) % 4
    decreases n
  {
    if n > 0 {
      AdvanceCycles(CursorNext(pos), n - 1);
    }
  }

  /** The cursor returns to the normal state after exactly four presses. */
  lemma BackToNormalAfterFour(n: nat)
    ensures Advance(POS_NORMAL, n) == POS_NORMAL <==> n % 4 == 0
    ensures Advance(POS_NORMAL, 4) == POS_NORMAL
    ensures forall k | 0 < k < 4 :: Advance(POS_NORMAL, k) != POS_NORMAL
  {
    AdvanceCycles(POS_NORMAL, n);
    forall k | 0 < k < 4 ensures Advance(POS_NORMAL, k) != POS_NORMAL {
      AdvanceCycles(POS_NORMAL, k);
    }
  }

  // ---------------------------------------------------------------------
  // The edits

  /** B and C are ignored while the cursor is in the normal state. */
  lemma NormalIgnoresEdits(u: UiState, btnB: bool, btnC: bool)
    requires u.cursorPos == POS_NORMAL
    ensures Next(u, Presses(false, btnB, btnC)).settings == u.settings
  {
  }

  /** Otherwise B steps up, C steps down, and B wins when both are pressed. */
  lemma StepDirection(btnB: bool, btnC: bool)
    ensures ChangeVal(btnB, btnC) == 1 <==> btnB
    ensures ChangeVal(btnB, btnC) == -1 <==> !btnB && btnC
    ensures ChangeVal(btnB, btnC) == 0 <==> !btnB && !btnC
  {
  }

  /** An edit changes only the setting the cursor selects, clamped into its
      bounds; at any other cursor value it changes nothing. */
  lemma EditClampsSelected(s: Settings, pos: int, change: int)
    requires InBounds(s)
    ensures var e := Edit(s, pos, change);
      e.toneNo == (if pos == POS_TONE then Clamp(s.toneNo + change, 0, TONE_MAX) else s.toneNo) &&
      e.scale == (if pos == POS_SCALE then Clamp(s.scale + change, SCALE_MIN, SCALE_MAX) else s.scale) &&
      e.masterVol == (if pos == POS_VOLUME then Clamp(s.masterVol + change, 0, VOLUME_MAX) else s.masterVol)
  {
  }

  /** A step past a bound leaves the setting at that bound. */
  lemma StepPastBoundStays(s: Settings)
    requires InBounds(s)
    ensures s.toneNo == TONE_MAX ==> Edit(s, POS_TONE, 1) == s
    ensures s.toneNo == 0 ==> Edit(s, POS_TONE, -1) == s
    ensures s.scale == SCALE_MAX ==> Edit(s, POS_SCALE, 1) == s
    ensures s.scale == SCALE_MIN ==> Edit(s, POS_SCALE, -1) == s
    ensures s.masterVol == VOLUME_MAX ==> Edit(s, POS_VOLUME, 1) == s
    ensures s.masterVol == 0 ==> Edit(s, POS_VOLUME, -1) == s
  {
  }

  /** The cursor moves before the edit: A and B in one call raise the setting
      the cursor moves to, so from the normal state the tone, from the tone
      the scale, from the scale the volume, and from the volume (back to
      normal) nothing. */
  lemma AdvanceBeforeEdit(u: UiState)
    requires UiValid(u)
    ensures u.cursorPos == POS_NORMAL ==>
      Next(u, Presses(true, true, false)).settings == u.settings.(toneNo := Clamp(u.settings.toneNo + 1, 0, TONE_MAX))
    ensures u.cursorPos == POS_TONE ==>
      Next(u, Presses(true, true, false)).settings == u.settings.(scale := Clamp(u.settings.scale + 1, SCALE_MIN, SCALE_MAX))
    ensures u.cursorPos == POS_SCALE ==>
      Next(u, Presses(true, true, false)).settings == u.settings.(masterVol := Clamp(u.settings.masterVol + 1, 0, VOLUME_MAX))
    ensures u.cursorPos == POS_VOLUME ==>
      Next(u, Presses(true, true, false)).settings == u.settings
  {
  }

  /** One call keeps the settings, the cursor and the counter in their ranges. */
  lemma NextPreservesValid(u: UiState, p: Presses)
    requires UiValid(u)
    ensures UiValid(Next(u, p))
  {
    EditClampsSelected(u.settings, if p.btnA then CursorNext(u.cursorPos) else u.cursorPos, ChangeVal(p.btnB, p.btnC));
  }

  /** Over any sequence of calls the settings stay within their bounds. */
  lemma {:induction false} RunPreservesValid(u: UiState, ps: seq<Presses>)
    requires UiValid(u)
    ensures UiValid(Run(u, ps))
    decreases |ps|
  {
    if ps != [] {
      NextPreservesValid(u, ps[0]);
      RunPreservesValid(Next(u, ps[0]), ps[1..]);
    }
  }

  // ---------------------------------------------------------------------
  // The render counter

  /** Over `n` calls the note indicator is redrawn once per ten calls:
      counting the calls already made since the last redraw. */
  lemma {:induction false} RenderEveryTenth(u: UiState, ps: seq<Presses>)
    requires 0 <= u.cnt < RENDER_PERIOD
    ensures RenderCount(u, ps) == (u.cnt + |ps|) / RENDER_PERIOD
    ensures Run(u, ps).cnt == (u.cnt + |ps|) % RENDER_PERIOD
    decreases |ps|
  {
    if ps != [] {
      RenderEveryTenth(Next(u, ps[0]), ps[1..]);
    }
  }

  /** The counter is the number of calls modulo ten, and the calls that
      redraw are exactly those that complete a group of ten. */
  lemma CountCalls(calls: nat, cnt: int)
    requires cnt == calls % RENDER_PERIOD
    ensures CountNext(cnt) == (calls + 1) % RENDER_PERIOD
    ensures (calls + 1) / RENDER_PERIOD == calls / RENDER_PERIOD + (if cnt + 1 >= RENDER_PERIOD then 1 else 0)
  {
  }
}
