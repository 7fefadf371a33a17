/** The whole per-tick behaviour of the controller as functions on values:
    one call of `loop` reads the buttons, plays or silences the chord, runs
    the settings controller and re-sends the tone when it changed. The
    imperative class in `Controller` is proved to do exactly this. */
module Engine {
  import opened Wrappers
  import opened Midi
  import opened Tables
  import opened Buttons
  import UI = DisplayUI
  import CInt
  import Render

  /** Everything `loop` and `DisplayUI_loop` keep from one call to the next:
      the settings and the UI statics, the sounding keys, the statics of
      `loop` and the previous button snapshot. */
  datatype State = State(
    ui: UI.UiState,
    key1: int, key2: int, key3: int,
    octave: int, key12: int, vol: int,
    tonePrev: int, buttonPrev: Snapshot)

  /** What one tick reads: whether the controller is connected, its
      buttons, and the was-pressed flags of the M5 buttons A, B and C. */
  datatype Input = Input(connected: bool, button: Snapshot, presses: UI.Presses)

  /** The arguments of one `DisplayUI_sound` call. */
  datatype SoundArgs = SoundArgs(octave: int, key12: int, vol: int)

  /** The note part of a tick: the new state and the messages written. */
  datatype NoteResult = NoteResult(state: State, msgs: seq<Message>)

  /** A whole tick: the new state, the messages written in order, and the
      indicator redraw, if this tick makes one. */
  datatype TickResult = TickResult(state: State, msgs: seq<Message>, sound: Option<SoundArgs>)

  /** A run of ticks: the final state, the messages and the redraws. */
  datatype RunResult = RunResult(state: State, msgs: seq<Message>, sounds: seq<SoundArgs>)

  /** The state once `setup` has run. */
  const Boot := State(UI.Start, NOTE_C4, NOTE_C4, NOTE_C4, 0, 0, 0, -1, Released)

  /** `setup` selects program 0 on channels 1 to 3. */
  const SetupMessages := [ProgramChange(1, 0), ProgramChange(2, 0), ProgramChange(3, 0)]

  /** The bytes `setup` writes. */
  lemma SetupBytes()
    ensures EncodeAll(SetupMessages) == [0xC1, 0, 0xC2, 0, 0xC3, 0]
  {
    var ms := SetupMessages;
    assert ms[1..][1..][1..] == [];
    assert EncodeAll(ms) == Encode(ms[0]) + (Encode(ms[1]) + (Encode(ms[2]) + EncodeAll([])));
  }

  /** The full velocity. */
  const VEL_MAX := 0x7F

  /** Between ticks: the settings, cursor and counter in range; the keys
      are a major triad on a root within reach of the buttons, or the
      unison C4 of start-up; the pitch class and octave the indicator shows
      are in range; the volume is off or full; and the tone last sent is the
      current one, or none has been sent yet. */
  predicate Inv(s: State)
  {
    UI.UiValid(s.ui) &&
    35 <= s.key1 <= 97 &&
    ((s.key2 == s.key1 + 4 && s.key3 == s.key1 + 7) ||
     (s.key1 == NOTE_C4 && s.key2 == NOTE_C4 && s.key3 == NOTE_C4)) &&
    0 <= s.key12 < 12 && 0 <= s.octave <= 7 &&
    (s.vol == 0 || s.vol == VEL_MAX) &&
    (s.tonePrev == -1 || s.tonePrev == s.ui.settings.toneNo)
  }

  // ---------------------------------------------------------------------
  // The note engine

  /** The Note On velocity for a master volume. */
  function Velocity(masterVol: int): int
  {
    if masterVol > 0 then masterVol * 4 - 1 else 0
  }

  /** The chord velocity, three quarters of it in C integer division. */
  function ChordVelocity(velocity: int): int
  {
    CInt.Quot(velocity * 3, 4)
  }

  /** The root of the new chord. */
  function Root(key: int, semitone: int, octaveUpDown: int, scale: int): int
  {
    key + semitone + octaveUpDown * 12 + scale
  }

  /** The four Note Offs that silence the chord: the root on channels 0 and
      1, the third on channel 2 and the fifth on channel 3. */
  function KeysOff(k1: int, k2: int, k3: int, velocity: int): seq<Message>
  {
    [NoteOff(0, k1, velocity), NoteOff(1, k1, velocity), NoteOff(2, k2, velocity), NoteOff(3, k3, velocity)]
  }

  /** The bytes of the four Note Offs. */
  lemma KeysOffBytes(k1: int, k2: int, k3: int, velocity: int)
    ensures EncodeAll(KeysOff(k1, k2, k3, velocity)) ==
      [0x80, k1, velocity, 0x81, k1, velocity, 0x82, k2, velocity, 0x83, k3, velocity]
  {
    var ms := KeysOff(k1, k2, k3, velocity);
    assert ms[3..][1..] == [];
    assert EncodeAll(ms[3..]) == Encode(ms[3]);
    assert ms[2..][1..] == ms[3..];
    assert EncodeAll(ms[2..]) == Encode(ms[2]) + EncodeAll(ms[3..]);
    assert ms[1..][1..] == ms[2..];
    assert EncodeAll(ms[1..]) == Encode(ms[1]) + EncodeAll(ms[2..]);
  }

  /** The bytes of the Note Ons. */
  lemma NoteOnsBytes(t: int, k1: int, k2: int, k3: int, v: int, c: int)
    ensures EncodeAll(NoteOns(t, k1, k2, k3, v, c)) ==
      (if t <= 1 then [0x90, k1, v] else []) +
      (if t == 1 || t == 2 then [0x91, k1, c, 0x92, k2, c, 0x93, k3, c] else []) +
      (if t >= 3 then [0x91, k1, v] else [])
  {
    var a := if t <= 1 then [NoteOn(0, k1, v)] else [];
    var b := if t == 1 || t == 2 then [NoteOn(1, k1, c), NoteOn(2, k2, c), NoteOn(3, k3, c)] else [];
    var d := if t >= 3 then [NoteOn(1, k1, v)] else [];
    var root: seq<int> := if t <= 1 then [0x90, k1, v] else [];
    var triad: seq<int> := if t == 1 || t == 2 then [0x91, k1, c, 0x92, k2, c, 0x93, k3, c] else [];
    var alone: seq<int> := if t >= 3 then [0x91, k1, v] else [];
    if a != [] {
      assert a[1..] == [];
    }
    assert EncodeAll(a) == root;
    if b != [] {
      assert b[1..][1..][1..] == [];
      assert EncodeAll(b[2..]) == [0x93, k3, c];
      assert b[1..][1..] == b[2..];
      assert EncodeAll(b[1..]) == [0x92, k2, c] + EncodeAll(b[2..]);
    }
    assert EncodeAll(b) == triad;
    if d != [] {
      assert d[1..] == [];
    }
    assert EncodeAll(d) == alone;
    assert NoteOns(t, k1, k2, k3, v, c) == a + b + d;
    EncodeAllAppend(a + b, d);
    EncodeAllAppend(a, b);
  }

  /** The Note Ons, routed by the tone: tones 0 and 1 play the root on
      channel 0, tones 1 and 2 the triad on channels 1 to 3 at chord
      velocity, and tones from 3 up the root alone on channel 1. */
  function NoteOns(toneNo: int, k1: int, k2: int, k3: int, velocity: int, chord: int): seq<Message>
  {
    (if toneNo <= 1 then [NoteOn(0, k1, velocity)] else []) +
    (if toneNo == 1 || toneNo == 2 then [NoteOn(1, k1, chord), NoteOn(2, k2, chord), NoteOn(3, k3, chord)] else []) +
    (if toneNo >= 3 then [NoteOn(1, k1, velocity)] else [])
  }

  /** A new key: release the chord, sing the phoneme of the new root's
      pitch class, then play the new chord as the tone routes it. */
  function Play(s: State, key: int, semitone: int, octaveUpDown: int): NoteResult
    requires UI.InBounds(s.ui.settings) && key in Notes
    requires -1 <= semitone <= 1 && -1 <= octaveUpDown <= 1
  {
    var k1 := Root(key, semitone, octaveUpDown, s.ui.settings.scale);
    RootInRange(key, semitone, octaveUpDown, s.ui.settings.scale);
    var velocity := Velocity(s.ui.settings.masterVol);
    var k12 := CInt.Rem(k1, 12);
    NoteResult(
      s.(key1 := k1, key2 := k1 + 4, key3 := k1 + 7, key12 := k12, octave := CInt.Quot(k1, 12) - 1, vol := VEL_MAX),
      KeysOff(s.key1, s.key2, s.key3, 0) + [Lyric(DoReMi[k12])] +
      NoteOns(s.ui.settings.toneNo, k1, k1 + 4, k1 + 7, velocity, ChordVelocity(velocity)))
  }

  /** A new key in Dafny's own arithmetic: the root is positive, so C's
      `%` and `/` in Play are Dafny's, and the chord velocity is `v * 3 / 4`. */
  lemma PlayArithmetic(s: State, key: int, semitone: int, octaveUpDown: int)
    requires UI.InBounds(s.ui.settings) && key in Notes
    requires -1 <= semitone <= 1 && -1 <= octaveUpDown <= 1
    ensures var k1 := Root(key, semitone, octaveUpDown, s.ui.settings.scale);
      var v := Velocity(s.ui.settings.masterVol);
      var p := Play(s, key, semitone, octaveUpDown);
      0 <= v && 0 <= k1 % 12 < 12 &&
      p.state == s.(key1 := k1, key2 := k1 + 4, key3 := k1 + 7, key12 := k1 % 12, octave := k1 / 12 - 1, vol := VEL_MAX) &&
      p.msgs == KeysOff(s.key1, s.key2, s.key3, 0) + [Lyric(DoReMi[k1 % 12])] +
                NoteOns(s.ui.settings.toneNo, k1, k1 + 4, k1 + 7, v, v * 3 / 4)
  {
    var k1 := Root(key, semitone, octaveUpDown, s.ui.settings.scale);
    var v := Velocity(s.ui.settings.masterVol);
    RootInRange(key, semitone, octaveUpDown, s.ui.settings.scale);
    assert ChordVelocity(v) == v * 3 / 4;
    var k12 := CInt.Rem(k1, 12);
    assert k12 == k1 % 12 && CInt.Quot(k1, 12) == k1 / 12;
    var p := Play(s, key, semitone, octaveUpDown);
    assert p.state == s.(key1 := k1, key2 := k1 + 4, key3 := k1 + 7, key12 := k12, octave := CInt.Quot(k1, 12) - 1, vol := VEL_MAX);
    assert p.msgs == KeysOff(s.key1, s.key2, s.key3, 0) + [Lyric(DoReMi[k12])] +
      NoteOns(s.ui.settings.toneNo, k1, k1 + 4, k1 + 7, v, ChordVelocity(v));
  }

  /** The connected branch of `loop`: options silences the chord at full
      release velocity; a new key plays; otherwise nothing is sent. */
  function NoteStep(s: State, button: Snapshot): NoteResult
    requires UI.InBounds(s.ui.settings)
  {
    var key := SelectedKey(s.buttonPrev, button);
    var s0 := s.(buttonPrev := button);
    if key == PANIC then
      NoteResult(s0.(vol := 0), KeysOff(s.key1, s.key2, s.key3, VEL_MAX))
    else if key >= 0 then
      Play(s0, key, SemitoneShift(button), OctaveShift(button))
    else
      NoteResult(s0, [])
  }

  /** The Program Change that follows the tone. */
  function ToneSync(s: State): NoteResult
    requires 0 <= s.ui.settings.toneNo < |ToneTable|
  {
    var t := s.ui.settings.toneNo;
    if t != s.tonePrev then NoteResult(s.(tonePrev := t), [ProgramChange(1, ToneTable[t])])
    else NoteResult(s, [])
  }

  /** One call of `loop`: the note engine when connected, then the settings
      controller (which redraws the indicator with the values the engine
      left), then the tone. */
  function Step(s: State, inp: Input): TickResult
    requires Inv(s)
  {
    var n := if inp.connected then NoteStep(s, inp.button) else NoteResult(s, []);
    var sound := if UI.Renders(n.state.ui) then Some(SoundArgs(n.state.octave, n.state.key12, n.state.vol)) else None;
    var u := UI.Next(n.state.ui, inp.presses);
    UI.NextPreservesValid(n.state.ui, inp.presses);
    var t := ToneSync(n.state.(ui := u));
    TickResult(t.state, n.msgs + t.msgs, sound)
  }

  /** Step as its three stages, for the loop that performs them in turn. */
  lemma StepStages(s: State, inp: Input, n: NoteResult, m: State)
    requires Inv(s)
    requires n == if inp.connected then NoteStep(s, inp.button) else NoteResult(s, [])
    requires m == n.state.(ui := UI.Next(n.state.ui, inp.presses))
    ensures 0 <= m.ui.settings.toneNo < |ToneTable|
    ensures Step(s, inp).state == ToneSync(m).state
    ensures Step(s, inp).msgs == n.msgs + ToneSync(m).msgs
    ensures Step(s, inp).sound == if UI.Renders(n.state.ui) then Some(SoundArgs(n.state.octave, n.state.key12, n.state.vol)) else None
  {
    UI.NextPreservesValid(n.state.ui, inp.presses);
  }

  /** A redraw as a list of at most one call. */
  function SoundList(o: Option<SoundArgs>): seq<SoundArgs>
  {
    if o.Some? then [o.value] else []
  }

  /** A sequence of ticks: the final state, every message written and every
      redraw, in order. */
  function RunTicks(s: State, ins: seq<Input>): (r: RunResult)
    requires Inv(s)
    ensures Inv(r.state)
    decreases |ins|
  {
    if ins == [] then RunResult(s, [], [])
    else
      StepPreservesInv(s, ins[0]);
      var t := Step(s, ins[0]);
      var rest := RunTicks(t.state, ins[1..]);
      RunResult(rest.state, t.msgs + rest.msgs, SoundList(t.sound) + rest.sounds)
  }

  // ---------------------------------------------------------------------
  // Key and velocity ranges

  /** The root of any chord the buttons can select lies in [35, 97], so the
      fifth is at most 104 and every note is a MIDI data byte; the pitch
      class indexes the phoneme table and the octave is 1 to 7. C's `%` and
      `/` agree with Dafny's here because the root is positive. */
  lemma RootInRange(key: int, semitone: int, octaveUpDown: int, scale: int)
    requires key in Notes && -1 <= semitone <= 1 && -1 <= octaveUpDown <= 1
    requires UI.SCALE_MIN <= scale <= UI.SCALE_MAX
    ensures var k1 := Root(key, semitone, octaveUpDown, scale);
      35 <= k1 <= 97 && k1 + 7 <= 104 && IsData(k1 + 7) &&
      CInt.Rem(k1, 12) == k1 % 12 && 0 <= CInt.Rem(k1, 12) < 12 &&
      CInt.Quot(k1, 12) == k1 / 12 && 1 <= CInt.Quot(k1, 12) - 1 <= 7
  {
    NotesAscending();
    var k1 := Root(key, semitone, octaveUpDown, scale);
    assert 60 <= key <= 72;
    assert 35 <= k1 <= 97;
  }

  /** Velocities are MIDI data bytes: full master volume gives 127 and a
      chord velocity of 95, silence gives 0, and the chord is never louder
      than the root. */
  lemma VelocityBounds(masterVol: int)
    requires 0 <= masterVol <= UI.VOLUME_MAX
    ensures 0 <= ChordVelocity(Velocity(masterVol)) <= Velocity(masterVol) <= VEL_MAX
    ensures masterVol == 0 <==> Velocity(masterVol) == 0
    ensures Velocity(UI.VOLUME_MAX) == 127 && ChordVelocity(127) == 95
  {
  }

  // ---------------------------------------------------------------------
  // What the note engine sends

  /** While options is held every tick sends the four Note Offs of the
      stored chord at velocity 0x7F and turns the indicator off; the keys
      stay as they were, so the same bytes repeat on the next tick. */
  lemma PanicOutput(s: State, button: Snapshot)
    requires UI.InBounds(s.ui.settings) && button.options
    ensures var n := NoteStep(s, button);
      EncodeAll(n.msgs) == [0x80, s.key1, 0x7F, 0x81, s.key1, 0x7F, 0x82, s.key2, 0x7F, 0x83, s.key3, 0x7F] &&
      n.state.key1 == s.key1 && n.state.key2 == s.key2 && n.state.key3 == s.key3 &&
      n.state.vol == 0 && n.state.buttonPrev == button
  {
    PanicWhileOptionsHeld(s.buttonPrev, button);
    KeysOffBytes(s.key1, s.key2, s.key3, VEL_MAX);
  }

  /** Holding options over two ticks sends the same panic bytes twice. */
  lemma PanicRepeats(s: State, b1: Snapshot, b2: Snapshot)
    requires UI.InBounds(s.ui.settings) && b1.options && b2.options
    ensures var n1 := NoteStep(s, b1);
      UI.InBounds(n1.state.ui.settings) && NoteStep(n1.state, b2).msgs == n1.msgs && n1.msgs != []
  {
    PanicWhileOptionsHeld(s.buttonPrev, b1);
    PanicWhileOptionsHeld(b1, b2);
  }

  /** A newly pressed key releases the old chord at velocity 0, sings the
      phoneme of the new root's pitch class and then plays the new triad;
      the new keys are the root, its major third and its fifth. */
  lemma NoteOnSequence(s: State, button: Snapshot)
    requires UI.InBounds(s.ui.settings)
    requires SelectedKey(s.buttonPrev, button) >= 0
    ensures var n := NoteStep(s, button);
      var key := SelectedKey(s.buttonPrev, button);
      var k1 := key + SemitoneShift(button) + 12 * OctaveShift(button) + s.ui.settings.scale;
      var v := Velocity(s.ui.settings.masterVol);
      n.state.key1 == k1 && n.state.key2 == k1 + 4 && n.state.key3 == k1 + 7 &&
      n.state.key12 == k1 % 12 && n.state.octave == k1 / 12 - 1 && n.state.vol == 0x7F &&
      n.msgs[..4] == KeysOff(s.key1, s.key2, s.key3, 0) &&
      n.msgs[4] == Lyric(DoReMi[k1 % 12]) &&
      n.msgs[5..] == NoteOns(s.ui.settings.toneNo, k1, k1 + 4, k1 + 7, v, ChordVelocity(v))
  {
    var key := SelectedKey(s.buttonPrev, button);
    var semitone, octaveUpDown := SemitoneShift(button), OctaveShift(button);
    ModifierPriority(button);
    var s0 := s.(buttonPrev := button);
    assert NoteStep(s, button) == Play(s0, key, semitone, octaveUpDown);
    PlayArithmetic(s0, key, semitone, octaveUpDown);
    var k1 := Root(key, semitone, octaveUpDown, s.ui.settings.scale);
    var v := Velocity(s.ui.settings.masterVol);
    assert ChordVelocity(v) == v * 3 / 4;
    SliceAround(KeysOff(s.key1, s.key2, s.key3, 0), Lyric(DoReMi[k1 % 12]),
                NoteOns(s.ui.settings.toneNo, k1, k1 + 4, k1 + 7, v, v * 3 / 4));
  }

  /** The lyric frame sent for a pitch class. */
  lemma LyricBytes(k12: int)
    requires 0 <= k12 < 12
    ensures Encode(Lyric(DoReMi[k12])) == [0xF0, 0x43, 0x79, 0x09, 0x00, 0x50, 0x10] + Ascii(DoReMi[k12]) + [0x00, 0xF7]
  {
  }

  /** The number of Note Ons is 1, 4, 3 and 1 for tones 0, 1, 2 and 3 to 5;
      channel 0 plays exactly for tones 0 and 1, channels 2 and 3 exactly
      for tones 1 and 2 and channel 1 for every tone but 0; every Note On plays a chord
      note, at the full velocity on channel 0 and for tones 3 to 5 and at
      the chord velocity otherwise. */
  lemma Routing(t: int, k1: int, k2: int, k3: int, v: int, c: int)
    requires 0 <= t <= UI.TONE_MAX
    ensures var ons := NoteOns(t, k1, k2, k3, v, c);
      |ons| == (if t == 0 then 1 else if t == 1 then 4 else if t == 2 then 3 else 1) &&
      ((exists i | 0 <= i < |ons| :: ons[i].channel == 0) <==> t <= 1) &&
      ((exists i | 0 <= i < |ons| :: ons[i].channel == 1) <==> t >= 1) &&
      ((exists i | 0 <= i < |ons| :: ons[i].channel == 2) <==> t == 1 || t == 2) &&
      ((exists i | 0 <= i < |ons| :: ons[i].channel == 3) <==> t == 1 || t == 2) &&
      forall i | 0 <= i < |ons| ::
        ons[i].NoteOn? &&
        (ons[i].note == k1 || ons[i].note == k2 || ons[i].note == k3) &&
        (ons[i].velocity == if ons[i].channel == 0 || t >= 3 then v else c)
  {
    var ons := NoteOns(t, k1, k2, k3, v, c);
    if t <= 1 {
      assert ons[0].channel == 0;
    }
    if t == 0 || t >= 3 {
      assert ons[0].channel == 1 || t == 0;
      if t == 0 { assert ons == [NoteOn(0, k1, v)]; }
    } else {
      assert ons[|ons| - 3].channel == 1;
      assert ons[|ons| - 2].channel == 2;
      assert ons[|ons| - 1].channel == 3;
    }
    if t == 0 {
      assert forall i | 0 <= i < |ons| :: ons[i].channel == 0;
    }
  }

  // ---------------------------------------------------------------------
  // The tone

  /** A Program Change is sent exactly when the tone differs from the one
      last sent, and afterwards it is the one last sent. */
  lemma ToneSyncIff(s: State)
    requires 0 <= s.ui.settings.toneNo < |ToneTable|
    ensures var t := ToneSync(s);
      t.state.tonePrev == s.ui.settings.toneNo &&
      (t.msgs != [] <==> s.ui.settings.toneNo != s.tonePrev) &&
      (t.msgs != [] ==> t.msgs == [ProgramChange(1, ToneTable[s.ui.settings.toneNo])]) &&
      t.state.(tonePrev := s.tonePrev) == s
  {
  }

  /** The first tick after start-up always sends the tone. */
  lemma FirstTickSendsTone(inp: Input)
    ensures Inv(Boot)
    ensures var r := Step(Boot, inp);
      |r.msgs| > 0 && r.msgs[|r.msgs| - 1] == ProgramChange(1, ToneTable[r.state.ui.settings.toneNo])
  {
  }

  // ---------------------------------------------------------------------
  // The tick

  /** Note Ons of data-byte notes and velocities are well formed. */
  lemma NoteOnsWellFormed(t: int, k1: int, k2: int, k3: int, v: int, c: int)
    requires IsData(k1) && IsData(k2) && IsData(k3) && IsData(v) && IsData(c)
    ensures AllWellFormed(NoteOns(t, k1, k2, k3, v, c))
  {
  }

  /** The messages of a new key are well formed when every note and
      velocity is a data byte. */
  lemma ChordMessagesWellFormed(o1: int, o2: int, o3: int, t: int, k1: int, v: int)
    requires IsData(o1) && IsData(o2) && IsData(o3) && 0 <= k1 && IsData(k1 + 7) && IsData(v)
    ensures AllWellFormed(KeysOff(o1, o2, o3, 0) + [Lyric(DoReMi[k1 % 12])] +
                          NoteOns(t, k1, k1 + 4, k1 + 7, v, ChordVelocity(v)))
  {
    DoReMiAreLyrics();
    var c := ChordVelocity(v);
    assert 0 <= c <= v;
    NoteOnsWellFormed(t, k1, k1 + 4, k1 + 7, v, c);
    var off := KeysOff(o1, o2, o3, 0);
    var lyric := [Lyric(DoReMi[k1 % 12])];
    var ons := NoteOns(t, k1, k1 + 4, k1 + 7, v, c);
    assert AllWellFormed(off) && AllWellFormed(lyric);
    var all := off + lyric + ons;
    forall i | 0 <= i < |all| ensures WellFormed(all[i]) {
      if i < 4 { assert all[i] == off[i]; }
      else if i == 4 { assert all[i] == lyric[0]; }
      else { assert all[i] == ons[i - 5]; }
    }
  }

  /** The messages of a new key are well formed. */
  lemma PlayWellFormed(s: State, key: int, semitone: int, octaveUpDown: int)
    requires Inv(s) && key in Notes && -1 <= semitone <= 1 && -1 <= octaveUpDown <= 1
    ensures AllWellFormed(Play(s, key, semitone, octaveUpDown).msgs)
  {
    RootInRange(key, semitone, octaveUpDown, s.ui.settings.scale);
    VelocityBounds(s.ui.settings.masterVol);
    var k1 := Root(key, semitone, octaveUpDown, s.ui.settings.scale);
    ChordMessagesWellFormed(s.key1, s.key2, s.key3, s.ui.settings.toneNo, k1, Velocity(s.ui.settings.masterVol));
  }

  /** The note engine keeps the invariant, leaves the settings controller's
      state alone and sends only well-formed messages, so every note and
      velocity it sends is a data byte. */
  lemma NoteStepPreservesInv(s: State, button: Snapshot)
    requires Inv(s)
    ensures var n := NoteStep(s, button);
      Inv(n.state) && n.state.ui == s.ui && n.state.tonePrev == s.tonePrev && AllWellFormed(n.msgs)
  {
    var key := SelectedKey(s.buttonPrev, button);
    if key >= 0 {
      ModifierPriority(button);
      RootInRange(key, SemitoneShift(button), OctaveShift(button), s.ui.settings.scale);
      PlayWellFormed(s.(buttonPrev := button), key, SemitoneShift(button), OctaveShift(button));
    }
  }

  /** A tick keeps the invariant, sends only well-formed messages and leaves
      the tone last sent equal to the current one. */
  lemma StepPreservesInv(s: State, inp: Input)
    requires Inv(s)
    ensures Inv(Step(s, inp).state)
    ensures AllWellFormed(Step(s, inp).msgs)
    ensures Step(s, inp).state.tonePrev == Step(s, inp).state.ui.settings.toneNo
  {
    var n := if inp.connected then NoteStep(s, inp.button) else NoteResult(s, []);
    if inp.connected {
      NoteStepPreservesInv(s, inp.button);
    }
    UI.NextPreservesValid(n.state.ui, inp.presses);
    var m := n.state.(ui := UI.Next(n.state.ui, inp.presses));
    ToneSyncIff(m);
    ToneTablePrograms();
    var t := ToneSync(m);
    assert AllWellFormed(t.msgs);
  }

  /** The tick's parts, in order: the note engine's messages, then at most
      one Program Change; the settings move as the settings controller
      says; the indicator is redrawn, with the values the note engine left,
      exactly on the tenth call. */
  lemma StepParts(s: State, inp: Input)
    requires Inv(s)
    ensures var n := if inp.connected then NoteStep(s, inp.button) else NoteResult(s, []);
      var r := Step(s, inp);
      r.state.ui == UI.Next(s.ui, inp.presses) &&
      |n.msgs| <= |r.msgs| <= |n.msgs| + 1 && r.msgs[..|n.msgs|] == n.msgs &&
      (r.sound.Some? <==> s.ui.cnt == UI.RENDER_PERIOD - 1) &&
      (r.sound.Some? ==> r.sound.value == SoundArgs(n.state.octave, n.state.key12, n.state.vol))
  {
    var r := Step(s, inp);
    var n := if inp.connected then NoteStep(s, inp.button) else NoteResult(s, []);
    assert r.msgs[..|n.msgs|] == n.msgs;
  }

  /** Every run of ticks sends only well-formed messages. */
  lemma {:induction false} RunWellFormed(s: State, ins: seq<Input>)
    requires Inv(s)
    ensures AllWellFormed(RunTicks(s, ins).msgs)
    decreases |ins|
  {
    if ins != [] {
      StepPreservesInv(s, ins[0]);
      var t := Step(s, ins[0]);
      RunWellFormed(t.state, ins[1..]);
      var rest := RunTicks(t.state, ins[1..]).msgs;
      assert RunTicks(s, ins).msgs == t.msgs + rest;
      AllWellFormedAppend(t.msgs, rest);
    }
  }

  /** The whole stream after start-up decodes back to its messages. */
  lemma StreamReadsBack(ins: seq<Input>)
    ensures Inv(Boot)
    ensures var ms := SetupMessages + RunTicks(Boot, ins).msgs;
      DecodeAll(EncodeAll(ms)) == Some(ms)
  {
    var run := RunTicks(Boot, ins).msgs;
    RunWellFormed(Boot, ins);
    assert AllWellFormed(SetupMessages);
    AllWellFormedAppend(SetupMessages, run);
    DecodeEncodeAll(SetupMessages + run);
  }

  /** Over any run of ticks the indicator is redrawn once per ten ticks,
      counting the ticks already made since the last redraw. */
  lemma {:induction false} SoundsEveryTenth(s: State, ins: seq<Input>)
    requires Inv(s)
    ensures |RunTicks(s, ins).sounds| == (s.ui.cnt + |ins|) / UI.RENDER_PERIOD
    ensures RunTicks(s, ins).state.ui.cnt == (s.ui.cnt + |ins|) % UI.RENDER_PERIOD
    decreases |ins|
  {
    if ins != [] {
      StepPreservesInv(s, ins[0]);
      StepParts(s, ins[0]);
      var t := Step(s, ins[0]);
      SoundsEveryTenth(t.state, ins[1..]);
    }
  }

  // ---------------------------------------------------------------------
  // The octave the indicator is drawn for

  /** An input that presses nothing with the controller not connected. */
  const Idle := Input(false, Released, UI.Presses(false, false, false))

  /** While the controller is not connected the note statics stay as they
      are, so every redraw shows them. */
  lemma {:induction false} IdleKeepsNote(s: State, ins: seq<Input>)
    requires Inv(s)
    requires forall i | 0 <= i < |ins| :: !ins[i].connected
    ensures var r := RunTicks(s, ins);
      r.state.octave == s.octave && r.state.key12 == s.key12 && r.state.vol == s.vol &&
      forall j | 0 <= j < |r.sounds| :: r.sounds[j] == SoundArgs(s.octave, s.key12, s.vol)
    decreases |ins|
  {
    if ins != [] {
      StepPreservesInv(s, ins[0]);
      var t := Step(s, ins[0]);
      assert t.state.octave == s.octave && t.state.key12 == s.key12 && t.state.vol == s.vol;
      IdleKeepsNote(t.state, ins[1..]);
    }
  }

  /** Ten ticks after start-up with no key pressed, the tenth call of
      `DisplayUI_loop` redraws with octave 0, which `COLOR_TABLE` has no
      row for: the source reads outside the table. */
  lemma FirstRedrawOutsideTable(palette: seq<int>)
    requires Render.IsPalette(palette)
    ensures var ins := seq(10, _ => Idle);
      Inv(Boot) && RunTicks(Boot, ins).sounds == [SoundArgs(0, 0, 0)] &&
      Render.SoundColor(palette, 0, 0) == None
  {
    var ins := seq(10, _ => Idle);
    SoundsEveryTenth(Boot, ins);
    IdleKeepsNote(Boot, ins);
  }

  /** A chord's octave is always between 1 and 7, and both ends are reached:
      the lowest root at scale -12 is in octave 1 and the highest at scale
      12 in octave 7, both outside the rows 3 to 6 of `COLOR_TABLE`. */
  lemma ChordOctaves(s: State, key: int, semitone: int, octaveUpDown: int)
    requires UI.InBounds(s.ui.settings) && key in Notes
    requires -1 <= semitone <= 1 && -1 <= octaveUpDown <= 1
    ensures 1 <= Play(s, key, semitone, octaveUpDown).state.octave <= 7
    ensures s.ui.settings.scale == UI.SCALE_MIN ==> Play(s, NOTE_C4, -1, -1).state.octave == 1
    ensures s.ui.settings.scale == UI.SCALE_MAX ==> Play(s, NOTE_C5, 1, 1).state.octave == 7
  {
    NotesAscending();
    PlayArithmetic(s, key, semitone, octaveUpDown);
    PlayArithmetic(s, NOTE_C4, -1, -1);
    PlayArithmetic(s, NOTE_C5, 1, 1);
  }
}
