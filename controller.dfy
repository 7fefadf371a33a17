/** The controller as the source runs it: the globals and statics of
    `src/main.cpp` and `src/DisplayUI.cpp` as the fields of one object,
    updated in place by `Tick`, one call of `loop`. The serial port is the
    byte sequence `out`, to which every `Serial2.write` appends; the redraws
    of the note indicator are recorded by their arguments in `sounds`. */
module Controller {
  import opened Midi
  import opened Tables
  import opened Buttons
  import UI = DisplayUI
  import opened Engine

  class Synth {
    // Settings, shared by both files.
    var masterVol: int
    var toneNo: int
    var scale: int
    // The sounding chord.
    var key1: int
    var key2: int
    var key3: int
    // The statics of `loop`.
    var octave: int
    var key12: int
    var vol: int
    var tonePrev: int
    var buttonPrev: Snapshot
    // The statics of `DisplayUI.cpp`.
    var cursorPos: int
    var cnt: int
    /** The bytes written to the eVY1 so far. */
    var out: seq<int>
    /** The arguments of every `DisplayUI_sound` call so far. */
    var sounds: seq<SoundArgs>
    /** The messages that `out` encodes. */
    ghost var log: seq<Message>
    /** The number of `DisplayUI_loop` calls so far. */
    ghost var calls: nat

    /** The fields as the value the specification in `Engine` works on. */
    function Model(): State
      reads this
    {
      State(UI.UiState(UI.Settings(toneNo, scale, masterVol), cursorPos, cnt),
            key1, key2, key3, octave, key12, vol, tonePrev, buttonPrev)
    }

    /** The byte stream is exactly the encoding of the messages sent. */
    ghost predicate Streamed()
      reads this
    {
      out == EncodeAll(log)
    }

    /** Between ticks: the engine invariant (settings in their bounds, keys
        and indexes in range), a stream of well-formed messages, and one
        redraw per ten calls of the settings controller. */
    ghost predicate Valid()
      reads this
    {
      Inv(Model()) && Streamed() && AllWellFormed(log) &&
      cnt == calls % UI.RENDER_PERIOD && |sounds| == calls / UI.RENDER_PERIOD
    }

    /** `setup` and the initial values of the globals and statics: the
        three Program Changes select the piano on channels 1 to 3. */
    constructor ()
      ensures Valid()
      ensures Model() == Boot && log == SetupMessages && sounds == [] && calls == 0
    {
      masterVol, toneNo, scale := 32, 0, 0;
      key1, key2, key3 := NOTE_C4, NOTE_C4, NOTE_C4;
      octave, key12, vol, tonePrev := 0, 0, 0, -1;
      buttonPrev := Released;
      cursorPos, cnt := UI.POS_NORMAL, 0;
      out, sounds, log, calls := [], [], [], 0;
      new;
      SendMidiMessage2(0xC1, 0);
      SendMidiMessage2(0xC2, 0);
      SendMidiMessage2(0xC3, 0);
      SetupBytes();
      log := SetupMessages;
      assert out == EncodeAll(log);
    }

    // -------------------------------------------------------------------
    // The byte writers

    /** `sendMidiMessage(cmd, d1)`. */
    method SendMidiMessage2(cmd: int, d1: int)
      modifies this`out
      ensures out == old(out) + Midi.SendMidiMessage2(cmd, d1)
    {
      out := out + [cmd];
      out := out + [d1];
    }

    /** `sendMidiMessage(cmd, d1, d2)`. */
    method SendMidiMessage3(cmd: int, d1: int, d2: int)
      modifies this`out
      ensures out == old(out) + Midi.SendMidiMessage3(cmd, d1, d2)
    {
      out := out + [cmd];
      out := out + [d1];
      out := out + [d2];
    }

    /** `sendLylic`: the seven header bytes, the characters of the string,
        then the NUL and F7. */
    method SendLyric(lyric: string)
      modifies this`out
      ensures out == old(out) + Midi.SendLyric(lyric)
    {
      out := out + [0xF0, 0x43, 0x79, 0x09, 0x00, 0x50, 0x10];
      out := out + Ascii(lyric);
      out := out + [0x00, 0xF7];
    }

    // -------------------------------------------------------------------
    // The parts of a tick

    /** The connected branch of `loop`: read the buttons, then panic or
        play a new chord. */
    method NoteEngine(button: Snapshot)
      requires UI.InBounds(Model().ui.settings)
      modifies this`key1, this`key2, this`key3, this`octave, this`key12, this`vol, this`buttonPrev, this`out
      ensures var n := NoteStep(old(Model()), button);
        Model() == n.state && out == old(out) + EncodeAll(n.msgs)
    {
      var key, octaveUpDown, semitone := ReadButtons(buttonPrev, button);
      buttonPrev := button;
      ModifierPriority(button);
      if key == PANIC {
        SendNotesOff(0x7F);
        vol := 0;
      }
      if key >= 0 {
        PlayChord(key, semitone, octaveUpDown);
      }
      if key == NO_KEY {
        assert EncodeAll([]) == [];
      }
    }

    /** The four Note Offs that silence the stored chord. */
    method SendNotesOff(velocity: int)
      modifies this`out
      ensures out == old(out) + EncodeAll(KeysOff(key1, key2, key3, velocity))
    {
      SendMidiMessage3(0x80, key1, velocity);
      SendMidiMessage3(0x81, key1, velocity);
      SendMidiMessage3(0x82, key2, velocity);
      SendMidiMessage3(0x83, key3, velocity);
      KeysOffBytes(key1, key2, key3, velocity);
    }

    /** The Note Ons of the stored chord, routed by the tone. */
    method SendNoteOns(velocity: int, velocityChord: int)
      modifies this`out
      ensures out == old(out) + EncodeAll(NoteOns(toneNo, key1, key2, key3, velocity, velocityChord))
    {
      ghost var o0 := out;
      ghost var root := if toneNo <= 1 then [0x90, key1, velocity] else [];
      ghost var triad := if toneNo == 1 || toneNo == 2 then
        [0x91, key1, velocityChord, 0x92, key2, velocityChord, 0x93, key3, velocityChord] else [];
      ghost var alone := if toneNo >= 3 then [0x91, key1, velocity] else [];
      if toneNo <= 1 {
        SendMidiMessage3(0x90, key1, velocity);
      }
      assert out == o0 + root;
      if toneNo == 1 || toneNo == 2 {
        SendMidiMessage3(0x91, key1, velocityChord);
        SendMidiMessage3(0x92, key2, velocityChord);
        SendMidiMessage3(0x93, key3, velocityChord);
        assert out == o0 + root + triad;
      }
      assert out == o0 + root + triad;
      if toneNo >= 3 {
        SendMidiMessage3(0x91, key1, velocity);
      }
      assert out == o0 + root + triad + alone;
      AppendThree(o0, root, triad, alone);
      NoteOnsBytes(toneNo, key1, key2, key3, velocity, velocityChord);
    }

    /** A new key: release the chord, compute the new one, sing its
        phoneme and play it as the tone routes it. */
    method PlayChord(key: int, semitone: int, octaveUpDown: int)
      requires UI.InBounds(Model().ui.settings) && key in Notes
      requires -1 <= semitone <= 1 && -1 <= octaveUpDown <= 1
      modifies this`key1, this`key2, this`key3, this`octave, this`key12, this`vol, this`out
      ensures var n := Play(old(Model()), key, semitone, octaveUpDown);
        Model() == n.state && out == old(out) + EncodeAll(n.msgs)
    {
      ghost var s := Model();
      ghost var o0 := out;
      ghost var released := KeysOff(key1, key2, key3, 0);
      PlayArithmetic(s, key, semitone, octaveUpDown);
      SendNotesOff(0);
      var velocity, velocityChord := SetChord(key, semitone, octaveUpDown);
      SendLyric(DoReMi[key12]);
      SendNoteOns(velocity, velocityChord);
      ghost var ons := NoteOns(toneNo, key1, key2, key3, velocity, velocityChord);
      EncodeAllAround(released, Lyric(DoReMi[key12]), ons);
      AppendThree(o0, EncodeAll(released), Midi.SendLyric(DoReMi[key12]), EncodeAll(ons));
    }

    /** The new chord: root, third and fifth, the pitch class and octave of
        the root, and the two velocities of the tone's routing. */
    method SetChord(key: int, semitone: int, octaveUpDown: int) returns (velocity: int, velocityChord: int)
      requires UI.InBounds(Model().ui.settings) && key in Notes
      requires -1 <= semitone <= 1 && -1 <= octaveUpDown <= 1
      modifies this`key1, this`key2, this`key3, this`octave, this`key12, this`vol
      ensures Model() == Play(old(Model()), key, semitone, octaveUpDown).state
      ensures velocity == Velocity(masterVol) && velocityChord == velocity * 3 / 4
    {
      ghost var s := Model();
      key1 := key + semitone + octaveUpDown * 12 + scale;
      key2 := key1 + 4;
      key3 := key1 + 7;
      velocity := if masterVol > 0 then masterVol * 4 - 1 else 0;
      // C's `/` and `%` are Dafny's here: both dividends are non-negative.
      PlayArithmetic(s, key, semitone, octaveUpDown);
      velocityChord := velocity * 3 / 4;
      key12 := key1 % 12;
      octave := key1 / 12 - 1;
      vol := 0x7F;
    }

    /** `DisplayUI_loop`: move the cursor, edit the selected setting within
        its bounds, and redraw the note indicator on every tenth call. */
    method DisplayUILoop(octaveArg: int, key12Arg: int, volArg: int, btnA: bool, btnB: bool, btnC: bool)
      modifies this`cursorPos, this`toneNo, this`scale, this`masterVol, this`cnt, this`sounds, this`calls
      ensures var u := old(Model()).ui;
        Model() == old(Model()).(ui := UI.Next(u, UI.Presses(btnA, btnB, btnC))) &&
        sounds == old(sounds) + (if UI.Renders(u) then [SoundArgs(octaveArg, key12Arg, volArg)] else [])
      ensures calls == old(calls) + 1
    {
      if btnA {
        AdvanceCursor();
      }
      if cursorPos != UI.POS_NORMAL {
        var changeVal := 0;
        if btnB {
          changeVal := 1;
        } else if btnC {
          changeVal := -1;
        }
        if changeVal != 0 {
          EditSetting(changeVal);
        }
      }
      CountCall(octaveArg, key12Arg, volArg);
    }

    /** The press of A: the cursor moves one place round its cycle. */
    method AdvanceCursor()
      modifies this`cursorPos
      ensures cursorPos == UI.CursorNext(old(cursorPos))
    {
      cursorPos := cursorPos + 1;
      if cursorPos > UI.POS_MAX { cursorPos := UI.POS_NORMAL; }
    }

    /** The `switch` on the cursor: step the selected setting and pull it
        back inside its bounds. */
    method EditSetting(changeVal: int)
      requires changeVal != 0
      modifies this`toneNo, this`scale, this`masterVol
      ensures UI.Settings(toneNo, scale, masterVol) ==
        UI.Edit(UI.Settings(old(toneNo), old(scale), old(masterVol)), cursorPos, changeVal)
    {
      if cursorPos == UI.POS_TONE {
        toneNo := toneNo + changeVal;
        if toneNo < 0 { toneNo := 0; }
        if toneNo > UI.TONE_MAX { toneNo := UI.TONE_MAX; }
      } else if cursorPos == UI.POS_SCALE {
        scale := scale + changeVal;
        if scale < UI.SCALE_MIN { scale := UI.SCALE_MIN; }
        if scale > UI.SCALE_MAX { scale := UI.SCALE_MAX; }
      } else if cursorPos == UI.POS_VOLUME {
        masterVol := masterVol + changeVal;
        if masterVol > UI.VOLUME_MAX { masterVol := UI.VOLUME_MAX; }
        if masterVol < 0 { masterVol := 0; }
      }
    }

    /** The call counter: every tenth call wraps it and redraws the note
        indicator with the values `loop` passed. */
    method CountCall(octaveArg: int, key12Arg: int, volArg: int)
      modifies this`cnt, this`sounds, this`calls
      ensures cnt == UI.CountNext(old(cnt)) && calls == old(calls) + 1
      ensures sounds == old(sounds) + (if old(cnt) + 1 >= UI.RENDER_PERIOD then [SoundArgs(octaveArg, key12Arg, volArg)] else [])
    {
      cnt := cnt + 1;
      if cnt >= UI.RENDER_PERIOD {
        cnt := 0;
        sounds := sounds + [SoundArgs(octaveArg, key12Arg, volArg)];
      }
      calls := calls + 1;
    }

    /** The end of `loop`: send the tone's program on channel 1 when it
        differs from the one last sent. */
    method ProgramSync()
      requires 0 <= toneNo < |ToneTable|
      modifies this`tonePrev, this`out
      ensures var t := ToneSync(old(Model()));
        Model() == t.state && out == old(out) + EncodeAll(t.msgs)
    {
      if toneNo != tonePrev {
        SendMidiMessage2(0xC1, ToneTable[toneNo]);
        tonePrev := toneNo;
        EncodeAllSnoc([], ProgramChange(1, ToneTable[toneNo]));
      } else {
        assert EncodeAll([]) == [];
      }
    }

    /** One call of `loop`: exactly the step the specification describes,
        with its messages appended to the stream and its redraw recorded. */
    method Tick(connected: bool, button: Snapshot, btnA: bool, btnB: bool, btnC: bool)
      requires Valid()
      modifies this
      ensures Valid()
      ensures var r := Step(old(Model()), Input(connected, button, UI.Presses(btnA, btnB, btnC)));
        Model() == r.state && log == old(log) + r.msgs &&
        out == old(out) + EncodeAll(r.msgs) &&
        sounds == old(sounds) + SoundList(r.sound) && calls == old(calls) + 1
    {
      ghost var s := Model();
      ghost var inp := Input(connected, button, UI.Presses(btnA, btnB, btnC));
      ghost var r := Step(s, inp);
      StepPreservesInv(s, inp);
      StepParts(s, inp);
      UI.CountCalls(calls, cnt);
      Loop(connected, button, btnA, btnB, btnC);
      ghost var now := Model();
      assert now == r.state && Inv(now);
      assert cnt == calls % UI.RENDER_PERIOD;
      assert |sounds| == calls / UI.RENDER_PERIOD;
      log := log + r.msgs;
      EncodeAllAppend(old(log), r.msgs);
      AllWellFormedAppend(old(log), r.msgs);
    }

    /** The body of `loop`: the note engine when connected, the settings
        controller, and the program sync. */
    method Loop(connected: bool, button: Snapshot, btnA: bool, btnB: bool, btnC: bool)
      requires Inv(Model())
      modifies this`key1, this`key2, this`key3, this`octave, this`key12, this`vol, this`buttonPrev,
        this`cursorPos, this`toneNo, this`scale, this`masterVol, this`cnt, this`tonePrev,
        this`out, this`sounds, this`calls
      ensures var r := Step(old(Model()), Input(connected, button, UI.Presses(btnA, btnB, btnC)));
        Model() == r.state && out == old(out) + EncodeAll(r.msgs) &&
        sounds == old(sounds) + SoundList(r.sound) && calls == old(calls) + 1
    {
      ghost var s := Model();
      ghost var o0 := out;
      ghost var p := UI.Presses(btnA, btnB, btnC);
      ghost var n := if connected then NoteStep(s, button) else NoteResult(s, []);
      if connected {
        NoteEngine(button);
      } else {
        assert EncodeAll([]) == [];
      }
      DisplayUILoop(octave, key12, vol, btnA, btnB, btnC);
      ghost var m := n.state.(ui := UI.Next(n.state.ui, p));
      StepStages(s, Input(connected, button, p), n, m);
      assert Model() == m;
      ghost var t := ToneSync(m);
      ProgramSync();
      EncodeAllAppend(n.msgs, t.msgs);
      AppendTwo(o0, EncodeAll(n.msgs), EncodeAll(t.msgs));
    }
  }
}
