# eVY1 PS4 M5 controller — a Dafny model

The firmware turns an M5Stack into a controller for the eVY1 singing
synthesizer. A PS4 pad plays the notes and the M5's three buttons edit the
settings. Each call of `loop` does four things in order:

- It compares the pad's buttons with the previous snapshot. A button that
  went from released to pressed selects a note; `options` held means panic.
- It releases the old chord, sings the phoneme of the new root (a Yamaha
  lyric System Exclusive frame) and plays the new major triad. The Note Ons
  are routed to channels by the tone setting. All of these are written as
  MIDI bytes to `Serial2`.
- It runs `DisplayUI_loop`. Button A moves the cursor through normal, tone,
  scale and volume. B and C step the selected setting within its bounds.
  The note indicator is redrawn on every tenth call.
- It sends a Program Change when the tone differs from the one last sent.

The project models this in two layers:

- **Specification on values.** `Engine` holds the whole state of both
  source files as a datatype, with one function per part of a tick. The
  supporting modules are:
  - `Midi`: the messages, their bytes, and a reference decoder;
  - `Buttons`: edge detection and key selection;
  - `DisplayUI`: the settings controller;
  - `Render`: the scale label and the note indicator's colour;
  - `Tables`, `CInt` and `Wrappers`: the constant tables, C's integer
    division and the Option type.
- **Imperative object.** `Controller.Synth` keeps the globals and statics
  as fields that its methods update in place. The serial port is the byte
  sequence `out`. `Tick` is one `loop` call, and it is proved to append
  exactly the bytes of the specification's step.
  The class invariant `Valid` holds between ticks:
  - the settings are within their bounds, and so are the keys, the pitch
    class and the octave;
  - `out` is the encoding of a list of well-formed messages;
  - there is one redraw per ten calls.

Everything `Tick` sends is therefore a sequence of MIDI data bytes under
0x80 behind status bytes, and it decodes back to the messages intended.

## Model

| member | source | states |
|---|---|---|
| CInt.Quot | src/main.cpp:137 | C++ `/`: the magnitude is the operands' magnitudes divided, negative exactly when the signs differ (truncation toward zero); equals Euclidean division for a non-negative dividend and a positive divisor |
| CInt.Rem | src/main.cpp:139 | C++ `%`: the magnitude is the operands' remainder, below the divisor's, with the dividend's sign; equals Euclidean `%` for a non-negative dividend and a positive divisor |
| CInt.DivisionIdentity | src/main.cpp:137-140 | the two operators satisfy the identity C++ requires, `(a / b) * b + a % b == a` |
| Midi.SendMidiMessage2 | src/main.cpp:25-29 | the bytes `cmd, d1` in that order; that they fit in a byte, status first, is Midi.EncodeBytesInRange |
| Midi.SendMidiMessage3 | src/main.cpp:32-37 | the bytes `cmd, d1, d2` in that order; their ranges are Midi.EncodeBytesInRange |
| Midi.SendLyric | src/main.cpp:40-55 | header F0 43 79 09 00 50 10, the text's bytes, then 00 F7; the frame's shape is Midi.LyricFrameIsSysEx |
| Midi.Encode | src/main.cpp:25-55 | the bytes one Note On, Note Off, Program Change or lyric puts on the port; it is read back by Midi.DecodeOneEncode |
| Midi.EncodeAll | src/main.cpp:25-55 | the bytes of a list of messages, sent in order; Midi.EncodeAllAppend and Midi.DecodeEncodeAll state its properties |
| Midi.LyricFrameIsSysEx | src/main.cpp:40-55 | the lyric frame is the text plus 9 bytes: F0, 43, 79 09 00 50 10, the text's bytes, 00, F7; every byte between F0 and F7 is a data byte |
| Midi.EncodeBytesInRange | src/main.cpp:25-37 | every value written to the port fits in a byte; the first is a status byte (top bit set); channel messages carry only data bytes |
| Midi.EncodeAllAppend | src/main.cpp:25-55 | the bytes of consecutive messages are the bytes of each message in turn |
| Midi.AllWellFormedAppend | src/main.cpp:25-55 | a message list is well formed exactly when both of its parts are |
| Midi.DecodeOneEncode | src/main.cpp:25-55 | the reference reader takes exactly one well-formed message back from the front of its bytes, whatever follows |
| Midi.DecodeEncodeAll | src/main.cpp:25-55 | reading back the bytes of any list of well-formed messages gives that list |
| Tables.DoReMiAreLyrics | src/main.cpp:16-18 | twelve phonemes, one per pitch class, none empty, each sendable as a lyric (bytes 1 to 0x7F) |
| Tables.ToneTablePrograms | src/main.cpp:163-164 | six program numbers, one per tone, all data bytes |
| Tables.NotesAscending | src/main.cpp:97-104 | the eight trigger pitches rise strictly from C4 (60) to C5 (72) |
| Buttons.LastRise | src/main.cpp:97-104 | the index of the last rising trigger among the first `n`, or -1 |
| Buttons.SelectedKey | src/main.cpp:97-105 | the key is panic, no key, or one of the eight pitches |
| Buttons.ReadButtons | src/main.cpp:95-110 | the overwriting `if`s compute the selected key and the octave and semitone shifts |
| Buttons.LastRiseIsLast | src/main.cpp:97-104 | the result rose, and no later trigger rose |
| Buttons.KeyIsLastRisingEdge | src/main.cpp:97-105 | a pitch is selected iff its button rose, options is up, and no button tested later rose |
| Buttons.NoKeyWithoutEdge | src/main.cpp:95-105 | no key iff no trigger rose and options is up |
| Buttons.PanicWhileOptionsHeld | src/main.cpp:105 | panic iff options is held, whatever rose |
| Buttons.NoRetriggerWithoutPress | src/main.cpp:97-104 | holding or releasing buttons never selects a note |
| Buttons.OctaveShift | src/main.cpp:106-108 | the octave shift the later `if` leaves: +1 for r1, else -1 for l1, else 0; Buttons.ModifierPriority states it |
| Buttons.SemitoneShift | src/main.cpp:109-110 | the semitone shift: +1 for r3, else -1 for l3, else 0; Buttons.ModifierPriority states it |
| Buttons.ModifierPriority | src/main.cpp:106-110 | r1 raises and beats l1; r3 raises and beats l3; both shifts lie in [-1, 1] |
| DisplayUI.CursorNext | src/DisplayUI.cpp:106-107 | the cursor after a press of A, wrapping past volume to normal; DisplayUI.CursorCycles states it |
| DisplayUI.ChangeVal | src/DisplayUI.cpp:112-117 | the step, +1 for B, otherwise -1 for C, otherwise 0; DisplayUI.StepDirection states it |
| DisplayUI.Edit | src/DisplayUI.cpp:118-135 | the `switch` on the cursor with its bound checks in source order; DisplayUI.EditClampsSelected states it as a clamp |
| DisplayUI.CountNext | src/DisplayUI.cpp:141-144 | `cnt++` and its reset at 10; DisplayUI.CountCalls and DisplayUI.RenderEveryTenth state it |
| DisplayUI.Renders | src/DisplayUI.cpp:143-146 | the call redraws the note indicator; DisplayUI.RenderEveryTenth counts these calls |
| DisplayUI.Next | src/DisplayUI.cpp:100-147 | one call: the cursor moves, then the edit applies at the new cursor, then the counter ticks; DisplayUI.NextPreservesValid and DisplayUI.AdvanceBeforeEdit state it |
| DisplayUI.Clamp | src/DisplayUI.cpp:121-133 | a reference clamp: the result lies in the bounds, is `x` when inside, and is the bound passed otherwise |
| DisplayUI.CursorCycles | src/DisplayUI.cpp:105-107 | A moves the cursor to `(pos + 1) mod 4`; it stays in [0, 3] |
| DisplayUI.AdvanceCycles | src/DisplayUI.cpp:105-107 | `n` presses of A from `pos` reach `(pos + n) mod 4` |
| DisplayUI.BackToNormalAfterFour | src/DisplayUI.cpp:105-107 | from normal, A returns to normal after `n` presses iff 4 divides `n`, so first after exactly four |
| DisplayUI.NormalIgnoresEdits | src/DisplayUI.cpp:110 | in the normal state B and C change no setting |
| DisplayUI.StepDirection | src/DisplayUI.cpp:112-117 | the step is +1 iff B, -1 iff C without B, 0 iff neither |
| DisplayUI.EditClampsSelected | src/DisplayUI.cpp:119-135 | an edit clamps the selected setting into its bounds and leaves the other two unchanged |
| DisplayUI.StepPastBoundStays | src/DisplayUI.cpp:121-133 | a step beyond a bound leaves the setting at that bound |
| DisplayUI.AdvanceBeforeEdit | src/DisplayUI.cpp:105-137 | A and B in one call edit the newly selected setting: from normal they raise the tone, from tone the scale, from scale the volume (each clamped), and from volume they change nothing |
| DisplayUI.NextPreservesValid | src/DisplayUI.cpp:100-147 | one call keeps the settings, the cursor and the counter in range |
| DisplayUI.RunPreservesValid | src/DisplayUI.cpp:100-147 | so does any sequence of calls |
| DisplayUI.RenderEveryTenth | src/DisplayUI.cpp:141-146 | over `n` calls from count `c`, exactly `(c + n) / 10` redraw, and the count ends at `(c + n) mod 10` |
| DisplayUI.CountCalls | src/DisplayUI.cpp:141-146 | with the count equal to the calls made mod 10, one more call keeps it so; the redraws grow by one exactly at a multiple of ten |
| Render.Decimal | src/DisplayUI.cpp:202-204 | `%d` of an integer: a minus sign for a negative one, then the magnitude's digits; Render.ScaleLabelSign states it |
| Render.ScaleLabel | src/DisplayUI.cpp:201-205 | `"+%d"` for a positive scale, `"%d"` otherwise; Render.ScaleLabelSign and Render.ScaleLabelRoundTrip state it |
| Render.Digits | src/DisplayUI.cpp:202-204 | `%d`'s digits: at least one, all decimal |
| Render.DigitsRoundTrip | src/DisplayUI.cpp:202-204 | the digits read back as the number |
| Render.DigitsLead | src/DisplayUI.cpp:202-204 | a leading zero only for 0; one digit iff below 10 |
| Render.ScaleLabelSign | src/DisplayUI.cpp:201-205 | the label starts with '+' iff the scale is positive, with '-' iff it is negative, and is "0" iff it is zero; after the sign come the digits of its magnitude |
| Render.ScaleLabelRoundTrip | src/DisplayUI.cpp:201-205 | reading the label back as a signed number gives the scale |
| Render.Red | src/DisplayUI.cpp:225-228 | `(c >> 11) & 0x1F` of a 5:6:5 colour; Render.UnpackRepack and Render.PackRoundTrip state it |
| Render.Green | src/DisplayUI.cpp:225-228 | `(c >> 5) & 0x3F`; Render.UnpackRepack and Render.PackRoundTrip state it |
| Render.Blue | src/DisplayUI.cpp:225-228 | `c & 0x1F`; Render.UnpackRepack and Render.PackRoundTrip state it |
| Render.Dim | src/DisplayUI.cpp:242-244 | `field * vol / 16` for a capped volume; Render.DimBounds states it |
| Render.Pack | src/DisplayUI.cpp:245 | the three fields shifted to bits 11, 5 and 0 and combined with OR, as the sum Render.OrIsSum shows that is; Render.PackRoundTrip states it |
| Render.DimColor | src/DisplayUI.cpp:237-245 | the colour with each field dimmed, packed again; Render.DimColorFields, Render.DimToBlack and Render.DimToFull state it |
| Render.OrIsSum | src/DisplayUI.cpp:245 | on 16-bit values within the field widths, the OR of the shifted fields `r << 11`, `g << 5` and `b` is `r * 2048 + g * 32 + b`, which as an integer is Render.Pack of the fields |
| Render.DimBounds | src/DisplayUI.cpp:242-244 | `field * vol / 16` is between 0 and the field; 0 at volume 0; the field itself at 16 |
| Render.PackRoundTrip | src/DisplayUI.cpp:245 | packed fields fit in a `uint16_t` and unpack to themselves |
| Render.UnpackRepack | src/DisplayUI.cpp:225-228 | packing a colour's own three fields gives the colour back |
| Render.DimColorFields | src/DisplayUI.cpp:236-245 | the dimmed colour is a colour whose fields are the dimmed fields, each at most the original |
| Render.DimToBlack | src/DisplayUI.cpp:242-245 | every colour dimmed at volume 0 is black |
| Render.DimToFull | src/DisplayUI.cpp:242-245 | every colour dimmed at volume 16 is the colour itself |
| Render.Capped | src/DisplayUI.cpp:240-241 | the volume capped at 16: unchanged at or below 16, exactly 16 above it |
| Render.SoundColor | src/DisplayUI.cpp:236-245 | a colour exactly for octaves 3 to 6; any other octave reads outside `COLOR_TABLE` |
| Render.SoundColorDims | src/DisplayUI.cpp:236-245 | for octaves 3 to 6: the table colour dimmed by `vol / 16` up to 16; black at volume 0; the table colour at 16 and above |
| Engine.Velocity | src/main.cpp:136 | `master_vol * 4 - 1` for a positive volume, else 0; Engine.VelocityBounds states it |
| Engine.ChordVelocity | src/main.cpp:137 | `velocity * 3 / 4` in C division; Engine.VelocityBounds and Engine.PlayArithmetic state it |
| Engine.Root | src/main.cpp:133 | `key + semitone + octaveUpDown * 12 + scale`; Engine.RootInRange states it |
| Engine.KeysOff | src/main.cpp:126-129 | the four Note Offs of the stored chord at a given velocity (0 here, 7F for panic at lines 116-119); Engine.KeysOffBytes states them |
| Engine.NoteOns | src/main.cpp:149-155 | the Note Ons routed by the tone; Engine.Routing and Engine.NoteOnsBytes state them |
| Engine.Play | src/main.cpp:123-156 | a new key: release, lyric, the new chord's state and Note Ons; Engine.PlayArithmetic and Engine.NoteOnSequence state it |
| Engine.NoteStep | src/main.cpp:90-157 | the connected branch: panic, a new key, or nothing; Engine.PanicOutput, Engine.NoteOnSequence and Engine.NoteStepPreservesInv state it |
| Engine.ToneSync | src/main.cpp:160-167 | the Program Change when the tone changed; Engine.ToneSyncIff states it |
| Engine.Step | src/main.cpp:82-169 | one `loop`: the note engine when connected, `DisplayUI_loop`, then the tone sync; Engine.StepParts and Engine.StepPreservesInv state it |
| Engine.SetupBytes | src/main.cpp:74-76 | `setup` writes C1 00 C2 00 C3 00 |
| Engine.KeysOffBytes | src/main.cpp:126-129 | the release writes 80 k1 v 81 k1 v 82 k2 v 83 k3 v |
| Engine.NoteOnsBytes | src/main.cpp:149-155 | the Note On bytes for each tone: 90 k1 v if tone ≤ 1, then 91/92/93 with the triad at chord velocity if tone is 1 or 2, then 91 k1 v if tone ≥ 3 |
| Engine.PlayArithmetic | src/main.cpp:133-141 | the new root, its third and fifth, its pitch class and octave in Dafny's operators; the messages: release at 0, lyric, Note Ons at `v` and `v * 3 / 4` |
| Engine.RootInRange | src/main.cpp:133-140 | every reachable root is in [35, 97] with the fifth at most 104, so every note is a data byte; the pitch class indexes `DoReMi`; the octave is 1 to 7; C's `%` and `/` agree with Dafny's there |
| Engine.VelocityBounds | src/main.cpp:136-137 | for a volume in [0, 32]: 0 ≤ chord velocity ≤ velocity ≤ 127; velocity 0 iff volume 0; volume 32 gives 127 and 95 |
| Engine.PanicOutput | src/main.cpp:114-121 | panic writes exactly 80 k1 7F 81 k1 7F 82 k2 7F 83 k3 7F for the stored keys, keeps the keys, and sets `vol` to 0 |
| Engine.PanicRepeats | src/main.cpp:105-121 | holding options over two ticks writes the same non-empty panic twice |
| Engine.NoteOnSequence | src/main.cpp:123-156 | a new key: the four Note Offs of the old chord at velocity 0, then the phoneme of the new pitch class, then the routed Note Ons; new keys `k1 = key + semitone + 12 * octave shift + scale`, `k1 + 4`, `k1 + 7` |
| Engine.LyricBytes | src/main.cpp:145 | the frame sent for a pitch class is F0 43 79 09 00 50 10, its phoneme, 00 F7 |
| Engine.Routing | src/main.cpp:149-155 | 1, 4, 3 and 1 Note Ons for tones 0, 1, 2 and 3 to 5. Channel 0 plays iff the tone is at most 1, channel 1 iff it is at least 1, and channels 2 and 3 iff it is 1 or 2. Every Note On plays a chord note, at full velocity on channel 0 and for tones 3 to 5, otherwise at chord velocity |
| Engine.ToneSyncIff | src/main.cpp:160-167 | a Program Change `C1 TONE_TABLE[tone]` is sent iff the tone differs from the last one sent; afterwards they are equal and nothing else changed |
| Engine.FirstTickSendsTone | src/main.cpp:87 | since `tone_prev` starts at -1, the first tick ends with the tone's Program Change |
| Engine.NoteOnsWellFormed | src/main.cpp:149-155 | Note Ons of data-byte notes and velocities are well formed |
| Engine.ChordMessagesWellFormed | src/main.cpp:126-155 | the release, lyric and Note Ons of a new chord are well formed when its notes are data bytes |
| Engine.PlayWellFormed | src/main.cpp:123-156 | a new key's messages are well formed |
| Engine.NoteStepPreservesInv | src/main.cpp:90-157 | the note engine keeps the invariant and the settings, and sends only well-formed messages |
| Engine.StepPreservesInv | src/main.cpp:82-169 | a tick keeps the invariant, sends only well-formed messages, and leaves the last tone sent equal to the current one |
| Engine.StepParts | src/main.cpp:82-169 | a tick's messages are the note engine's plus at most one; the settings move as the settings controller says; the redraw happens iff the count was 9, with the note engine's octave, pitch class and volume |
| Engine.RunTicks | src/main.cpp:82-169 | any run of ticks ends in a state satisfying the invariant |
| Engine.RunWellFormed | src/main.cpp:82-169 | any run of ticks sends only well-formed messages |
| Engine.StreamReadsBack | src/main.cpp:74-169 | the whole stream from `setup` onwards decodes back to exactly the messages sent |
| Engine.SoundsEveryTenth | src/DisplayUI.cpp:141-146 | over any run of ticks the indicator is redrawn `(c + n) / 10` times |
| Engine.IdleKeepsNote | src/main.cpp:84-86 | while disconnected, `octave`, `key12` and `vol` keep their values and every redraw shows them |
| Engine.FirstRedrawOutsideTable | src/DisplayUI.cpp:236-239 | ten idle ticks after start-up redraw once, with octave 0, for which the colour table has no row |
| Engine.ChordOctaves | src/main.cpp:140 | a chord's octave is 1 to 7, and 1 and 7 are both reached, outside the table's octaves 3 to 6 |
| Controller.Synth.constructor | src/main.cpp:74-76 | the start-up state with the three Program Changes written, and the class invariant |
| Controller.Synth.SendMidiMessage2 | src/main.cpp:25-29 | appends the status byte and one data byte |
| Controller.Synth.SendMidiMessage3 | src/main.cpp:32-37 | appends the status byte and two data bytes |
| Controller.Synth.SendLyric | src/main.cpp:40-55 | appends the header, the text's bytes, then 00 F7 |
| Controller.Synth.NoteEngine | src/main.cpp:92-156 | the fields become the note engine's new state, and `out` grows by exactly its bytes |
| Controller.Synth.SendNotesOff | src/main.cpp:126-129 | appends the four Note Offs of the stored chord |
| Controller.Synth.SendNoteOns | src/main.cpp:149-155 | appends the Note Ons routed by the tone |
| Controller.Synth.PlayChord | src/main.cpp:123-156 | for a new key, the fields and the bytes appended are exactly those of the specification |
| Controller.Synth.SetChord | src/main.cpp:133-141 | sets the new chord's keys, pitch class, octave and volume; returns the velocity and `velocity * 3 / 4` |
| Controller.Synth.DisplayUILoop | src/DisplayUI.cpp:100-147 | the settings, cursor and counter become the settings controller's next state; one redraw is recorded iff this call completes ten |
| Controller.Synth.AdvanceCursor | src/DisplayUI.cpp:105-107 | the cursor moves one place round its cycle |
| Controller.Synth.EditSetting | src/DisplayUI.cpp:119-135 | the settings become the clamped edit of the selected one |
| Controller.Synth.CountCall | src/DisplayUI.cpp:141-146 | the counter ticks and wraps, recording a redraw when it wraps |
| Controller.Synth.ProgramSync | src/main.cpp:160-167 | sends the tone's program exactly when it changed, and records it as the last one sent |
| Controller.Synth.Loop | src/main.cpp:82-169 | the fields, the bytes appended and the redraws are exactly those of the specification's step |
| Controller.Synth.Tick | src/main.cpp:82-169 | the same, keeping the class invariant; the stream stays the encoding of all messages sent |

## Left out

- Hardware: `PS4.begin`, `PS4.isConnected`, `PS4.getButton`, `M5.begin`, `M5.update` and the M5 buttons. The connection flag, the button snapshot and the three was-pressed flags are parameters of `Tick`. A was-pressed flag reads the same whether or not the code queries it.
- `Serial2.begin` and the serial timing: the port is the byte sequence `out`.
- The debug output `Serial.println` and every `delay`: they do not change the byte order.
- The drawing: `DisplayUI_begin`, `DisplayUI_frame`, the sprite and LCD calls of `DisplayUI_settings` and `DisplayUI_sound`, `DipslayUI_error`, and the `TONE_NAME` and `KEY_NAME` texts. A redraw of the note indicator is recorded by its arguments in `sounds`. Its colour and the scale label are modelled by `Render`.
- The M5 colour constants ORANGE, YELLOW, GREEN and CYAN: opaque 16-bit values, passed in as `palette`.
- `note.h` is not part of this model. The note constants are taken as C4 to C5 of the C major scale, 60 to 72.
- Render.SoundColor: the source reads `COLOR_TABLE[octave - 3]` unchecked. Both the first redraws after start-up (octave 0) and chords in octaves 1, 2 and 7 read outside the table. That read is undefined behaviour in C++, so the model gives None rather than a colour. It also requires a non-negative `vol`; the loop only passes 0 or 127.
- Render.Capped: requires a non-negative `vol` like Render.SoundColor, because the loop only passes 0 or 127; a negative volume is not modelled.
- Panic is not made idempotent. The code re-sends the four Note Offs on every tick that `options` is held, and the model follows the code (Engine.PanicRepeats).
- The `uint8_t` conversion of `Serial2.write` is not modelled as truncation. Every value sent is below 256 (Midi.EncodeBytesInRange), so it is the identity.
- The source's `int` and `uint16_t` widths are not modelled as wrap-around. All reachable values are small: roots 35 to 97, velocities up to 127, colours below 0x10000 (Render.PackRoundTrip).
- Controller.Synth.SendLyric appends the seven header bytes in one step and the two footer bytes in another. The source writes them one at a time; the resulting stream is the same.
