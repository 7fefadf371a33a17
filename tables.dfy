/** The constant tables of `src/main.cpp`: the pitches of the eight note
    buttons (the NOTE_* constants of `note.h`, which is not part of this model:
    C4 to C5 of the C major scale as MIDI note numbers), the eVY1 phoneme for
    each of the twelve pitch classes, and the program number of each tone. */
module Tables {
  import Midi

  const NOTE_C4 := 60
  const NOTE_D4 := 62
  const NOTE_E4 := 64
  const NOTE_F4 := 65
  const NOTE_G4 := 67
  const NOTE_A4 := 69
  const NOTE_B4 := 71
  const NOTE_C5 := 72

  /** The pitch of each trigger button, in the order the loop tests them:
      down, left, right, up, cross, square, circle, triangle. */
  const Notes: seq<int> := [NOTE_C4, NOTE_D4, NOTE_E4, NOTE_F4, NOTE_G4, NOTE_A4, NOTE_B4, NOTE_C5]

  /** `DoReMi`: the lyric sung for each pitch class, C first. */
  const DoReMi: seq<string> :=
    ["d o", "d e", "4 e", "4' i", "m' i", "p\\ a",
     "p\\' i", "s o", "s a", "4 a", "tS i", "S i"]

  /** `TONE_TABLE`: 0 piano, 19 church organ, 81 synthesizer. */
  const ToneTable: seq<int> := [0, 0, 0, 0, 19, 81]

  /** The trigger pitches rise strictly from C4 to C5. */
  lemma NotesAscending()
    ensures |Notes| == 8 && Notes[0] == 60 && Notes[7] == 72
    ensures forall i, j | 0 <= i < j < |Notes| :: Notes[i] < Notes[j]
  {
  }

  /** Every phoneme can be sent as a lyric and no table entry is empty. */
  lemma DoReMiAreLyrics()
    ensures |DoReMi| == 12
    ensures forall k | 0 <= k < 12 :: Midi.IsLyricText(DoReMi[k]) && |DoReMi[k]| > 0
  {
  }

  /** Every program number is a MIDI data byte. */
  lemma ToneTablePrograms()
    ensures |ToneTable| == 6
    ensures forall k | 0 <= k < 6 :: Midi.IsData(ToneTable[k])
  {
  }
}
