/** The byte formats written to the eVY1: the Channel Voice Messages of the
    MIDI 1.0 Detailed Specification (Note Off 0x8n, Note On 0x9n, Program
    Change 0xCn) and the Yamaha eVY1 lyric System Exclusive frame.
    The serial port is a byte sink; its stream is modelled as `seq<int>`. */
module Midi {
  import opened Wrappers

  const NOTE_OFF := 0x80
  const NOTE_ON := 0x90
  const PROGRAM_CHANGE := 0xC0
  const SYSEX_START := 0xF0
  const SYSEX_END := 0xF7
  const YAMAHA_ID := 0x43

  /** F0, the Yamaha manufacturer ID, then the eVY1 lyric header. */
  const LyricHeader: seq<int> := [SYSEX_START, YAMAHA_ID, 0x79, 0x09, 0x00, 0x50, 0x10]
  /** The terminating NUL of the lyric, then F7. */
  const LyricFooter: seq<int> := [0x00, SYSEX_END]

  datatype Message =
    | NoteOff(channel: int, note: int, velocity: int)
    | NoteOn(channel: int, note: int, velocity: int)
    | ProgramChange(channel: int, program: int)
    | Lyric(text: string)

  predicate IsByte(b: int) { 0 <= b < 0x100 }
  predicate IsData(b: int) { 0 <= b < 0x80 }
  predicate IsChannel(c: int) { 0 <= c < 16 }

  /** A lyric is sent as a C string: printable bytes below 0x80, no NUL. */
  predicate IsLyricText(t: string)
  {
    forall i | 0 <= i < |t| :: 0 < t[i] as int < 0x80
  }

  predicate WellFormed(m: Message)
  {
    match m
    case NoteOff(c, n, v) => IsChannel(c) && IsData(n) && IsData(v)
    case NoteOn(c, n, v) => IsChannel(c) && IsData(n) && IsData(v)
    case ProgramChange(c, p) => IsChannel(c) && IsData(p)
    case Lyric(t) => IsLyricText(t)
  }

  predicate AllWellFormed(ms: seq<Message>)
  {
    forall i | 0 <= i < |ms| :: WellFormed(ms[i])
  }

  /** `sendMidiMessage(cmd, d1)`: a status byte and one data byte. */
  function SendMidiMessage2(cmd: int, d1: int): seq<int>
  {
    [cmd, d1]
  }

  /** `sendMidiMessage(cmd, d1, d2)`: a status byte and two data bytes. */
  function SendMidiMessage3(cmd: int, d1: int, d2: int): seq<int>
  {
    [cmd, d1, d2]
  }

  /** The bytes `Serial2.write(const char*)` sends for a string. */
  function Ascii(t: string): seq<int>
  {
    seq(|t|, i requires 0 <= i < |t| => t[i] as int)
  }

  /** `sendLylic`: header, the lyric's characters, footer. */
  function SendLyric(t: string): seq<int>
  {
    LyricHeader + Ascii(t) + LyricFooter
  }

  function Encode(m: Message): seq<int>
  {
    match m
    case NoteOff(c, n, v) => SendMidiMessage3(NOTE_OFF + c, n, v)
    case NoteOn(c, n, v) => SendMidiMessage3(NOTE_ON + c, n, v)
    case ProgramChange(c, p) => SendMidiMessage2(PROGRAM_CHANGE + c, p)
    case Lyric(t) => SendLyric(t)
  }

  function EncodeAll(ms: seq<Message>): seq<int>
  {
    if ms == [] then [] else Encode(ms[0]) + EncodeAll(ms[1..])
  }

  // ---------------------------------------------------------------------
  // Decoding: a reference reader for the stream, used to state that the
  // bytes written are exactly the messages intended.

  /** The index of the first NUL at or after `i`, or `|bs|` if there is none. */
  function FindNul(bs: seq<int>, i: nat): (z: nat)
    requires i <= |bs|
    ensures i <= z <= |bs|
    ensures z < |bs| ==> bs[z] == 0
    ensures forall j | i <= j < z :: bs[j] != 0
    decreases |bs| - i
  {
    if i == |bs| then |bs|
    else if bs[i] == 0 then i
    else FindNul(bs, i + 1)
  }

  function ToText(bs: seq<int>): (t: string)
    requires forall i | 0 <= i < |bs| :: IsData(bs[i])
    ensures |t| == |bs|
    ensures forall i | 0 <= i < |bs| :: t[i] as int == bs[i]
  {
    if |bs| == 0 then [] else assert IsData(bs[0]); [bs[0] as char] + ToText(bs[1..])
  }

  /** Reads one message from the front of `bs`; the count is how many bytes it took. */
  function DecodeOne(bs: seq<int>): (r: Option<(Message, nat)>)
    ensures r.Some? ==> 0 < r.value.1 <= |bs|
  {
    if |bs| == 0 then None
    else
      var st := bs[0];
      if NOTE_OFF <= st < NOTE_ON + 16 then
        if |bs| >= 3 && IsData(bs[1]) && IsData(bs[2]) then
          if st < NOTE_ON then Some((NoteOff(st - NOTE_OFF, bs[1], bs[2]), 3))
          else Some((NoteOn(st - NOTE_ON, bs[1], bs[2]), 3))
        else None
      else if PROGRAM_CHANGE <= st < PROGRAM_CHANGE + 16 then
        if |bs| >= 2 && IsData(bs[1]) then Some((ProgramChange(st - PROGRAM_CHANGE, bs[1]), 2))
        else None
      else if |bs| >= |LyricHeader| && bs[..|LyricHeader|] == LyricHeader then
        var z := FindNul(bs, |LyricHeader|);
        if z + 1 < |bs| && bs[z + 1] == SYSEX_END && (forall j | |LyricHeader| <= j < z :: IsData(bs[j])) then
          Some((Lyric(ToText(bs[|LyricHeader|..z])), z + 2))
        else None
      else None
  }

  function DecodeAll(bs: seq<int>): Option<seq<Message>>
    decreases |bs|
  {
    if bs == [] then Some([])
    else
      match DecodeOne(bs)
      case None => None
      case Some((m, n)) =>
        match DecodeAll(bs[n..])
        case None => None
        case Some(rest) => Some([m] + rest)
  }

  // ---------------------------------------------------------------------
  // Properties of the encoding

  /** The lyric message is one System Exclusive frame: it opens with F0 and the
      Yamaha ID, closes with F7, and every byte in between is a data byte. */
  lemma LyricFrameIsSysEx(t: string)
    requires IsLyricText(t)
    ensures var f := SendLyric(t);
      |f| == |t| + 9 && f[0] == SYSEX_START && f[1] == YAMAHA_ID &&
      f[2..7] == [0x79, 0x09, 0x00, 0x50, 0x10] &&
      f[7..7 + |t|] == Ascii(t) && f[|f| - 2] == 0x00 && f[|f| - 1] == SYSEX_END &&
      forall i | 1 <= i < |f| - 1 :: IsData(f[i])
  {
    var f := SendLyric(t);
    assert f[7..7 + |t|] == Ascii(t);
  }

  /** Every value written fits in a byte, so the `uint8_t` conversion done by
      `Serial2.write` is the identity; status bytes have the top bit set and
      the data bytes of channel messages do not. */
  lemma EncodeBytesInRange(m: Message)
    requires WellFormed(m)
    ensures forall i | 0 <= i < |Encode(m)| :: IsByte(Encode(m)[i])
    ensures 0x80 <= Encode(m)[0]
    ensures !m.Lyric? ==> forall i | 1 <= i < |Encode(m)| :: IsData(Encode(m)[i])
  {
    if m.Lyric? {
      LyricFrameIsSysEx(m.text);
    }
  }

  lemma {:induction false} EncodeAllAppend(a: seq<Message>, b: seq<Message>)
    ensures EncodeAll(a + b) == EncodeAll(a) + EncodeAll(b)
    decreases |a|
  {
    if a == [] {
      assert a + b == b;
    } else {
      assert (a + b)[1..] == a[1..] + b;
      EncodeAllAppend(a[1..], b);
    }
  }

  /** Writing one more message appends its bytes to the stream. */
  lemma EncodeAllSnoc(ms: seq<Message>, m: Message)
    ensures EncodeAll(ms + [m]) == EncodeAll(ms) + Encode(m)
  {
    EncodeAllAppend(ms, [m]);
    assert EncodeAll([m]) == Encode(m) + EncodeAll([]);
  }

  /** Appending two pieces in turn is appending them at once. */
  lemma AppendTwo<T>(s: seq<T>, a: seq<T>, b: seq<T>)
    ensures s + a + b == s + (a + b)
  {
  }

  /** The three parts of `a + [x] + b`, read back by slicing. */
  lemma SliceAround<T>(a: seq<T>, x: T, b: seq<T>)
    ensures (a + [x] + b)[..|a|] == a
    ensures (a + [x] + b)[|a|] == x
    ensures (a + [x] + b)[|a| + 1..] == b
  {
  }

  /** Appending three pieces in turn is appending them at once. */
  lemma AppendThree<T>(s: seq<T>, a: seq<T>, b: seq<T>, c: seq<T>)
    ensures s + a + b + c == s + (a + b + c)
  {
  }

  /** One message between two runs of messages. */
  lemma EncodeAllAround(a: seq<Message>, m: Message, b: seq<Message>)
    ensures EncodeAll(a + [m] + b) == EncodeAll(a) + Encode(m) + EncodeAll(b)
  {
    EncodeAllAppend(a + [m], b);
    EncodeAllSnoc(a, m);
  }

  /** A stream of well-formed messages extended by well-formed messages. */
  lemma AllWellFormedAppend(a: seq<Message>, b: seq<Message>)
    ensures AllWellFormed(a + b) <==> AllWellFormed(a) && AllWellFormed(b)
  {
    if AllWellFormed(a) && AllWellFormed(b) {
      forall i | 0 <= i < |a + b| ensures WellFormed((a + b)[i]) {
        if i >= |a| { assert (a + b)[i] == b[i - |a|]; }
      }
    }
    if AllWellFormed(a + b) {
      forall i | 0 <= i < |a| ensures WellFormed(a[i]) {
        assert (a + b)[i] == a[i];
      }
      forall i | 0 <= i < |b| ensures WellFormed(b[i]) {
        assert (a + b)[|a| + i] == b[i];
      }
    }
  }

  lemma {:induction false} FindNulAt(bs: seq<int>, i: nat, k: nat)
    requires i <= k < |bs| && bs[k] == 0
    requires forall j | i <= j < k :: bs[j] != 0
    ensures FindNul(bs, i) == k
    decreases k - i
  {
    if i < k {
      FindNulAt(bs, i + 1, k);
    }
  }

  lemma DecodeLyricFrame(t: string, rest: seq<int>)
    requires IsLyricText(t)
    ensures DecodeOne(SendLyric(t) + rest) == Some((Lyric(t), |t| + 9))
  {
    var bs := SendLyric(t) + rest;
    var n := |LyricHeader|;
    assert bs[0] == SYSEX_START;
    assert bs[..n] == LyricHeader;
    assert forall j | n <= j < n + |t| :: bs[j] == t[j - n] as int;
    assert bs[n + |t|] == 0 && bs[n + |t| + 1] == SYSEX_END;
    FindNulAt(bs, n, n + |t|);
    var body := bs[n..n + |t|];
    assert forall j | 0 <= j < |t| :: body[j] == t[j] as int;
    assert ToText(body) == t;
  }

  lemma DecodeOneEncode(m: Message, rest: seq<int>)
    requires WellFormed(m)
    ensures DecodeOne(Encode(m) + rest) == Some((m, |Encode(m)|))
  {
    if m.Lyric? {
      DecodeLyricFrame(m.text, rest);
    }
  }

  /** Reading the stream back gives exactly the messages that were written. */
  lemma {:induction false} DecodeEncodeAll(ms: seq<Message>)
    requires AllWellFormed(ms)
    ensures DecodeAll(EncodeAll(ms)) == Some(ms)
    decreases |ms|
  {
    if ms != [] {
      var rest := EncodeAll(ms[1..]);
      DecodeOneEncode(ms[0], rest);
      var bs := Encode(ms[0]) + rest;
      assert bs[|Encode(ms[0])|..] == rest;
      DecodeEncodeAll(ms[1..]);
      assert [ms[0]] + ms[1..] == ms;
    }
  }
}
