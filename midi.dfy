/** MIDI 1.0 Channel Voice messages (note-on, note-off, program change) and
    the Channel Mode message the player sends on teardown. Channels are
    numbered 1..16 by callers; the status byte carries `(channel - 1) mod 16`
    in its low nibble. A message is a list of byte values. */
module Midi {
  import opened Builtins

  type Message = seq<int>

  const MIDDLE_C: int := 60

  const NOTE_OFF_STATUS: int := 0x80
  const NOTE_ON_STATUS: int := 0x90
  const CONTROL_CHANGE_STATUS: int := 0xB0
  const PROGRAM_CHANGE_STATUS: int := 0xC0

  /** Channel Mode controller numbers (MIDI 1.0, Channel Mode messages). */
  const ALL_SOUND_OFF: int := 120
  const ALL_NOTES_OFF: int := 123

  /** The low nibble of a status byte for a 1-based channel number. Python's
      `%` floors, which agrees with Dafny's for a positive divisor. */
  function ChannelNibble(channel: int): (r: int)
    ensures 0 <= r < 16
    ensures 1 <= channel <= 16 ==> r == channel - 1
  {
    (channel - 1) % 16
  }

  /** A velocity in 0.0..1.0 scaled to a data byte: int() truncates. */
  function VelocityByte(velocity: real): (r: int)
    ensures 0 <= r < 128
    ensures 0.0 <= velocity <= 1.0 ==> r as real <= velocity * 127.0 < r as real + 1.0
  {
    Trunc(velocity * 127.0) % 128
  }

  function NoteOn(channel: int, note: int, velocity: real): (m: Message)
    ensures |m| == 3 && IsNoteOn(m)
    ensures m[0] - NOTE_ON_STATUS == ChannelNibble(channel)
    ensures m[1] == note % 128 && m[2] == VelocityByte(velocity)
  {
    [NOTE_ON_STATUS + ChannelNibble(channel), note % 128, VelocityByte(velocity)]
  }

  /** `note_off(channel, note, velocity=0.0)`: callers that leave out the
      velocity pass 0.0. */
  function NoteOff(channel: int, note: int, velocity: real): (m: Message)
    ensures |m| == 3 && IsNoteOff(m)
    ensures m[0] - NOTE_OFF_STATUS == ChannelNibble(channel)
    ensures m[1] == note % 128 && m[2] == VelocityByte(velocity)
  {
    [NOTE_OFF_STATUS + ChannelNibble(channel), note % 128, VelocityByte(velocity)]
  }

  /** Programs are numbered 1..128 by callers and sent as 0..127. */
  function ProgramChange(channel: int, program: int): (m: Message)
    ensures |m| == 2 && PROGRAM_CHANGE_STATUS <= m[0] <= PROGRAM_CHANGE_STATUS + 15
    ensures 0 <= m[1] < 128
    ensures 1 <= program <= 128 ==> m[1] == program - 1
  {
    [PROGRAM_CHANGE_STATUS + ChannelNibble(channel), (program - 1) % 128]
  }

  /** The message sent to every channel 0..15 on teardown: controller 120
      with value 0. */
  function SilenceChannel(channel: int): (m: Message)
    requires 0 <= channel < 16
    ensures |m| == 3 && IsControlChange(m) && m[0] - CONTROL_CHANGE_STATUS == channel
    ensures m[1] == ALL_SOUND_OFF && m[1] != ALL_NOTES_OFF && m[2] == 0
  {
    [CONTROL_CHANGE_STATUS + channel, 0x78, 0]
  }

  /** The sixteen teardown messages, channel 0 first. */
  function Teardown(): (ms: seq<Message>)
    ensures |ms| == 16
    ensures forall c :: 0 <= c < 16 ==> ms[c] == SilenceChannel(c)
  {
    seq(16, c requires 0 <= c < 16 => SilenceChannel(c))
  }

  predicate IsNoteOn(m: Message) {
    |m| > 0 && NOTE_ON_STATUS <= m[0] < NOTE_ON_STATUS + 16
  }

  predicate IsNoteOff(m: Message) {
    |m| > 0 && NOTE_OFF_STATUS <= m[0] < NOTE_OFF_STATUS + 16
  }

  predicate IsControlChange(m: Message) {
    |m| > 0 && CONTROL_CHANGE_STATUS <= m[0] < CONTROL_CHANGE_STATUS + 16
  }

  /** Every byte after the status byte is a 7-bit data byte. */
  predicate DataBytesValid(m: Message) {
    forall k :: 1 <= k < |m| ==> 0 <= m[k] < 128
  }

  lemma {:induction false} DataBytesInRange(channel: int, note: int, velocity: real, program: int)
    ensures DataBytesValid(NoteOn(channel, note, velocity))
    ensures DataBytesValid(NoteOff(channel, note, velocity))
    ensures DataBytesValid(ProgramChange(channel, program))
  {
  }

  /** Channels are taken modulo 16: c and c + 16 address the same channel. */
  lemma {:induction false} ChannelWraps(channel: int, note: int, velocity: real, program: int)
    ensures NoteOn(channel + 16, note, velocity) == NoteOn(channel, note, velocity)
    ensures NoteOff(channel + 16, note, velocity) == NoteOff(channel, note, velocity)
    ensures ProgramChange(channel + 16, program) == ProgramChange(channel, program)
  {
  }

  /** Note-on and note-off for the same arguments differ only in the high
      nibble of the status byte. */
  lemma {:induction false} OnOffDifferInStatusOnly(channel: int, note: int, velocity: real)
    ensures NoteOn(channel, note, velocity)[0] == NoteOff(channel, note, velocity)[0] + 0x10
    ensures NoteOn(channel, note, velocity)[1..] == NoteOff(channel, note, velocity)[1..]
  {
  }

  /** A note-off with the default velocity 0.0 has a zero third byte. */
  lemma {:induction false} DefaultNoteOffVelocity(channel: int, note: int)
    ensures NoteOff(channel, note, 0.0)[2] == 0
  {
  }

  /** The documented velocity range maps its ends and middle as int() does:
      1.0 to 127, 0.5 to 63 (63.5 truncated), 0.0 to 0. */
  lemma VelocityScaling()
    ensures VelocityByte(1.0) == 127
    ensures VelocityByte(0.5) == 63
    ensures VelocityByte(0.0) == 0
  {
    assert (63.5).Floor == 63;
  }

  /** Program numbers 1..128 map one-to-one onto data bytes 0..127. */
  lemma {:induction false} ProgramNumbersBijective(channel: int, p: int, q: int)
    requires 1 <= p <= 128 && 1 <= q <= 128
    ensures ProgramChange(channel, p)[1] == ProgramChange(channel, q)[1] <==> p == q
  {
  }
}
