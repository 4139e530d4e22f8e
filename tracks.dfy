/** Backing-track patterns. A pattern is a list of bars; a bar is a list of
    steps; a step is a bar-relative offset (a fraction of the bar) and the
    notes that start there. A note names a channel, a key or the "chord"
    placeholder, a velocity in 0.0..1.0 and a duration as a fraction of a
    whole note. Drum notes use the General MIDI System Level 1 percussion
    channel (10) and keys of its Percussion Key Map. */
module Tracks {

  /** A key number, or the placeholder that stands for the current chord. */
  datatype Pitch = Key(n: int) | Chord

  datatype Note = Note(channel: int, pitch: Pitch, velocity: real, duration: real)

  datatype Step = Step(offset: real, notes: seq<Note>)

  type Bar = seq<Step>

  type Pattern = seq<Bar>

  /** General MIDI Percussion Key Map numbers. */
  const D_BASS: int := 35       // Acoustic Bass Drum
  const D_STICK: int := 37      // Side Stick
  const D_SNARE: int := 38      // Acoustic Snare
  const D_HH_CLOSED: int := 42  // Closed Hi-Hat

  /** General MIDI percussion channel. */
  const CH_DRUMS: int := 10

  function Drum(key: int, duration: real): Note {
    Note(CH_DRUMS, Key(key), 0.5, duration)
  }

  /** Two count-in bars of side-stick: halves, then quarters. */
  const LEAD_TRACK: Pattern := [
    [ Step(0.0, [Drum(D_STICK, 0.5)]),
      Step(0.5, [Drum(D_STICK, 0.5)]) ],
    [ Step(0.0, [Drum(D_STICK, 0.25)]),
      Step(0.25, [Drum(D_STICK, 0.25)]),
      Step(0.5, [Drum(D_STICK, 0.25)]),
      Step(0.75, [Drum(D_STICK, 0.25)]) ]
  ]

  const STRAIGHT: Pattern := [
    [ Step(0.0, [Drum(D_BASS, 0.5), Drum(D_HH_CLOSED, 0.125)]),
      Step(0.125, [Drum(D_HH_CLOSED, 0.125)]),
      Step(0.25, [Drum(D_SNARE, 0.25), Drum(D_HH_CLOSED, 0.125)]),
      Step(0.375, [Drum(D_HH_CLOSED, 0.125)]),
      Step(0.5, [Drum(D_BASS, 0.5), Drum(D_HH_CLOSED, 0.125)]),
      Step(0.625, [Drum(D_HH_CLOSED, 0.125)]),
      Step(0.75, [Drum(D_SNARE, 0.25), Drum(D_HH_CLOSED, 0.125)]),
      Step(0.875, [Drum(D_HH_CLOSED, 0.125)]) ]
  ]

  const SWING: Pattern := [
    [ Step(0.0, [Drum(D_BASS, 0.5), Drum(D_HH_CLOSED, 0.125)]),
      Step(0.167, [Drum(D_HH_CLOSED, 0.125)]),
      Step(0.25, [Drum(D_SNARE, 0.25), Drum(D_HH_CLOSED, 0.125)]),
      Step(0.417, [Drum(D_HH_CLOSED, 0.125)]),
      Step(0.5, [Drum(D_BASS, 0.5), Drum(D_HH_CLOSED, 0.125)]),
      Step(0.667, [Drum(D_HH_CLOSED, 0.125)]),
      Step(0.75, [Drum(D_SNARE, 0.25), Drum(D_HH_CLOSED, 0.125)]),
      Step(0.917, [Drum(D_HH_CLOSED, 0.125)]) ]
  ]

  const MAIN_TRACKS: map<string, Pattern> := map["straight" := STRAIGHT, "swing" := SWING]

  const DEFAULT_TRACK: string := "straight"

  /** The shape every shipped pattern has: a non-empty list of bars whose
      step offsets rise strictly within [0, 1). */
  predicate WellFormedBar(bar: Bar) {
    && (forall i :: 0 <= i < |bar| ==> 0.0 <= bar[i].offset < 1.0)
    && (forall i, j :: 0 <= i < j < |bar| ==> bar[i].offset < bar[j].offset)
  }

  predicate IsDrumNote(n: Note) {
    && n.channel == CH_DRUMS
    && n.pitch.Key?
    && n.pitch.n in {D_BASS, D_STICK, D_SNARE, D_HH_CLOSED}
    && n.velocity == 0.5
    && n.duration > 0.0
  }

  predicate DrumBar(bar: Bar) {
    forall i, j :: 0 <= i < |bar| && 0 <= j < |bar[i].notes| ==> IsDrumNote(bar[i].notes[j])
  }

  predicate WellFormed(p: Pattern) {
    && |p| > 0
    && (forall b :: 0 <= b < |p| ==> WellFormedBar(p[b]))
    && (forall b :: 0 <= b < |p| ==> DrumBar(p[b]))
  }

  /** Every note ends by the end of its bar (offset plus duration at most one
      bar, reading a whole note as one bar). */
  predicate EndsWithinBar(p: Pattern) {
    forall b, i, j :: 0 <= b < |p| && 0 <= i < |p[b]| && 0 <= j < |p[b][i].notes| ==>
      p[b][i].offset + p[b][i].notes[j].duration <= 1.0
  }

  /** No note of a well-formed drum pattern is the chord placeholder, and
      every duration is positive. */
  lemma {:induction false} DrumNotesHaveKeys(p: Pattern, b: int, i: int, j: int)
    requires WellFormed(p)
    requires 0 <= b < |p| && 0 <= i < |p[b]| && 0 <= j < |p[b][i].notes|
    ensures p[b][i].notes[j].pitch != Chord
    ensures p[b][i].notes[j].duration > 0.0
    ensures p[b][i].notes[j].channel == CH_DRUMS
  {
    assert DrumBar(p[b]);
    assert IsDrumNote(p[b][i].notes[j]);
  }

  /** The count-in is two well-formed bars, and its last stroke ends exactly
      where the exercise begins. */
  lemma LeadTrackShape()
    ensures WellFormed(LEAD_TRACK) && |LEAD_TRACK| == 2
    ensures EndsWithinBar(LEAD_TRACK)
    ensures LEAD_TRACK[1][3].offset + LEAD_TRACK[1][3].notes[0].duration == 1.0
  {
    LeadBarShape(0);
    LeadBarShape(1);
  }

  /** One bar of the lead-in, checked on its own. */
  lemma {:induction false} LeadBarShape(b: int)
    requires 0 <= b < |LEAD_TRACK|
    ensures WellFormedBar(LEAD_TRACK[b]) && DrumBar(LEAD_TRACK[b])
    ensures forall i, j :: 0 <= i < |LEAD_TRACK[b]| && 0 <= j < |LEAD_TRACK[b][i].notes| ==>
              LEAD_TRACK[b][i].offset + LEAD_TRACK[b][i].notes[j].duration <= 1.0
  {
  }

  lemma StraightShape()
    ensures WellFormed(STRAIGHT) && |STRAIGHT| == 1
  {
  }

  lemma SwingShape()
    ensures WellFormed(SWING) && |SWING| == 1
  {
  }

  lemma MainTracksShape()
    ensures forall name :: name in MAIN_TRACKS ==> WellFormed(MAIN_TRACKS[name]) && |MAIN_TRACKS[name]| == 1
    ensures DEFAULT_TRACK in MAIN_TRACKS
  {
    StraightShape();
    SwingShape();
  }
}
